/**
 * The session ledger: the Redis client the controllers share. Keys are
 * `{id}-access-token` and `{id}-refresh-token` for end users and `{id}-pbkdf`
 * and `{id}-hash` for administrators; a key's presence is what makes a session
 * live. TTLs are stored with each entry; the cache's own expiry of entries is
 * not modelled.
 */
module Ledger {
  import opened Common

  /** A stored string and the time-to-live it was written with, in seconds. */
  datatype Entry = Entry(value: string, ttl: nat)

  /** Ten minutes, the access token's lifetime. */
  const AccessTtl: nat := 600
  /** Ten days, the refresh token's lifetime. */
  const RefreshTtl: nat := 864000
  /** Five minutes, the administrator credential's lifetime. */
  const AdminTtl: nat := 300

  function AccessKey(id: string): string { id + "-access-token" }
  function RefreshKey(id: string): string { id + "-refresh-token" }
  function PbkdfKey(id: string): string { id + "-pbkdf" }
  function HashKey(id: string): string { id + "-hash" }

  /** Two strings that end in different suffixes differ, whatever comes before them. */
  lemma {:induction false} DifferentEndings(a: string, s: string, b: string, t: string)
    requires |s| <= |t| && s != t[|t| - |s|..]
    ensures a + s != b + t
  {
    assert (a + s)[|a|..] == s;
    assert (b + t)[|b| + |t| - |s|..] == t[|t| - |s|..];
  }

  /** Appending the same suffix keeps strings apart. */
  lemma {:induction false} SameEnding(a: string, b: string, s: string)
    requires a + s == b + s
    ensures a == b
  {
    calc {
      a;
      (a + s)[..|a|];
      (b + s)[..|b|];
      b;
    }
  }

  /**
   * Each key class is injective in the subject id, and no key of one class is
   * a key of another, whatever the two ids are.
   */
  lemma KeysAreScoped(id: string, other: string)
    ensures AccessKey(id) == AccessKey(other) ==> id == other
    ensures RefreshKey(id) == RefreshKey(other) ==> id == other
    ensures PbkdfKey(id) == PbkdfKey(other) ==> id == other
    ensures HashKey(id) == HashKey(other) ==> id == other
    ensures AccessKey(id) != RefreshKey(other)
    ensures PbkdfKey(id) != HashKey(other)
    ensures AccessKey(id) != PbkdfKey(other) && AccessKey(id) != HashKey(other)
    ensures RefreshKey(id) != PbkdfKey(other) && RefreshKey(id) != HashKey(other)
  {
    if AccessKey(id) == AccessKey(other) { SameEnding(id, other, "-access-token"); }
    if RefreshKey(id) == RefreshKey(other) { SameEnding(id, other, "-refresh-token"); }
    if PbkdfKey(id) == PbkdfKey(other) { SameEnding(id, other, "-pbkdf"); }
    if HashKey(id) == HashKey(other) { SameEnding(id, other, "-hash"); }
    DifferentEndings(id, "-access-token", other, "-refresh-token");
    DifferentEndings(other, "-hash", id, "-pbkdf");
    DifferentEndings(other, "-pbkdf", id, "-access-token");
    DifferentEndings(other, "-hash", id, "-access-token");
    DifferentEndings(other, "-pbkdf", id, "-refresh-token");
    DifferentEndings(other, "-hash", id, "-refresh-token");
  }

  /**
   * A user's session, read off which of its two ledger keys are present:
   * `AccessLapsed` is the state after the access entry timed out while the
   * refresh entry lives on; `HalfRevoked` is a logout that removed only the
   * refresh entry.
   */
  datatype SessionState = Anonymous | Authenticated | AccessLapsed | HalfRevoked

  function SessionOf(entries: map<string, Entry>, id: string): SessionState {
    var access, refresh := AccessKey(id) in entries, RefreshKey(id) in entries;
    if access && refresh then Authenticated
    else if refresh then AccessLapsed
    else if access then HalfRevoked
    else Anonymous
  }

  /**
   * Writing or deleting one subject's two entries leaves every other subject's
   * session as it was.
   */
  lemma OtherSessionsUntouched(entries: map<string, Entry>, id: string, other: string, access: Entry, refresh: Entry)
    requires other != id
    ensures SessionOf(entries[AccessKey(id) := access][RefreshKey(id) := refresh], other) == SessionOf(entries, other)
    ensures SessionOf(entries - {AccessKey(id), RefreshKey(id)}, other) == SessionOf(entries, other)
  {
    KeysAreScoped(id, other);
    KeysAreScoped(other, id);
  }

  /** The Redis client: a map from keys to entries, changed in place. */
  class RedisClient {
    var entries: map<string, Entry>

    constructor ()
      ensures entries == map[]
    {
      entries := map[];
    }

    /** `setEx(key, ttl, value)`: writes or overwrites one key. */
    method SetEx(key: string, ttl: nat, value: string)
      modifies this
      ensures entries == old(entries)[key := Entry(value, ttl)]
    {
      entries := entries[key := Entry(value, ttl)];
    }

    /** `get(key)`: the stored string, or null. */
    function Get(key: string): (v: Option<string>)
      reads this
      ensures v.Some? <==> key in entries
      ensures v.Some? ==> v.value == entries[key].value
    {
      if key in entries then Some(entries[key].value) else None
    }

    /** `del(key)`: removes the key and answers how many keys it removed, 0 or 1. */
    method Del(key: string) returns (removed: nat)
      modifies this
      ensures removed == if key in old(entries) then 1 else 0
      ensures entries == old(entries) - {key}
    {
      removed := if key in entries then 1 else 0;
      entries := entries - {key};
    }

    function Session(id: string): SessionState
      reads this
    {
      SessionOf(entries, id)
    }
  }
}

/**
 * The system-administrator flows: `authenticate` scans the administrators in
 * order for the first whose stored username and password digests both match,
 * and records an ephemeral credential for five minutes; `logout` removes it;
 * the update handlers store new digests.
 */
module SysAdminController {
  import opened Common
  import opened Crypto
  import opened Ledger
  import opened Responses

  /** A stored administrator: `username` and `password` both hold bcrypt digests. */
  datatype AdminRow = AdminRow(id: string, username: string, password: string)

  /** The administrators table. */
  class AdminTable {
    var admins: seq<AdminRow>

    constructor (admins: seq<AdminRow>)
      ensures this.admins == admins
    {
      this.admins := admins;
    }

    /** `sysAdminModel.updateUserName`: every row with the id gets the digest; answers how many rows it changed. */
    method UpdateUsername(id: string, digest: string) returns (affected: nat)
      modifies this
      ensures |admins| == |old(admins)|
      ensures forall i :: 0 <= i < |admins| ==>
                admins[i] == if old(admins)[i].id == id then old(admins)[i].(username := digest) else old(admins)[i]
      ensures affected == |set i | 0 <= i < |admins| && admins[i].id == id|
    {
      admins := seq(|admins|, i requires 0 <= i < |admins| reads this =>
                  if admins[i].id == id then admins[i].(username := digest) else admins[i]);
      affected := |set i | 0 <= i < |admins| && admins[i].id == id|;
    }

    /** `sysAdminModel.updatePassword`: as `UpdateUsername`, for the password column. */
    method UpdatePassword(id: string, digest: string) returns (affected: nat)
      modifies this
      ensures |admins| == |old(admins)|
      ensures forall i :: 0 <= i < |admins| ==>
                admins[i] == if old(admins)[i].id == id then old(admins)[i].(password := digest) else old(admins)[i]
      ensures affected == |set i | 0 <= i < |admins| && admins[i].id == id|
    {
      admins := seq(|admins|, i requires 0 <= i < |admins| reads this =>
                  if admins[i].id == id then admins[i].(password := digest) else admins[i]);
      affected := |set i | 0 <= i < |admins| && admins[i].id == id|;
    }
  }

  /** Whether the submitted username and password both compare against an administrator's digests. */
  predicate Accepts(prims: Primitives, a: AdminRow, username: string, password: string) {
    prims.Compare(username, a.username) && prims.Compare(password, a.password)
  }

  /** The position of the first administrator that accepts the credentials, if any does. */
  function FirstMatch(admins: seq<AdminRow>, prims: Primitives, username: string, password: string): (r: Option<nat>)
    ensures r.Some? ==> r.value < |admins| && Accepts(prims, admins[r.value], username, password)
    ensures r.Some? ==> forall j :: 0 <= j < r.value ==> !Accepts(prims, admins[j], username, password)
    ensures r.None? ==> forall j :: 0 <= j < |admins| ==> !Accepts(prims, admins[j], username, password)
  {
    if admins == [] then None
    else if Accepts(prims, admins[0], username, password) then Some(0)
    else match FirstMatch(admins[1..], prims, username, password)
      case None => None
      case Some(k) => Some(k + 1)
  }

  /**
   * `authenticate`. Missing fields and an empty table are answered before the
   * scan. On the first accepting administrator it derives a key from
   * `hash(username + password)` and `salt` (what `secure.salt(64)` returned);
   * if that fails nothing is written, otherwise `{id}-pbkdf` holds the derived
   * key and `{id}-hash` the digest, both for 300 s, and the salt is returned as
   * the token. With no accepting administrator the ledger is left unchanged.
   */
  method Authenticate(ledger: RedisClient, table: AdminTable, prims: Primitives,
                      username: Option<string>, password: Option<string>, salt: string) returns (r: Outcome)
    modifies ledger
    ensures username.None? || password.None? ==> r == IncompleteData && ledger.entries == old(ledger.entries)
    ensures username.Some? && password.Some? && table.admins == [] ==>
              r == NothingAffected("No recorded system administrator.") && ledger.entries == old(ledger.entries)
    ensures username.Some? && password.Some? && FirstMatch(table.admins, prims, username.value, password.value).None? ==>
              !r.Success? && ledger.entries == old(ledger.entries)
    ensures username.Some? && password.Some? && table.admins != [] &&
            FirstMatch(table.admins, prims, username.value, password.value).None? ==>
              r == Failed("Username or Password is incorrect.")
    ensures username.Some? && password.Some? && FirstMatch(table.admins, prims, username.value, password.value).Some? ==>
              var admin := table.admins[FirstMatch(table.admins, prims, username.value, password.value).value];
              var digest := prims.hash(username.value + password.value);
              match prims.deriveKey(digest, salt)
              case Done(Some(key)) =>
                && r == Success(AdminSession(admin.id, salt), "")
                && ledger.entries == old(ledger.entries)[PbkdfKey(admin.id) := Entry(key, AdminTtl)]
                                                        [HashKey(admin.id) := Entry(digest, AdminTtl)]
              case Done(None) => r == Failed("") && ledger.entries == old(ledger.entries)
              case Threw(e) => r == Failed(e) && ledger.entries == old(ledger.entries)
  {
    if username.None? || password.None? {
      return IncompleteData;
    }
    var admins := table.admins;
    if |admins| == 0 {
      return NothingAffected("No recorded system administrator.");
    }
    for i := 0 to |admins|
      invariant forall j :: 0 <= j < i ==> !Accepts(prims, admins[j], username.value, password.value)
      invariant ledger.entries == old(ledger.entries)
    {
      var usernameMatched := prims.Compare(username.value, admins[i].username);
      var passwordMatched := prims.Compare(password.value, admins[i].password);
      if usernameMatched && passwordMatched {
        var digest := prims.hash(username.value + password.value);
        var derived := prims.deriveKey(digest, salt);
        if derived.Threw? {
          return Failed(derived.error);
        }
        if derived.value.None? {
          return Failed("");
        }
        ledger.SetEx(PbkdfKey(admins[i].id), AdminTtl, derived.value.value);
        ledger.SetEx(HashKey(admins[i].id), AdminTtl, digest);
        return Success(AdminSession(admins[i].id, salt), "");
      }
    }
    r := Failed("Username or Password is incorrect.");
  }

  /** `updateUsername`: requires the field; stores only its digest, in the rows with the header's id. */
  method UpdateUsername(table: AdminTable, prims: Primitives, userId: string, username: Option<string>)
    returns (r: Outcome)
    modifies table
    ensures username.None? ==> r == IncompleteData && table.admins == old(table.admins)
    ensures username.Some? ==>
              && r.Success? && r.body.Affected?
              && |table.admins| == |old(table.admins)|
              && forall i :: 0 <= i < |table.admins| ==>
                   if old(table.admins)[i].id == userId
                   then table.admins[i] == old(table.admins)[i].(username := prims.hash(username.value))
                   else table.admins[i] == old(table.admins)[i]
  {
    if username.None? {
      return IncompleteData;
    }
    var digest := prims.hash(username.value);
    var affected := table.UpdateUsername(userId, digest);
    r := Success(Affected(affected), "");
  }

  /** `updatePassword`: requires the field; stores only its digest, in the rows with the header's id. */
  method UpdatePassword(table: AdminTable, prims: Primitives, userId: string, password: Option<string>)
    returns (r: Outcome)
    modifies table
    ensures password.None? ==> r == IncompleteData && table.admins == old(table.admins)
    ensures password.Some? ==>
              && r.Success? && r.body.Affected?
              && |table.admins| == |old(table.admins)|
              && forall i :: 0 <= i < |table.admins| ==>
                   if old(table.admins)[i].id == userId
                   then table.admins[i] == old(table.admins)[i].(password := prims.hash(password.value))
                   else table.admins[i] == old(table.admins)[i]
  {
    if password.None? {
      return IncompleteData;
    }
    var digest := prims.hash(password.value);
    var affected := table.UpdatePassword(userId, digest);
    r := Success(Affected(affected), "");
  }

  /**
   * `logout`: deletes `{id}-pbkdf`, then `{id}-hash`. Afterwards neither is
   * present and nothing else changed; it answers "not logged-in" exactly when
   * neither deletion removed a key.
   */
  method Logout(ledger: RedisClient, userId: string) returns (r: Outcome)
    modifies ledger
    ensures ledger.entries == old(ledger.entries) - {PbkdfKey(userId), HashKey(userId)}
    ensures PbkdfKey(userId) !in ledger.entries && HashKey(userId) !in ledger.entries
    ensures r == if PbkdfKey(userId) !in old(ledger.entries) && HashKey(userId) !in old(ledger.entries)
                 then NothingAffected("You are not logged-in.")
                 else Success(Null, "You are not successfully logged-out.")
  {
    var pbkdfRemoved := ledger.Del(PbkdfKey(userId));
    var hashRemoved := ledger.Del(HashKey(userId));
    if pbkdfRemoved != 1 && hashRemoved != 1 {
      return NothingAffected("You are not logged-in.");
    }
    r := Success(Null, "You are not successfully logged-out.");
  }
}

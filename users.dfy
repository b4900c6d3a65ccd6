/**
 * The `users` entity: its columns, the per-application uniqueness of username
 * and email, the store's `find` and `create`, and the `fullName` the entity
 * computes after it is loaded.
 */
module Users {
  import opened Common

  /**
   * A stored user. `username`, `email` and `password` are non-nullable columns
   * and have type `string`; the name parts are nullable. `password` holds the
   * bcrypt digest, `app` the code of the application the user belongs to.
   */
  datatype UserRow = UserRow(
    id: string,
    app: string,
    username: string,
    email: string,
    password: string,
    isActive: bool,
    firstName: Option<string>,
    middleName: Option<string>,
    lastName: Option<string>)

  /** No two users of one application share a username, nor an email. */
  ghost predicate UniquePerApp(rows: seq<UserRow>) {
    forall i, j :: 0 <= i < |rows| && 0 <= j < |rows| && i != j && rows[i].app == rows[j].app ==>
      rows[i].username != rows[j].username && rows[i].email != rows[j].email
  }

  /** Whether `row` would break a unique constraint of `rows`. */
  predicate Conflicts(rows: seq<UserRow>, row: UserRow) {
    exists u :: u in rows && u.app == row.app && (u.username == row.username || u.email == row.email)
  }

  /** A lookup by application, and by username and/or email when given. */
  datatype UserFilter = UserFilter(app: string, username: Option<string>, email: Option<string>)

  predicate Matches(u: UserRow, f: UserFilter) {
    && u.app == f.app
    && (f.username.Some? ==> u.username == f.username.value)
    && (f.email.Some? ==> u.email == f.email.value)
  }

  /** `userModel.find`: the first stored user the filter matches, or null. */
  function Find(rows: seq<UserRow>, f: UserFilter): (r: Option<UserRow>)
    ensures r.Some? ==> r.value in rows && Matches(r.value, f)
    ensures r.None? ==> forall u :: u in rows ==> !Matches(u, f)
  {
    if rows == [] then None
    else if Matches(rows[0], f) then Some(rows[0])
    else Find(rows[1..], f)
  }

  /**
   * Under the unique constraints a filter naming a username or an email
   * matches at most one user, so `find` returns the only one there is.
   */
  lemma FindIsTheOnlyMatch(rows: seq<UserRow>, f: UserFilter, u: UserRow)
    requires UniquePerApp(rows)
    requires f.username.Some? || f.email.Some?
    requires Find(rows, f) == Some(u)
    ensures forall i :: 0 <= i < |rows| && Matches(rows[i], f) ==> rows[i] == u
  {
    var k :| 0 <= k < |rows| && rows[k] == u;
  }

  /** The users table, with the unique constraints the database enforces. */
  class UserTable {
    var rows: seq<UserRow>

    ghost predicate Valid()
      reads this
    {
      UniquePerApp(rows)
    }

    constructor ()
      ensures Valid() && rows == []
    {
      rows := [];
    }

    /** `userModel.create`: inserts the row unless a unique constraint refuses it. */
    method Create(row: UserRow) returns (r: Attempt<UserRow>)
      requires Valid()
      modifies this
      ensures Valid()
      ensures r.Done? <==> !Conflicts(old(rows), row)
      ensures r.Done? ==> r.value == row && rows == old(rows) + [row]
      ensures r.Threw? ==> rows == old(rows)
    {
      if Conflicts(rows, row) {
        r := Threw("duplicate key value violates unique constraint");
      } else {
        rows := rows + [row];
        r := Done(row);
        forall i, j | 0 <= i < |rows| && 0 <= j < |rows| && i != j && rows[i].app == rows[j].app
          ensures rows[i].username != rows[j].username && rows[i].email != rows[j].email
        {
          if i == |rows| - 1 { assert rows[j] in old(rows); }
          if j == |rows| - 1 { assert rows[i] in old(rows); }
        }
      }
    }
  }

  /** How a template literal renders a nullable column: null becomes "null". */
  function Rendered(v: Option<string>): string {
    match v
    case Some(s) => s
    case None => "null"
  }

  /**
   * The template `${firstName} ${middleName + ' '}${lastName}`: the middle
   * part is a string concatenation, in which null also renders as "null".
   * Either way the result is the three parts joined by single spaces.
   */
  function FullName(first: Option<string>, middle: Option<string>, last: Option<string>): (s: string)
    ensures |s| == |Rendered(first)| + |Rendered(middle)| + |Rendered(last)| + 2
    ensures s[|Rendered(first)|] == ' ' && s[|s| - |Rendered(last)| - 1] == ' '
    ensures s[..|Rendered(first)|] == Rendered(first) && s[|s| - |Rendered(last)|..] == Rendered(last)
  {
    var middlePlusSpace := Rendered(middle) + " ";
    Rendered(first) + " " + middlePlusSpace + Rendered(last)
  }

  /** The text of `s` before its first space (all of `s` when it has none). */
  function UpToSpace(s: string): (p: string)
    ensures |p| <= |s| && p == s[..|p|]
    ensures ' ' !in p
  {
    if |s| == 0 || s[0] == ' ' then "" else [s[0]] + UpToSpace(s[1..])
  }

  lemma {:induction false} UpToSpaceOfJoin(x: string, y: string)
    requires ' ' !in x
    ensures UpToSpace(x + " " + y) == x
    decreases |x|
  {
    if |x| > 0 {
      assert (x + " " + y)[0] == x[0];
      assert (x + " " + y)[1..] == x[1..] + " " + y;
      UpToSpaceOfJoin(x[1..], y);
    }
  }

  /**
   * When no name part holds a space, the full name determines how each part
   * rendered: two users with the same `fullName` have the same rendered first,
   * middle and last names.
   */
  lemma FullNameDeterminesParts(first: Option<string>, middle: Option<string>, last: Option<string>,
                                first': Option<string>, middle': Option<string>, last': Option<string>)
    requires ' ' !in Rendered(first) && ' ' !in Rendered(middle) && ' ' !in Rendered(last)
    requires ' ' !in Rendered(first') && ' ' !in Rendered(middle') && ' ' !in Rendered(last')
    requires FullName(first, middle, last) == FullName(first', middle', last')
    ensures Rendered(first) == Rendered(first')
    ensures Rendered(middle) == Rendered(middle')
    ensures Rendered(last) == Rendered(last')
  {
    SplitFullName(first, middle, last);
    SplitFullName(first', middle', last');
  }

  /** Reading a full name back: up to the first space, then up to the next, then the rest. */
  lemma SplitFullName(first: Option<string>, middle: Option<string>, last: Option<string>)
    requires ' ' !in Rendered(first) && ' ' !in Rendered(middle)
    ensures var s := FullName(first, middle, last);
            && UpToSpace(s) == Rendered(first)
            && UpToSpace(s[|UpToSpace(s)| + 1..]) == Rendered(middle)
            && s[|UpToSpace(s)| + |UpToSpace(s[|UpToSpace(s)| + 1..])| + 2..] == Rendered(last)
  {
    var a, b, c := Rendered(first), Rendered(middle), Rendered(last);
    var s := FullName(first, middle, last);
    assert s == a + " " + (b + " " + c);
    UpToSpaceOfJoin(a, b + " " + c);
    assert s[|a| + 1..] == b + " " + c;
    UpToSpaceOfJoin(b, c);
    assert s[|a| + |b| + 2..] == c;
  }

  /** A loaded `User` entity: the row's columns plus the computed `fullName`. */
  class User {
    var id: string
    var app: string
    var username: string
    var email: string
    var password: string
    var isActive: bool
    var firstName: Option<string>
    var middleName: Option<string>
    var lastName: Option<string>
    var fullName: string

    /** Loading a row, with the `@AfterLoad` hook `setName` run at the end. */
    constructor Load(row: UserRow)
      ensures id == row.id && app == row.app && username == row.username && email == row.email
      ensures password == row.password && isActive == row.isActive
      ensures firstName == row.firstName && middleName == row.middleName && lastName == row.lastName
      ensures fullName == FullName(row.firstName, row.middleName, row.lastName)
    {
      id, app, username, email := row.id, row.app, row.username, row.email;
      password, isActive := row.password, row.isActive;
      firstName, middleName, lastName := row.firstName, row.middleName, row.lastName;
      fullName := "";
      new;
      SetName();
    }

    /** `setName`: recomputes `fullName` from the name parts and changes nothing else. */
    method SetName()
      modifies this
      ensures fullName == FullName(firstName, middleName, lastName)
      ensures id == old(id) && app == old(app) && username == old(username) && email == old(email)
      ensures password == old(password) && isActive == old(isActive)
      ensures firstName == old(firstName) && middleName == old(middleName) && lastName == old(lastName)
    {
      fullName := FullName(firstName, middleName, lastName);
    }
  }
}

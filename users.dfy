/** The `users` table and the `User` model over it. */
module UserModel {
  import opened Wrappers

  /** One row of `users`. `status` has no CHECK constraint; only `updateStatus` restricts it. */
  datatype User = User(
    id: nat,
    username: string,
    email: string,
    passwordHash: string,
    firstName: string,
    lastName: string,
    phoneNumber: Option<string>,
    language: string,
    status: string,
    location: Option<Point>,
    preferredCategories: seq<string>,
    createdAt: Time,
    updatedAt: Time)

  /** The registration payload; `None` is an undefined property. */
  datatype NewUser = NewUser(
    username: string,
    email: string,
    password: string,
    firstName: string,
    lastName: string,
    phoneNumber: Option<string>,
    language: Option<string>,
    latitude: Option<real>,
    longitude: Option<real>,
    preferredCategories: Option<seq<string>>)

  const DuplicateUser := "Username or email already exists"

  /** The location `ST_MakePoint(longitude, latitude)` stores: NULL unless both are given. */
  function PointOf(latitude: Option<real>, longitude: Option<real>): (p: Option<Point>)
    ensures p.Some? <==> latitude.Some? && longitude.Some?
    ensures p.Some? ==> p.value == Point(longitude.value, latitude.value)
  {
    if latitude.Some? && longitude.Some? then Some(Point(longitude.value, latitude.value)) else None
  }

  /** The row `create` inserts: language 'en' and no preferred categories unless given, status 'active'. */
  function NewRow(d: NewUser, id: nat, passwordHash: string, now: Time): (u: User)
    ensures u.language == (if d.language.Some? then d.language.value else "en")
    ensures u.preferredCategories == (if d.preferredCategories.Some? then d.preferredCategories.value else [])
    ensures u.status == "active" && u.passwordHash == passwordHash && u.id == id
    ensures u.location == PointOf(d.latitude, d.longitude)
  {
    User(id, d.username, d.email, passwordHash, d.firstName, d.lastName, d.phoneNumber,
         if d.language.Some? then d.language.value else "en",
         "active", PointOf(d.latitude, d.longitude),
         if d.preferredCategories.Some? then d.preferredCategories.value else [],
         now, now)
  }

  predicate NotDeleted(u: User) { u.status != "deleted" }

  /** The first row satisfying `p` whose status is not deleted (`WHERE … AND status != 'deleted'`). */
  function FirstLive(rows: seq<User>, p: User -> bool): (r: Option<User>)
    ensures r.Some? ==> r.value in rows && p(r.value) && NotDeleted(r.value)
    ensures r.None? ==> forall u :: u in rows && p(u) ==> !NotDeleted(u)
  {
    if rows == [] then None
    else if p(rows[0]) && NotDeleted(rows[0]) then Some(rows[0])
    else FirstLive(rows[1..], p)
  }

  /** `findByEmail`: the first row with this email that is not deleted. */
  function FindByEmail(rows: seq<User>, email: string): (r: Option<User>)
    ensures r.Some? ==> r.value in rows && r.value.email == email && NotDeleted(r.value)
    ensures r.None? ==> forall u :: u in rows && u.email == email ==> !NotDeleted(u)
  {
    FirstLive(rows, (u: User) => u.email == email)
  }

  /** `findById`: the row with this id, unless it is deleted. */
  function FindById(rows: seq<User>, id: int): (r: Option<User>)
    ensures r.Some? ==> r.value in rows && r.value.id == id && NotDeleted(r.value)
    ensures r.None? ==> forall u :: u in rows && u.id == id ==> !NotDeleted(u)
  {
    FirstLive(rows, (u: User) => u.id == id)
  }

  /** The first index holding primary key `id`, whatever the row's status. */
  function IndexOf(rows: seq<User>, id: int): (k: Option<nat>)
    ensures k.Some? ==> k.value < |rows| && rows[k.value].id == id
    ensures k.None? ==> forall i :: 0 <= i < |rows| ==> rows[i].id != id
  {
    if rows == [] then None
    else if rows[0].id == id then Some(0)
    else match IndexOf(rows[1..], id)
      case None => None
      case Some(k) => Some(k + 1)
  }

  /** `updateProfile`'s payload; `None` is an undefined property. */
  datatype ProfileUpdate = ProfileUpdate(
    firstName: Option<string>,
    lastName: Option<string>,
    phoneNumber: Option<string>,
    language: Option<string>,
    latitude: Option<real>,
    longitude: Option<real>)

  /** At least one SET clause would be built. */
  predicate HasProfileChange(p: ProfileUpdate) {
    p.firstName.Some? || p.lastName.Some? || p.phoneNumber.Some? || p.language.Some?
    || (p.latitude.Some? && p.longitude.Some?)
  }

  /** The row after the profile update: each given field replaced, the location only with both coordinates. */
  function ProfilePatched(u: User, p: ProfileUpdate, now: Time): User {
    u.(firstName := if p.firstName.Some? then p.firstName.value else u.firstName,
       lastName := if p.lastName.Some? then p.lastName.value else u.lastName,
       phoneNumber := if p.phoneNumber.Some? then p.phoneNumber else u.phoneNumber,
       language := if p.language.Some? then p.language.value else u.language,
       location := if p.latitude.Some? && p.longitude.Some? then PointOf(p.latitude, p.longitude) else u.location,
       updatedAt := now)
  }

  /** A profile update touches nothing but the profile columns and `updated_at`. */
  lemma ProfilePatchedKeeps(u: User, p: ProfileUpdate, now: Time)
    ensures var v := ProfilePatched(u, p, now);
      && v.id == u.id && v.username == u.username && v.email == u.email
      && v.passwordHash == u.passwordHash && v.status == u.status
      && v.preferredCategories == u.preferredCategories && v.createdAt == u.createdAt
      && (p.firstName.None? ==> v.firstName == u.firstName)
      && (p.firstName.Some? ==> v.firstName == p.firstName.value)
      && (p.lastName.None? ==> v.lastName == u.lastName)
      && (p.lastName.Some? ==> v.lastName == p.lastName.value)
      && (p.phoneNumber.None? ==> v.phoneNumber == u.phoneNumber)
      && (p.phoneNumber.Some? ==> v.phoneNumber == p.phoneNumber)
      && (p.language.None? ==> v.language == u.language)
      && (p.language.Some? ==> v.language == p.language.value)
      && (!(p.latitude.Some? && p.longitude.Some?) ==> v.location == u.location)
      && (p.latitude.Some? && p.longitude.Some? ==> v.location == Some(Point(p.longitude.value, p.latitude.value)))
      && v.updatedAt == now
  {
  }

  /** Applying the same profile update twice is the same as applying it once. */
  lemma ProfilePatchedIdempotent(u: User, p: ProfileUpdate, t1: Time, t2: Time)
    ensures ProfilePatched(ProfilePatched(u, p, t1), p, t2) == ProfilePatched(u, p, t2)
  {
  }

  /** `updatePreferences`' payload. */
  datatype PreferencesUpdate = PreferencesUpdate(
    latitude: Option<real>,
    longitude: Option<real>,
    preferredCategories: Option<seq<string>>)

  predicate HasPreferenceChange(p: PreferencesUpdate) {
    (p.latitude.Some? && p.longitude.Some?) || p.preferredCategories.Some?
  }

  /** The row after the preferences update: the location only with both coordinates, the categories when given. */
  function PreferencesPatched(u: User, p: PreferencesUpdate, now: Time): User {
    u.(location := if p.latitude.Some? && p.longitude.Some? then PointOf(p.latitude, p.longitude) else u.location,
       preferredCategories := if p.preferredCategories.Some? then p.preferredCategories.value else u.preferredCategories,
       updatedAt := now)
  }

  /** A preferences update touches nothing but the location, the preferred categories and `updated_at`. */
  lemma PreferencesPatchedKeeps(u: User, p: PreferencesUpdate, now: Time)
    ensures var v := PreferencesPatched(u, p, now);
      && v.id == u.id && v.username == u.username && v.email == u.email
      && v.passwordHash == u.passwordHash && v.status == u.status
      && v.firstName == u.firstName && v.lastName == u.lastName
      && v.phoneNumber == u.phoneNumber && v.language == u.language && v.createdAt == u.createdAt
      && (p.preferredCategories.None? ==> v.preferredCategories == u.preferredCategories)
      && (p.preferredCategories.Some? ==> v.preferredCategories == p.preferredCategories.value)
      && (!(p.latitude.Some? && p.longitude.Some?) ==> v.location == u.location)
      && (p.latitude.Some? && p.longitude.Some? ==> v.location == Some(Point(p.longitude.value, p.latitude.value)))
      && v.updatedAt == now
  {
  }

  /** Applying the same preferences update twice is the same as applying it once. */
  lemma PreferencesPatchedIdempotent(u: User, p: PreferencesUpdate, t1: Time, t2: Time)
    ensures PreferencesPatched(PreferencesPatched(u, p, t1), p, t2) == PreferencesPatched(u, p, t2)
  {
  }

  /** The statuses `updateStatus` accepts. */
  predicate ValidStatus(s: string) { s == "active" || s == "suspended" || s == "deleted" }

  /** Usernames and emails are UNIQUE; primary keys increase and stay below the sequence. */
  ghost predicate TableInvariant(rows: seq<User>, nextId: nat) {
    && nextId >= 1
    && (forall i :: 0 <= i < |rows| ==> 1 <= rows[i].id < nextId)
    && (forall i, j :: 0 <= i < j < |rows| ==> rows[i].id < rows[j].id)
    && (forall i, j :: 0 <= i < j < |rows| ==> rows[i].username != rows[j].username && rows[i].email != rows[j].email)
  }

  /** Drawing a value from the sequence keeps every id below the next one. */
  lemma NextIdKeepsInvariant(rows: seq<User>, nextId: nat)
    requires TableInvariant(rows, nextId)
    ensures TableInvariant(rows, nextId + 1)
  {
  }

  /** A row with the fresh id and a fresh username and email can be appended. */
  lemma AppendKeepsInvariant(rows: seq<User>, nextId: nat, u: User)
    requires TableInvariant(rows, nextId) && u.id == nextId
    requires forall x :: x in rows ==> x.username != u.username && x.email != u.email
    ensures TableInvariant(rows + [u], nextId + 1)
  {
    var rows' := rows + [u];
    forall i, j | 0 <= i < j < |rows'|
      ensures rows'[i].id < rows'[j].id
      ensures rows'[i].username != rows'[j].username && rows'[i].email != rows'[j].email
    {
      assert rows'[i] == rows[i];
      if j == |rows| {
        assert rows[i] in rows;
      } else {
        assert rows'[j] == rows[j];
      }
    }
    forall i | 0 <= i < |rows'| ensures 1 <= rows'[i].id < nextId + 1 {
      if i < |rows| {
        assert rows'[i] == rows[i];
      }
    }
  }

  /** The `users` table and its SERIAL primary-key sequence. */
  class UserTable {
    var rows: seq<User>
    var nextId: nat

    ghost predicate Valid()
      reads this
    {
      TableInvariant(rows, nextId)
    }

    constructor ()
      ensures Valid() && rows == [] && nextId == 1
    {
      rows := [];
      nextId := 1;
    }

    /**
     * `create`: `passwordHash` is argon2's hash of `d.password`. A username or
     * email already present (in any status) is a unique violation.
     */
    method Create(d: NewUser, passwordHash: string, now: Time) returns (r: Result<User>)
      requires Valid()
      modifies this
      ensures Valid() && nextId == old(nextId) + 1
      ensures r.Err? <==> exists u :: u in old(rows) && (u.username == d.username || u.email == d.email)
      ensures r.Err? ==> r.message == DuplicateUser && rows == old(rows)
      ensures r.Ok? ==> r.value == NewRow(d, old(nextId), passwordHash, now) && rows == old(rows) + [r.value]
    {
      var id := nextId;
      if exists u :: u in rows && (u.username == d.username || u.email == d.email) {
        NextIdKeepsInvariant(rows, nextId);
        nextId := nextId + 1;
        return Err(DuplicateUser);
      }
      var u := NewRow(d, id, passwordHash, now);
      AppendKeepsInvariant(rows, nextId, u);
      nextId := nextId + 1;
      rows := rows + [u];
      r := Ok(u);
    }

    /** `updateProfile`: throws before querying when no field is given; `None` when the id is absent. */
    method UpdateProfile(id: int, p: ProfileUpdate, now: Time) returns (r: Result<Option<User>>)
      requires Valid()
      modifies this
      ensures Valid() && nextId == old(nextId)
      ensures r.Err? <==> !HasProfileChange(p)
      ensures r.Err? ==> r.message == "No valid fields to update"
      ensures r.Ok? ==> (r.value.None? <==> IndexOf(old(rows), id).None?)
      ensures r.Ok? && r.value.Some? ==>
        var k := IndexOf(old(rows), id).value;
        rows == old(rows)[k := ProfilePatched(old(rows)[k], p, now)] && r.value.value == rows[k]
      ensures !(r.Ok? && r.value.Some?) ==> rows == old(rows)
    {
      if !HasProfileChange(p) {
        return Err("No valid fields to update");
      }
      var k := IndexOf(rows, id);
      if k.None? {
        return Ok(None);
      }
      rows := rows[k.value := ProfilePatched(rows[k.value], p, now)];
      r := Ok(Some(rows[k.value]));
    }

    /** `updatePreferences`: the same rule, with its own message. */
    method UpdatePreferences(id: int, p: PreferencesUpdate, now: Time) returns (r: Result<Option<User>>)
      requires Valid()
      modifies this
      ensures Valid() && nextId == old(nextId)
      ensures r.Err? <==> !HasPreferenceChange(p)
      ensures r.Err? ==> r.message == "No preferences to update"
      ensures r.Ok? ==> (r.value.None? <==> IndexOf(old(rows), id).None?)
      ensures r.Ok? && r.value.Some? ==>
        var k := IndexOf(old(rows), id).value;
        rows == old(rows)[k := PreferencesPatched(old(rows)[k], p, now)] && r.value.value == rows[k]
      ensures !(r.Ok? && r.value.Some?) ==> rows == old(rows)
    {
      if !HasPreferenceChange(p) {
        return Err("No preferences to update");
      }
      var k := IndexOf(rows, id);
      if k.None? {
        return Ok(None);
      }
      rows := rows[k.value := PreferencesPatched(rows[k.value], p, now)];
      r := Ok(Some(rows[k.value]));
    }

    /** `updateStatus`: only the three statuses; true exactly when the row exists. */
    method UpdateStatus(id: int, status: string, now: Time) returns (r: Result<bool>)
      requires Valid()
      modifies this
      ensures Valid() && nextId == old(nextId)
      ensures r.Err? <==> !ValidStatus(status)
      ensures r.Err? ==> r.message == "Invalid status value"
      ensures r.Ok? ==> (r.value <==> IndexOf(old(rows), id).Some?)
      ensures r.Ok? && r.value ==>
        var k := IndexOf(old(rows), id).value;
        rows == old(rows)[k := old(rows)[k].(status := status, updatedAt := now)]
      ensures !(r.Ok? && r.value) ==> rows == old(rows)
    {
      if !ValidStatus(status) {
        return Err("Invalid status value");
      }
      var k := IndexOf(rows, id);
      if k.None? {
        return Ok(false);
      }
      rows := rows[k.value := rows[k.value].(status := status, updatedAt := now)];
      r := Ok(true);
    }

    /**
     * `changePassword`: `verify` is argon2's check of a password against a
     * hash, and `newHash` the hash of the new password.
     */
    method ChangePassword(id: int, current: string, newHash: string, now: Time,
                          verify: (string, string) -> bool) returns (r: Result<bool>)
      requires Valid()
      modifies this
      ensures Valid() && nextId == old(nextId)
      ensures IndexOf(old(rows), id).None? ==> r == Err("User not found")
      ensures IndexOf(old(rows), id).Some? ==>
        var k := IndexOf(old(rows), id).value;
        if verify(old(rows)[k].passwordHash, current)
        then r == Ok(true) && rows == old(rows)[k := old(rows)[k].(passwordHash := newHash, updatedAt := now)]
        else r == Err("Current password is incorrect")
      ensures r.Err? ==> rows == old(rows)
    {
      var k := IndexOf(rows, id);
      if k.None? {
        return Err("User not found");
      }
      if !verify(rows[k.value].passwordHash, current) {
        return Err("Current password is incorrect");
      }
      rows := rows[k.value := rows[k.value].(passwordHash := newHash, updatedAt := now)];
      r := Ok(true);
    }
  }

  /** A user just created can be found by email: the insert is the only row with that address. */
  lemma CreatedFoundByEmail(rows: seq<User>, d: NewUser, id: nat, hash: string, now: Time)
    requires forall u :: u in rows ==> u.email != d.email
    ensures FindByEmail(rows + [NewRow(d, id, hash, now)], d.email) == Some(NewRow(d, id, hash, now))
  {
    FirstLiveAfter(rows, [NewRow(d, id, hash, now)], (u: User) => u.email == d.email);
  }

  /** Rows in front that `p` rejects do not change which row is found. */
  lemma {:induction false} FirstLiveAfter(a: seq<User>, b: seq<User>, p: User -> bool)
    requires forall u :: u in a ==> !p(u)
    ensures FirstLive(a + b, p) == FirstLive(b, p)
    decreases |a|
  {
    if a != [] {
      assert (a + b)[0] == a[0];
      assert (a + b)[1..] == a[1..] + b;
      FirstLiveAfter(a[1..], b, p);
    } else {
      assert a + b == b;
    }
  }

  /** Once a user's status is 'deleted', neither lookup can find them. */
  lemma DeletedUserHidden(rows: seq<User>, k: nat, now: Time)
    requires k < |rows| && forall i :: 0 <= i < |rows| && i != k ==> rows[i].id != rows[k].id && rows[i].email != rows[k].email
    ensures var after := rows[k := rows[k].(status := "deleted", updatedAt := now)];
      FindById(after, rows[k].id).None? && FindByEmail(after, rows[k].email).None?
  {
    var after := rows[k := rows[k].(status := "deleted", updatedAt := now)];
    forall u | u in after && (u.id == rows[k].id || u.email == rows[k].email) ensures !NotDeleted(u) {
      var i :| 0 <= i < |after| && after[i] == u;
    }
  }
}

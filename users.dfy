/**
 * Roles and users (convex/users.ts): the active-role lookup every handler
 * starts from, the `hasPermission` and `getCurrentUser` queries, role
 * assignment, the vendor list and the seeding of default users.
 */
module Users {
  import opened Common
  import opened Tables
  import opened Schema

  predicate IsActiveRoleOf(u: UserRole, userId: Id)
  {
    u.userId == userId && u.isActive
  }

  /**
   * The caller's role: the first active `userRoles` row of the user in
   * creation order (`withIndex("by_user") … .filter(isActive) … .first()`).
   */
  function ActiveRole(roles: seq<Row<UserRole>>, userId: Id): (r: Option<UserRole>)
    ensures r.Some? ==> IsActiveRoleOf(r.value, userId)
  {
    if roles == [] then None
    else if IsActiveRoleOf(roles[0].doc, userId) then Some(roles[0].doc)
    else ActiveRole(roles[1..], userId)
  }

  /** The lookup comes back empty exactly when the user has no active row. */
  lemma {:induction false} ActiveRoleNone(roles: seq<Row<UserRole>>, userId: Id)
    ensures ActiveRole(roles, userId).None? <==> forall i :: 0 <= i < |roles| ==> !IsActiveRoleOf(roles[i].doc, userId)
  {
    if roles != [] {
      ActiveRoleNone(roles[1..], userId);
      assert forall i :: 1 <= i < |roles| ==> roles[i] == roles[1..][i - 1];
    }
  }

  /** The lookup returns the earliest active row of the user. */
  lemma {:induction false} ActiveRoleFirst(roles: seq<Row<UserRole>>, userId: Id, k: nat)
    requires k < |roles| && IsActiveRoleOf(roles[k].doc, userId)
    requires forall i :: 0 <= i < k ==> !IsActiveRoleOf(roles[i].doc, userId)
    ensures ActiveRole(roles, userId) == Some(roles[k].doc)
  {
    if k > 0 {
      assert forall i :: 0 <= i < k - 1 ==> roles[1..][i] == roles[i + 1];
      ActiveRoleFirst(roles[1..], userId, k - 1);
    }
  }

  /** The role found is one of the table's rows. */
  lemma {:induction false} ActiveRoleIsRow(roles: seq<Row<UserRole>>, userId: Id)
    requires ActiveRole(roles, userId).Some?
    ensures exists i :: 0 <= i < |roles| && roles[i].doc == ActiveRole(roles, userId).value
  {
    if !IsActiveRoleOf(roles[0].doc, userId) {
      ActiveRoleIsRow(roles[1..], userId);
      var i :| 0 <= i < |roles[1..]| && roles[1..][i].doc == ActiveRole(roles, userId).value;
      assert roles[i + 1] == roles[1..][i];
    }
  }

  /** The role of the caller, or `None` when signed out or without an active role. */
  function CallerRole(roles: seq<Row<UserRole>>, caller: Option<Id>): (r: Option<UserRole>)
    ensures caller.None? ==> r.None?
    ensures caller.Some? ==> r == ActiveRole(roles, caller.value)
  {
    if caller.None? then None else ActiveRole(roles, caller.value)
  }

  /** `userRole?.role === role`. */
  predicate CallerIs(roles: seq<Row<UserRole>>, caller: Option<Id>, role: Role)
  {
    var r := CallerRole(roles, caller);
    r.Some? && r.value.role == role
  }

  // ---------------------------------------------------------------------------
  // hasPermission and getCurrentUser
  // ---------------------------------------------------------------------------

  /** The `hasPermission` query: the role lists the permission, or the role is admin. */
  function HasPermission(roles: seq<Row<UserRole>>, caller: Option<Id>, permission: string): (b: bool)
    ensures caller.None? ==> !b
    ensures caller.Some? && ActiveRole(roles, caller.value).None? ==> !b
    ensures b <==> exists u :: CallerRole(roles, caller) == Some(u) && (permission in u.permissions || u.role == Admin)
  {
    match CallerRole(roles, caller)
    case None => false
    case Some(u) => permission in u.permissions || u.role == Admin
  }

  /**
   * For roles taken from the permission table, `hasPermission` holds exactly
   * for the permissions the table lists for the caller's role, and for every
   * permission when the caller is an admin.
   */
  lemma HasPermissionFromTable(roles: seq<Row<UserRole>>, caller: Option<Id>, permission: string)
    requires RolesFromTable(roles)
    requires CallerRole(roles, caller).Some?
    ensures var role := CallerRole(roles, caller).value.role;
      HasPermission(roles, caller, permission) <==> role == Admin || permission in PermissionsFor(role)
  {
    ActiveRoleIsRow(roles, caller.value);
  }

  datatype CurrentUser = CurrentUser(id: Id, user: User, role: Option<Role>, permissions: seq<string>)

  /** The `getCurrentUser` query: the user document with its role and permissions. */
  function GetCurrentUser(users: seq<Row<User>>, roles: seq<Row<UserRole>>, caller: Option<Id>): (r: Option<CurrentUser>)
    ensures r.None? <==> caller.None? || Get(users, caller.value).None?
    ensures r.Some? ==> r.value.id == caller.value && Get(users, r.value.id) == Some(r.value.user)
    ensures r.Some? ==> (r.value.role.None? <==> ActiveRole(roles, r.value.id).None?)
    ensures r.Some? && r.value.role.None? ==> r.value.permissions == []
    ensures r.Some? && r.value.role.Some? ==>
      r.value.role.value == ActiveRole(roles, r.value.id).value.role
      && r.value.permissions == ActiveRole(roles, r.value.id).value.permissions
  {
    if caller.None? then None
    else match Get(users, caller.value)
      case None => None
      case Some(user) =>
        match ActiveRole(roles, caller.value)
        case None => Some(CurrentUser(caller.value, user, None, []))
        case Some(u) => Some(CurrentUser(caller.value, user, Some(u.role), u.permissions))
  }

  // ---------------------------------------------------------------------------
  // getVendors
  // ---------------------------------------------------------------------------

  datatype VendorOption = VendorOption(id: Id, name: Option<string>)

  predicate ListedVendor(users: seq<Row<User>>, u: UserRole)
  {
    u.role == Vendor && Get(users, u.userId).Some?
  }

  /**
   * The `getVendors` query: one entry per `userRoles` row whose role is
   * vendor and whose user still exists, in row order. The rows are not
   * filtered on `isActive`, so a user whose vendor role was replaced is still
   * listed, and a user with two vendor rows is listed twice.
   */
  function GetVendors(users: seq<Row<User>>, roles: seq<Row<UserRole>>): (r: seq<VendorOption>)
    ensures |r| <= |roles|
  {
    if roles == [] then []
    else
      var u := roles[0].doc;
      (if ListedVendor(users, u) then [VendorOption(u.userId, Get(users, u.userId).value.name)] else [])
      + GetVendors(users, roles[1..])
  }

  /** Every listed vendor is an existing user, shown under its own name, with a vendor row. */
  lemma {:induction false} GetVendorsSound(users: seq<Row<User>>, roles: seq<Row<UserRole>>, k: nat)
    requires k < |GetVendors(users, roles)|
    ensures var v := GetVendors(users, roles)[k];
      Get(users, v.id).Some? && v.name == Get(users, v.id).value.name
      && exists i :: 0 <= i < |roles| && roles[i].doc.userId == v.id && roles[i].doc.role == Vendor
  {
    var u := roles[0].doc;
    if ListedVendor(users, u) && k == 0 {
      assert roles[0].doc.userId == GetVendors(users, roles)[k].id;
    } else {
      var j := if ListedVendor(users, u) then k - 1 else k;
      assert GetVendors(users, roles)[k] == GetVendors(users, roles[1..])[j];
      GetVendorsSound(users, roles[1..], j);
      var i :| 0 <= i < |roles[1..]| && roles[1..][i].doc.userId == GetVendors(users, roles)[k].id
        && roles[1..][i].doc.role == Vendor;
      assert roles[i + 1] == roles[1..][i];
    }
  }

  /** Every vendor row whose user exists is listed. */
  lemma {:induction false} GetVendorsComplete(users: seq<Row<User>>, roles: seq<Row<UserRole>>, i: nat)
    requires i < |roles| && ListedVendor(users, roles[i].doc)
    ensures VendorOption(roles[i].doc.userId, Get(users, roles[i].doc.userId).value.name) in GetVendors(users, roles)
  {
    if i > 0 {
      assert roles[1..][i - 1] == roles[i];
      GetVendorsComplete(users, roles[1..], i - 1);
    }
  }

  // ---------------------------------------------------------------------------
  // assignRole
  // ---------------------------------------------------------------------------

  /** Every row of `target` switched off, every other row untouched. */
  function Deactivated(roles: seq<Row<UserRole>>, target: Id): (r: seq<Row<UserRole>>)
    ensures |r| == |roles|
    ensures forall i :: 0 <= i < |roles| ==> r[i].id == roles[i].id
    ensures forall i :: 0 <= i < |roles| ==>
      r[i].doc == if roles[i].doc.userId == target then roles[i].doc.(isActive := false) else roles[i].doc
  {
    seq(|roles|, i requires 0 <= i < |roles| =>
      if roles[i].doc.userId == target then Row(roles[i].id, roles[i].doc.(isActive := false)) else roles[i])
  }

  /** Only an active admin may assign roles. */
  function AssignRoleGate(roles: seq<Row<UserRole>>, caller: Option<Id>): (r: Result<Id, Error>)
    ensures r.Ok? <==> CallerIs(roles, caller, Admin)
    ensures r.Ok? ==> caller == Some(r.value)
    ensures caller.None? ==> r == Err(NotAuthenticated)
    ensures caller.Some? && !CallerIs(roles, caller, Admin) ==> r == Err(InsufficientPermissions)
  {
    if caller.None? then Err(NotAuthenticated)
    else if CallerIs(roles, caller, Admin) then Ok(caller.value)
    else Err(InsufficientPermissions)
  }

  /**
   * After the earlier rows are switched off and the new active row is
   * appended, the new row is the user's only active role.
   */
  lemma AssignedRoleIsOnlyActive(roles: seq<Row<UserRole>>, target: Id, row: Row<UserRole>)
    requires row.doc.userId == target && row.doc.isActive
    ensures var after := Deactivated(roles, target) + [row];
      ActiveRole(after, target) == Some(row.doc)
      && forall i :: 0 <= i < |after| - 1 ==> !IsActiveRoleOf(after[i].doc, target)
  {
    var after := Deactivated(roles, target) + [row];
    assert forall i :: 0 <= i < |after| - 1 ==> !IsActiveRoleOf(after[i].doc, target);
    ActiveRoleFirst(after, target, |after| - 1);
  }

  /** Switching rows off and appending a row built from the table keeps every row's permissions from the table. */
  lemma AssignRoleKeepsPermissions(roles: seq<Row<UserRole>>, target: Id, row: Row<UserRole>)
    requires RolesFromTable(roles) && row.doc.permissions == PermissionsFor(row.doc.role)
    ensures RolesFromTable(Deactivated(roles, target) + [row])
  {
    var after := Deactivated(roles, target) + [row];
    forall i | 0 <= i < |after| ensures after[i].doc.permissions == PermissionsFor(after[i].doc.role) {
      if i < |roles| {
        assert after[i] == Deactivated(roles, target)[i];
      }
    }
  }

  /**
   * The loop of `assignRole`: patch `isActive: false` onto each row of the
   * target's `by_user` index range, that is, each row whose user is the target.
   */
  method DeactivateRoles(db: Db, target: Id)
    requires db.Valid()
    modifies db`roles
    ensures db.Valid()
    ensures db.roles == Deactivated(old(db.roles), target)
  {
    ghost var roles0 := db.roles;
    var k := 0;
    while k < |db.roles|
      invariant 0 <= k <= |db.roles| == |roles0|
      invariant db.Valid() && db.nextId == old(db.nextId)
      invariant forall i :: 0 <= i < |roles0| ==> db.roles[i] == if i < k then Deactivated(roles0, target)[i] else roles0[i]
    {
      var row := db.roles[k];
      if row.doc.userId == target {
        PutAt(db.roles, db.nextId, k, row.doc.(isActive := false));
        db.PutRole(row.id, row.doc.(isActive := false));
      }
      k := k + 1;
    }
  }

  /**
   * `assignRole`: switch off every role row of the target, then insert one
   * active row with the permissions of the table, recording the assigner.
   */
  method AssignRole(db: Db, caller: Option<Id>, target: Id, role: Role) returns (r: Result<(), Error>)
    requires db.Valid()
    modifies db`roles, db`nextId
    ensures db.Valid()
    ensures r.Ok? <==> AssignRoleGate(old(db.roles), caller).Ok?
    ensures r.Err? ==> (r.error == AssignRoleGate(old(db.roles), caller).error
      && db.roles == old(db.roles) && db.nextId == old(db.nextId))
    ensures r.Ok? ==> (db.roles == Deactivated(old(db.roles), target)
      + [Row(old(db.nextId), UserRole(target, role, PermissionsFor(role), caller, true))])
    ensures r.Ok? ==> ActiveRole(db.roles, target) == Some(UserRole(target, role, PermissionsFor(role), caller, true))
    ensures RolesFromTable(old(db.roles)) ==> RolesFromTable(db.roles)
  {
    var gate := AssignRoleGate(db.roles, caller);
    if gate.Err? {
      return Err(gate.error);
    }
    ghost var roles0 := db.roles;
    DeactivateRoles(db, target);
    var doc := UserRole(target, role, PermissionsFor(role), caller, true);
    var id := db.InsertRole(doc);
    AssignedRoleIsOnlyActive(roles0, target, Row(id, doc));
    if RolesFromTable(roles0) {
      AssignRoleKeepsPermissions(roles0, target, Row(id, doc));
    }
    r := Ok(());
  }

  // ---------------------------------------------------------------------------
  // initializeDefaultUsers
  // ---------------------------------------------------------------------------

  datatype DefaultUser = DefaultUser(name: string, email: string, role: Role)

  /** The demo users created on first initialisation, in creation order. */
  const DefaultUsers: seq<DefaultUser> := [
    DefaultUser("Akshay Kumar", "akshay@intercont.com", Employee),
    DefaultUser("Gautam Singh", "gautam@intercont.com", Employee),
    DefaultUser("Admin User", "admin@intercont.com", Admin),
    DefaultUser("Vendor User", "vendor@intercont.com", Vendor),
    DefaultUser("Order Placer", "orders@intercont.com", OrderPlacer)
  ]

  const InitializedKey := "users_initialized"

  const AdminEmail := "admin@intercont.com"

  datatype InitOutcome = AlreadyInitialized | Created

  predicate IsInitialized(config: seq<Row<ConfigEntry>>)
  {
    exists i :: 0 <= i < |config| && config[i].doc.key == InitializedKey
  }

  /** Appending the `users_initialized` entry marks the database initialised. */
  lemma InitializedAfterInsert(config: seq<Row<ConfigEntry>>, row: Row<ConfigEntry>)
    requires row.doc.key == InitializedKey
    ensures IsInitialized(config + [row])
  {
    assert (config + [row])[|config|] == row;
  }

  function SeededUser(ds: seq<DefaultUser>, start: Id, k: nat): Row<User>
    requires k < |ds|
  {
    Row(start + 2 * k, User(Some(ds[k].name), Some(ds[k].email)))
  }

  function SeededRole(ds: seq<DefaultUser>, start: Id, k: nat): Row<UserRole>
    requires k < |ds|
  {
    Row(start + 2 * k + 1, UserRole(start + 2 * k, ds[k].role, PermissionsFor(ds[k].role), None, true))
  }

  /** `users` followed by the rows of the first `n` entries of `ds`, the k-th with id `start + 2k`. */
  function WithSeededUsers(users: seq<Row<User>>, ds: seq<DefaultUser>, start: Id, n: nat): (r: seq<Row<User>>)
    requires n <= |ds|
    ensures |r| == |users| + n && r[..|users|] == users
    ensures forall k :: 0 <= k < n ==> r[|users| + k] == SeededUser(ds, start, k)
  {
    if n == 0 then users else WithSeededUsers(users, ds, start, n - 1) + [SeededUser(ds, start, n - 1)]
  }

  /** `roles` followed by their role rows, the k-th with id `start + 2k + 1`. */
  function WithSeededRoles(roles: seq<Row<UserRole>>, ds: seq<DefaultUser>, start: Id, n: nat): (r: seq<Row<UserRole>>)
    requires n <= |ds|
    ensures |r| == |roles| + n && r[..|roles|] == roles
    ensures forall k :: 0 <= k < n ==> r[|roles| + k] == SeededRole(ds, start, k)
  {
    if n == 0 then roles else WithSeededRoles(roles, ds, start, n - 1) + [SeededRole(ds, start, n - 1)]
  }

  /** The id of the first user with the given e-mail address. */
  function FirstUserWithEmail(users: seq<Row<User>>, email: string): (r: Option<Id>)
    ensures r.Some? ==> users != []
  {
    if users == [] then None
    else if users[0].doc.email == Some(email) then Some(users[0].id)
    else FirstUserWithEmail(users[1..], email)
  }

  /** The lookup finds a user whenever one carries the address. */
  lemma {:induction false} FirstUserWithEmailFound(users: seq<Row<User>>, email: string, i: nat)
    requires i < |users| && users[i].doc.email == Some(email)
    ensures FirstUserWithEmail(users, email).Some?
  {
    if users[0].doc.email != Some(email) {
      assert users[1..][i - 1] == users[i];
      FirstUserWithEmailFound(users[1..], email, i - 1);
    }
  }

  /** What the lookup finds is the id of the earliest user with that address. */
  lemma {:induction false} FirstUserWithEmailSound(users: seq<Row<User>>, email: string)
    requires FirstUserWithEmail(users, email).Some?
    ensures exists k :: (0 <= k < |users| && users[k].id == FirstUserWithEmail(users, email).value
      && users[k].doc.email == Some(email)
      && forall j :: 0 <= j < k ==> users[j].doc.email != Some(email))
  {
    if users[0].doc.email != Some(email) {
      FirstUserWithEmailSound(users[1..], email);
      var k :| 0 <= k < |users[1..]| && users[1..][k].id == FirstUserWithEmail(users, email).value
        && users[1..][k].doc.email == Some(email)
        && forall j :: 0 <= j < k ==> users[1..][j].doc.email != Some(email);
      assert users[k + 1] == users[1..][k];
      forall j | 0 <= j < k + 1 ensures users[j].doc.email != Some(email) {
        if j > 0 {
          assert users[j] == users[1..][j - 1];
        }
      }
    } else {
      assert users[0].id == FirstUserWithEmail(users, email).value;
    }
  }

  /** When one of the seeded users carries the admin e-mail, the lookup after seeding succeeds. */
  lemma SeededAdminFound(users: seq<Row<User>>, ds: seq<DefaultUser>, email: string, start: Id)
    requires exists k :: 0 <= k < |ds| && ds[k].email == email
    ensures FirstUserWithEmail(WithSeededUsers(users, ds, start, |ds|), email).Some?
  {
    var seeded := WithSeededUsers(users, ds, start, |ds|);
    var k :| 0 <= k < |ds| && ds[k].email == email;
    assert seeded[|users| + k] == SeededUser(ds, start, k);
    FirstUserWithEmailFound(seeded, email, |users| + k);
  }

  /** The loop of `initializeDefaultUsers`: each user of `ds`, then its role row. */
  method SeedDefaultUsers(db: Db, ds: seq<DefaultUser>)
    requires db.Valid()
    modifies db`users, db`roles, db`nextId
    ensures db.Valid()
    ensures db.nextId == old(db.nextId) + 2 * |ds|
    ensures db.users == WithSeededUsers(old(db.users), ds, old(db.nextId), |ds|)
    ensures db.roles == WithSeededRoles(old(db.roles), ds, old(db.nextId), |ds|)
  {
    ghost var start := db.nextId;
    ghost var users0, roles0 := db.users, db.roles;
    var k := 0;
    while k < |ds|
      invariant 0 <= k <= |ds|
      invariant db.Valid()
      invariant db.nextId == start + 2 * k
      invariant db.users == WithSeededUsers(users0, ds, start, k)
      invariant db.roles == WithSeededRoles(roles0, ds, start, k)
    {
      SeedDefaultUser(db, ds, start, k);
      k := k + 1;
    }
  }

  /** One iteration: insert the user, then its active role row without an assigner. */
  method SeedDefaultUser(db: Db, ds: seq<DefaultUser>, ghost start: Id, k: nat)
    requires db.Valid() && k < |ds| && db.nextId == start + 2 * k
    modifies db`users, db`roles, db`nextId
    ensures db.Valid() && db.nextId == old(db.nextId) + 2
    ensures db.users == old(db.users) + [SeededUser(ds, start, k)]
    ensures db.roles == old(db.roles) + [SeededRole(ds, start, k)]
  {
    var d := ds[k];
    var userId := db.InsertUser(User(Some(d.name), Some(d.email)));
    var roleId := db.InsertRole(UserRole(userId, d.role, PermissionsFor(d.role), None, true));
  }

  /**
   * `initializeDefaultUsers`: does nothing once the `users_initialized` entry
   * exists; otherwise inserts the five default users, each followed by its
   * role row, then the config entry naming the first admin-e-mail user.
   */
  method InitializeDefaultUsers(db: Db, now: int) returns (outcome: InitOutcome)
    requires db.Valid()
    modifies db`users, db`roles, db`config, db`nextId
    ensures db.Valid()
    ensures outcome == AlreadyInitialized <==> IsInitialized(old(db.config))
    ensures outcome == AlreadyInitialized ==> (db.users == old(db.users) && db.roles == old(db.roles)
      && db.config == old(db.config) && db.nextId == old(db.nextId))
    ensures outcome == Created ==> (
      db.users == WithSeededUsers(old(db.users), DefaultUsers, old(db.nextId), |DefaultUsers|)
      && db.roles == WithSeededRoles(old(db.roles), DefaultUsers, old(db.nextId), |DefaultUsers|)
      && FirstUserWithEmail(db.users, AdminEmail).Some?
      && db.config == old(db.config) + [Row(old(db.nextId) + 2 * |DefaultUsers|,
           ConfigEntry(InitializedKey, true, FirstUserWithEmail(db.users, AdminEmail).value, now))])
    ensures IsInitialized(db.config)
  {
    if IsInitialized(db.config) {
      return AlreadyInitialized;
    }
    assert DefaultUsers[2].email == AdminEmail;
    ghost var config0 := db.config;
    CreateDefaultUsers(db, DefaultUsers, AdminEmail, InitializedKey, now);
    InitializedAfterInsert(config0, db.config[|db.config| - 1]);
    outcome := Created;
  }

  /**
   * The branch of `initializeDefaultUsers` that seeds the tables and records
   * it under `key`, naming the first user with `adminEmail`.
   */
  method CreateDefaultUsers(db: Db, ds: seq<DefaultUser>, adminEmail: string, key: string, now: int)
    requires db.Valid()
    requires exists k :: 0 <= k < |ds| && ds[k].email == adminEmail
    modifies db`users, db`roles, db`config, db`nextId
    ensures db.Valid()
    ensures db.users == WithSeededUsers(old(db.users), ds, old(db.nextId), |ds|)
    ensures db.roles == WithSeededRoles(old(db.roles), ds, old(db.nextId), |ds|)
    ensures FirstUserWithEmail(db.users, adminEmail).Some?
    ensures db.config == old(db.config) + [Row(old(db.nextId) + 2 * |ds|,
      ConfigEntry(key, true, FirstUserWithEmail(db.users, adminEmail).value, now))]
  {
    SeededAdminFound(db.users, ds, adminEmail, db.nextId);
    SeedDefaultUsers(db, ds);
    var adminUser := FirstUserWithEmail(db.users, adminEmail);
    var configId := db.InsertConfig(ConfigEntry(key, true, adminUser.value, now));
  }
}

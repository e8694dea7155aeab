/**
 * `/api/admin/users`: an administrator lists the active users of their company, each
 * with the name of their manager, and creates employees and managers through an ordered
 * chain of checks that ends in an insert into the user collection.
 */
module UsersApi {
  import opened Wrappers
  import opened Types
  import Text
  import Seqs
  import UserModel
  import opened Store

  // ---------------------------------------------------------------- Invariant

  /** `m` may be the manager of an employee of `companyId`: an active manager of that company. */
  predicate ActiveManagerOf(m: User, companyId: string)
  {
    m.role == Manager && m.companyId == companyId && m.isActive
  }

  /** Every employee names a user who is an active manager of the same company. */
  ghost predicate ManagersSound(users: seq<User>)
  {
    forall i :: 0 <= i < |users| && users[i].role == Employee ==>
      users[i].managerId.Some? &&
      exists j :: 0 <= j < |users| && users[j].id == users[i].managerId.value
                  && ActiveManagerOf(users[j], users[i].companyId)
  }

  // ---------------------------------------------------------------- POST

  /** The JSON body of a user to create. */
  datatype UserBody = UserBody(
    name: Field<string>,
    email: Field<string>,
    password: Field<string>,
    role: Field<string>,
    managerId: Field<string>)

  /** An active manager of the company with the given id, as the handler looks it up. */
  function ManagerInCompany(users: seq<User>, managerId: string, companyId: string): (r: Option<User>)
    ensures r.Some? ==> r.value in users && r.value.id == managerId && ActiveManagerOf(r.value, companyId)
    ensures r.None? <==> forall i :: 0 <= i < |users| ==> !(users[i].id == managerId && ActiveManagerOf(users[i], companyId))
  {
    Seqs.Find(users, (u: User) => u.id == managerId && ActiveManagerOf(u, companyId))
  }

  /**
   * The checks that come before the insert, in the handler's order; the result is the
   * role of the user to create. Only "employee" and "manager" pass, so no administrator
   * is ever created here.
   */
  function Screen(session: Option<SessionUser>, body: UserBody, users: seq<User>): (r: Result<Role>)
    ensures session.None? ==> r == Err(401, "Unauthorized")
    ensures session.Some? && session.value.role != Admin ==> r == Err(403, "Forbidden - Admin access required")
    ensures r.Ok? ==> session.Some? && session.value.role == Admin
    ensures r.Ok? ==> TruthyString(body.name) && TruthyString(body.email) && TruthyString(body.password)
    ensures r.Ok? ==> (body.role == Value("employee") && r.value == Employee) || (body.role == Value("manager") && r.value == Manager)
    ensures r.Ok? ==> session.value.companyId != ""
    ensures r.Ok? && r.value == Employee ==> TruthyString(body.managerId)
    ensures r.Ok? ==> UserByEmail(users, Text.Lower(body.email.v)).None?
    ensures r.Ok? && TruthyString(body.managerId) ==> ManagerInCompany(users, body.managerId.v, session.value.companyId).Some?
    ensures r.Err? && session.Some? && session.value.role == Admin ==> r.status == 400
    ensures r.Ok? <==>
              && session.Some? && session.value.role == Admin
              && TruthyString(body.name) && TruthyString(body.email) && TruthyString(body.password)
              && (body.role == Value("employee") || body.role == Value("manager"))
              && session.value.companyId != ""
              && (body.role == Value("employee") ==> TruthyString(body.managerId))
              && UserByEmail(users, Text.Lower(body.email.v)).None?
              && (TruthyString(body.managerId) ==> ManagerInCompany(users, body.managerId.v, session.value.companyId).Some?)
  {
    if session.None? then Err(401, "Unauthorized")
    else if session.value.role != Admin then Err(403, "Forbidden - Admin access required")
    else if !TruthyString(body.name) || !TruthyString(body.email) || !TruthyString(body.password) || !TruthyString(body.role) then
      Err(400, "Name, email, password, and role are required")
    else if body.role.v != "employee" && body.role.v != "manager" then Err(400, "Role must be 'employee' or 'manager'")
    else if session.value.companyId == "" then Err(400, "Company ID not found in session. Please re-login.")
    else if body.role.v == "employee" && !TruthyString(body.managerId) then Err(400, "Manager ID is required for employees")
    else if UserByEmail(users, Text.Lower(body.email.v)).Some? then Err(400, "Email already exists")
    else if TruthyString(body.managerId) && ManagerInCompany(users, body.managerId.v, session.value.companyId).None? then
      Err(400, "Manager not found or invalid")
    else Ok(if body.role.v == "employee" then Employee else Manager)
  }

  /** A missing field is reported before a bad role, and both before any lookup in the table. */
  lemma MissingFieldsFirst(session: SessionUser, body: UserBody, users: seq<User>)
    requires session.role == Admin
    requires !TruthyString(body.name) || !TruthyString(body.email) || !TruthyString(body.password) || !TruthyString(body.role)
    ensures Screen(Some(session), body, users) == Err(400, "Name, email, password, and role are required")
  {
  }

  /**
   * The document saved for a screened body: the caller's company, the hashed password,
   * active, and a manager only for an employee.
   */
  function NewUserDoc(session: SessionUser, body: UserBody, role: Role, freshId: string, hash: string): (d: UserModel.UserDoc)
    requires body.name.Value? && body.email.Value?
    ensures d.id == Some(freshId) && d.name == Some(body.name.v) && d.email == Some(body.email.v)
    ensures d.password == Some(hash) && d.role == Some(RoleName(role)) && d.companyId == Some(session.companyId)
    ensures d.managerId == (if role == Employee then body.managerId.ToOption() else None)
    ensures d.isActive == Some(true)
  {
    UserModel.UserDoc(
      id := Some(freshId),
      name := Some(body.name.v),
      email := Some(body.email.v),
      password := Some(hash),
      role := Some(RoleName(role)),
      companyId := Some(session.companyId),
      managerId := if role == Employee then body.managerId.ToOption() else None,
      isActive := Some(true))
  }

  /** A user as the handler answers with it: every field but the password. */
  datatype PublicUser = PublicUser(
    id: string, name: string, email: string, role: Role, companyId: string,
    managerId: Option<string>, isActive: bool)

  function WithoutPassword(u: User): (p: PublicUser)
    ensures p.id == u.id && p.name == u.name && p.email == u.email && p.role == u.role
    ensures p.companyId == u.companyId && p.managerId == u.managerId && p.isActive == u.isActive
  {
    PublicUser(u.id, u.name, u.email, u.role, u.companyId, u.managerId, u.isActive)
  }

  /**
   * `POST`: the screen, then the insert. The new user is active, in the caller's
   * company, an employee or a manager, and an employee's manager is an active manager of
   * that company; so the table keeps `ManagersSound`.
   */
  method PostUser(db: Database, session: Option<SessionUser>, body: UserBody, freshId: string, hash: string)
    returns (r: Result<PublicUser>)
    requires db.Valid()
    modifies db
    ensures db.Valid()
    ensures Screen(session, body, old(db.users)).Err? ==>
              r == Err(Screen(session, body, old(db.users)).status, Screen(session, body, old(db.users)).message)
              && db.users == old(db.users)
    ensures r.Err? ==> db.users == old(db.users)
    ensures (Screen(session, body, old(db.users)).Ok? && freshId != "" && hash != ""
             && !HasKey(old(db.users), UserId, freshId)) ==> r.Ok?
    ensures r.Ok? ==>
              && Screen(session, body, old(db.users)).Ok?
              && var role := Screen(session, body, old(db.users)).value;
              && UserModel.FromDocument(NewUserDoc(session.value, body, role, freshId, hash)).Ok?
              && var u := UserModel.FromDocument(NewUserDoc(session.value, body, role, freshId, hash)).value;
              && db.users == old(db.users) + [u] && r.value == WithoutPassword(u)
              && u.role == role && RoleName(u.role) == body.role.v
              && u.name == body.name.v && u.email == Text.Lower(body.email.v)
              && (u.role == Employee ==> u.managerId == Some(body.managerId.v))
    ensures r.Ok? ==> exists u :: db.users == old(db.users) + [u] && r.value == WithoutPassword(u)
                                  && u.id == freshId && u.passwordHash == hash && u.isActive
                                  && u.companyId == session.value.companyId
                                  && (u.role == Employee || u.role == Manager)
                                  && (u.role == Manager ==> u.managerId.None?)
    ensures ManagersSound(old(db.users)) ==> ManagersSound(db.users)
    ensures db.companies == old(db.companies) && db.rules == old(db.rules) && db.budgets == old(db.budgets)
  {
    var screened := Screen(session, body, db.users);
    if screened.Err? {
      return Err(screened.status, screened.message);
    }
    var role := screened.value;
    var s := session.value;
    ghost var before := db.users;
    var saved := db.InsertUser(NewUserDoc(s, body, role, freshId, hash));
    if saved.Err? {
      return Err(500, "Failed to create user");
    }
    var u := saved.value;
    assert db.users == before + [u];
    if role == Employee {
      ghost var m := ManagerInCompany(before, body.managerId.v, s.companyId).value;
      ghost var j :| 0 <= j < |before| && before[j] == m;
      assert db.users[j] == m;
    }
    PreserveManagersSound(before, u);
    r := Ok(WithoutPassword(u));
  }

  /** Appending a manager, or an employee whose manager is already an active manager of its company, keeps the invariant. */
  lemma PreserveManagersSound(users: seq<User>, u: User)
    requires u.role == Employee ==>
               u.managerId.Some? &&
               exists j :: 0 <= j < |users| && users[j].id == u.managerId.value && ActiveManagerOf(users[j], u.companyId)
    ensures ManagersSound(users) ==> ManagersSound(users + [u])
  {
    if ManagersSound(users) {
      var t := users + [u];
      forall i | 0 <= i < |t| && t[i].role == Employee
        ensures t[i].managerId.Some? &&
                exists j :: 0 <= j < |t| && t[j].id == t[i].managerId.value && ActiveManagerOf(t[j], t[i].companyId)
      {
        if i < |users| {
          var j :| 0 <= j < |users| && users[j].id == users[i].managerId.value && ActiveManagerOf(users[j], users[i].companyId);
          assert t[j] == users[j];
        } else {
          var j :| 0 <= j < |users| && users[j].id == u.managerId.value && ActiveManagerOf(users[j], u.companyId);
          assert t[j] == users[j];
        }
      }
    }
  }

  // ---------------------------------------------------------------- GET

  /** One listed user: the user without password and the name of their manager. */
  datatype Listed = Listed(user: PublicUser, managerName: Option<string>)

  /**
   * No manager name when the user has no manager (`managerId` falsy); otherwise the
   * manager's name, or "Unknown" when no such user exists or the name is empty.
   */
  function ManagerName(users: seq<User>, u: User): (r: Option<string>)
    ensures (u.managerId.None? || u.managerId.value == "") <==> r.None?
    ensures r.Some? && UserById(users, u.managerId.value).None? ==> r.value == "Unknown"
    ensures r.Some? && UserById(users, u.managerId.value).Some? && UserById(users, u.managerId.value).value.name == "" ==>
              r.value == "Unknown"
    ensures r.Some? && UserById(users, u.managerId.value).Some? && UserById(users, u.managerId.value).value.name != "" ==>
              r.value == UserById(users, u.managerId.value).value.name
  {
    if u.managerId.None? || u.managerId.value == "" then None
    else
      var m := UserById(users, u.managerId.value);
      if m.None? || m.value.name == "" then Some("Unknown") else Some(m.value.name)
  }

  predicate InCompanyAndActive(u: User, companyId: string)
  {
    u.companyId == companyId && u.isActive
  }

  /** The active users of a company, in table order, as the `find` of `GET` returns them. */
  function CompanyMembers(users: seq<User>, companyId: string): (r: seq<User>)
    ensures forall k :: 0 <= k < |r| ==> InCompanyAndActive(r[k], companyId) && r[k] in users
    ensures forall i :: 0 <= i < |users| && InCompanyAndActive(users[i], companyId) ==> users[i] in r
  {
    Seqs.Filter(users, (u: User) => InCompanyAndActive(u, companyId))
  }

  /** The listing entries of `members`, one per member in the same order, each with its manager's name. */
  function Entries(users: seq<User>, members: seq<User>): (r: seq<Listed>)
    ensures |r| == |members|
    ensures forall k :: 0 <= k < |r| ==> r[k] == Listed(WithoutPassword(members[k]), ManagerName(users, members[k]))
  {
    if members == [] then []
    else [Listed(WithoutPassword(members[0]), ManagerName(users, members[0]))] + Entries(users, members[1..])
  }

  /** `GET`: 401 / 403 as for `POST`; otherwise the active users of the caller's company, in table order. */
  function ListUsers(users: seq<User>, session: Option<SessionUser>): (r: Result<seq<Listed>>)
    ensures session.None? ==> r == Err(401, "Unauthorized")
    ensures session.Some? && session.value.role != Admin ==> r == Err(403, "Forbidden - Admin access required")
    ensures session.Some? && session.value.role == Admin ==> r.Ok?
    ensures r.Ok? ==> forall k :: 0 <= k < |r.value| ==>
              exists i :: 0 <= i < |users| && InCompanyAndActive(users[i], session.value.companyId)
                          && r.value[k] == Listed(WithoutPassword(users[i]), ManagerName(users, users[i]))
    ensures r.Ok? ==> forall i :: 0 <= i < |users| && InCompanyAndActive(users[i], session.value.companyId) ==>
              Listed(WithoutPassword(users[i]), ManagerName(users, users[i])) in r.value
    ensures r.Ok? ==> var mine := CompanyMembers(users, session.value.companyId);
                      && |r.value| == |mine|
                      && forall k :: 0 <= k < |mine| ==> r.value[k] == Listed(WithoutPassword(mine[k]), ManagerName(users, mine[k]))
  {
    if session.None? then Err(401, "Unauthorized")
    else if session.value.role != Admin then Err(403, "Forbidden - Admin access required")
    else
      var c := session.value.companyId;
      var mine := CompanyMembers(users, c);
      var out := Entries(users, mine);
      assert forall i :: 0 <= i < |users| && InCompanyAndActive(users[i], c) ==>
        exists k :: 0 <= k < |mine| && mine[k] == users[i];
      Ok(out)
  }
}

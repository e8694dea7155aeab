/**
 * `/api/auth/register`: self sign-up. An administrator signs up together with a new
 * company; an employee or manager joins an existing company. The checks run in a fixed
 * order, and the administrator path writes three times: the company (with a placeholder
 * administrator id), the user, then the company's real administrator id.
 */
module RegisterApi {
  import opened Wrappers
  import opened Types
  import Text
  import UserModel
  import CompanyModel
  import opened Store
  import UsersApi

  /** The JSON body of a registration. */
  datatype RegisterBody = RegisterBody(
    name: Field<string>,
    email: Field<string>,
    password: Field<string>,
    role: Field<string>,
    companyName: Field<string>,
    country: Field<string>,
    currency: Field<string>,
    currencySymbol: Field<string>,
    companyId: Field<string>,
    managerId: Field<string>)

  /** `role || "employee"`. */
  function RoleOf(b: RegisterBody): (r: string)
    ensures !TruthyString(b.role) ==> r == "employee"
    ensures TruthyString(b.role) ==> r == b.role.v
  {
    StringOr(b.role, "employee")
  }

  /**
   * The checks before any write, in the handler's order; `Ok` carries the role string
   * the user will be created with.
   */
  function Screen(b: RegisterBody, users: seq<User>): (r: Result<string>)
    ensures r.Ok? ==> TruthyString(b.name) && TruthyString(b.email) && TruthyString(b.password)
    ensures r.Ok? ==> |b.password.v| >= 6 && r.value == RoleOf(b)
    ensures r.Ok? && r.value == "admin" ==> TruthyString(b.companyName) && TruthyString(b.currency)
    ensures r.Ok? && (r.value == "employee" || r.value == "manager") ==> TruthyString(b.companyId)
    ensures r.Ok? ==> UserByEmail(users, Text.Lower(b.email.v)).None?
    ensures r.Err? ==> r.status == 400 || r.status == 409
    ensures r.Ok? <==>
              TruthyString(b.name) && TruthyString(b.email) && TruthyString(b.password) && |b.password.v| >= 6
              && !(RoleOf(b) == "admin" && (!TruthyString(b.companyName) || !TruthyString(b.currency)))
              && !((RoleOf(b) == "employee" || RoleOf(b) == "manager") && !TruthyString(b.companyId))
              && UserByEmail(users, Text.Lower(b.email.v)).None?
    ensures r == Err(409, "User already exists") <==>
              TruthyString(b.name) && TruthyString(b.email) && TruthyString(b.password) && |b.password.v| >= 6
              && !(RoleOf(b) == "admin" && (!TruthyString(b.companyName) || !TruthyString(b.currency)))
              && !((RoleOf(b) == "employee" || RoleOf(b) == "manager") && !TruthyString(b.companyId))
              && UserByEmail(users, Text.Lower(b.email.v)).Some?
  {
    if !TruthyString(b.name) || !TruthyString(b.email) || !TruthyString(b.password) then Err(400, "Missing required fields")
    else if |b.password.v| < 6 then Err(400, "Password must be at least 6 characters")
    else
      var role := RoleOf(b);
      if role == "admin" && (!TruthyString(b.companyName) || !TruthyString(b.currency)) then
        Err(400, "Company name and currency required for admin signup")
      else if (role == "employee" || role == "manager") && !TruthyString(b.companyId) then
        Err(400, "Company ID required for employee/manager signup")
      else if UserByEmail(users, Text.Lower(b.email.v)).Some? then Err(409, "User already exists")
      else Ok(role)
  }

  /** A taken email is reported with 409 even when the company to join does not exist. */
  lemma EmailCheckedBeforeCompany(b: RegisterBody, users: seq<User>, companies: seq<Company>)
    requires TruthyString(b.name) && TruthyString(b.email) && TruthyString(b.password) && |b.password.v| >= 6
    requires b.role == Value("employee") && TruthyString(b.companyId)
    requires UserByEmail(users, Text.Lower(b.email.v)).Some? && CompanyById(companies, b.companyId.v).None?
    ensures Screen(b, users) == Err(409, "User already exists")
  {
  }

  /** The new company of an administrator: India, INR and the rupee sign when not given. */
  function NewCompanyDoc(b: RegisterBody, companyId: string, tempAdminId: string): (d: CompanyModel.CompanyDoc)
    requires b.companyName.Value?
    ensures d.country == Some(StringOr(b.country, "India")) && d.currency == Some(StringOr(b.currency, "INR"))
    ensures d.currencySymbol == Some(StringOr(b.currencySymbol, "₹")) && d.adminId == Some(tempAdminId)
    ensures d.id == Some(companyId) && d.name == Some(b.companyName.v) && d.isActive.None?
  {
    CompanyModel.CompanyDoc(
      id := Some(companyId),
      name := Some(b.companyName.v),
      country := Some(StringOr(b.country, "India")),
      currency := Some(StringOr(b.currency, "INR")),
      currencySymbol := Some(StringOr(b.currencySymbol, "₹")),
      adminId := Some(tempAdminId),
      isActive := None)
  }

  /** The new user: lower-cased email, hashed password; a manager only when one is given. */
  function NewUserDoc(b: RegisterBody, role: string, companyId: string, userId: string, hash: string): (d: UserModel.UserDoc)
    requires b.name.Value? && b.email.Value?
    ensures d.id == Some(userId) && d.name == Some(b.name.v) && d.password == Some(hash)
    ensures d.email == Some(Text.Lower(b.email.v)) && d.role == Some(role) && d.companyId == Some(companyId)
    ensures d.isActive.None?
    ensures role == "admin" ==> d.managerId.None?
    ensures role != "admin" ==> d.managerId == (if TruthyString(b.managerId) then Some(b.managerId.v) else None)
  {
    UserModel.UserDoc(
      id := Some(userId),
      name := Some(b.name.v),
      email := Some(Text.Lower(b.email.v)),
      password := Some(hash),
      role := Some(role),
      companyId := Some(companyId),
      managerId := if role != "admin" && TruthyString(b.managerId) then Some(b.managerId.v) else None,
      isActive := None)
  }

  /** What a successful registration created. */
  datatype Registered = Registered(user: User, company: Option<Company>)

  /**
   * `POST`. `newCompanyId`, `tempAdminId` and `newUserId` stand for the random ids and
   * `hash` for the bcrypt hash of the password.
   */
  method Register(db: Database, b: RegisterBody, newCompanyId: string, tempAdminId: string, newUserId: string, hash: string)
    returns (r: Result<Registered>)
    requires db.Valid()
    modifies db
    ensures db.Valid()
    ensures db.rules == old(db.rules) && db.budgets == old(db.budgets)
    ensures Screen(b, old(db.users)).Err? ==>
              r == Err(Screen(b, old(db.users)).status, Screen(b, old(db.users)).message)
              && db.users == old(db.users) && db.companies == old(db.companies)
    // the administrator path
    ensures r.Ok? && r.value.company.Some? ==>
              var u := r.value.user;
              var c := r.value.company.value;
              && Screen(b, old(db.users)) == Ok("admin")
              && u.role == Admin && u.managerId.None? && u.id == newUserId
              && u.email == Text.Lower(b.email.v) && u.companyId == c.id && c.id == newCompanyId
              && c.adminId == u.id
              && db.users == old(db.users) + [u] && db.companies == old(db.companies) + [c]
    // the employee / manager path
    ensures r.Ok? && r.value.company.None? ==>
              var u := r.value.user;
              && Screen(b, old(db.users)).Ok? && Screen(b, old(db.users)).value != "admin"
              && RoleName(u.role) == Screen(b, old(db.users)).value
              && b.companyId.Value? && CompanyById(old(db.companies), b.companyId.v).Some?
              && u.companyId == b.companyId.v && u.email == Text.Lower(b.email.v)
              && u.managerId == (if TruthyString(b.managerId) then Some(b.managerId.v) else None)
              && db.users == old(db.users) + [u] && db.companies == old(db.companies)
    // when every write succeeds: the user built from the body, and the administrator's company
    ensures Screen(b, old(db.users)).Ok? && Screen(b, old(db.users)).value != "admin"
            && b.companyId.Value? && CompanyById(old(db.companies), b.companyId.v).Some? ==>
              var ud := UserModel.FromDocument(NewUserDoc(b, Screen(b, old(db.users)).value, b.companyId.v, newUserId, hash));
              && (r.Ok? <==> ud.Ok? && !HasKey(old(db.users), UserId, newUserId))
              && (r.Ok? ==> r.value == Registered(ud.value, None))
    ensures Screen(b, old(db.users)) == Ok("admin") ==>
              var cd := CompanyModel.FromDocument(NewCompanyDoc(b, newCompanyId, tempAdminId));
              var ud := UserModel.FromDocument(NewUserDoc(b, "admin", newCompanyId, newUserId, hash));
              && (r.Ok? <==> cd.Ok? && !HasKey(old(db.companies), CompanyId, newCompanyId)
                             && ud.Ok? && !HasKey(old(db.users), UserId, newUserId))
              && (r.Ok? ==> r.value == Registered(ud.value, Some(cd.value.(adminId := newUserId))))
    ensures Screen(b, old(db.users)).Ok? && Screen(b, old(db.users)).value != "admin"
            && (b.companyId.Value? ==> CompanyById(old(db.companies), b.companyId.v).None?) ==>
              r == Err(404, "Company not found") && db.users == old(db.users) && db.companies == old(db.companies)
    // a failed write after the company was created leaves that company behind
    ensures r.Err? && r.status == 500 ==>
              db.users == old(db.users)
              && (db.companies == old(db.companies)
                  || (Screen(b, old(db.users)) == Ok("admin")
                      && exists c :: db.companies == old(db.companies) + [c] && c.adminId == tempAdminId))
  {
    var screened := Screen(b, db.users);
    if screened.Err? {
      return Err(screened.status, screened.message);
    }
    var role := screened.value;
    if role == "admin" {
      r := RegisterAdmin(db, b, newCompanyId, tempAdminId, newUserId, hash);
    } else {
      if !b.companyId.Value? || CompanyById(db.companies, b.companyId.v).None? {
        return Err(404, "Company not found");
      }
      var user := db.InsertUser(NewUserDoc(b, role, b.companyId.v, newUserId, hash));
      if user.Err? {
        return Err(500, "Internal server error");
      }
      r := Ok(Registered(user.value, None));
    }
  }

  /**
   * The administrator path: create the company with a placeholder administrator, create
   * the user in it, then point the company at the user.
   */
  method RegisterAdmin(db: Database, b: RegisterBody, newCompanyId: string, tempAdminId: string, newUserId: string, hash: string)
    returns (r: Result<Registered>)
    requires db.Valid()
    requires Screen(b, db.users) == Ok("admin")
    modifies db
    ensures db.Valid()
    ensures db.rules == old(db.rules) && db.budgets == old(db.budgets)
    ensures r.Ok? ==>
              var u := r.value.user;
              && r.value.company.Some?
              && var c := r.value.company.value;
              && u.role == Admin && u.managerId.None? && u.id == newUserId
              && u.email == Text.Lower(b.email.v) && u.companyId == c.id && c.id == newCompanyId
              && c.adminId == u.id
              && db.users == old(db.users) + [u] && db.companies == old(db.companies) + [c]
    ensures var cd := CompanyModel.FromDocument(NewCompanyDoc(b, newCompanyId, tempAdminId));
            var ud := UserModel.FromDocument(NewUserDoc(b, "admin", newCompanyId, newUserId, hash));
            && (r.Ok? <==> cd.Ok? && !HasKey(old(db.companies), CompanyId, newCompanyId)
                           && ud.Ok? && !HasKey(old(db.users), UserId, newUserId))
            && (r.Ok? ==> r.value == Registered(ud.value, Some(cd.value.(adminId := newUserId))))
            && (r.Err? && cd.Ok? && !HasKey(old(db.companies), CompanyId, newCompanyId) ==>
                  db.companies == old(db.companies) + [cd.value])
    ensures r.Err? ==>
              r == Err(500, "Internal server error")
              && db.users == old(db.users)
              && (db.companies == old(db.companies)
                  || exists c :: db.companies == old(db.companies) + [c] && c.adminId == tempAdminId)
  {
    var company := db.InsertCompany(NewCompanyDoc(b, newCompanyId, tempAdminId));
    if company.Err? {
      return Err(500, "Internal server error");
    }
    ghost var companiesBefore := db.companies;
    var user := db.InsertUser(NewUserDoc(b, "admin", company.value.id, newUserId, hash));
    if user.Err? {
      return Err(500, "Internal server error");
    }
    var _ := db.SetCompanyAdmin(company.value.id, user.value.id);
    var c := company.value.(adminId := user.value.id);
    assert db.companies == companiesBefore[..|companiesBefore| - 1] + [c] by {
      forall i | 0 <= i < |companiesBefore| - 1 ensures companiesBefore[i].id != company.value.id {
        assert companiesBefore[i] == old(db.companies)[i];
      }
    }
    assert companiesBefore[..|companiesBefore| - 1] == old(db.companies);
    r := Ok(Registered(user.value, Some(c)));
  }

  /**
   * Self sign-up never checks a manager, so it does not keep the invariant the
   * administrator's user creation keeps: an employee who registers without a manager
   * is stored without one.
   */
  lemma RegistrationMayBreakManagersSound(b: RegisterBody, companyId: string, userId: string, hash: string)
    requires TruthyString(b.name) && TruthyString(b.email) && !TruthyString(b.managerId)
    requires companyId != "" && userId != "" && hash != ""
    ensures var d := NewUserDoc(b, "employee", companyId, userId, hash);
            && UserModel.FromDocument(d).Ok?
            && !UsersApi.ManagersSound([UserModel.FromDocument(d).value])
  {
    var u := UserModel.FromDocument(NewUserDoc(b, "employee", companyId, userId, hash)).value;
    assert [u][0].role == Employee && [u][0].managerId.None?;
  }
}

/**
 * The user schema: required fields, the email stored in lower case, the role limited to
 * "employee", "manager" and "admin" (defaulting to "employee"), no manager and active by
 * default. The unique indexes on `id` and `email` are enforced by
 * `Store.Database.InsertUser`.
 */
module UserModel {
  import opened Wrappers
  import opened Types
  import Text

  /** A user document before the schema applies defaults; `None` is a field left out. */
  datatype UserDoc = UserDoc(
    id: Option<string>,
    name: Option<string>,
    email: Option<string>,
    password: Option<string>,
    role: Option<string>,
    companyId: Option<string>,
    managerId: Option<string>,
    isActive: Option<bool>)

  predicate RequiredString(f: Option<string>)
  {
    f.Some? && f.value != ""
  }

  /** The document passes schema validation. */
  predicate Admissible(d: UserDoc)
  {
    && RequiredString(d.id) && RequiredString(d.name) && RequiredString(d.email)
    && RequiredString(d.password) && RequiredString(d.companyId)
    && (d.role.None? || ParseRole(d.role.value).Some?)
  }

  /** Schema validation followed by the lower-casing of the email and the defaults. */
  function FromDocument(d: UserDoc): (r: Result<User>)
    ensures r.Ok? <==> Admissible(d)
    ensures r.Err? ==> r.status == 500
    ensures r.Ok? ==> r.value.id == d.id.value && r.value.companyId == d.companyId.value
                      && r.value.passwordHash == d.password.value && r.value.name == d.name.value
    ensures r.Ok? ==> |r.value.email| == |d.email.value|
                      && forall i :: 0 <= i < |r.value.email| ==> r.value.email[i] == Text.LowerChar(d.email.value[i])
    ensures r.Ok? ==> r.value.email == Text.Lower(d.email.value) && Text.Lower(r.value.email) == r.value.email
    ensures r.Ok? && d.role.None? ==> r.value.role == Employee
    ensures r.Ok? && d.role.Some? ==> RoleName(r.value.role) == d.role.value
    ensures r.Ok? ==> r.value.managerId == d.managerId
    ensures r.Ok? ==> r.value.isActive == (d.isActive.None? || d.isActive.value)
  {
    if !Admissible(d) then Err(500, "Failed to create user")
    else
      Text.LowerIdempotent(d.email.value);
      Ok(User(
        id := d.id.value,
        name := d.name.value,
        email := Text.Lower(d.email.value),
        passwordHash := d.password.value,
        role := if d.role.None? then Employee else ParseRole(d.role.value).value,
        companyId := d.companyId.value,
        managerId := d.managerId,
        isActive := if d.isActive.None? then true else d.isActive.value))
  }

  /** Two emails that differ only in letter case are stored as the same email. */
  lemma EmailCaseInsensitive(d1: UserDoc, d2: UserDoc)
    requires Admissible(d1) && Admissible(d2)
    requires Text.Lower(d1.email.value) == Text.Lower(d2.email.value)
    ensures FromDocument(d1).value.email == FromDocument(d2).value.email
  {
  }
}

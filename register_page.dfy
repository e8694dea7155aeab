/**
 * The sign-up form: choosing a country fills in its currency, and submitting runs the
 * client-side checks in order before choosing which fields to send.
 */
module RegisterPage {
  import opened Wrappers
  import opened Types
  import Seqs
  import RegisterApi
  import Store
  import Text

  /** A country as the countries endpoint lists it. */
  datatype CountryOption = CountryOption(name: string, currencyCode: string, currencyName: string, currencySymbol: string)

  datatype RegisterForm = RegisterForm(
    name: string,
    email: string,
    password: string,
    confirmPassword: string,
    role: Role,
    companyId: string,
    companyName: string,
    country: string,
    currency: string,
    currencySymbol: string)

  /** The form as first shown: empty fields, role "admin". */
  const InitialForm: RegisterForm := RegisterForm("", "", "", "", Admin, "", "", "", "", "")

  /**
   * `handleCountryChange`: a known country sets the country with its currency code and
   * symbol; an unknown name leaves the form as it was.
   */
  function HandleCountryChange(form: RegisterForm, countries: seq<CountryOption>, countryName: string): (r: RegisterForm)
    ensures (forall i :: 0 <= i < |countries| ==> countries[i].name != countryName) ==> r == form
    ensures (exists i :: 0 <= i < |countries| && countries[i].name == countryName) ==>
              exists k :: 0 <= k < |countries| && countries[k].name == countryName
                          && (forall j :: 0 <= j < k ==> countries[j].name != countryName)
                          && r == form.(country := countryName, currency := countries[k].currencyCode,
                                        currencySymbol := countries[k].currencySymbol)
  {
    var found := Seqs.Find(countries, (c: CountryOption) => c.name == countryName);
    if found.None? then form
    else form.(country := countryName, currency := found.value.currencyCode, currencySymbol := found.value.currencySymbol)
  }

  /** The outcome of pressing submit: an error shown on the form, or a request sent with a body. */
  datatype Submission = Blocked(message: string) | Send(body: RegisterApi.RegisterBody)

  /**
   * `handleSubmit`: mismatched passwords, then a short password, then the company field
   * of the chosen role. The body carries the company id only for employees and managers
   * and the company name, country and currency only for administrators (a field set to
   * `undefined` is left out of the JSON).
   */
  function Submit(form: RegisterForm): (s: Submission)
    ensures form.password != form.confirmPassword ==> s == Blocked("Passwords do not match")
    ensures form.password == form.confirmPassword && |form.password| < 6 ==>
              s == Blocked("Password must be at least 6 characters")
    ensures s.Send? <==> form.password == form.confirmPassword && |form.password| >= 6
                         && (form.role == Admin ==> form.companyName != "")
                         && (form.role != Admin ==> form.companyId != "")
    ensures s.Send? && form.role == Admin ==>
              s.body.companyId.Absent? && s.body.companyName == Value(form.companyName)
              && s.body.country == Value(form.country) && s.body.currency == Value(form.currency)
              && s.body.currencySymbol == Value(form.currencySymbol)
    ensures s.Send? && form.role != Admin ==>
              s.body.companyId == Value(form.companyId) && s.body.companyName.Absent?
              && s.body.country.Absent? && s.body.currency.Absent? && s.body.currencySymbol.Absent?
    ensures s.Send? ==> s.body.role == Value(RoleName(form.role)) && s.body.managerId.Absent?
  {
    if form.password != form.confirmPassword then Blocked("Passwords do not match")
    else if |form.password| < 6 then Blocked("Password must be at least 6 characters")
    else if form.role == Admin && form.companyName == "" then Blocked("Company name is required for admin signup")
    else if form.role != Admin && form.companyId == "" then Blocked("Please select a company")
    else
      var admin := form.role == Admin;
      Send(RegisterApi.RegisterBody(
        name := Value(form.name),
        email := Value(form.email),
        password := Value(form.password),
        role := Value(RoleName(form.role)),
        companyName := if admin then Value(form.companyName) else Absent,
        country := if admin then Value(form.country) else Absent,
        currency := if admin then Value(form.currency) else Absent,
        currencySymbol := if admin then Value(form.currencySymbol) else Absent,
        companyId := if admin then Absent else Value(form.companyId),
        managerId := Absent))
  }

  /**
   * What the form lets through the server accepts, given a name, an email not yet
   * taken and, for an administrator, a chosen currency.
   */
  lemma SentFormPassesServerChecks(form: RegisterForm, users: seq<User>)
    requires Submit(form).Send?
    requires form.name != "" && form.email != "" && (form.role == Admin ==> form.currency != "")
    requires Store.UserByEmail(users, Text.Lower(form.email)).None?
    ensures RegisterApi.Screen(Submit(form).body, users) == Ok(RoleName(form.role))
  {
  }

  /** An administrator who picked no country passes the form but is refused by the server. */
  lemma AdminWithoutCurrencyRefusedByServer(form: RegisterForm, users: seq<User>)
    requires Submit(form).Send? && form.role == Admin && form.currency == ""
    requires form.name != "" && form.email != ""
    ensures RegisterApi.Screen(Submit(form).body, users) == Err(400, "Company name and currency required for admin signup")
  {
  }
}

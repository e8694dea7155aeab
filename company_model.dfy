/**
 * The company schema: name, country, currency and administrator are required; the
 * currency symbol defaults to the rupee sign and a company is active by default. The
 * unique index on `id` is enforced by `Store.Database.InsertCompany`.
 */
module CompanyModel {
  import opened Wrappers
  import opened Types

  const DefaultSymbol: string := "₹"

  datatype CompanyDoc = CompanyDoc(
    id: Option<string>,
    name: Option<string>,
    country: Option<string>,
    currency: Option<string>,
    currencySymbol: Option<string>,
    adminId: Option<string>,
    isActive: Option<bool>)

  predicate RequiredString(f: Option<string>)
  {
    f.Some? && f.value != ""
  }

  predicate Admissible(d: CompanyDoc)
  {
    RequiredString(d.id) && RequiredString(d.name) && RequiredString(d.country)
    && RequiredString(d.currency) && RequiredString(d.adminId)
  }

  function FromDocument(d: CompanyDoc): (r: Result<Company>)
    ensures r.Ok? <==> Admissible(d)
    ensures r.Err? ==> r.status == 500
    ensures r.Ok? ==> r.value.id == d.id.value && r.value.name == d.name.value
                      && r.value.country == d.country.value && r.value.currency == d.currency.value
                      && r.value.adminId == d.adminId.value
    ensures r.Ok? ==> r.value.currencySymbol == (if d.currencySymbol.None? then DefaultSymbol else d.currencySymbol.value)
    ensures r.Ok? ==> r.value.isActive == (d.isActive.None? || d.isActive.value)
  {
    if !Admissible(d) then Err(500, "Failed to create company")
    else
      Ok(Company(
        id := d.id.value,
        name := d.name.value,
        country := d.country.value,
        currency := d.currency.value,
        currencySymbol := if d.currencySymbol.None? then DefaultSymbol else d.currencySymbol.value,
        adminId := d.adminId.value,
        isActive := if d.isActive.None? then true else d.isActive.value))
  }
}

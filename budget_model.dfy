/**
 * The budget schema: category from the expense categories, period "monthly" or
 * "yearly", start date required, end date optional, alert threshold defaulting to 80.
 */
module BudgetModel {
  import opened Wrappers
  import opened Types

  const DefaultAlertThreshold: real := 80.0

  datatype BudgetDoc = BudgetDoc(
    id: Option<string>,
    category: Option<string>,
    amount: Option<real>,
    period: Option<string>,
    startDate: Option<string>,
    endDate: Option<string>,
    alertThreshold: Option<real>,
    createdAt: Option<string>,
    updatedAt: Option<string>)

  predicate RequiredString(f: Option<string>)
  {
    f.Some? && f.value != ""
  }

  predicate Admissible(d: BudgetDoc)
  {
    && RequiredString(d.id)
    && d.category.Some? && ParseCategory(d.category.value).Some?
    && d.amount.Some?
    && d.period.Some? && ParsePeriod(d.period.value).Some?
    && RequiredString(d.startDate)
    && RequiredString(d.createdAt) && RequiredString(d.updatedAt)
  }

  function FromDocument(d: BudgetDoc): (r: Result<Budget>)
    ensures r.Ok? <==> Admissible(d)
    ensures r.Err? ==> r.status == 500
    ensures r.Ok? ==> r.value.id == d.id.value && r.value.amount == d.amount.value
                      && r.value.startDate == d.startDate.value && r.value.endDate == d.endDate
    ensures r.Ok? ==> CategoryName(r.value.category) == d.category.value
                      && PeriodName(r.value.period) == d.period.value
    ensures r.Ok? ==> r.value.alertThreshold == (if d.alertThreshold.None? then DefaultAlertThreshold else d.alertThreshold.value)
  {
    if !Admissible(d) then Err(500, "Failed to create budget")
    else
      Ok(Budget(
        id := d.id.value,
        category := ParseCategory(d.category.value).value,
        amount := d.amount.value,
        period := ParsePeriod(d.period.value).value,
        startDate := d.startDate.value,
        endDate := d.endDate,
        alertThreshold := if d.alertThreshold.None? then DefaultAlertThreshold else d.alertThreshold.value))
  }
}

/**
 * `/api/expenses`: listing with a filter record built from the query string and the
 * caller's role, and creation of a new draft expense owned by the caller.
 */
module ExpensesApi {
  import opened Wrappers
  import opened Types
  import ExpenseModel
  import opened ExpenseDb

  /** The query string: `searchParams.get(...)` yields a string or nothing. */
  datatype QueryParams = QueryParams(
    category: Option<string>,
    status: Option<string>,
    dateFrom: Option<string>,
    dateTo: Option<string>,
    minAmount: Option<string>,
    maxAmount: Option<string>)

  /**
   * The filter record for a signed-in caller: only non-empty parameters enter it, the
   * amounts through `parseFloat` (a parameter here), and the caller's role adds the
   * owner (employees) or the company (managers and admins).
   */
  function FiltersFor(session: SessionUser, p: QueryParams, parseFloat: string -> JsNumber): (f: Filters)
    ensures f.category == OnlyTruthy(p.category) && f.status == OnlyTruthy(p.status)
    ensures f.dateFrom == OnlyTruthy(p.dateFrom) && f.dateTo == OnlyTruthy(p.dateTo)
    ensures f.minAmount.Some? <==> Truthy(p.minAmount)
    ensures f.minAmount.Some? ==> f.minAmount.value == parseFloat(p.minAmount.value)
    ensures f.maxAmount.Some? <==> Truthy(p.maxAmount)
    ensures f.maxAmount.Some? ==> f.maxAmount.value == parseFloat(p.maxAmount.value)
    ensures session.role == Employee ==> f.userId == Some(session.id) && f.companyId.None?
    ensures session.role != Employee ==> f.companyId == Some(session.companyId) && f.userId.None?
  {
    Filters(
      OnlyTruthy(p.category), OnlyTruthy(p.status), OnlyTruthy(p.dateFrom), OnlyTruthy(p.dateTo),
      if Truthy(p.minAmount) then Some(parseFloat(p.minAmount.value)) else None,
      if Truthy(p.maxAmount) then Some(parseFloat(p.maxAmount.value)) else None,
      if session.role == Employee then Some(session.id) else None,
      if session.role == Manager || session.role == Admin then Some(session.companyId) else None)
  }

  /** Every signed-in role adds a key, so the listing always goes through `filter`. */
  lemma FiltersNeverEmpty(session: SessionUser, p: QueryParams, parseFloat: string -> JsNumber)
    ensures HasKeys(FiltersFor(session, p, parseFloat))
  {
  }

  /** Fills the filter record key by key, as the handler does. */
  method BuildFilters(session: SessionUser, p: QueryParams, parseFloat: string -> JsNumber) returns (f: Filters)
    ensures f == FiltersFor(session, p, parseFloat)
  {
    f := Filters(None, None, None, None, None, None, None, None);
    if Truthy(p.category) { f := f.(category := p.category); }
    if Truthy(p.status) { f := f.(status := p.status); }
    if Truthy(p.dateFrom) { f := f.(dateFrom := p.dateFrom); }
    if Truthy(p.dateTo) { f := f.(dateTo := p.dateTo); }
    if Truthy(p.minAmount) { f := f.(minAmount := Some(parseFloat(p.minAmount.value))); }
    if Truthy(p.maxAmount) { f := f.(maxAmount := Some(parseFloat(p.maxAmount.value))); }
    if session.role == Employee {
      f := f.(userId := Some(session.id));
    } else if session.role == Manager || session.role == Admin {
      f := f.(companyId := Some(session.companyId));
    }
  }

  /** `GET` as written: the owner and company keys are handed to a filter that ignores them. */
  method ListAsWritten(table: ExpenseTable, session: Option<SessionUser>, p: QueryParams, parseFloat: string -> JsNumber)
    returns (r: Result<seq<Expense>>)
    ensures session.None? ==> r == Err(401, "Unauthorized")
    ensures session.Some? ==> r == Ok(Listing(Select(table.rows, QueryFor(FiltersFor(session.value, p, parseFloat), false))))
  {
    if session.None? {
      return Err(401, "Unauthorized");
    }
    var f := BuildFilters(session.value, p, parseFloat);
    // every role adds a key, so the `getAll` branch of the handler is never taken
    FiltersNeverEmpty(session.value, p, parseFloat);
    assert HasKeys(f);
    var rows := table.FilterAsWritten(f);
    r := Ok(rows);
  }

  /** `GET` with the role scope applied: employees see their own expenses, others their company's. */
  method List(table: ExpenseTable, session: Option<SessionUser>, p: QueryParams, parseFloat: string -> JsNumber)
    returns (r: Result<seq<Expense>>)
    ensures session.None? ==> r == Err(401, "Unauthorized")
    ensures session.Some? ==> r == Ok(Listing(Select(table.rows, QueryFor(FiltersFor(session.value, p, parseFloat), true))))
    ensures r.Ok? && session.value.role == Employee ==> forall e :: e in r.value ==> e.userId == session.value.id
    ensures r.Ok? && session.value.role != Employee ==> forall e :: e in r.value ==> e.companyId == session.value.companyId
  {
    if session.None? {
      return Err(401, "Unauthorized");
    }
    var f := BuildFilters(session.value, p, parseFloat);
    // every role adds a key, so the `getAll` branch of the handler is never taken
    FiltersNeverEmpty(session.value, p, parseFloat);
    assert HasKeys(f);
    var rows := table.Filter(f);
    r := Ok(rows);
  }

  const NoParams: QueryParams := QueryParams(None, None, None, None, None, None)

  /**
   * As written, an employee listing with no parameters contains any stored expense,
   * including one that belongs to somebody else.
   */
  lemma EmployeeSeesOthersAsWritten(rows: seq<Expense>, session: SessionUser, parseFloat: string -> JsNumber, e: Expense)
    requires session.role == Employee && e in rows && e.userId != session.id
    ensures e in Listing(Select(rows, QueryFor(FiltersFor(session, NoParams, parseFloat), false)))
  {
    var q := QueryFor(FiltersFor(session, NoParams, parseFloat), false);
    assert Matches(q, e);
    ListingMembers(Select(rows, q), e);
  }

  /** With the scope applied, an employee listing holds exactly the employee's own expenses that pass the other filters. */
  lemma EmployeeSeesOwnOnly(rows: seq<Expense>, session: SessionUser, p: QueryParams, parseFloat: string -> JsNumber, e: Expense)
    requires session.role == Employee
    ensures e in Listing(Select(rows, QueryFor(FiltersFor(session, p, parseFloat), true)))
            <==> e in rows && e.userId == session.id && Matches(QueryFor(FiltersFor(session, p, parseFloat), false), e)
  {
    var f := FiltersFor(session, p, parseFloat);
    var selected := Select(rows, QueryFor(f, true));
    ListingMembers(selected, e);
    assert e in selected <==> e in rows && Matches(QueryFor(f, true), e);
    ScopedMatches(f, e);
  }

  // ---------------------------------------------------------------- POST

  /** The JSON body of a new expense. */
  datatype ExpenseBody = ExpenseBody(
    amount: Field<real>,
    category: Field<string>,
    description: Field<string>,
    date: Field<string>,
    paymentMethod: Field<string>,
    receiptUrl: Field<string>,
    tags: Field<seq<string>>)

  /**
   * The document handed to the store: a fresh id, owner and company from the session,
   * status "Draft", the body's fields, tags `|| []` (an array, even empty, is truthy).
   */
  function NewExpense(session: SessionUser, body: ExpenseBody, freshId: string, now: string): (d: ExpenseModel.ExpenseDoc)
    ensures d.id == Value(freshId) && d.userId == Value(session.id) && d.companyId == Value(session.companyId)
    ensures d.status == Value("Draft")
    ensures d.tags == Value(if body.tags.Value? then body.tags.v else [])
  {
    ExpenseModel.ExpenseDoc(
      id := Value(freshId),
      userId := Value(session.id),
      companyId := Value(session.companyId),
      amount := body.amount,
      category := body.category,
      description := body.description,
      date := body.date,
      paymentMethod := body.paymentMethod,
      status := Value("Draft"),
      receiptUrl := body.receiptUrl,
      tags := Value(if body.tags.Value? then body.tags.v else []),
      createdAt := Value(now),
      updatedAt := Value(now))
  }

  /**
   * A stored new expense is a draft of the caller, in the caller's company, with no
   * approvals yet; the body never names a currency symbol, so it gets the schema's
   * mis-encoded default.
   */
  lemma NewExpenseIsCallersDraft(session: SessionUser, body: ExpenseBody, freshId: string, now: string)
    requires ExpenseModel.FromDocumentAsWritten(NewExpense(session, body, freshId, now)).Ok?
    ensures var e := ExpenseModel.FromDocumentAsWritten(NewExpense(session, body, freshId, now)).value;
            && e.id == freshId && e.status == Draft
            && e.userId == session.id && e.companyId == session.companyId
            && e.approvals == [] && e.tags == (if body.tags.Value? then body.tags.v else [])
            && e.currencySymbol == ExpenseModel.WrittenSymbolDefault
  {
  }

  /**
   * `POST`: 401 without a session; otherwise the new draft is stored exactly when the
   * schema accepts it and its id is new, and a refused store is a 500.
   */
  method Post(table: ExpenseTable, session: Option<SessionUser>, body: ExpenseBody, freshId: string, now: string)
    returns (r: Result<Expense>)
    requires table.Valid()
    modifies table
    ensures table.Valid()
    ensures session.None? ==> r == Err(401, "Unauthorized") && table.rows == old(table.rows)
    ensures session.Some? ==>
              (r.Ok? <==> ExpenseModel.FromDocumentAsWritten(NewExpense(session.value, body, freshId, now)).Ok?
                          && IndexOf(old(table.rows), freshId).None?)
    ensures session.Some? && r.Ok? ==>
              r == ExpenseModel.FromDocumentAsWritten(NewExpense(session.value, body, freshId, now))
              && table.rows == old(table.rows) + [r.value]
    ensures session.Some? && r.Err? ==> r == Err(500, "Failed to create expense") && table.rows == old(table.rows)
  {
    if session.None? {
      return Err(401, "Unauthorized");
    }
    var created := table.Create(NewExpense(session.value, body, freshId, now));
    if created.Err? {
      r := Err(500, "Failed to create expense");
    } else {
      r := created;
    }
  }
}

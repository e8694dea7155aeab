/**
 * The expense table behind `db.expenses`: read everything, read one, create, patch,
 * delete, and the field-by-field filter. The table is held in memory as a sequence of
 * records whose ids are unique (the schema's unique index); listings come back sorted
 * by the `date` string, latest first.
 */
module ExpenseDb {
  import opened Wrappers
  import opened Types
  import Text
  import Sorting
  import ExpenseModel

  // ---------------------------------------------------------------- Ordering

  /** `sort({ date: -1 })`: a later date string comes first. */
  predicate DateDesc(a: Expense, b: Expense)
  {
    Text.StrLe(b.date, a.date)
  }

  lemma DateDescOrders()
    ensures Sorting.TotalPreorder(DateDesc)
  {
    forall a: Expense, b: Expense ensures DateDesc(a, b) || DateDesc(b, a) {
      Text.StrLeTotal(a.date, b.date);
    }
    forall a: Expense, b: Expense, c: Expense | DateDesc(a, b) && DateDesc(b, c) ensures DateDesc(a, c) {
      Text.StrLeTransitive(c.date, b.date, a.date);
    }
  }

  /** A listing: the given rows, latest date first. */
  function Listing(s: seq<Expense>): (r: seq<Expense>)
    ensures multiset(r) == multiset(s)
    ensures Sorting.SortedBy(r, DateDesc)
  {
    DateDescOrders();
    Sorting.SortBy(s, DateDesc)
  }

  // ---------------------------------------------------------------- Lookup by id

  predicate UniqueIds(s: seq<Expense>)
  {
    forall i, j :: 0 <= i < j < |s| ==> s[i].id != s[j].id
  }

  /** Position of the first record with the given id. */
  function IndexOf(s: seq<Expense>, id: string): (r: Option<nat>)
    ensures r.Some? ==> r.value < |s| && s[r.value].id == id
    ensures r.Some? ==> forall k :: 0 <= k < r.value ==> s[k].id != id
    ensures r.None? <==> forall k :: 0 <= k < |s| ==> s[k].id != id
  {
    if s == [] then None
    else if s[0].id == id then Some(0)
    else
      var t := IndexOf(s[1..], id);
      if t.None? then None else Some(t.value + 1)
  }

  // ---------------------------------------------------------------- Patches

  /**
   * `Partial<Expense>`: the fields an update may supply; `None` leaves the field as it
   * is. A patch cannot rewrite `id` or `updatedAt` (see README).
   */
  datatype Patch = Patch(
    userId: Option<string>,
    companyId: Option<string>,
    amount: Option<real>,
    currency: Option<string>,
    currencySymbol: Option<string>,
    convertedAmount: Option<Option<real>>,
    companyCurrency: Option<Option<string>>,
    exchangeRate: Option<Option<real>>,
    category: Option<ExpenseCategory>,
    description: Option<string>,
    date: Option<string>,
    paymentMethod: Option<PaymentMethod>,
    status: Option<ExpenseStatus>,
    approvals: Option<seq<ExpenseApproval>>,
    isManagerApproverRequired: Option<bool>,
    submittedAt: Option<Option<Timestamp>>,
    approvedAt: Option<Option<Timestamp>>,
    rejectedAt: Option<Option<Timestamp>>,
    receiptUrl: Option<Option<string>>,
    tags: Option<seq<string>>,
    createdAt: Option<string>)

  const EmptyPatch: Patch := Patch(None, None, None, None, None, None, None, None, None, None, None,
                                   None, None, None, None, None, None, None, None, None, None)

  function Pick<T>(o: Option<T>, d: T): T
  {
    if o.Some? then o.value else d
  }

  /** `{ ...updates, updatedAt: now }` applied to a stored record. */
  function ApplyPatch(e: Expense, p: Patch, now: string): (r: Expense)
    ensures r.id == e.id && r.updatedAt == now
  {
    e.(userId := Pick(p.userId, e.userId),
       companyId := Pick(p.companyId, e.companyId),
       amount := Pick(p.amount, e.amount),
       currency := Pick(p.currency, e.currency),
       currencySymbol := Pick(p.currencySymbol, e.currencySymbol),
       convertedAmount := Pick(p.convertedAmount, e.convertedAmount),
       companyCurrency := Pick(p.companyCurrency, e.companyCurrency),
       exchangeRate := Pick(p.exchangeRate, e.exchangeRate),
       category := Pick(p.category, e.category),
       description := Pick(p.description, e.description),
       date := Pick(p.date, e.date),
       paymentMethod := Pick(p.paymentMethod, e.paymentMethod),
       status := Pick(p.status, e.status),
       approvals := Pick(p.approvals, e.approvals),
       isManagerApproverRequired := Pick(p.isManagerApproverRequired, e.isManagerApproverRequired),
       submittedAt := Pick(p.submittedAt, e.submittedAt),
       approvedAt := Pick(p.approvedAt, e.approvedAt),
       rejectedAt := Pick(p.rejectedAt, e.rejectedAt),
       receiptUrl := Pick(p.receiptUrl, e.receiptUrl),
       tags := Pick(p.tags, e.tags),
       createdAt := Pick(p.createdAt, e.createdAt),
       updatedAt := now)
  }

  /** An empty patch changes nothing but the modification time. */
  lemma EmptyPatchOnlyTouchesUpdatedAt(e: Expense, now: string)
    ensures ApplyPatch(e, EmptyPatch, now) == e.(updatedAt := now)
  {
  }

  /** Applying the same patch twice is the same as applying it once. */
  lemma ApplyPatchIdempotent(e: Expense, p: Patch, now: string)
    ensures ApplyPatch(ApplyPatch(e, p, now), p, now) == ApplyPatch(e, p, now)
  {
  }

  /** The patched value of one field: the supplied value, or the old one when the patch leaves it out. */
  predicate Patched<T(==)>(supplied: Option<T>, before: T, after: T)
  {
    (supplied.Some? ==> after == supplied.value) && (supplied.None? ==> after == before)
  }

  /**
   * Every field a patch supplies is stored as given and every field it leaves out keeps
   * its old value; the id is kept and `updatedAt` is the current time.
   */
  lemma ApplyPatchFields(e: Expense, p: Patch, now: string)
    ensures var r := ApplyPatch(e, p, now);
            && Patched(p.userId, e.userId, r.userId) && Patched(p.companyId, e.companyId, r.companyId) && Patched(p.amount, e.amount, r.amount)
            && Patched(p.currency, e.currency, r.currency) && Patched(p.currencySymbol, e.currencySymbol, r.currencySymbol) && Patched(p.convertedAmount, e.convertedAmount, r.convertedAmount)
            && Patched(p.companyCurrency, e.companyCurrency, r.companyCurrency) && Patched(p.exchangeRate, e.exchangeRate, r.exchangeRate) && Patched(p.category, e.category, r.category)
            && Patched(p.description, e.description, r.description) && Patched(p.date, e.date, r.date) && Patched(p.paymentMethod, e.paymentMethod, r.paymentMethod)
            && Patched(p.status, e.status, r.status) && Patched(p.approvals, e.approvals, r.approvals) && Patched(p.isManagerApproverRequired, e.isManagerApproverRequired, r.isManagerApproverRequired)
            && Patched(p.submittedAt, e.submittedAt, r.submittedAt) && Patched(p.approvedAt, e.approvedAt, r.approvedAt) && Patched(p.rejectedAt, e.rejectedAt, r.rejectedAt)
            && Patched(p.receiptUrl, e.receiptUrl, r.receiptUrl) && Patched(p.tags, e.tags, r.tags) && Patched(p.createdAt, e.createdAt, r.createdAt)
            && r.id == e.id && r.updatedAt == now
  {
  }

  // ---------------------------------------------------------------- Filters and queries

  /**
   * The filter record handed to `filter`: `None` is a key that is not set. The two
   * amount bounds are JavaScript numbers (they come from `parseFloat`).
   */
  datatype Filters = Filters(
    category: Option<string>,
    status: Option<string>,
    dateFrom: Option<string>,
    dateTo: Option<string>,
    minAmount: Option<JsNumber>,
    maxAmount: Option<JsNumber>,
    userId: Option<string>,
    companyId: Option<string>)

  /** `Object.keys(filters).length > 0`. */
  predicate HasKeys(f: Filters)
  {
    f.category.Some? || f.status.Some? || f.dateFrom.Some? || f.dateTo.Some?
    || f.minAmount.Some? || f.maxAmount.Some? || f.userId.Some? || f.companyId.Some?
  }

  /** A string-valued filter key counts only when its value is truthy. */
  predicate Truthy(o: Option<string>)
  {
    o.Some? && o.value != ""
  }

  /** The database query: equality on some fields, inclusive ranges on `date` and `amount`. */
  datatype Query = Query(
    category: Option<string>,
    status: Option<string>,
    dateGte: Option<string>,
    dateLte: Option<string>,
    amountGte: Option<JsNumber>,
    amountLte: Option<JsNumber>,
    userId: Option<string>,
    companyId: Option<string>)

  const MatchAll: Query := Query(None, None, None, None, None, None, None, None)

  /** `amount >= b` as the database compares a stored (finite) amount with a number. */
  predicate AmountAtLeast(a: real, b: JsNumber)
  {
    match b
    case Finite(v) => a >= v
    case NegativeInfinity => true
    case PositiveInfinity => false
    case NotANumber => false
  }

  predicate AmountAtMost(a: real, b: JsNumber)
  {
    match b
    case Finite(v) => a <= v
    case NegativeInfinity => false
    case PositiveInfinity => true
    case NotANumber => false
  }

  /** A record satisfies every condition the query sets. */
  predicate Matches(q: Query, e: Expense)
  {
    && (q.category.Some? ==> CategoryName(e.category) == q.category.value)
    && (q.status.Some? ==> StatusName(e.status) == q.status.value)
    && (q.dateGte.Some? ==> Text.StrLe(q.dateGte.value, e.date))
    && (q.dateLte.Some? ==> Text.StrLe(e.date, q.dateLte.value))
    && (q.amountGte.Some? ==> AmountAtLeast(e.amount, q.amountGte.value))
    && (q.amountLte.Some? ==> AmountAtMost(e.amount, q.amountLte.value))
    && (q.userId.Some? ==> e.userId == q.userId.value)
    && (q.companyId.Some? ==> e.companyId == q.companyId.value)
  }

  function OnlyTruthy(o: Option<string>): (r: Option<string>)
    ensures r.Some? <==> Truthy(o)
    ensures r.Some? ==> r == o
  {
    if Truthy(o) then o else None
  }

  /**
   * The query `filter` builds from a filter record. With `honourScope` false this is the
   * code as written, which never looks at `userId` or `companyId`; with it true the two
   * keys become equality conditions too.
   */
  function QueryFor(f: Filters, honourScope: bool): (q: Query)
    ensures q.category.Some? <==> Truthy(f.category)
    ensures q.status.Some? <==> Truthy(f.status)
    ensures q.dateGte.Some? <==> Truthy(f.dateFrom)
    ensures q.dateLte.Some? <==> Truthy(f.dateTo)
    ensures q.category == OnlyTruthy(f.category) && q.status == OnlyTruthy(f.status)
    ensures q.dateGte == OnlyTruthy(f.dateFrom) && q.dateLte == OnlyTruthy(f.dateTo)
    ensures q.amountGte == f.minAmount && q.amountLte == f.maxAmount
    ensures !honourScope ==> q.userId.None? && q.companyId.None?
    ensures honourScope ==> q.userId == f.userId && q.companyId == f.companyId
  {
    Query(OnlyTruthy(f.category), OnlyTruthy(f.status), OnlyTruthy(f.dateFrom), OnlyTruthy(f.dateTo),
          f.minAmount, f.maxAmount,
          if honourScope then f.userId else None,
          if honourScope then f.companyId else None)
  }

  /** With the scope honoured, a row matches iff it matches the query as written and has the requested owner and company. */
  lemma ScopedMatches(f: Filters, e: Expense)
    ensures Matches(QueryFor(f, true), e)
            <==> Matches(QueryFor(f, false), e)
                 && (f.userId.Some? ==> e.userId == f.userId.value)
                 && (f.companyId.Some? ==> e.companyId == f.companyId.value)
  {
  }

  /** The rows a query selects, in table order. */
  function Select(s: seq<Expense>, q: Query): (r: seq<Expense>)
    ensures |r| <= |s|
    ensures forall e :: e in r <==> e in s && Matches(q, e)
    ensures multiset(r) <= multiset(s)
  {
    if s == [] then []
    else
      var rest := Select(s[1..], q);
      assert s == [s[0]] + s[1..];
      if Matches(q, s[0]) then [s[0]] + rest else rest
  }

  /** An amount equal to a bound passes it: both amount bounds are inclusive. */
  lemma AmountBoundsInclusive(e: Expense, f: Filters, honourScope: bool)
    requires f.minAmount == Some(Finite(e.amount)) && f.maxAmount == Some(Finite(e.amount))
    requires f.category.None? && f.status.None? && f.dateFrom.None? && f.dateTo.None?
    requires f.userId.None? && f.companyId.None?
    ensures Matches(QueryFor(f, honourScope), e)
  {
  }

  /** A zero amount bound is applied, not skipped as a falsy value would be. */
  lemma ZeroMinimumApplies(e: Expense, f: Filters, honourScope: bool)
    requires f.minAmount == Some(Finite(0.0)) && e.amount < 0.0
    ensures !Matches(QueryFor(f, honourScope), e)
  {
  }

  /** An empty category or status is ignored, exactly as a missing one. */
  lemma EmptyStringsIgnored(f: Filters, honourScope: bool)
    requires f.category == Some("") || f.status == Some("")
    ensures QueryFor(f, honourScope) ==
            QueryFor(f.(category := OnlyTruthy(f.category), status := OnlyTruthy(f.status)), honourScope)
  {
  }

  /** The query as written is the same whatever `userId` and `companyId` say. */
  lemma QueryIgnoresScope(f: Filters, userId: Option<string>, companyId: Option<string>)
    ensures QueryFor(f, false) == QueryFor(f.(userId := userId, companyId := companyId), false)
  {
  }

  // ---------------------------------------------------------------- The table

  class ExpenseTable {
    var rows: seq<Expense>

    ghost predicate Valid()
      reads this
    {
      UniqueIds(rows)
    }

    constructor ()
      ensures rows == [] && Valid()
    {
      rows := [];
    }

    /** `getAll`: every record, latest date first. */
    method GetAll() returns (r: seq<Expense>)
      ensures multiset(r) == multiset(rows)
      ensures Sorting.SortedBy(r, DateDesc)
    {
      r := Listing(rows);
    }

    /** `getById`: the record with that id, or nothing when no record has it. */
    method GetById(id: string) returns (r: Option<Expense>)
      requires Valid()
      ensures r.None? <==> forall k :: 0 <= k < |rows| ==> rows[k].id != id
      ensures r.Some? ==> r.value in rows && r.value.id == id
    {
      var i := IndexOf(rows, id);
      r := if i.None? then None else Some(rows[i.value]);
    }

    /**
     * `create`: schema validation and defaults (the schema as written, with its
     * mis-encoded currency symbol default), then an insert that the unique index on `id`
     * refuses when the id is taken; any failure is reported as a 500.
     */
    method Create(d: ExpenseModel.ExpenseDoc) returns (r: Result<Expense>)
      requires Valid()
      modifies this
      ensures Valid()
      ensures r.Ok? <==> ExpenseModel.FromDocumentAsWritten(d).Ok? && IndexOf(old(rows), d.id.v).None?
      ensures r.Ok? ==> r == ExpenseModel.FromDocumentAsWritten(d) && rows == old(rows) + [r.value]
      ensures r.Err? ==> r.status == 500 && rows == old(rows)
    {
      var doc := ExpenseModel.FromDocumentAsWritten(d);
      if doc.Err? || IndexOf(rows, doc.value.id).Some? {
        r := Err(500, "Failed to create expense in database");
      } else {
        rows := rows + [doc.value];
        r := doc;
      }
    }

    /** `update`: the supplied fields and `updatedAt` are replaced; nothing happens for an unknown id. */
    method Update(id: string, p: Patch, now: string) returns (r: Option<Expense>)
      requires Valid()
      modifies this
      ensures Valid()
      ensures IndexOf(old(rows), id).None? ==> r.None? && rows == old(rows)
      ensures IndexOf(old(rows), id).Some? ==>
                var i := IndexOf(old(rows), id).value;
                r == Some(ApplyPatch(old(rows)[i], p, now)) && rows == old(rows)[i := r.value]
    {
      var i := IndexOf(rows, id);
      if i.None? {
        r := None;
      } else {
        var e := ApplyPatch(rows[i.value], p, now);
        rows := rows[i.value := e];
        r := Some(e);
      }
    }

    /** `delete`: true exactly when a record with the id existed, which is then gone. */
    method Delete(id: string) returns (deleted: bool)
      requires Valid()
      modifies this
      ensures Valid()
      ensures deleted <==> IndexOf(old(rows), id).Some?
      ensures deleted ==> var i := IndexOf(old(rows), id).value;
                          rows == old(rows)[..i] + old(rows)[i + 1..]
      ensures !deleted ==> rows == old(rows)
      ensures forall k :: 0 <= k < |rows| ==> rows[k].id != id
    {
      var i := IndexOf(rows, id);
      if i.None? {
        deleted := false;
      } else {
        var j := i.value;
        var s := rows[..j] + rows[j + 1..];
        forall a, b | 0 <= a < b < |s| ensures s[a].id != s[b].id {
          assert s[a] == rows[if a < j then a else a + 1];
          assert s[b] == rows[if b < j then b else b + 1];
        }
        forall k | 0 <= k < |s| ensures s[k].id != id {
          assert s[k] == rows[if k < j then k else k + 1];
        }
        rows := s;
        deleted := true;
      }
    }

    /**
     * Fills in the query field by field as `filter` does. `honourScope` false is the code
     * as written; true also carries the `userId` and `companyId` keys into the query.
     */
    static method BuildQuery(f: Filters, honourScope: bool) returns (q: Query)
      ensures q == QueryFor(f, honourScope)
    {
      q := MatchAll;
      if Truthy(f.category) {
        q := q.(category := f.category);
      }
      if Truthy(f.status) {
        q := q.(status := f.status);
      }
      if Truthy(f.dateFrom) || Truthy(f.dateTo) {
        if Truthy(f.dateFrom) {
          q := q.(dateGte := f.dateFrom);
        }
        if Truthy(f.dateTo) {
          q := q.(dateLte := f.dateTo);
        }
      }
      if f.minAmount.Some? || f.maxAmount.Some? {
        if f.minAmount.Some? {
          q := q.(amountGte := f.minAmount);
        }
        if f.maxAmount.Some? {
          q := q.(amountLte := f.maxAmount);
        }
      }
      if honourScope {
        if f.userId.Some? {
          q := q.(userId := f.userId);
        }
        if f.companyId.Some? {
          q := q.(companyId := f.companyId);
        }
      }
    }

    /** `filter` as written: the records matching the query, latest date first. */
    method FilterAsWritten(f: Filters) returns (r: seq<Expense>)
      ensures r == Listing(Select(rows, QueryFor(f, false)))
      ensures forall e :: e in r <==> e in rows && Matches(QueryFor(f, false), e)
    {
      var q := BuildQuery(f, false);
      r := Listing(Select(rows, q));
      forall e ensures e in r <==> e in Select(rows, q) {
        assert e in r <==> e in multiset(r);
      }
    }

    /** `filter` with the owner and company keys applied, so a scoped caller sees only their records. */
    method Filter(f: Filters) returns (r: seq<Expense>)
      ensures r == Listing(Select(rows, QueryFor(f, true)))
      ensures forall e :: e in r <==> e in rows && Matches(QueryFor(f, true), e)
      ensures f.userId.Some? ==> forall e :: e in r ==> e.userId == f.userId.value
      ensures f.companyId.Some? ==> forall e :: e in r ==> e.companyId == f.companyId.value
    {
      var q := BuildQuery(f, true);
      r := Listing(Select(rows, q));
      forall e ensures e in r <==> e in Select(rows, q) {
        assert e in r <==> e in multiset(r);
      }
    }
  }

  /** Every record of a listing came from the table, and each table record appears in it. */
  lemma ListingMembers(s: seq<Expense>, e: Expense)
    ensures e in Listing(s) <==> e in s
  {
    assert e in Listing(s) <==> e in multiset(Listing(s));
    assert e in s <==> e in multiset(s);
  }

  /**
   * The filter as written returns a record whatever its owner: with only a `userId` key
   * set, every row of the table is listed.
   */
  lemma FilterIgnoresOwner(s: seq<Expense>, userId: string, e: Expense)
    requires e in s && e.userId != userId
    ensures e in Listing(Select(s, QueryFor(Filters(None, None, None, None, None, None, Some(userId), None), false)))
  {
    ListingMembers(Select(s, QueryFor(Filters(None, None, None, None, None, None, Some(userId), None), false)), e);
  }
}

/**
 * `/api/analytics`: the overall total and the daily and monthly averages, the category
 * with the largest total, and totals per category, per payment method and per date.
 * `expenses` is the table as `getAll` lists it; dates are read in UTC.
 */
module AnalyticsApi {
  import opened Wrappers
  import opened Types
  import Calendar
  import Grouping
  import DashboardApi

  function PaymentMethodOf(e: Expense): PaymentMethod
  {
    e.paymentMethod
  }

  function DateOf(e: Expense): string
  {
    e.date
  }

  function Itself(x: real): real
  {
    x
  }

  /** `Math.max(1, n)`. */
  function AtLeastOne(n: nat): (r: real)
    ensures r >= 1.0 && (n >= 1 ==> r == n as real)
  {
    if n >= 1 then n as real else 1.0
  }

  // ---------------------------------------------------------------- Top category

  /** The position of the first entry with the largest amount. */
  function FirstLargest(entries: seq<(ExpenseCategory, real)>): (i: nat)
    requires |entries| > 0
    ensures i < |entries|
    ensures forall j :: 0 <= j < |entries| ==> entries[j].1 <= entries[i].1
    ensures forall j :: 0 <= j < i ==> entries[j].1 < entries[i].1
  {
    if |entries| == 1 then 0
    else
      var init := entries[..|entries| - 1];
      assert forall j :: 0 <= j < |init| ==> init[j] == entries[j];
      var i := FirstLargest(init);
      if entries[|entries| - 1].1 > init[i].1 then |entries| - 1 else i
  }

  /**
   * `topCategory`: the entries sorted by amount, largest first, by a stable sort, and the
   * first one taken; "Food" when there are none.
   */
  function TopCategory(entries: seq<(ExpenseCategory, real)>): (c: ExpenseCategory)
    ensures entries == [] ==> c == Food
    ensures entries != [] ==> exists i :: 0 <= i < |entries| && entries[i].0 == c
                                         && (forall j :: 0 <= j < |entries| ==> entries[j].1 <= entries[i].1)
                                         && (forall j :: 0 <= j < i ==> entries[j].1 < entries[i].1)
  {
    if entries == [] then Food else entries[FirstLargest(entries)].0
  }

  // ---------------------------------------------------------------- The answer

  datatype CategoryAnalysis = CategoryAnalysis(category: ExpenseCategory, amount: real, percentage: JsNumber, count: nat)
  datatype MethodAnalysis = MethodAnalysis(paymentMethod: PaymentMethod, amount: real, count: nat)
  datatype DailyAmount = DailyAmount(date: string, amount: real)

  datatype Overview = Overview(totalSpent: real, averageDaily: real, averageMonthly: real, topCategory: ExpenseCategory)

  datatype AnalyticsData = AnalyticsData(
    overview: Overview,
    categoryAnalysis: seq<CategoryAnalysis>,
    daily: seq<DailyAmount>,
    weekly: seq<DailyAmount>,
    monthly: seq<DailyAmount>,
    paymentMethodAnalysis: seq<MethodAnalysis>)

  function MethodAmount(m: MethodAnalysis): real
  {
    m.amount
  }

  function MethodCount(m: MethodAnalysis): nat
  {
    m.count
  }

  /**
   * The per-category totals in the order the categories first occur, and the category
   * among them with the largest total.
   */
  method CategoryTotals(expenses: seq<Expense>) returns (entries: seq<(ExpenseCategory, real)>)
    ensures |entries| == |Grouping.Keys(expenses, DashboardApi.CategoryOf)|
    ensures forall j :: 0 <= j < |entries| ==>
              entries[j].0 == Grouping.Keys(expenses, DashboardApi.CategoryOf)[j]
              && entries[j].1 == Grouping.SumFor(expenses, DashboardApi.CategoryOf, entries[j].0, AmountOf)
  {
    var keys, sums, counts := Grouping.Tally(expenses, DashboardApi.CategoryOf, AmountOf);
    entries := [];
    for j := 0 to |keys|
      invariant |entries| == j
      invariant forall i :: 0 <= i < j ==>
                  entries[i].0 == keys[i] && entries[i].1 == Grouping.SumFor(expenses, DashboardApi.CategoryOf, keys[i], AmountOf)
    {
      entries := entries + [(keys[j], sums[keys[j]])];
    }
  }

  /** The amount and number of expenses per payment method, adding up to the totals. */
  method MethodTotals(expenses: seq<Expense>) returns (entries: seq<MethodAnalysis>)
    ensures |entries| == |Grouping.Keys(expenses, PaymentMethodOf)|
    ensures forall j :: 0 <= j < |entries| ==>
              var m := Grouping.Keys(expenses, PaymentMethodOf)[j];
              && entries[j].paymentMethod == m
              && entries[j].amount == Grouping.SumFor(expenses, PaymentMethodOf, m, AmountOf)
              && entries[j].count == Grouping.CountFor(expenses, PaymentMethodOf, m)
    ensures Grouping.Sum(entries, MethodAmount) == Grouping.Sum(expenses, AmountOf)
    ensures Grouping.NatSum(entries, MethodCount) == |expenses|
  {
    var keys, sums, counts := Grouping.Tally(expenses, PaymentMethodOf, AmountOf);
    entries := [];
    for j := 0 to |keys|
      invariant |entries| == j
      invariant forall i :: 0 <= i < j ==>
                  && entries[i].paymentMethod == keys[i]
                  && entries[i].amount == Grouping.SumFor(expenses, PaymentMethodOf, keys[i], AmountOf)
                  && entries[i].count == Grouping.CountFor(expenses, PaymentMethodOf, keys[i])
    {
      var m := keys[j];
      entries := entries + [MethodAnalysis(m, sums[m], counts[m])];
    }
    Grouping.EntryTotals(entries, MethodAmount, keys, expenses, PaymentMethodOf, AmountOf);
    Grouping.EntryCounts(entries, MethodCount, keys, expenses, PaymentMethodOf);
    Grouping.SumsPartitionTotal(expenses, PaymentMethodOf, AmountOf);
    Grouping.CountsPartitionLength(expenses, PaymentMethodOf);
  }

  /** One entry per distinct date text, in the order the dates first occur. */
  method DailyTotals(expenses: seq<Expense>) returns (entries: seq<DailyAmount>)
    ensures |entries| == |Grouping.Keys(expenses, DateOf)|
    ensures forall j :: 0 <= j < |entries| ==>
              entries[j].date == Grouping.Keys(expenses, DateOf)[j]
              && entries[j].amount == Grouping.SumFor(expenses, DateOf, entries[j].date, AmountOf)
    ensures forall i, j :: 0 <= i < j < |entries| ==> entries[i].date != entries[j].date
    ensures forall i :: 0 <= i < |expenses| ==> exists j :: 0 <= j < |entries| && entries[j].date == expenses[i].date
  {
    var keys, sums, counts := Grouping.Tally(expenses, DateOf, AmountOf);
    entries := [];
    for j := 0 to |keys|
      invariant |entries| == j
      invariant forall i :: 0 <= i < j ==>
                  entries[i].date == keys[i] && entries[i].amount == Grouping.SumFor(expenses, DateOf, keys[i], AmountOf)
    {
      entries := entries + [DailyAmount(keys[j], sums[keys[j]])];
    }
    forall i | 0 <= i < |expenses| ensures exists j :: 0 <= j < |entries| && entries[j].date == expenses[i].date {
      var j := DateListed(expenses, keys, i);
      assert entries[j].date == expenses[i].date;
    }
  }

  /** Every expense's date is one of the grouped dates. */
  lemma DateListed(expenses: seq<Expense>, keys: seq<string>, i: int) returns (j: int)
    requires keys == Grouping.Keys(expenses, DateOf) && 0 <= i < |expenses|
    ensures 0 <= j < |keys| && keys[j] == expenses[i].date
  {
    assert DateOf(expenses[i]) in keys;
    j :| 0 <= j < |keys| && keys[j] == DateOf(expenses[i]);
  }

  /**
   * `averageMonthly`: the per-month totals added up, over the number of months seen. The
   * month of an expense is keyed by its year and zero-based month (the text
   * `${year}-${month}` tells different months apart); every date that does not parse falls
   * under one key. The per-month totals add up to the overall total.
   */
  method MonthlyAverage(expenses: seq<Expense>) returns (average: real)
    ensures average == Grouping.Sum(expenses, AmountOf) / AtLeastOne(|Grouping.Keys(expenses, DashboardApi.MonthOf)|)
  {
    var months, values := MonthTotals(expenses);
    Grouping.EntryTotals(values, Itself, months, expenses, DashboardApi.MonthOf, AmountOf);
    Grouping.SumsPartitionTotal(expenses, DashboardApi.MonthOf, AmountOf);
    average := Grouping.Sum(values, Itself) / AtLeastOne(|months|);
  }

  /** The months in the order they first occur, with each month's total. */
  method MonthTotals(expenses: seq<Expense>) returns (months: seq<Option<(int, int)>>, values: seq<real>)
    ensures months == Grouping.Keys(expenses, DashboardApi.MonthOf)
    ensures |values| == |months|
    ensures forall j :: 0 <= j < |values| ==> Itself(values[j]) == Grouping.SumFor(expenses, DashboardApi.MonthOf, months[j], AmountOf)
  {
    var sums, counts;
    months, sums, counts := Grouping.Tally(expenses, DashboardApi.MonthOf, AmountOf);
    values := [];
    for j := 0 to |months|
      invariant |values| == j
      invariant forall i :: 0 <= i < j ==> values[i] == Grouping.SumFor(expenses, DashboardApi.MonthOf, months[i], AmountOf)
    {
      values := values + [sums[months[j]]];
    }
  }

  /** The top category of the per-category totals has the largest total of any category present. */
  lemma TopCategoryIsLargest(expenses: seq<Expense>, categories: seq<(ExpenseCategory, real)>)
    requires expenses != []
    requires |categories| == |Grouping.Keys(expenses, DashboardApi.CategoryOf)|
    requires forall j :: 0 <= j < |categories| ==>
               categories[j].0 == Grouping.Keys(expenses, DashboardApi.CategoryOf)[j]
               && categories[j].1 == Grouping.SumFor(expenses, DashboardApi.CategoryOf, categories[j].0, AmountOf)
    ensures var c := TopCategory(categories);
            && (exists i :: 0 <= i < |expenses| && expenses[i].category == c)
            && forall i :: 0 <= i < |expenses| ==>
                 Grouping.SumFor(expenses, DashboardApi.CategoryOf, expenses[i].category, AmountOf)
                 <= Grouping.SumFor(expenses, DashboardApi.CategoryOf, c, AmountOf)
  {
    var keys := Grouping.Keys(expenses, DashboardApi.CategoryOf);
    var top := TopCategory(categories);
    assert DashboardApi.CategoryOf(expenses[0]) in keys;
    var i :| 0 <= i < |categories| && categories[i].0 == top
             && (forall j :: 0 <= j < |categories| ==> categories[j].1 <= categories[i].1);
    forall k | 0 <= k < |expenses|
      ensures Grouping.SumFor(expenses, DashboardApi.CategoryOf, expenses[k].category, AmountOf)
              <= Grouping.SumFor(expenses, DashboardApi.CategoryOf, top, AmountOf)
    {
      assert DashboardApi.CategoryOf(expenses[k]) in keys;
      var j :| 0 <= j < |keys| && keys[j] == expenses[k].category;
    }
    assert keys[i] == top;
    assert top in keys;
    var m :| 0 <= m < |expenses| && DashboardApi.CategoryOf(expenses[m]) == top;
    assert expenses[m].category == top;
  }

  /** `categoryAnalysis`: each category's total, share of the overall total and number of expenses. */
  method CategoryAnalyses(expenses: seq<Expense>, categories: seq<(ExpenseCategory, real)>, total: real)
    returns (analysis: seq<CategoryAnalysis>)
    ensures |analysis| == |categories|
    ensures forall i :: 0 <= i < |analysis| ==>
              && analysis[i].category == categories[i].0
              && analysis[i].amount == categories[i].1
              && analysis[i].count == Grouping.CountFor(expenses, DashboardApi.CategoryOf, categories[i].0)
              && analysis[i].percentage == Scale(Divide(analysis[i].amount, total), 100.0)
  {
    analysis := [];
    for j := 0 to |categories|
      invariant |analysis| == j
      invariant forall i :: 0 <= i < j ==>
                  && analysis[i].category == categories[i].0
                  && analysis[i].amount == categories[i].1
                  && analysis[i].count == Grouping.CountFor(expenses, DashboardApi.CategoryOf, categories[i].0)
                  && analysis[i].percentage == Scale(Divide(analysis[i].amount, total), 100.0)
    {
      var (c, amount) := categories[j];
      analysis := analysis + [CategoryAnalysis(c, amount, Scale(Divide(amount, total), 100.0),
                                               Grouping.CountFor(expenses, DashboardApi.CategoryOf, c))];
    }
  }

  /** `GET`: every part of the answer computed from the same listing. */
  method Analytics(expenses: seq<Expense>) returns (a: AnalyticsData)
    ensures a.overview.totalSpent == Grouping.Sum(expenses, AmountOf)
    ensures a.overview.averageDaily == a.overview.totalSpent / AtLeastOne(|expenses|)
    ensures a.overview.averageMonthly
            == a.overview.totalSpent / AtLeastOne(|Grouping.Keys(expenses, DashboardApi.MonthOf)|)
    ensures expenses == [] ==> a.overview.totalSpent == 0.0 && a.overview.averageDaily == 0.0
                               && a.overview.topCategory == Food
    ensures expenses != [] ==>
              var c := a.overview.topCategory;
              && (exists i :: 0 <= i < |expenses| && expenses[i].category == c)
              && forall i :: 0 <= i < |expenses| ==>
                   Grouping.SumFor(expenses, DashboardApi.CategoryOf, expenses[i].category, AmountOf)
                   <= Grouping.SumFor(expenses, DashboardApi.CategoryOf, c, AmountOf)
    ensures |a.categoryAnalysis| == |Grouping.Keys(expenses, DashboardApi.CategoryOf)|
    ensures forall j :: 0 <= j < |a.categoryAnalysis| ==>
              var e := a.categoryAnalysis[j];
              && e.category == Grouping.Keys(expenses, DashboardApi.CategoryOf)[j]
              && e.amount == Grouping.SumFor(expenses, DashboardApi.CategoryOf, e.category, AmountOf)
              && e.count == Grouping.CountFor(expenses, DashboardApi.CategoryOf, e.category)
              && e.percentage == Scale(Divide(e.amount, a.overview.totalSpent), 100.0)
    ensures |a.paymentMethodAnalysis| == |Grouping.Keys(expenses, PaymentMethodOf)|
    ensures forall j :: 0 <= j < |a.paymentMethodAnalysis| ==>
              var m := Grouping.Keys(expenses, PaymentMethodOf)[j];
              && a.paymentMethodAnalysis[j].paymentMethod == m
              && a.paymentMethodAnalysis[j].amount == Grouping.SumFor(expenses, PaymentMethodOf, m, AmountOf)
              && a.paymentMethodAnalysis[j].count == Grouping.CountFor(expenses, PaymentMethodOf, m)
    ensures Grouping.Sum(a.paymentMethodAnalysis, MethodAmount) == a.overview.totalSpent
    ensures Grouping.NatSum(a.paymentMethodAnalysis, MethodCount) == |expenses|
    ensures |a.daily| == |Grouping.Keys(expenses, DateOf)|
    ensures forall j :: 0 <= j < |a.daily| ==>
              a.daily[j].date == Grouping.Keys(expenses, DateOf)[j]
              && a.daily[j].amount == Grouping.SumFor(expenses, DateOf, a.daily[j].date, AmountOf)
    ensures forall i, j :: 0 <= i < j < |a.daily| ==> a.daily[i].date != a.daily[j].date
    ensures forall i :: 0 <= i < |expenses| ==> exists j :: 0 <= j < |a.daily| && a.daily[j].date == expenses[i].date
    ensures a.weekly == [] && a.monthly == []
  {
    var total := Grouping.Sum(expenses, AmountOf);
    var averageDaily := total / AtLeastOne(|expenses|);
    var averageMonthly := MonthlyAverage(expenses);
    var categories := CategoryTotals(expenses);
    var top := TopCategory(categories);
    if expenses != [] {
      TopCategoryIsLargest(expenses, categories);
    }
    var analysis := CategoryAnalyses(expenses, categories, total);
    var methods := MethodTotals(expenses);
    var daily := DailyTotals(expenses);
    a := AnalyticsData(Overview(total, averageDaily, averageMonthly, top), analysis, daily, [], [], methods);
  }
}

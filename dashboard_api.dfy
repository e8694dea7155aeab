/**
 * `/api/dashboard`: the overall total, the total of the current month, the amount and
 * number of expenses per category, the five most recent expenses and the totals of the
 * last six months. `expenses` is the table as `getAll` lists it and `today` the current
 * day; dates are read in UTC.
 */
module DashboardApi {
  import opened Wrappers
  import opened Types
  import Seqs
  import Sorting
  import Calendar
  import Grouping

  /** `expenses.reduce((sum, e) => sum + e.amount, 0)`. */
  function Total(expenses: seq<Expense>): real
  {
    Grouping.Sum(expenses, AmountOf)
  }

  /** The (year, zero-based month) of an expense's date; `None` for a date that does not parse. */
  function MonthOf(e: Expense): (r: Option<(int, int)>)
    ensures r.Some? ==> 0 <= r.value.1 < 12
  {
    var d := Calendar.ParseIsoDate(e.date);
    if d.None? then None else Some((d.value.year, d.value.month))
  }

  function CategoryOf(e: Expense): ExpenseCategory
  {
    e.category
  }

  /** `monthlyTotal`: the expenses dated in the current month of the current year. */
  function MonthlyTotal(expenses: seq<Expense>, today: Calendar.Day): (r: real)
    ensures (forall i :: 0 <= i < |expenses| ==> MonthOf(expenses[i]) != Some((today.year, today.month))) ==> r == 0.0
  {
    Grouping.SumFor(expenses, MonthOf, Some((today.year, today.month)), AmountOf)
  }

  // ---------------------------------------------------------------- Category breakdown

  datatype CategoryBreakdown = CategoryBreakdown(category: ExpenseCategory, amount: real, percentage: JsNumber, count: nat)

  function BreakdownAmount(c: CategoryBreakdown): real
  {
    c.amount
  }

  function BreakdownCount(c: CategoryBreakdown): nat
  {
    c.count
  }

  /**
   * `categoryBreakdown`: one entry per category present, in the order the categories first
   * occur, with the category's total, its share of the overall total and its number of
   * expenses. The amounts add up to the overall total and the counts to the number of
   * expenses.
   */
  method Breakdown(expenses: seq<Expense>) returns (entries: seq<CategoryBreakdown>)
    ensures |entries| == |Grouping.Keys(expenses, CategoryOf)|
    ensures forall j :: 0 <= j < |entries| ==>
              var c := Grouping.Keys(expenses, CategoryOf)[j];
              && entries[j].category == c
              && entries[j].amount == Grouping.SumFor(expenses, CategoryOf, c, AmountOf)
              && entries[j].count == Grouping.CountFor(expenses, CategoryOf, c)
              && entries[j].percentage == Scale(Divide(entries[j].amount, Total(expenses)), 100.0)
    ensures Grouping.Sum(entries, BreakdownAmount) == Total(expenses)
    ensures Grouping.NatSum(entries, BreakdownCount) == |expenses|
  {
    var keys, sums, counts := Grouping.Tally(expenses, CategoryOf, AmountOf);
    var total := Total(expenses);
    entries := [];
    for j := 0 to |keys|
      invariant |entries| == j
      invariant forall i :: 0 <= i < j ==>
                  && entries[i].category == keys[i]
                  && entries[i].amount == Grouping.SumFor(expenses, CategoryOf, keys[i], AmountOf)
                  && entries[i].count == Grouping.CountFor(expenses, CategoryOf, keys[i])
                  && entries[i].percentage == Scale(Divide(entries[i].amount, total), 100.0)
    {
      var c := keys[j];
      entries := entries + [CategoryBreakdown(c, sums[c], Scale(Divide(sums[c], total), 100.0), counts[c])];
    }
    Grouping.EntryTotals(entries, BreakdownAmount, keys, expenses, CategoryOf, AmountOf);
    Grouping.EntryCounts(entries, BreakdownCount, keys, expenses, CategoryOf);
    Grouping.SumsPartitionTotal(expenses, CategoryOf, AmountOf);
    Grouping.CountsPartitionLength(expenses, CategoryOf);
  }

  // ---------------------------------------------------------------- Recent expenses

  /**
   * Later dates first. A date that does not parse is placed last here; JavaScript's sort
   * treats its comparisons as ties.
   */
  predicate LaterFirst(a: Expense, b: Expense)
  {
    var da := Calendar.ParseIsoDate(a.date);
    var db := Calendar.ParseIsoDate(b.date);
    db.None? || (da.Some? && Calendar.DayLe(db.value, da.value))
  }

  lemma LaterFirstOrders()
    ensures Sorting.TotalPreorder(LaterFirst)
  {
  }

  /**
   * `recentExpenses`: at most five expenses, the latest ones: they and the rest of the table
   * together form the whole table ordered by date.
   */
  function Recent(expenses: seq<Expense>): (r: seq<Expense>)
    ensures |r| == if |expenses| < 5 then |expenses| else 5
    ensures exists rest :: multiset(r + rest) == multiset(expenses) && Sorting.SortedBy(r + rest, LaterFirst)
  {
    LaterFirstOrders();
    var sorted := Sorting.SortBy(expenses, LaterFirst);
    var n := if |sorted| < 5 then |sorted| else 5;
    assert sorted[..n] + sorted[n..] == sorted;
    sorted[..n]
  }

  // ---------------------------------------------------------------- Six-month trend

  datatype TrendPoint = TrendPoint(year: int, month: int, amount: real, count: nat)

  /** The totals of the expenses dated in a given month. */
  function PointFor(expenses: seq<Expense>, ym: (int, int)): (p: TrendPoint)
    ensures p.year == ym.0 && p.month == ym.1
    ensures p.amount == Grouping.SumFor(expenses, MonthOf, Some(ym), AmountOf)
    ensures p.count == Grouping.CountFor(expenses, MonthOf, Some(ym)) && p.count <= |expenses|
  {
    TrendPoint(ym.0, ym.1,
      Grouping.SumFor(expenses, MonthOf, Some(ym), AmountOf),
      Grouping.CountFor(expenses, MonthOf, Some(ym)))
  }

  /**
   * The month of the trend `i` months back, as written: today's date with its month set
   * back by `i`, which overflows into the next month when the day does not exist there.
   */
  function TrendMonthAsWritten(today: Calendar.Day, i: int): (ym: (int, int))
    requires Calendar.ValidDay(today)
    ensures 0 <= ym.1 < 12
  {
    var d := Calendar.SetMonth(today, today.month - i);
    (d.year, d.month)
  }

  /** The months the trend covers as written, oldest first. */
  function TrendMonthsAsWritten(today: Calendar.Day): (r: seq<(int, int)>)
    requires Calendar.ValidDay(today)
    ensures |r| == 6
  {
    seq(6, j requires 0 <= j < 6 => TrendMonthAsWritten(today, 5 - j))
  }

  /** The calendar month `i` months before the current one. */
  function TrendMonth(today: Calendar.Day, i: int): (ym: (int, int))
    requires Calendar.ValidDay(today)
    ensures 0 <= ym.1 < 12
    ensures Calendar.MonthIndex(ym.0, ym.1) == Calendar.MonthIndex(today.year, today.month) - i
  {
    Calendar.MonthsBefore(today.year, today.month, i)
  }

  /** The six months the trend is meant to cover, oldest first. */
  function TrendMonths(today: Calendar.Day): (r: seq<(int, int)>)
    requires Calendar.ValidDay(today)
    ensures |r| == 6
  {
    seq(6, j requires 0 <= j < 6 => TrendMonth(today, 5 - j))
  }

  /**
   * The intended months are the current one and the five before it, each once, oldest first,
   * each one month after the previous.
   */
  lemma TrendMonthsConsecutive(today: Calendar.Day)
    requires Calendar.ValidDay(today)
    ensures var r := TrendMonths(today);
            && r[5] == (today.year, today.month)
            && (forall j :: 0 <= j < 5 ==> Calendar.MonthIndex(r[j + 1].0, r[j + 1].1) == Calendar.MonthIndex(r[j].0, r[j].1) + 1)
            && (forall j, k :: 0 <= j < k < 6 ==> r[j] != r[k])
  {
    var r := TrendMonths(today);
    var now := Calendar.MonthIndex(today.year, today.month);
    forall j | 0 <= j < 6 ensures Calendar.MonthIndex(r[j].0, r[j].1) == now - 5 + j {
      assert r[j] == TrendMonth(today, 5 - j);
    }
    Calendar.MonthIndexInjective(r[5].0, r[5].1, today.year, today.month);
    forall j, k | 0 <= j < k < 6 ensures r[j] != r[k] {
      assert Calendar.MonthIndex(r[j].0, r[j].1) < Calendar.MonthIndex(r[k].0, r[k].1);
    }
  }

  /**
   * On 31 March the trend as written shows December and March twice each, and November
   * and February not at all: "31 November" becomes 1 December and "31 February" 2 March.
   */
  lemma TrendRepeatsMonthAsWritten()
    ensures var r := TrendMonthsAsWritten(Calendar.Day(2024, 2, 31));
            && r == [(2023, 9), (2023, 11), (2023, 11), (2024, 0), (2024, 2), (2024, 2)]
            && (2023, 10) !in r && (2024, 1) !in r
  {
    var today := Calendar.Day(2024, 2, 31);
    assert Calendar.SetMonth(today, -3) == Calendar.Day(2023, 9, 31);
    assert Calendar.SetMonth(today, -2) == Calendar.Day(2023, 11, 1);
    assert Calendar.SetMonth(today, -1) == Calendar.Day(2023, 11, 31);
    assert Calendar.SetMonth(today, 0) == Calendar.Day(2024, 0, 31);
    assert Calendar.SetMonth(today, 1) == Calendar.Day(2024, 2, 2);
    assert Calendar.SetMonth(today, 2) == Calendar.Day(2024, 2, 31);
    var r := TrendMonthsAsWritten(today);
    assert r[0] == (2023, 9) && r[1] == (2023, 11) && r[2] == (2023, 11);
    assert r[3] == (2024, 0) && r[4] == (2024, 2) && r[5] == (2024, 2);
  }

  /** On the same day the intended trend runs from October to March without a gap. */
  lemma TrendOnLastOfMarch()
    ensures TrendMonths(Calendar.Day(2024, 2, 31)) == [(2023, 9), (2023, 10), (2023, 11), (2024, 0), (2024, 1), (2024, 2)]
  {
    var today := Calendar.Day(2024, 2, 31);
    var c := TrendMonths(today);
    forall j | 0 <= j < 6 ensures c[j] == Calendar.MonthsBefore(2024, 2, 5 - j) {
    }
    assert c[0] == (2023, 9) && c[1] == (2023, 10) && c[2] == (2023, 11);
    assert c[3] == (2024, 0) && c[4] == (2024, 1) && c[5] == (2024, 2);
  }

  /** The month `i` months back is the `5 - i`-th of the six trend months. */
  lemma TrendMonthsAt(today: Calendar.Day, i: int)
    requires Calendar.ValidDay(today) && 0 <= i < 6
    ensures TrendMonths(today)[5 - i] == TrendMonth(today, i)
  {
  }

  /** The as-written month `i` months back is the `5 - i`-th of the six as-written months. */
  lemma TrendMonthsAsWrittenAt(today: Calendar.Day, i: int)
    requires Calendar.ValidDay(today) && 0 <= i < 6
    ensures TrendMonthsAsWritten(today)[5 - i] == TrendMonthAsWritten(today, i)
  {
  }

  /** On the 1st to the 28th, setting the month back by `i` lands in the calendar month `i` months back. */
  lemma EarlyDayTrendMonth(today: Calendar.Day, i: int)
    requires Calendar.ValidDay(today) && today.day <= 28
    ensures TrendMonthAsWritten(today, i) == TrendMonth(today, i)
  {
    var m := today.month - i;
    var d := Calendar.SetMonth(today, m);
    assert d == Calendar.Day(today.year + m / 12, m % 12, today.day);
    var want := TrendMonth(today, i);
    Calendar.MonthIndexInjective(d.year, d.month, want.0, want.1);
  }

  /**
   * On the 1st to the 28th of a month no month overflows, so the trend as written covers
   * exactly the intended six months.
   */
  lemma TrendAsWrittenOnEarlyDays(today: Calendar.Day)
    requires Calendar.ValidDay(today) && today.day <= 28
    ensures TrendMonthsAsWritten(today) == TrendMonths(today)
  {
    forall j | 0 <= j < 6 ensures TrendMonthsAsWritten(today)[j] == TrendMonths(today)[j] {
      EarlyDayTrendMonth(today, 5 - j);
    }
  }

  /**
   * `monthlyTrend` as the handler runs it: for i = 5 down to 0, today's date with its
   * month set back by i, and the totals of that month.
   */
  method MonthlyTrendAsWritten(expenses: seq<Expense>, today: Calendar.Day) returns (trend: seq<TrendPoint>)
    requires Calendar.ValidDay(today)
    ensures |trend| == 6
    ensures forall j :: 0 <= j < 6 ==> trend[j] == PointFor(expenses, TrendMonthsAsWritten(today)[j])
  {
    trend := [];
    ghost var months := TrendMonthsAsWritten(today);
    // i runs 5, 4, ..., 0
    for i := 6 downto 0
      invariant |trend| == 6 - i
      invariant forall j :: 0 <= j < |trend| ==> trend[j] == PointFor(expenses, months[j])
    {
      var ym := TrendMonthAsWritten(today, i);
      TrendMonthsAsWrittenAt(today, i);
      trend := trend + [PointFor(expenses, ym)];
    }
  }

  /** `monthlyTrend` as intended: the same loop over the calendar months before the current one. */
  method MonthlyTrend(expenses: seq<Expense>, today: Calendar.Day) returns (trend: seq<TrendPoint>)
    requires Calendar.ValidDay(today)
    ensures |trend| == 6
    ensures forall j :: 0 <= j < 6 ==> trend[j] == PointFor(expenses, TrendMonths(today)[j])
  {
    trend := [];
    ghost var months := TrendMonths(today);
    // i runs 5, 4, ..., 0
    for i := 6 downto 0
      invariant |trend| == 6 - i
      invariant forall j :: 0 <= j < |trend| ==> trend[j] == PointFor(expenses, months[j])
    {
      var ym := TrendMonth(today, i);
      TrendMonthsAt(today, i);
      trend := trend + [PointFor(expenses, ym)];
    }
  }

  // ---------------------------------------------------------------- The answer

  datatype DashboardStats = DashboardStats(
    totalExpenses: real,
    monthlyTotal: real,
    categoryBreakdown: seq<CategoryBreakdown>,
    recentExpenses: seq<Expense>,
    monthlyTrend: seq<TrendPoint>)

  /**
   * `GET`: every part of the answer computed from the same listing, the trend as the
   * handler's loop computes it.
   */
  method Stats(expenses: seq<Expense>, today: Calendar.Day) returns (s: DashboardStats)
    requires Calendar.ValidDay(today)
    ensures s.totalExpenses == Total(expenses)
    ensures s.monthlyTotal == MonthlyTotal(expenses, today)
    ensures |s.categoryBreakdown| == |Grouping.Keys(expenses, CategoryOf)|
    ensures forall j :: 0 <= j < |s.categoryBreakdown| ==>
              var c := Grouping.Keys(expenses, CategoryOf)[j];
              && s.categoryBreakdown[j].category == c
              && s.categoryBreakdown[j].amount == Grouping.SumFor(expenses, CategoryOf, c, AmountOf)
              && s.categoryBreakdown[j].count == Grouping.CountFor(expenses, CategoryOf, c)
              && s.categoryBreakdown[j].percentage == Scale(Divide(s.categoryBreakdown[j].amount, Total(expenses)), 100.0)
    ensures Grouping.Sum(s.categoryBreakdown, BreakdownAmount) == s.totalExpenses
    ensures Grouping.NatSum(s.categoryBreakdown, BreakdownCount) == |expenses|
    ensures s.recentExpenses == Recent(expenses)
    ensures |s.monthlyTrend| == 6
    ensures forall j :: 0 <= j < 6 ==> s.monthlyTrend[j] == PointFor(expenses, TrendMonthsAsWritten(today)[j])
    ensures today.day <= 28 ==> forall j :: 0 <= j < 6 ==> s.monthlyTrend[j] == PointFor(expenses, TrendMonths(today)[j])
  {
    var breakdown := Breakdown(expenses);
    var trend := MonthlyTrendAsWritten(expenses, today);
    if today.day <= 28 {
      TrendAsWrittenOnEarlyDays(today);
    }
    s := DashboardStats(Total(expenses), MonthlyTotal(expenses, today), breakdown, Recent(expenses), trend);
  }
}

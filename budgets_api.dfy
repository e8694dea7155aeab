/**
 * `/api/budgets`: the status of every budget whose period contains the present moment
 * (what has been spent on its category, what remains, and whether it is exceeded or
 * should raise an alert), and the creation of a budget with a default alert threshold.
 */
module BudgetsApi {
  import opened Wrappers
  import opened Types
  import Seqs
  import Text
  import Calendar
  import Grouping
  import BudgetModel
  import opened Store

  // ---------------------------------------------------------------- The budget period

  /** The first and the last day a budget covers. */
  datatype Window = Window(start: Calendar.Day, end: Calendar.Day)

  /**
   * The period: from the start date to the explicit end date when there is one, otherwise
   * one month (`setMonth`) or one year (`setFullYear`) later. `None` when a date does not
   * parse, in which case every comparison with it is false and the budget is skipped.
   */
  function WindowOf(b: Budget): (w: Option<Window>)
    ensures w.Some? <==> Calendar.ParseIsoDate(b.startDate).Some?
                         && (b.endDate.Some? && b.endDate.value != "" ==> Calendar.ParseIsoDate(b.endDate.value).Some?)
    ensures w.Some? ==> w.value.start == Calendar.ParseIsoDate(b.startDate).value
    ensures w.Some? && b.endDate.Some? && b.endDate.value != "" ==> w.value.end == Calendar.ParseIsoDate(b.endDate.value).value
    ensures w.Some? ==> Calendar.ValidDay(w.value.start) && Calendar.ValidDay(w.value.end)
    ensures w.Some? ==> 0 <= w.value.start.year < 10000 && 0 <= w.value.end.year <= 10000
  {
    var start := Calendar.ParseIsoDate(b.startDate);
    if start.None? then None
    else if b.endDate.Some? && b.endDate.value != "" then
      var end := Calendar.ParseIsoDate(b.endDate.value);
      if end.None? then None else Some(Window(start.value, end.value))
    else if b.period == Monthly then
      Some(Window(start.value, Calendar.SetMonth(start.value, start.value.month + 1)))
    else
      Some(Window(start.value, Calendar.SetFullYear(start.value, start.value.year + 1)))
  }

  /**
   * Without an end date a monthly budget ends one calendar month after its start, or two
   * when the start day does not exist in the next month (31 January ends on 2 or 3 March);
   * a yearly budget ends the next year. Either way the end lies after the start.
   */
  lemma ImplicitWindowFollowsStart(b: Budget)
    requires WindowOf(b).Some? && (b.endDate.None? || b.endDate.value == "")
    ensures var w := WindowOf(b).value;
            && Calendar.DayLe(w.start, w.end) && w.start != w.end
            && (b.period == Monthly ==>
                  var gap := Calendar.MonthIndex(w.end.year, w.end.month) - Calendar.MonthIndex(w.start.year, w.start.month);
                  gap == 1 || (gap == 2 && w.end.day < w.start.day))
            && (b.period == Yearly ==> w.end.year == w.start.year + 1)
  {
  }

  /** `now >= startDate && now <= endDate`, the dates read as midnight UTC. */
  predicate Active(b: Budget, now: Calendar.Instant)
  {
    var w := WindowOf(b);
    w.Some? && Calendar.InstantLe(Calendar.Midnight(w.value.start), now)
    && Calendar.InstantLe(now, Calendar.Midnight(w.value.end))
  }

  // ---------------------------------------------------------------- Status of one budget

  /** The query for the spending: approved, same category, date text within the period's bounds. */
  predicate CountsAgainst(b: Budget, w: Window, e: Expense)
    requires Calendar.ValidDay(w.start) && 0 <= w.start.year < 1000000
    requires Calendar.ValidDay(w.end) && 0 <= w.end.year < 1000000
  {
    && e.category == b.category
    && Text.StrLe(Calendar.DateText(w.start), e.date)
    && Text.StrLe(e.date, Calendar.DateText(w.end))
    && e.status == Approved
  }

  /** The total of the approved expenses of the budget's category dated within its period. */
  function Spent(b: Budget, expenses: seq<Expense>): real
    requires WindowOf(b).Some?
  {
    var w := WindowOf(b).value;
    Grouping.Sum(Seqs.Filter(expenses, (e: Expense) => CountsAgainst(b, w, e)), AmountOf)
  }

  /** `remaining`, `percentage`, `isExceeded` and `shouldAlert` for a budget that has spent `spent`. */
  function StatusFor(b: Budget, spent: real): (s: BudgetStatus)
    ensures s.budget == b && s.spent == spent && s.remaining == b.amount - spent
    ensures s.isExceeded <==> s.remaining < 0.0
    ensures b.amount > 0.0 ==> (s.shouldAlert <==> spent * 100.0 >= b.alertThreshold * b.amount)
    ensures b.amount < 0.0 ==> (s.shouldAlert <==> spent * 100.0 <= b.alertThreshold * b.amount)
    ensures b.amount == 0.0 ==> (s.shouldAlert <==> spent > 0.0)
  {
    var percentage := Scale(Divide(spent, b.amount), 100.0);
    var s := BudgetStatus(
      budget := b,
      spent := spent,
      remaining := b.amount - spent,
      percentage := percentage,
      isExceeded := spent > b.amount,
      shouldAlert := AtLeast(percentage, b.alertThreshold));
    AlertOnShare(spent, b.amount, b.alertThreshold);
    s
  }

  /** `(spent / amount) * 100 >= t` without the division, for an amount of either sign. */
  lemma AlertOnShare(spent: real, amount: real, t: real)
    ensures amount > 0.0 ==> ((spent / amount) * 100.0 >= t <==> spent * 100.0 >= t * amount)
    ensures amount < 0.0 ==> ((spent / amount) * 100.0 >= t <==> spent * 100.0 <= t * amount)
  {
    if amount != 0.0 {
      var q := spent / amount;
      assert q * amount == spent;
      if q * 100.0 >= t {
        if amount > 0.0 {
          assert (q * 100.0) * amount >= t * amount;
        } else {
          assert (q * 100.0) * amount <= t * amount;
        }
      } else {
        if amount > 0.0 {
          assert (q * 100.0) * amount < t * amount;
        } else {
          assert (q * 100.0) * amount > t * amount;
        }
      }
    }
  }

  // ---------------------------------------------------------------- GET

  /** The budgets active at `now`, in their stored order. */
  function ActiveBudgets(budgets: seq<Budget>, now: Calendar.Instant): seq<Budget>
  {
    if budgets == [] then []
    else
      var last := budgets[|budgets| - 1];
      ActiveBudgets(budgets[..|budgets| - 1], now) + (if Active(last, now) then [last] else [])
  }

  /** The active budgets are what `filter` keeps under the activity test. */
  lemma {:induction false} ActiveBudgetsFiltered(budgets: seq<Budget>, now: Calendar.Instant)
    ensures ActiveBudgets(budgets, now) == Seqs.Filter(budgets, (b: Budget) => Active(b, now))
  {
    if budgets != [] {
      var init := budgets[..|budgets| - 1];
      var last := budgets[|budgets| - 1];
      assert budgets == init + [last];
      ActiveBudgetsFiltered(init, now);
      Seqs.FilterAppend(init, [last], (b: Budget) => Active(b, now));
      assert [last][1..] == [];
    }
  }

  /** The statuses `GET` answers with: one per active budget, in the order of the budgets. */
  function Statuses(budgets: seq<Budget>, expenses: seq<Expense>, now: Calendar.Instant): (r: seq<BudgetStatus>)
    ensures |r| <= |budgets|
    ensures forall k :: 0 <= k < |r| ==> r[k].budget in budgets && Active(r[k].budget, now)
                                         && r[k] == StatusFor(r[k].budget, Spent(r[k].budget, expenses))
    ensures forall i :: 0 <= i < |budgets| && Active(budgets[i], now) ==>
              exists k :: 0 <= k < |r| && r[k].budget == budgets[i]
  {
    if budgets == [] then []
    else
      var init := budgets[..|budgets| - 1];
      var b := budgets[|budgets| - 1];
      assert budgets == init + [b];
      var before := Statuses(init, expenses, now);
      assert forall i :: 0 <= i < |init| ==> init[i] == budgets[i];
      if Active(b, now) then
        var r := before + [StatusFor(b, Spent(b, expenses))];
        assert forall k :: 0 <= k < |before| ==> r[k] == before[k];
        assert r[|before|].budget == b;
        r
      else before
  }

  /** The last budget adds its status after the others exactly when it is active. */
  lemma StatusesSnoc(budgets: seq<Budget>, expenses: seq<Expense>, now: Calendar.Instant)
    requires budgets != []
    ensures var b := budgets[|budgets| - 1];
            Statuses(budgets, expenses, now)
            == Statuses(budgets[..|budgets| - 1], expenses, now) + (if Active(b, now) then [StatusFor(b, Spent(b, expenses))] else [])
  {
  }

  /** Exactly one status per active budget, in the order of the budgets. */
  lemma {:induction false} StatusesFollowActiveBudgets(budgets: seq<Budget>, expenses: seq<Expense>, now: Calendar.Instant)
    ensures |Statuses(budgets, expenses, now)| == |ActiveBudgets(budgets, now)|
    ensures forall k :: 0 <= k < |Statuses(budgets, expenses, now)| ==>
              Statuses(budgets, expenses, now)[k].budget == ActiveBudgets(budgets, now)[k]
  {
    if budgets != [] {
      var init := budgets[..|budgets| - 1];
      var b := budgets[|budgets| - 1];
      StatusesFollowActiveBudgets(init, expenses, now);
      var before, after := Statuses(init, expenses, now), Statuses(budgets, expenses, now);
      var active, active' := ActiveBudgets(init, now), ActiveBudgets(budgets, now);
      StatusesSnoc(budgets, expenses, now);
      forall k | 0 <= k < |after|
        ensures after[k].budget == active'[k]
      {
        if k == |before| {
          assert after[k].budget == b && active'[k] == b;
        } else {
          assert after[k] == before[k] && active'[k] == active[k];
        }
      }
    }
  }

  /** The handler's loop: each budget in turn, a status pushed for the active ones. */
  method ComputeStatuses(budgets: seq<Budget>, expenses: seq<Expense>, now: Calendar.Instant)
    returns (statuses: seq<BudgetStatus>)
    ensures statuses == Statuses(budgets, expenses, now)
  {
    statuses := [];
    for i := 0 to |budgets|
      invariant statuses == Statuses(budgets[..i], expenses, now)
    {
      var b := budgets[i];
      assert budgets[..i + 1][..i] == budgets[..i];
      if Active(b, now) {
        var spent := Spent(b, expenses);
        statuses := statuses + [StatusFor(b, spent)];
      }
    }
    assert budgets[..|budgets|] == budgets;
  }

  // ---------------------------------------------------------------- POST

  /** The JSON body of a budget to create. */
  datatype BudgetBody = BudgetBody(
    category: Field<string>,
    amount: Field<real>,
    period: Field<string>,
    startDate: Field<string>,
    endDate: Field<string>,
    alertThreshold: Field<real>)

  /** The document `POST` saves; `alertThreshold || 80` replaces a missing, null or zero threshold. */
  function NewBudgetDoc(body: BudgetBody, freshId: string, now: string): (d: BudgetModel.BudgetDoc)
    ensures d.id == Some(freshId) && d.createdAt == Some(now) && d.updatedAt == Some(now)
    ensures d.category == body.category.ToOption() && d.amount == body.amount.ToOption() && d.period == body.period.ToOption()
    ensures d.startDate == body.startDate.ToOption() && d.endDate == body.endDate.ToOption()
    ensures d.alertThreshold == Some(NumberOr(body.alertThreshold, 80.0))
  {
    BudgetModel.BudgetDoc(
      id := Some(freshId),
      category := body.category.ToOption(),
      amount := body.amount.ToOption(),
      period := body.period.ToOption(),
      startDate := body.startDate.ToOption(),
      endDate := body.endDate.ToOption(),
      alertThreshold := Some(NumberOr(body.alertThreshold, 80.0)),
      createdAt := Some(now),
      updatedAt := Some(now))
  }

  /**
   * `POST`: the budget is saved when the schema accepts it and the id is new; its alert
   * threshold is the one sent, or 80 when that is missing or zero. A refused save is a 500.
   * `freshId` stands for `generateId()` and `now` for the ISO text of the current time.
   */
  method PostBudget(db: Database, body: BudgetBody, freshId: string, now: string) returns (r: Result<Budget>)
    requires db.Valid()
    modifies db
    ensures db.Valid()
    ensures r.Ok? <==> BudgetModel.FromDocument(NewBudgetDoc(body, freshId, now)).Ok?
                       && !HasKey(old(db.budgets), BudgetId, freshId)
    ensures r.Ok? ==> db.budgets == old(db.budgets) + [r.value] && r.value.id == freshId
                      && r.value.alertThreshold == NumberOr(body.alertThreshold, 80.0)
                      && CategoryName(r.value.category) == body.category.v
                      && PeriodName(r.value.period) == body.period.v
                      && r.value.amount == body.amount.v && r.value.startDate == body.startDate.v
                      && r.value.endDate == body.endDate.ToOption()
    ensures r.Ok? ==> r == BudgetModel.FromDocument(NewBudgetDoc(body, freshId, now))
    ensures r.Err? ==> r == Err(500, "Failed to create budget") && db.budgets == old(db.budgets)
    ensures db.users == old(db.users) && db.companies == old(db.companies) && db.rules == old(db.rules)
  {
    var saved := db.InsertBudget(NewBudgetDoc(body, freshId, now));
    if saved.Err? {
      r := Err(500, "Failed to create budget");
    } else {
      r := saved;
    }
  }
}

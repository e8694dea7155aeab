/**
 * `/api/approvals`: a manager's or administrator's inbox, the expenses of their company
 * that are under review and still wait for a decision of theirs, most recently submitted
 * first, each with the name and email of the employee who filed it.
 */
module ApprovalsApi {
  import opened Wrappers
  import opened Types
  import Seqs
  import Sorting
  import opened Store

  /** Submitted or waiting approval: the two states in which approvers can still act. */
  predicate UnderReview(e: Expense)
  {
    e.status == Submitted || e.status == WaitingApproval
  }

  /**
   * The query as written: one approval entry names the caller and one entry is pending.
   * Without `$elemMatch` the two conditions may be met by different entries.
   */
  predicate AwaitingAsWritten(e: Expense, s: SessionUser)
  {
    && e.companyId == s.companyId && UnderReview(e)
    && (exists i :: 0 <= i < |e.approvals| && e.approvals[i].approverId == s.id)
    && (exists i :: 0 <= i < |e.approvals| && e.approvals[i].status == Pending)
  }

  /** The selection the inbox is meant to make: the caller's own entry is still pending. */
  predicate Awaiting(e: Expense, s: SessionUser)
  {
    && e.companyId == s.companyId && UnderReview(e)
    && exists i :: 0 <= i < |e.approvals| && e.approvals[i].approverId == s.id && e.approvals[i].status == Pending
  }

  /** Descending by `submittedAt`; an expense never submitted sorts last, as a missing field does in MongoDB. */
  predicate SubmittedDesc(a: Expense, b: Expense)
  {
    b.submittedAt.None? || (a.submittedAt.Some? && a.submittedAt.value >= b.submittedAt.value)
  }

  lemma SubmittedDescOrders()
    ensures Sorting.TotalPreorder(SubmittedDesc)
  {
  }

  /** An expense with its owner's name and email added. */
  datatype InboxItem = InboxItem(expense: Expense, userName: string, userEmail: string)

  /** `user?.name || "Unknown"` and `user?.email || ""` for the owner looked up by id. */
  function WithOwner(users: seq<User>, e: Expense): (item: InboxItem)
    ensures item.expense == e
    ensures UserById(users, e.userId).None? ==> item.userName == "Unknown" && item.userEmail == ""
    ensures UserById(users, e.userId).Some? ==>
              var u := UserById(users, e.userId).value;
              && item.userName == (if u.name == "" then "Unknown" else u.name)
              && item.userEmail == u.email
  {
    var owner := UserById(users, e.userId);
    if owner.None? then InboxItem(e, "Unknown", "")
    else InboxItem(e, if owner.value.name == "" then "Unknown" else owner.value.name, owner.value.email)
  }

  /** The expenses under the items, in the items' order. */
  function ExpensesOf(items: seq<InboxItem>): (r: seq<Expense>)
    ensures |r| == |items| && forall k :: 0 <= k < |r| ==> r[k] == items[k].expense
  {
    seq(|items|, k requires 0 <= k < |items| => items[k].expense)
  }

  /** The expenses `pick` selects, newest submission first, each with its owner's details. */
  function Collect(expenses: seq<Expense>, users: seq<User>, pick: Expense -> bool): (r: seq<InboxItem>)
    ensures |r| <= |expenses|
    ensures forall e :: e in ExpensesOf(r) <==> e in expenses && pick(e)
    ensures forall e :: multiset(ExpensesOf(r))[e] == if pick(e) then multiset(expenses)[e] else 0
    ensures forall k :: 0 <= k < |r| ==> r[k] == WithOwner(users, r[k].expense)
    ensures Sorting.SortedBy(ExpensesOf(r), SubmittedDesc)
  {
    var picked := Seqs.Filter(expenses, pick);
    SubmittedDescOrders();
    var sorted := Sorting.SortBy(picked, SubmittedDesc);
    var r := seq(|sorted|, k requires 0 <= k < |sorted| => WithOwner(users, sorted[k]));
    assert ExpensesOf(r) == sorted;
    Seqs.FilterMultiset(expenses, pick);
    assert forall e :: !pick(e) ==> e !in picked;
    assert forall e :: e in sorted <==> e in picked by {
      forall e ensures e in sorted <==> e in picked {
        Sorting.SortByMembers(picked, SubmittedDesc, e);
      }
    }
    assert forall e :: e in expenses && pick(e) ==> e in picked by {
      forall e | e in expenses && pick(e) ensures e in picked {
        var i :| 0 <= i < |expenses| && expenses[i] == e;
      }
    }
    r
  }

  /** The outcome of `GET` before the query runs: 401 without a session, 403 for an employee. */
  function Gate(session: Option<SessionUser>): (r: Option<Result<seq<InboxItem>>>)
    ensures r.None? <==> session.Some? && session.value.role != Employee
    ensures session.None? ==> r == Some(Err(401, "Unauthorized"))
    ensures session.Some? && session.value.role == Employee ==>
              r == Some(Err(403, "Forbidden - Only managers can approve expenses"))
  {
    if session.None? then Some(Err(401, "Unauthorized"))
    else if session.value.role == Employee then Some(Err(403, "Forbidden - Only managers can approve expenses"))
    else None
  }

  /** `GET` as written: the entry naming the caller and the pending entry may differ. */
  function InboxAsWritten(expenses: seq<Expense>, users: seq<User>, session: Option<SessionUser>)
    : (r: Result<seq<InboxItem>>)
    ensures Gate(session).Some? ==> r == Gate(session).value
    ensures Gate(session).None? ==> r.Ok?
    ensures r.Ok? ==> forall e :: e in ExpensesOf(r.value) <==> e in expenses && AwaitingAsWritten(e, session.value)
    ensures r.Ok? ==> forall e :: multiset(ExpensesOf(r.value))[e] ==
                                   if AwaitingAsWritten(e, session.value) then multiset(expenses)[e] else 0
    ensures r.Ok? ==> forall k :: 0 <= k < |r.value| ==> r.value[k] == WithOwner(users, r.value[k].expense)
    ensures r.Ok? ==> Sorting.SortedBy(ExpensesOf(r.value), SubmittedDesc)
  {
    if Gate(session).Some? then Gate(session).value
    else
      var s := session.value;
      Ok(Collect(expenses, users, (e: Expense) => AwaitingAsWritten(e, s)))
  }

  /** `GET` with both conditions on one entry: only expenses whose own entry for the caller is pending. */
  function Inbox(expenses: seq<Expense>, users: seq<User>, session: Option<SessionUser>)
    : (r: Result<seq<InboxItem>>)
    ensures Gate(session).Some? ==> r == Gate(session).value
    ensures Gate(session).None? ==> r.Ok?
    ensures r.Ok? ==> forall e :: e in ExpensesOf(r.value) <==> e in expenses && Awaiting(e, session.value)
    ensures r.Ok? ==> forall e :: multiset(ExpensesOf(r.value))[e] ==
                                   if Awaiting(e, session.value) then multiset(expenses)[e] else 0
    ensures r.Ok? ==> forall k :: 0 <= k < |r.value| ==> r.value[k] == WithOwner(users, r.value[k].expense)
    ensures r.Ok? ==> Sorting.SortedBy(ExpensesOf(r.value), SubmittedDesc)
  {
    if Gate(session).Some? then Gate(session).value
    else
      var s := session.value;
      Ok(Collect(expenses, users, (e: Expense) => Awaiting(e, s)))
  }

  /** Everything the intended inbox shows, the inbox as written shows too. */
  lemma InboxWithinAsWritten(expenses: seq<Expense>, users: seq<User>, session: SessionUser, e: Expense)
    requires session.role != Employee
    requires e in ExpensesOf(Inbox(expenses, users, Some(session)).value)
    ensures e in ExpensesOf(InboxAsWritten(expenses, users, Some(session)).value)
  {
    var i :| 0 <= i < |e.approvals| && e.approvals[i].approverId == session.id && e.approvals[i].status == Pending;
  }

  /**
   * A manager who has already approved sees the expense again while a colleague's entry is
   * pending: the as-written inbox lists it, the intended one does not.
   */
  lemma DecidedApprovalStillListedAsWritten()
    ensures var s := SessionUser("m1", Manager, "c1");
            var e := Expense(
              "e1", "u1", "c1", 10.0, "INR", "₹", None, None, None, Food, "lunch", "2024-01-02", Cash,
              Submitted,
              [ExpenseApproval("m1", Some(1), Accepted, None, None), ExpenseApproval("m2", Some(2), Pending, None, None)],
              false, Some(1), None, None, None, [], "t", "t");
            && e in ExpensesOf(InboxAsWritten([e], [], Some(s)).value)
            && e !in ExpensesOf(Inbox([e], [], Some(s)).value)
  {
    var s := SessionUser("m1", Manager, "c1");
    var e := Expense(
      "e1", "u1", "c1", 10.0, "INR", "₹", None, None, None, Food, "lunch", "2024-01-02", Cash,
      Submitted,
      [ExpenseApproval("m1", Some(1), Accepted, None, None), ExpenseApproval("m2", Some(2), Pending, None, None)],
      false, Some(1), None, None, None, [], "t", "t");
    assert e.approvals[0].approverId == s.id;
    assert e.approvals[1].status == Pending;
    assert AwaitingAsWritten(e, s);
    assert !Awaiting(e, s);
  }
}

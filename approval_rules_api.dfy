/**
 * `/api/admin/approval-rules`: an administrator lists the active rules of their company,
 * cheapest first, and creates a rule from a JSON body that is checked, given defaults and
 * whose approvers are numbered in the order they were sent.
 */
module ApprovalRulesApi {
  import opened Wrappers
  import opened Types
  import Seqs
  import Sorting
  import ApprovalRuleModel
  import opened Store

  /** One approver as sent: any `order` it carries is ignored. */
  datatype ApproverInput = ApproverInput(userId: Option<string>, order: Option<int>)

  datatype SpecificApproverInput = SpecificApproverInput(enabled: Option<bool>, approverId: Option<string>)

  /** The JSON body of a rule to create. */
  datatype RuleBody = RuleBody(
    name: Field<string>,
    description: Field<string>,
    minAmount: Field<real>,
    maxAmount: Field<real>,
    approvers: Field<seq<ApproverInput>>,
    isManagerApproverRequired: Field<bool>,
    isSequential: Field<bool>,
    minApprovalPercentage: Field<real>,
    specificApproverRule: Field<SpecificApproverInput>,
    categories: Field<seq<string>>)

  /** `p < 1 || p > 100` in JavaScript: `undefined` compares false, `null` counts as 0. */
  predicate PercentageOutOfRange(p: Field<real>)
  {
    match p
    case Absent => false
    case Null => true
    case Value(v) => v < 1.0 || v > 100.0
  }

  /** The checks of `POST`, in order, before anything is written. */
  function Screen(session: Option<SessionUser>, body: RuleBody): (r: Result<SessionUser>)
    ensures session.None? ==> r == Err(401, "Unauthorized")
    ensures session.Some? && session.value.role != Admin ==> r == Err(403, "Forbidden - Admin access required")
    ensures session.Some? && session.value.role == Admin ==>
              ((!TruthyString(body.name) || body.minAmount.Absent? || !body.approvers.Value? || body.approvers.v == [])
                 <==> r == Err(400, "Name, minAmount, and at least one approver are required"))
    ensures r.Ok? <==> session.Some? && session.value.role == Admin
                       && TruthyString(body.name) && !body.minAmount.Absent?
                       && body.approvers.Value? && |body.approvers.v| > 0
                       && !PercentageOutOfRange(body.minApprovalPercentage)
    ensures r.Ok? ==> r.value == session.value
  {
    if session.None? then Err(401, "Unauthorized")
    else if session.value.role != Admin then Err(403, "Forbidden - Admin access required")
    else if !TruthyString(body.name) || body.minAmount.Absent? || !body.approvers.Value? || body.approvers.v == [] then
      Err(400, "Name, minAmount, and at least one approver are required")
    else if PercentageOutOfRange(body.minApprovalPercentage) then Err(400, "Approval percentage must be between 1 and 100")
    else Ok(session.value)
  }

  /** `approvers.map((a, index) => ({ userId: a.userId, order: index + 1 }))`. */
  function NumberApprovers(approvers: seq<ApproverInput>): (r: seq<RuleApprover>)
    ensures |r| == |approvers|
    ensures forall i :: 0 <= i < |r| ==> r[i] == RuleApprover(approvers[i].userId, i + 1)
  {
    seq(|approvers|, i requires 0 <= i < |approvers| => RuleApprover(approvers[i].userId, i + 1))
  }

  /** The order numbers carried by some approver. */
  function Orders(r: seq<RuleApprover>): set<int>
  {
    set i | 0 <= i < |r| :: r[i].order
  }

  /** The stored orders are exactly 1, 2, ..., n, strictly increasing. */
  lemma NumberingIsOneToN(approvers: seq<ApproverInput>)
    ensures var r := NumberApprovers(approvers);
            && (forall i, j :: 0 <= i < j < |r| ==> r[i].order < r[j].order)
            && (forall k :: k in Orders(r) <==> 1 <= k <= |r|)
  {
    var r := NumberApprovers(approvers);
    forall k | 1 <= k <= |r| ensures k in Orders(r) {
      assert r[k - 1].order == k;
    }
  }

  /** Two bodies that list the same users in the same order get the same approvers, whatever orders they sent. */
  lemma NumberingIgnoresInputOrder(a: seq<ApproverInput>, b: seq<ApproverInput>)
    requires |a| == |b| && forall i :: 0 <= i < |a| ==> a[i].userId == b[i].userId
    ensures NumberApprovers(a) == NumberApprovers(b)
  {
  }

  /** The document `POST` saves, with the handler's own `||` and `??` defaults. */
  function RuleDocFor(session: SessionUser, body: RuleBody, freshId: string): (d: ApprovalRuleModel.RuleDoc)
    requires body.name.Value? && body.approvers.Value?
  {
    ApprovalRuleModel.RuleDoc(
      id := Some(freshId),
      companyId := Some(session.companyId),
      name := Some(body.name.v),
      description := Some(StringOr(body.description, "")),
      minAmount := Some(NumberOr(body.minAmount, 0.0)),
      maxAmount := Some(if TruthyNumber(body.maxAmount) then Some(body.maxAmount.v) else None),
      approvers := NumberApprovers(body.approvers.v),
      isManagerApproverRequired := Some(body.isManagerApproverRequired.OrElse(true)),
      isSequential := Some(body.isSequential.OrElse(false)),
      minApprovalPercentage := Some(NumberOr(body.minApprovalPercentage, 100.0)),
      specificApproverRule := Some(
        if body.specificApproverRule.Value? then
          ApprovalRuleModel.SpecificApproverDoc(body.specificApproverRule.v.enabled, body.specificApproverRule.v.approverId)
        else ApprovalRuleModel.SpecificApproverDoc(Some(false), None)),
      categories := if body.categories.Value? then body.categories.v else [],
      isActive := Some(true))
  }

  /**
   * A body that passes the checks becomes this rule: active, in the caller's company,
   * approvers numbered from 1 in the order sent, a percentage between 1 and 100 (100 when
   * left out), a falsy `minAmount` stored as 0 and a falsy `maxAmount` as no upper bound,
   * manager approval and sequencing defaulting only for `undefined` and `null`.
   */
  lemma CreatedRule(session: SessionUser, body: RuleBody, freshId: string)
    requires Screen(Some(session), body).Ok? && freshId != "" && session.companyId != ""
    ensures var r := ApprovalRuleModel.FromDocument(RuleDocFor(session, body, freshId));
            && r.Ok?
            && r.value.id == freshId && r.value.companyId == session.companyId && r.value.isActive
            && r.value.name == body.name.v
            && r.value.approvers == NumberApprovers(body.approvers.v)
            && 1.0 <= r.value.minApprovalPercentage <= 100.0
            && (body.minApprovalPercentage.Absent? ==> r.value.minApprovalPercentage == 100.0)
            && (TruthyNumber(body.minAmount) <==> r.value.minAmount != 0.0)
            && (r.value.maxAmount.None? <==> !TruthyNumber(body.maxAmount))
            && r.value.isManagerApproverRequired == (body.isManagerApproverRequired.Value? ==> body.isManagerApproverRequired.v)
            && r.value.isSequential == (body.isSequential.Value? && body.isSequential.v)
            && (!body.specificApproverRule.Value? ==> !r.value.specificApproverRule.enabled)
            && (!body.categories.Value? ==> r.value.categories == [])
  {
  }

  /** `POST`: the checks, then the save; a refused save is a 500. */
  method PostRule(db: Database, session: Option<SessionUser>, body: RuleBody, freshId: string)
    returns (r: Result<ApprovalRule>)
    requires db.Valid()
    modifies db
    ensures db.Valid()
    ensures Screen(session, body).Err? ==>
              r == Err(Screen(session, body).status, Screen(session, body).message) && db.rules == old(db.rules)
    ensures Screen(session, body).Ok? ==>
              var doc := RuleDocFor(session.value, body, freshId);
              if ApprovalRuleModel.FromDocument(doc).Ok? && !HasKey(old(db.rules), RuleId, freshId)
              then r == ApprovalRuleModel.FromDocument(doc) && db.rules == old(db.rules) + [r.value]
              else r == Err(500, "Failed to create approval rule") && db.rules == old(db.rules)
    ensures db.users == old(db.users) && db.companies == old(db.companies) && db.budgets == old(db.budgets)
  {
    var screened := Screen(session, body);
    if screened.Err? {
      return Err(screened.status, screened.message);
    }
    var saved := db.InsertRule(RuleDocFor(screened.value, body, freshId));
    if saved.Err? {
      r := Err(500, "Failed to create approval rule");
    } else {
      r := saved;
    }
  }

  // ---------------------------------------------------------------- GET

  predicate MinAmountLe(a: ApprovalRule, b: ApprovalRule)
  {
    a.minAmount <= b.minAmount
  }

  lemma MinAmountOrders()
    ensures Sorting.TotalPreorder(MinAmountLe)
  {
  }

  predicate ActiveIn(rule: ApprovalRule, companyId: string)
  {
    rule.companyId == companyId && rule.isActive
  }

  /** `GET`: the active rules of the caller's company, ascending by `minAmount`. */
  function ListRules(rules: seq<ApprovalRule>, session: Option<SessionUser>): (r: Result<seq<ApprovalRule>>)
    ensures session.None? ==> r == Err(401, "Unauthorized")
    ensures session.Some? && session.value.role != Admin ==> r == Err(403, "Forbidden - Admin access required")
    ensures session.Some? && session.value.role == Admin ==> r.Ok?
    ensures r.Ok? ==> forall x :: x in r.value <==> x in rules && ActiveIn(x, session.value.companyId)
    ensures r.Ok? ==> forall x :: multiset(r.value)[x] == if ActiveIn(x, session.value.companyId) then multiset(rules)[x] else 0
    ensures r.Ok? ==> Sorting.SortedBy(r.value, MinAmountLe)
  {
    if session.None? then Err(401, "Unauthorized")
    else if session.value.role != Admin then Err(403, "Forbidden - Admin access required")
    else
      var c := session.value.companyId;
      var mine := Seqs.Filter(rules, (x: ApprovalRule) => ActiveIn(x, c));
      MinAmountOrders();
      var sorted := Sorting.SortBy(mine, MinAmountLe);
      Seqs.FilterMultiset(rules, (x: ApprovalRule) => ActiveIn(x, c));
      assert forall x :: !ActiveIn(x, c) ==> x !in mine;
      assert forall x :: x in sorted <==> x in mine by {
        forall x ensures x in sorted <==> x in mine {
          Sorting.SortByMembers(mine, MinAmountLe, x);
        }
      }
      assert forall x :: x in rules && ActiveIn(x, c) ==> x in mine by {
        forall x | x in rules && ActiveIn(x, c) ensures x in mine {
          var i :| 0 <= i < |rules| && rules[i] == x;
        }
      }
      Ok(sorted)
  }
}

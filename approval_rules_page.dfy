/**
 * The administrator's approval-rule form: the approver and category pickers toggle an id
 * in or out of a list, the form can be reset, and creating a rule checks that an approver
 * was picked before sending the body the rules endpoint reads.
 */
module ApprovalRulesPage {
  import opened Wrappers
  import opened Types
  import Seqs
  import ApprovalRulesApi

  /** The state of the creation form. */
  datatype RuleForm = RuleForm(
    name: string,
    description: string,
    minAmount: real,
    maxAmount: Option<real>,
    approvers: seq<string>,
    isManagerApproverRequired: bool,
    isSequential: bool,
    minApprovalPercentage: real,
    specificApproverEnabled: bool,
    specificApproverId: string,
    categories: seq<string>)

  /** The form as first shown. */
  const InitialForm: RuleForm := RuleForm(
    name := "",
    description := "",
    minAmount := 0.0,
    maxAmount := None,
    approvers := [],
    isManagerApproverRequired := true,
    isSequential := false,
    minApprovalPercentage := 100.0,
    specificApproverEnabled := false,
    specificApproverId := "",
    categories := [])

  /** `resetForm`, which writes its record out again rather than reusing the initial one. */
  function ResetForm(): (f: RuleForm)
    ensures f == InitialForm
  {
    RuleForm(
      name := "",
      description := "",
      minAmount := 0.0,
      maxAmount := None,
      approvers := [],
      isManagerApproverRequired := true,
      isSequential := false,
      minApprovalPercentage := 100.0,
      specificApproverEnabled := false,
      specificApproverId := "",
      categories := [])
  }

  /** `list.filter((y) => y !== x)`. */
  function Remove(s: seq<string>, x: string): (r: seq<string>)
    ensures x !in r
    ensures forall y :: y != x ==> (y in r <==> y in s)
  {
    Seqs.Filter(s, (y: string) => y != x)
  }

  /** Removing an element that is not there changes nothing. */
  lemma RemoveAbsent(s: seq<string>, x: string)
    requires x !in s
    ensures Remove(s, x) == s
  {
    Seqs.FilterKeepsAll(s, (y: string) => y != x);
  }

  /** A list with the element taken out if it is there, else added at the end. */
  function Toggle(s: seq<string>, x: string): (r: seq<string>)
    ensures x in r <==> x !in s
    ensures forall y :: y != x ==> (y in r <==> y in s)
    ensures x !in s ==> r == s + [x]
    ensures x in s ==> |r| < |s|
  {
    if x in s then
      var r := Remove(s, x);
      assert |r| < |s| by {
        var i :| 0 <= i < |s| && s[i] == x;
        Seqs.FilterAppend(s[..i], s[i..], (y: string) => y != x);
        assert s == s[..i] + s[i..];
        assert s[i..] == [x] + s[i + 1..];
        Seqs.FilterAppend([x], s[i + 1..], (y: string) => y != x);
      }
      r
    else s + [x]
  }

  /** A list without repeats stays without repeats, whichever way the toggle goes. */
  lemma ToggleNoDuplicates(s: seq<string>, x: string)
    requires Seqs.NoDuplicates(s)
    ensures Seqs.NoDuplicates(Toggle(s, x))
  {
    if x in s {
      Seqs.FilterNoDuplicates(s, (y: string) => y != x);
    } else {
      var r := s + [x];
      forall i, j | 0 <= i < j < |r| ensures r[i] != r[j] {
        if j == |s| {
          assert r[i] == s[i];
        }
      }
    }
  }

  /** Picking an element and then un-picking it gives back the original list. */
  lemma ToggleTwiceRestores(s: seq<string>, x: string)
    requires x !in s
    ensures Toggle(Toggle(s, x), x) == s
  {
    var p := (y: string) => y != x;
    Seqs.FilterAppend(s, [x], p);
    RemoveAbsent(s, x);
    assert Seqs.Filter([x], p) == [];
  }

  /** `toggleApprover`: only the approver list changes. */
  function ToggleApprover(form: RuleForm, userId: string): (r: RuleForm)
    ensures r.(approvers := form.approvers) == form
    ensures userId in r.approvers <==> userId !in form.approvers
    ensures userId !in form.approvers ==> r.approvers == form.approvers + [userId]
  {
    form.(approvers := Toggle(form.approvers, userId))
  }

  /** `toggleCategory`: only the category list changes. */
  function ToggleCategory(form: RuleForm, category: string): (r: RuleForm)
    ensures r.(categories := form.categories) == form
    ensures category in r.categories <==> category !in form.categories
    ensures category !in form.categories ==> r.categories == form.categories + [category]
  {
    form.(categories := Toggle(form.categories, category))
  }

  /** `approvers.map((userId) => ({ userId }))`: the selection as the body lists it. */
  function ApproverInputs(ids: seq<string>): (r: seq<ApprovalRulesApi.ApproverInput>)
    ensures |r| == |ids|
    ensures forall i :: 0 <= i < |r| ==> r[i].userId == Some(ids[i]) && r[i].order.None?
  {
    seq(|ids|, i requires 0 <= i < |ids| => ApprovalRulesApi.ApproverInput(Some(ids[i]), None))
  }

  /**
   * `handleCreateRule`: nothing is sent when no approver is selected; otherwise the body
   * carries every field of the form, a blank upper bound as `null`.
   */
  function HandleCreateRule(form: RuleForm): (r: Option<ApprovalRulesApi.RuleBody>)
    ensures r.None? <==> form.approvers == []
    ensures r.Some? ==> r.value.name == Value(form.name) && r.value.minAmount == Value(form.minAmount)
    ensures r.Some? ==> (form.maxAmount.None? <==> r.value.maxAmount == Null)
    ensures r.Some? && form.maxAmount.Some? ==> r.value.maxAmount == Value(form.maxAmount.value)
    ensures r.Some? ==> r.value.approvers == Value(ApproverInputs(form.approvers))
    ensures r.Some? ==> r.value.description == Value(form.description)
    ensures r.Some? ==> r.value.isManagerApproverRequired == Value(form.isManagerApproverRequired)
                        && r.value.isSequential == Value(form.isSequential)
    ensures r.Some? ==> r.value.specificApproverRule == Value(ApprovalRulesApi.SpecificApproverInput(
                          Some(form.specificApproverEnabled), Some(form.specificApproverId)))
    ensures r.Some? ==> r.value.minApprovalPercentage == Value(form.minApprovalPercentage)
    ensures r.Some? ==> r.value.categories == Value(form.categories)
  {
    if |form.approvers| == 0 then None
    else Some(ApprovalRulesApi.RuleBody(
      name := Value(form.name),
      description := Value(form.description),
      minAmount := Value(form.minAmount),
      maxAmount := if form.maxAmount.Some? then Value(form.maxAmount.value) else Null,
      approvers := Value(ApproverInputs(form.approvers)),
      isManagerApproverRequired := Value(form.isManagerApproverRequired),
      isSequential := Value(form.isSequential),
      minApprovalPercentage := Value(form.minApprovalPercentage),
      specificApproverRule := Value(ApprovalRulesApi.SpecificApproverInput(
        Some(form.specificApproverEnabled), Some(form.specificApproverId))),
      categories := Value(form.categories)))
  }

  /**
   * A form with a name, at least one approver and a percentage between 1 and 100 passes
   * the endpoint's checks for an administrator, and the rule it stores lists the picked
   * approvers in the order they were picked, numbered from 1.
   */
  lemma SentFormAccepted(form: RuleForm, session: SessionUser)
    requires session.role == Admin
    requires form.name != "" && form.approvers != []
    requires 1.0 <= form.minApprovalPercentage <= 100.0
    ensures var body := HandleCreateRule(form).value;
            && ApprovalRulesApi.Screen(Some(session), body) == Ok(session)
            && var stored := ApprovalRulesApi.NumberApprovers(body.approvers.v);
               |stored| == |form.approvers|
               && forall i :: 0 <= i < |stored| ==> stored[i] == RuleApprover(Some(form.approvers[i]), i + 1)
  {
  }

  /** A percentage `handleCreateRule` itself does not check but the endpoint refuses: the rule is not created. */
  lemma OutOfRangePercentageRefused(form: RuleForm, session: SessionUser)
    requires session.role == Admin && form.name != "" && form.approvers != []
    requires form.minApprovalPercentage < 1.0 || form.minApprovalPercentage > 100.0
    ensures ApprovalRulesApi.Screen(Some(session), HandleCreateRule(form).value)
            == Err(400, "Approval percentage must be between 1 and 100")
  {
  }
}

/**
 * The approval-rule schema: which fields a rule document must carry and what the
 * database fills in when a field is left out. The unique index on `id` is enforced by
 * `Store.Database.InsertRule`.
 */
module ApprovalRuleModel {
  import opened Wrappers
  import opened Types

  /** The `specificApproverRule` sub-document as handed to the schema. */
  datatype SpecificApproverDoc = SpecificApproverDoc(enabled: Option<bool>, approverId: Option<string>)

  /** A rule document before the schema applies defaults; `None` is a field left out. */
  datatype RuleDoc = RuleDoc(
    id: Option<string>,
    companyId: Option<string>,
    name: Option<string>,
    description: Option<string>,
    minAmount: Option<real>,
    maxAmount: Option<Option<real>>,
    approvers: seq<RuleApprover>,
    isManagerApproverRequired: Option<bool>,
    isSequential: Option<bool>,
    minApprovalPercentage: Option<real>,
    specificApproverRule: Option<SpecificApproverDoc>,
    categories: seq<string>,
    isActive: Option<bool>)

  /** A required string passes validation only when present and non-empty. */
  predicate RequiredString(f: Option<string>)
  {
    f.Some? && f.value != ""
  }

  /** Schema validation followed by the defaults of the rule schema. */
  function FromDocument(d: RuleDoc): (r: Result<ApprovalRule>)
    ensures r.Ok? <==> RequiredString(d.id) && RequiredString(d.companyId) && RequiredString(d.name)
    ensures r.Err? ==> r.status == 500
    ensures r.Ok? ==> r.value.id == d.id.value && r.value.companyId == d.companyId.value && r.value.name == d.name.value
    ensures r.Ok? ==> r.value.approvers == d.approvers && r.value.categories == d.categories
    // defaults: minAmount 0, maxAmount null, description ""
    ensures r.Ok? ==> r.value.minAmount == (if d.minAmount.None? then 0.0 else d.minAmount.value)
    ensures r.Ok? ==> r.value.maxAmount == (if d.maxAmount.None? then None else d.maxAmount.value)
    ensures r.Ok? ==> r.value.description == (if d.description.None? then "" else d.description.value)
    // defaults: manager approval required, parallel, 100 percent, active
    ensures r.Ok? ==> r.value.isManagerApproverRequired == (d.isManagerApproverRequired.None? || d.isManagerApproverRequired.value)
    ensures r.Ok? ==> r.value.isSequential == (d.isSequential.Some? && d.isSequential.value)
    ensures r.Ok? ==> r.value.minApprovalPercentage == (if d.minApprovalPercentage.None? then 100.0 else d.minApprovalPercentage.value)
    ensures r.Ok? ==> r.value.isActive == (d.isActive.None? || d.isActive.value)
    // the specific-approver shortcut is kept as supplied; off by default
    ensures r.Ok? && (d.specificApproverRule.None? || d.specificApproverRule.value.enabled.None?) ==>
              !r.value.specificApproverRule.enabled
    ensures r.Ok? && d.specificApproverRule.Some? && d.specificApproverRule.value.enabled.Some? ==>
              r.value.specificApproverRule.enabled == d.specificApproverRule.value.enabled.value
    ensures r.Ok? ==>
              r.value.specificApproverRule.approverId ==
              (if d.specificApproverRule.None? then None else d.specificApproverRule.value.approverId)
  {
    if !(RequiredString(d.id) && RequiredString(d.companyId) && RequiredString(d.name)) then
      Err(500, "Failed to create approval rule")
    else
      var sar := if d.specificApproverRule.None? then SpecificApproverDoc(None, None) else d.specificApproverRule.value;
      Ok(ApprovalRule(
        id := d.id.value,
        companyId := d.companyId.value,
        name := d.name.value,
        description := if d.description.None? then "" else d.description.value,
        minAmount := if d.minAmount.None? then 0.0 else d.minAmount.value,
        maxAmount := if d.maxAmount.None? then None else d.maxAmount.value,
        approvers := d.approvers,
        isManagerApproverRequired := if d.isManagerApproverRequired.None? then true else d.isManagerApproverRequired.value,
        isSequential := if d.isSequential.None? then false else d.isSequential.value,
        minApprovalPercentage := if d.minApprovalPercentage.None? then 100.0 else d.minApprovalPercentage.value,
        specificApproverRule := SpecificApproverRule(
          if sar.enabled.None? then false else sar.enabled.value, sar.approverId),
        categories := d.categories,
        isActive := if d.isActive.None? then true else d.isActive.value))
  }

  /** A document naming only the required fields gets every schema default. */
  lemma MinimalRuleDefaults(id: string, companyId: string, name: string)
    requires id != "" && companyId != "" && name != ""
    ensures var r := FromDocument(RuleDoc(Some(id), Some(companyId), Some(name), None, None, None, [], None, None, None, None, [], None));
            && r.Ok?
            && r.value.minAmount == 0.0 && r.value.maxAmount == None
            && r.value.isManagerApproverRequired && !r.value.isSequential
            && r.value.minApprovalPercentage == 100.0
            && !r.value.specificApproverRule.enabled
            && r.value.isActive && r.value.approvers == [] && r.value.categories == []
  {
  }
}

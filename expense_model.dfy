/**
 * The expense schema: required fields, the category / payment-method / status
 * enumerations, and the defaults the database fills in. The unique index on `id` is
 * enforced by `ExpenseDb.ExpenseTable.Create`.
 */
module ExpenseModel {
  import opened Wrappers
  import opened Types

  /** The currency symbol default exactly as the schema spells it: three characters, "â‚¹". */
  const WrittenSymbolDefault: string := "â‚¹"

  /** The Indian rupee sign that the company schema uses as its default. */
  const RupeeSign: string := "₹"

  /** The fields an expense document is created with; `Absent` is a field left out. */
  datatype ExpenseDoc = ExpenseDoc(
    id: Field<string>,
    userId: Field<string>,
    companyId: Field<string>,
    amount: Field<real>,
    category: Field<string>,
    description: Field<string>,
    date: Field<string>,
    paymentMethod: Field<string>,
    status: Field<string>,
    receiptUrl: Field<string>,
    tags: Field<seq<string>>,
    createdAt: Field<string>,
    updatedAt: Field<string>)

  /** Mongoose's `required` on a string: present, not null, not empty. */
  predicate RequiredText(f: Field<string>)
  {
    f.Value? && f.v != ""
  }

  /** The document passes schema validation. */
  predicate Admissible(d: ExpenseDoc)
  {
    && RequiredText(d.id) && RequiredText(d.userId) && RequiredText(d.companyId)
    && d.amount.Value?
    && d.category.Value? && ParseCategory(d.category.v).Some?
    && RequiredText(d.description) && RequiredText(d.date)
    && d.paymentMethod.Value? && ParsePaymentMethod(d.paymentMethod.v).Some?
    && (d.status.Absent? || (d.status.Value? && ParseStatus(d.status.v).Some?))
    && RequiredText(d.createdAt) && RequiredText(d.updatedAt)
  }

  /**
   * Validation and defaults, with the currency symbol default given as a parameter so
   * that the schema as written and as intended share one definition.
   */
  function Build(d: ExpenseDoc, symbolDefault: string): (r: Result<Expense>)
    ensures r.Ok? <==> Admissible(d)
    ensures r.Err? ==> r.status == 500
    ensures r.Ok? ==> CategoryName(r.value.category) == d.category.v
                      && PaymentMethodName(r.value.paymentMethod) == d.paymentMethod.v
    ensures r.Ok? ==> r.value.status == (if d.status.Absent? then Draft else ParseStatus(d.status.v).value)
    ensures r.Ok? ==> r.value.currency == "INR" && r.value.currencySymbol == symbolDefault
    ensures r.Ok? ==> !r.value.isManagerApproverRequired && r.value.approvals == []
    ensures r.Ok? ==> r.value.tags == (if d.tags.Value? then d.tags.v else [])
    // the document's own fields are stored as given
    ensures r.Ok? ==> r.value.id == d.id.v && r.value.userId == d.userId.v && r.value.companyId == d.companyId.v
    ensures r.Ok? ==> r.value.amount == d.amount.v && r.value.description == d.description.v && r.value.date == d.date.v
    ensures r.Ok? ==> r.value.receiptUrl == d.receiptUrl.ToOption()
    ensures r.Ok? ==> r.value.createdAt == d.createdAt.v && r.value.updatedAt == d.updatedAt.v
    // fields the schema leaves unset
    ensures r.Ok? ==> r.value.convertedAmount.None? && r.value.companyCurrency.None? && r.value.exchangeRate.None?
    ensures r.Ok? ==> r.value.submittedAt.None? && r.value.approvedAt.None? && r.value.rejectedAt.None?
  {
    if !Admissible(d) then Err(500, "Failed to create expense in database")
    else
      Ok(Expense(
        id := d.id.v, userId := d.userId.v, companyId := d.companyId.v,
        amount := d.amount.v,
        currency := "INR", currencySymbol := symbolDefault,
        convertedAmount := None, companyCurrency := None, exchangeRate := None,
        category := ParseCategory(d.category.v).value,
        description := d.description.v,
        date := d.date.v,
        paymentMethod := ParsePaymentMethod(d.paymentMethod.v).value,
        status := if d.status.Absent? then Draft else ParseStatus(d.status.v).value,
        approvals := [],
        isManagerApproverRequired := false,
        submittedAt := None, approvedAt := None, rejectedAt := None,
        receiptUrl := d.receiptUrl.ToOption(),
        tags := if d.tags.Value? then d.tags.v else [],
        createdAt := d.createdAt.v, updatedAt := d.updatedAt.v))
  }

  /**
   * The schema as written, which is what the expense table stores through: its currency
   * symbol default is the mis-encoded "â‚¹".
   */
  function FromDocumentAsWritten(d: ExpenseDoc): (r: Result<Expense>)
    ensures r.Ok? <==> Admissible(d)
    ensures r.Ok? ==> r.value.currencySymbol == WrittenSymbolDefault && r.value.currencySymbol != RupeeSign
    ensures r.Ok? ==> r.value.currency == "INR"
    ensures r.Ok? ==> r.value.status == (if d.status.Absent? then Draft else ParseStatus(d.status.v).value)
  {
    Build(d, WrittenSymbolDefault)
  }

  /** The schema as intended: the same default symbol as companies, the rupee sign. */
  function FromDocument(d: ExpenseDoc): (r: Result<Expense>)
    ensures r.Ok? <==> Admissible(d)
    ensures r.Ok? ==> r.value.currencySymbol == RupeeSign && r.value.currency == "INR"
    ensures r.Ok? ==> r.value.status == (if d.status.Absent? then Draft else ParseStatus(d.status.v).value)
  {
    Build(d, RupeeSign)
  }

  /** The two schemas accept the same documents and store the same expense up to the currency symbol. */
  lemma SchemasDifferOnlyInSymbol(d: ExpenseDoc)
    ensures FromDocumentAsWritten(d).Ok? <==> FromDocument(d).Ok?
    ensures FromDocument(d).Ok? ==>
              FromDocument(d).value == FromDocumentAsWritten(d).value.(currencySymbol := RupeeSign)
              && FromDocument(d).value != FromDocumentAsWritten(d).value
  {
  }

  /** A new approval entry: the status defaults to Pending. */
  function NewApprovalEntry(approverId: string, order: Option<int>, status: Option<ApprovalStatus>): (a: ExpenseApproval)
    ensures a.approverId == approverId && a.order == order
    ensures status.None? ==> a.status == Pending
    ensures status.Some? ==> a.status == status.value
  {
    ExpenseApproval(approverId, order, if status.None? then Pending else status.value, None, None)
  }

  /**
   * Every admissible document yields an expense whose category, payment method and
   * status are among the fixed enumerations, named exactly as the document named them.
   */
  lemma EnumeratedFieldsRoundTrip(d: ExpenseDoc)
    requires Admissible(d)
    ensures var e := FromDocumentAsWritten(d).value;
            && ParseCategory(CategoryName(e.category)) == Some(e.category)
            && ParsePaymentMethod(PaymentMethodName(e.paymentMethod)) == Some(e.paymentMethod)
            && ParseStatus(StatusName(e.status)) == Some(e.status)
  {
    var e := FromDocumentAsWritten(d).value;
    CategoryNameParses(e.category);
    PaymentMethodNameParses(e.paymentMethod);
    StatusNameParses(e.status);
  }

  lemma CategoryNameParses(c: ExpenseCategory)
    ensures ParseCategory(CategoryName(c)) == Some(c)
  {
  }

  lemma PaymentMethodNameParses(p: PaymentMethod)
    ensures ParsePaymentMethod(PaymentMethodName(p)) == Some(p)
  {
  }

  lemma StatusNameParses(s: ExpenseStatus)
    ensures ParseStatus(StatusName(s)) == Some(s)
  {
  }
}

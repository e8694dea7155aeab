/**
 * The records and enumerations of the expense-management system: users and their roles,
 * companies, approval rules, expenses with their approval entries, budgets. Enumerations
 * are datatypes; each has its wire name and a parser that accepts exactly those names,
 * which is how the database schemas restrict a string field to a fixed set.
 */
module Types {
  import opened Wrappers

  /** A point in time (`Date` objects stored on records), compared as milliseconds. */
  type Timestamp = int

  // ---------------------------------------------------------------- Role

  datatype Role = Employee | Manager | Admin

  function RoleName(r: Role): string
  {
    match r
    case Employee => "employee"
    case Manager => "manager"
    case Admin => "admin"
  }

  function ParseRole(s: string): (r: Option<Role>)
    ensures r.Some? <==> s == "employee" || s == "manager" || s == "admin"
    ensures r.Some? ==> RoleName(r.value) == s
  {
    if s == "employee" then Some(Employee)
    else if s == "manager" then Some(Manager)
    else if s == "admin" then Some(Admin)
    else None
  }

  // ---------------------------------------------------------------- ExpenseCategory

  datatype ExpenseCategory =
    Food | Transportation | Utilities | Entertainment | Healthcare | Shopping | Travel | Education | Other

  function CategoryName(c: ExpenseCategory): string
  {
    match c
    case Food => "Food"
    case Transportation => "Transportation"
    case Utilities => "Utilities"
    case Entertainment => "Entertainment"
    case Healthcare => "Healthcare"
    case Shopping => "Shopping"
    case Travel => "Travel"
    case Education => "Education"
    case Other => "Other"
  }

  const AllCategories: seq<ExpenseCategory> :=
    [Food, Transportation, Utilities, Entertainment, Healthcare, Shopping, Travel, Education, Other]

  function ParseCategory(s: string): (r: Option<ExpenseCategory>)
    ensures r.Some? ==> CategoryName(r.value) == s
    ensures r.None? ==> forall c :: CategoryName(c) != s
  {
    if s == "Food" then Some(Food)
    else if s == "Transportation" then Some(Transportation)
    else if s == "Utilities" then Some(Utilities)
    else if s == "Entertainment" then Some(Entertainment)
    else if s == "Healthcare" then Some(Healthcare)
    else if s == "Shopping" then Some(Shopping)
    else if s == "Travel" then Some(Travel)
    else if s == "Education" then Some(Education)
    else if s == "Other" then Some(Other)
    else None
  }

  /** There are exactly nine categories, listed once each, with nine distinct names. */
  lemma CategoriesEnumerated()
    ensures |AllCategories| == 9
    ensures forall c :: c in AllCategories
    ensures forall i, j :: 0 <= i < j < 9 ==> CategoryName(AllCategories[i]) != CategoryName(AllCategories[j])
  {
    forall c ensures c in AllCategories {
      match c
      case Food => assert AllCategories[0] == c;
      case Transportation => assert AllCategories[1] == c;
      case Utilities => assert AllCategories[2] == c;
      case Entertainment => assert AllCategories[3] == c;
      case Healthcare => assert AllCategories[4] == c;
      case Shopping => assert AllCategories[5] == c;
      case Travel => assert AllCategories[6] == c;
      case Education => assert AllCategories[7] == c;
      case Other => assert AllCategories[8] == c;
    }
  }

  // ---------------------------------------------------------------- PaymentMethod

  datatype PaymentMethod = Cash | CreditCard | DebitCard | Upi | BankTransfer | OtherMethod

  function PaymentMethodName(p: PaymentMethod): string
  {
    match p
    case Cash => "Cash"
    case CreditCard => "Credit Card"
    case DebitCard => "Debit Card"
    case Upi => "UPI"
    case BankTransfer => "Bank Transfer"
    case OtherMethod => "Other"
  }

  const AllPaymentMethods: seq<PaymentMethod> := [Cash, CreditCard, DebitCard, Upi, BankTransfer, OtherMethod]

  function ParsePaymentMethod(s: string): (r: Option<PaymentMethod>)
    ensures r.Some? ==> PaymentMethodName(r.value) == s
    ensures r.None? ==> forall p :: PaymentMethodName(p) != s
  {
    if s == "Cash" then Some(Cash)
    else if s == "Credit Card" then Some(CreditCard)
    else if s == "Debit Card" then Some(DebitCard)
    else if s == "UPI" then Some(Upi)
    else if s == "Bank Transfer" then Some(BankTransfer)
    else if s == "Other" then Some(OtherMethod)
    else None
  }

  /** There are exactly six payment methods, with six distinct names. */
  lemma PaymentMethodsEnumerated()
    ensures |AllPaymentMethods| == 6
    ensures forall p :: p in AllPaymentMethods
    ensures forall i, j :: 0 <= i < j < 6 ==> PaymentMethodName(AllPaymentMethods[i]) != PaymentMethodName(AllPaymentMethods[j])
  {
    forall p ensures p in AllPaymentMethods {
      match p
      case Cash => assert AllPaymentMethods[0] == p;
      case CreditCard => assert AllPaymentMethods[1] == p;
      case DebitCard => assert AllPaymentMethods[2] == p;
      case Upi => assert AllPaymentMethods[3] == p;
      case BankTransfer => assert AllPaymentMethods[4] == p;
      case OtherMethod => assert AllPaymentMethods[5] == p;
    }
  }

  // ---------------------------------------------------------------- Statuses

  /** The five states of an expense's workflow. */
  datatype ExpenseStatus = Draft | Submitted | WaitingApproval | Approved | Rejected

  function StatusName(s: ExpenseStatus): string
  {
    match s
    case Draft => "Draft"
    case Submitted => "Submitted"
    case WaitingApproval => "Waiting Approval"
    case Approved => "Approved"
    case Rejected => "Rejected"
  }

  function ParseStatus(s: string): (r: Option<ExpenseStatus>)
    ensures r.Some? ==> StatusName(r.value) == s
    ensures r.None? ==> forall st :: StatusName(st) != s
  {
    if s == "Draft" then Some(Draft)
    else if s == "Submitted" then Some(Submitted)
    else if s == "Waiting Approval" then Some(WaitingApproval)
    else if s == "Approved" then Some(Approved)
    else if s == "Rejected" then Some(Rejected)
    else None
  }

  /** The decision recorded on one approval entry. */
  datatype ApprovalStatus = Pending | Accepted | Declined

  function ApprovalStatusName(s: ApprovalStatus): string
  {
    match s
    case Pending => "Pending"
    case Accepted => "Approved"
    case Declined => "Rejected"
  }

  /** Each status enumeration has exactly its listed wire names, all distinct. */
  lemma StatusesEnumerated()
    ensures forall s :: StatusName(s) in ["Draft", "Submitted", "Waiting Approval", "Approved", "Rejected"]
    ensures forall s, t :: s != t ==> StatusName(s) != StatusName(t)
    ensures forall a :: ApprovalStatusName(a) in ["Pending", "Approved", "Rejected"]
    ensures forall a, b :: a != b ==> ApprovalStatusName(a) != ApprovalStatusName(b)
  {
  }

  datatype BudgetPeriod = Monthly | Yearly

  function PeriodName(p: BudgetPeriod): string
  {
    match p
    case Monthly => "monthly"
    case Yearly => "yearly"
  }

  function ParsePeriod(s: string): (r: Option<BudgetPeriod>)
    ensures r.Some? <==> s == "monthly" || s == "yearly"
    ensures r.Some? ==> PeriodName(r.value) == s
  {
    if s == "monthly" then Some(Monthly) else if s == "yearly" then Some(Yearly) else None
  }

  // ---------------------------------------------------------------- Records

  datatype User = User(
    id: string,
    name: string,
    email: string,
    passwordHash: string,
    role: Role,
    companyId: string,
    managerId: Option<string>,
    isActive: bool)

  datatype Company = Company(
    id: string,
    name: string,
    country: string,
    currency: string,
    currencySymbol: string,
    adminId: string,
    isActive: bool)

  /** One approver of a rule, numbered by its position in the rule. */
  datatype RuleApprover = RuleApprover(userId: Option<string>, order: int)

  /** If enabled, an approval by `approverId` approves the whole expense. */
  datatype SpecificApproverRule = SpecificApproverRule(enabled: bool, approverId: Option<string>)

  datatype ApprovalRule = ApprovalRule(
    id: string,
    companyId: string,
    name: string,
    description: string,
    minAmount: real,
    maxAmount: Option<real>,          // None: no upper bound (stored as null)
    approvers: seq<RuleApprover>,
    isManagerApproverRequired: bool,
    isSequential: bool,
    minApprovalPercentage: real,
    specificApproverRule: SpecificApproverRule,
    categories: seq<string>,
    isActive: bool)

  /** One step of an expense's approval: who must decide, in which position, and what they decided. */
  datatype ExpenseApproval = ExpenseApproval(
    approverId: string,
    order: Option<int>,
    status: ApprovalStatus,
    comment: Option<string>,
    approvedAt: Option<Timestamp>)

  datatype Expense = Expense(
    id: string,
    userId: string,
    companyId: string,
    amount: real,
    currency: string,
    currencySymbol: string,
    convertedAmount: Option<real>,
    companyCurrency: Option<string>,
    exchangeRate: Option<real>,
    category: ExpenseCategory,
    description: string,
    date: string,
    paymentMethod: PaymentMethod,
    status: ExpenseStatus,
    approvals: seq<ExpenseApproval>,
    isManagerApproverRequired: bool,
    submittedAt: Option<Timestamp>,
    approvedAt: Option<Timestamp>,
    rejectedAt: Option<Timestamp>,
    receiptUrl: Option<string>,
    tags: seq<string>,
    createdAt: string,
    updatedAt: string)

  /** The weight the totals add up: an expense's amount. */
  function AmountOf(e: Expense): real
  {
    e.amount
  }

  datatype Budget = Budget(
    id: string,
    category: ExpenseCategory,
    amount: real,
    period: BudgetPeriod,
    startDate: string,
    endDate: Option<string>,
    alertThreshold: real)

  /** A JavaScript number that may have come out of a division: finite, ±Infinity or NaN. */
  datatype JsNumber = Finite(value: real) | PositiveInfinity | NegativeInfinity | NotANumber

  /** `x / y` on JavaScript numbers (the sign of a zero divisor is not modelled). */
  function Divide(x: real, y: real): (r: JsNumber)
    ensures y != 0.0 ==> r == Finite(x / y)
    ensures y == 0.0 ==> (r.PositiveInfinity? <==> x > 0.0) && (r.NegativeInfinity? <==> x < 0.0)
                         && (r.NotANumber? <==> x == 0.0)
  {
    if y != 0.0 then Finite(x / y)
    else if x > 0.0 then PositiveInfinity
    else if x < 0.0 then NegativeInfinity
    else NotANumber
  }

  /** `x * k` for a finite factor `k > 0`. */
  function Scale(x: JsNumber, k: real): JsNumber
    requires k > 0.0
  {
    if x.Finite? then Finite(x.value * k) else x
  }

  /** `x >= t` for a finite `t`: false for NaN and -Infinity, true for +Infinity. */
  predicate AtLeast(x: JsNumber, t: real)
  {
    match x
    case Finite(v) => v >= t
    case PositiveInfinity => true
    case NegativeInfinity => false
    case NotANumber => false
  }

  /** `BudgetStatus` of the budgets API. */
  datatype BudgetStatus = BudgetStatus(
    budget: Budget,
    spent: real,
    remaining: real,
    percentage: JsNumber,
    isExceeded: bool,
    shouldAlert: bool)

  /** The signed-in user as the session presents it to the handlers. */
  datatype SessionUser = SessionUser(id: string, role: Role, companyId: string)
}

# Expense management: a Dafny model of the server core

This project models the server side of an expense-management web application. Employees
record expenses. Managers and administrators review them. Administrators run the
company's users, approval rules and budgets. The model covers:

- **Records and schemas**: users, companies, approval rules, expenses and budgets. Each
  schema has its required fields, enumerations, defaults and unique indexes. The
  collections are in-memory tables (`Store.Database`, `ExpenseDb.ExpenseTable`). An insert
  validates, fills in defaults and refuses a duplicate key.
- **The expense table helper**: read all, read one, create, patch, delete, and the
  field-by-field filter with its query construction.
- **Request handlers**, each modelled as a function or method from the request, the
  session and the stored tables to a status-coded result:
  - expenses: list and create;
  - administrator user management: list and create;
  - sign-up;
  - approval rules: list and create;
  - the approval inbox;
  - budgets: status and create;
  - the dashboard and the analytics summaries;
  - the CSV/JSON export;
  - the country/currency list.
- **Client-side logic**: the approval-rule form (toggles, reset, the request it builds),
  the sign-up form (country choice, the checks and the body it sends), the navigation links
  by role, and the `cn` and `getMonthName` helpers.
- **JavaScript semantics where they matter**:
  - truthiness, `||` and `??` (`Wrappers.Field`);
  - division by zero (`Types.Divide`);
  - string comparison (`Text.StrLe`);
  - `Map` insertion order (`Grouping`);
  - date-only ISO strings and the overflowing `setMonth`/`setFullYear` of `Date` (`Calendar`).

The clock, random ids, password hashes, `parseFloat`, number-to-text conversion and
locale collation are parameters of the operations that use them.

## Model

| member | source | states |
|---|---|---|
| Types.ParseRole | src/models/User.ts:23-27 | accepts exactly "employee", "manager" and "admin"; the parsed role's name is the text parsed |
| Types.ParseCategory | src/types/index.ts:101-110 | accepts exactly the nine category names and returns the category with that name; every other text is refused |
| Types.CategoriesEnumerated | src/models/Expense.ts:17-31 | there are nine categories, every category is among them, and their names are pairwise distinct |
| Types.ParsePaymentMethod | src/types/index.ts:112-118 | accepts exactly the six payment-method names, returning the method with that name |
| Types.PaymentMethodsEnumerated | src/models/Expense.ts:34-45 | six payment methods, all listed, with distinct names |
| Types.ParseStatus | src/types/index.ts:120-125 | accepts exactly the five expense-status names |
| Types.StatusesEnumerated | src/models/Expense.ts:46-63 | expense statuses are named from the five-name enumeration and approval-entry statuses from Pending/Approved/Rejected, each injectively |
| Types.ParsePeriod | src/models/Budget.ts:24-28 | accepts exactly "monthly" and "yearly" |
| Types.Divide | src/app/api/budgets/route.ts:48 | a non-zero divisor gives the real quotient; a zero divisor gives +Infinity, -Infinity or NaN by the sign of the dividend |
| Text.Lower | src/models/User.ts:13-18 | lower-casing keeps the length and maps each character on its own; only ASCII letters are mapped (see "Left out") |
| Text.LowerIdempotent | src/models/User.ts:17 | lower-casing a lower-cased email changes nothing |
| Text.StrLeTotal | src/app/api/budgets/route.ts:39-42 | string comparison as the database does it orders every pair |
| Text.StrLeTransitive | src/app/api/budgets/route.ts:39-42 | and is transitive, so date-string ranges and date sorts are well defined |
| Text.SplitJoin | src/app/api/export/expenses/route.ts:34-37 | joining parts that do not contain the separator and splitting on it again gives back the parts |
| Calendar.ParseIsoDate | src/app/api/budgets/route.ts:22-26 | a date-only string parses exactly when it is `YYYY-MM-DD` with a month 01..12 and a day 01..31; the result is a valid day, and a day the month lacks rolls over into the next month |
| Calendar.ParseRollsOver | src/app/api/budgets/route.ts:22-26 | "2024-02-30", "2023-02-29" and "2024-04-31" are read as the 1st of the next month; day 32 and month 13 are Invalid Date |
| Calendar.FormatIsoDate | src/app/api/budgets/route.ts:40-41 | the date part of `toISOString` is ten characters |
| Calendar.ParseFormatIsoDate | src/app/api/budgets/route.ts:40-41 | formatting a day and parsing the text gives back the same day |
| Calendar.DateText | src/app/api/budgets/route.ts:40-41 | years below 10000 give the four-digit form; later years give the 13-character `+YYYYYY-MM-DD` form |
| Calendar.SetMonth | src/app/api/budgets/route.ts:28-29 | `setMonth` always yields a valid calendar day, whatever month it is given |
| Calendar.SetFullYear | src/app/api/budgets/route.ts:31-32 | `setFullYear` always yields a valid calendar day |
| Calendar.MonthsBefore | src/app/api/dashboard/route.ts:64-69 | the month k months earlier has a month index exactly k smaller, with the month in 0..11 |
| Calendar.MonthIndexInjective | src/app/api/dashboard/route.ts:68-69 | two (year, month) pairs with equal month index are equal |
| Grouping.Keys | src/app/api/dashboard/route.ts:37-50 | the keys of a `Map` filled in by `forEach`: no duplicates, exactly the keys that occur, in order of first occurrence |
| Grouping.SumFor | src/app/api/dashboard/route.ts:43-46 | a key that no element has totals 0 |
| Grouping.CountFor | src/app/api/dashboard/route.ts:43-46 | a count never exceeds the number of elements, and it is zero exactly when no element has the key |
| Grouping.SumsPartitionTotal | src/app/api/analytics/route.ts:21-29 | the group totals over all keys add up to the overall total |
| Grouping.CountsPartitionLength | src/app/api/dashboard/route.ts:37-47 | the group counts add up to the number of elements |
| Grouping.TotalOverStep | src/app/api/dashboard/route.ts:38-47 | adding one element to the input adds its weight to the total over distinct keys exactly when its key is among them |
| Grouping.CountOverStep | src/app/api/dashboard/route.ts:38-47 | likewise for the counts |
| Grouping.EntryTotals | src/app/api/dashboard/route.ts:49-56 | entries that carry the group totals of the keys add up to the total over those keys |
| Grouping.EntryCounts | src/app/api/dashboard/route.ts:49-56 | entries that carry the group sizes add up to the count over those keys |
| Grouping.Tally | src/app/api/dashboard/route.ts:37-47 | the `forEach` loop fills maps whose keys are `Keys` in insertion order, each with its group's total and size |
| Grouping.TallyStep | src/app/api/dashboard/route.ts:38-47 | one callback call turns the maps for a prefix into the maps for the prefix one element longer: a new key is appended, a seen key keeps its place and gains the weight and one count |
| Seqs.Find | src/app/auth/register/page.tsx:60 | `find` returns the first satisfying element of the list, and nothing exactly when no element satisfies the test |
| Seqs.Filter | src/app/api/countries/route.ts:38 | `filter` keeps every passing element, keeps only passing elements of the list, and is never longer than the list |
| Seqs.FilterMultiset | src/app/api/countries/route.ts:38 | `filter` keeps each passing element exactly as often as it occurs in the list and adds nothing, so its result is a sub-multiset of the list |
| Sorting.SortBy | src/app/api/admin/approval-rules/route.ts:30 | a sort returns a permutation of its input ordered by the comparison |
| Sorting.SortByMembers | src/app/api/admin/approval-rules/route.ts:30 | sorting neither adds nor loses a member |
| ApprovalRuleModel.FromDocument | src/models/ApprovalRule.ts:4-59 | validation succeeds iff id, company and name are present and non-empty (500 otherwise); min amount 0, max amount null, percentage 100, manager required true, sequential false and active true when left out; the specific-approver rule is stored as supplied (its approver id, and its enabled flag, off when left out) |
| ApprovalRuleModel.MinimalRuleDefaults | src/models/ApprovalRule.ts:21-59 | a document naming only the required fields gets every schema default |
| ExpenseModel.Build | src/models/Expense.ts:5-73 | accepted iff required fields are present and enumerations valid; status Draft by default, currency INR, no approvals, manager approval not required, tags [] by default; id, owner, company, amount, description, date, receipt URL and timestamps stored as given; conversion and decision fields unset |
| ExpenseModel.FromDocumentAsWritten | src/models/Expense.ts:5-73 | the schema as written, which the expense table stores through: accepted iff required fields are present and enumerations valid; currency INR, status Draft by default, and the currency-symbol default is the three-character mis-encoded text, not the rupee sign |
| ExpenseModel.FromDocument | src/models/Expense.ts:5-73 | the schema with the rupee sign as currency-symbol default, same acceptance and status default |
| ExpenseModel.SchemasDifferOnlyInSymbol | src/models/Expense.ts:12 | the schema as written and as intended accept the same documents and store the same expense except for the currency symbol |
| ExpenseModel.NewApprovalEntry | src/models/Expense.ts:52-64 | an approval entry's status defaults to Pending |
| ExpenseModel.EnumeratedFieldsRoundTrip | src/models/Expense.ts:17-51 | an accepted document's category, method and status are named exactly as the document named them |
| ExpenseModel.CategoryNameParses | src/models/Expense.ts:17-31 | every category's name parses back to it |
| ExpenseModel.PaymentMethodNameParses | src/models/Expense.ts:34-45 | every payment method's name parses back to it |
| ExpenseModel.StatusNameParses | src/models/Expense.ts:46-51 | every status's name parses back to it |
| UserModel.FromDocument | src/models/User.ts:3-48 | accepted iff id, name, email, password and company are present and a given role is one of the three; the email is stored lower-cased (ASCII letters, see "Left out"); role employee, manager none and active true by default |
| UserModel.EmailCaseInsensitive | src/models/User.ts:13-18 | two emails that differ only in ASCII letter case are stored as the same email |
| CompanyModel.FromDocument | src/models/Company.ts:3-41 | accepted iff id, name, country, currency and administrator are present; rupee sign and active true by default |
| BudgetModel.FromDocument | src/models/Budget.ts:5-34 | accepted iff id, a known category, amount, a known period and start date are present; alert threshold 80 by default |
| Store.AppendKeepsUnique | src/models/User.ts:51-52 | appending a record whose key is new keeps a unique index intact |
| Store.UserById | src/app/api/approvals/route.ts:40 | `findOne({ id })` returns a user with that id, and nothing exactly when no user has it |
| Store.UserByEmail | src/app/api/auth/register/route.ts:59-61 | `findOne({ email })` returns a user with that email, and nothing exactly when none has it |
| Store.CompanyById | src/app/api/auth/register/route.ts:127-129 | `findOne({ id })` on companies, found iff some company has the id |
| Store.Database.constructor | src/models/User.ts:51-52 | the empty database satisfies the unique indexes |
| Store.Database.InsertUser | src/models/User.ts:51-52 | saved iff the schema accepts the document and neither its id nor its lower-cased email is taken; a refusal is a 500 and changes nothing |
| Store.Database.InsertCompany | src/models/Company.ts:44 | saved iff the schema accepts it and the id is new; other collections untouched |
| Store.Database.InsertRule | src/models/ApprovalRule.ts:71 | saved iff the schema accepts it and the id is new |
| Store.Database.InsertBudget | src/models/Budget.ts:7 | saved iff the schema accepts it and the id is new |
| Store.Database.SetCompanyAdmin | src/app/api/auth/register/route.ts:99-102 | found iff a company has the id; that company's administrator becomes the given id and nothing else changes |
| ExpenseDb.DateDescOrders | src/lib/db.ts:11 | latest-date-first is a total preorder |
| ExpenseDb.Listing | src/lib/db.ts:11-15 | a listing is a permutation of the rows sorted latest date first |
| ExpenseDb.ListingMembers | src/lib/db.ts:11-15 | a record is in a listing iff it is in the rows |
| ExpenseDb.IndexOf | src/lib/db.ts:25 | the first position with the id, or none exactly when no record has it |
| ExpenseDb.ApplyPatch | src/lib/db.ts:59-63 | a patch keeps the id and stamps `updatedAt` with the current time |
| ExpenseDb.EmptyPatchOnlyTouchesUpdatedAt | src/lib/db.ts:61 | an empty patch changes nothing but the modification time |
| ExpenseDb.ApplyPatchIdempotent | src/lib/db.ts:59-63 | applying a patch twice equals applying it once |
| ExpenseDb.ApplyPatchFields | src/lib/db.ts:59-63 | for each of the 21 patchable fields, a supplied value is stored as given and an omitted one is kept; the id is kept and `updatedAt` is the current time |
| ExpenseDb.OnlyTruthy | src/lib/db.ts:96-101 | a string filter key is kept exactly when it is truthy |
| ExpenseDb.QueryFor | src/lib/db.ts:94-122 | category, status and date bounds enter the query, with their values, only when truthy; amount bounds whenever defined; as written no owner or company condition |
| ExpenseDb.Select | src/lib/db.ts:124 | `find(query)` returns exactly the rows that match, never more rows than there are |
| ExpenseDb.AmountBoundsInclusive | src/lib/db.ts:115-121 | an amount equal to both bounds passes them |
| ExpenseDb.ZeroMinimumApplies | src/lib/db.ts:112-118 | a zero minimum is applied (the test is `!== undefined`, not truthiness) |
| ExpenseDb.EmptyStringsIgnored | src/lib/db.ts:96-101 | an empty category or status is ignored exactly as a missing one |
| ExpenseDb.QueryIgnoresScope | src/lib/db.ts:94-122 | the query as written is the same whatever `userId` and `companyId` hold |
| ExpenseDb.ScopedMatches | src/lib/db.ts:94-122 | with owner and company honoured, a row matches iff it matches the query as written and has the requested owner and company |
| ExpenseDb.FilterIgnoresOwner | src/lib/db.ts:94-122 | as written, a filter holding only a user id lists other users' records |
| ExpenseDb.ExpenseTable.constructor | src/lib/db.ts:6-7 | the table starts empty with unique ids |
| ExpenseDb.ExpenseTable.GetAll | src/lib/db.ts:8-20 | all rows, latest date first |
| ExpenseDb.ExpenseTable.GetById | src/lib/db.ts:22-35 | the record with the id, or null exactly when no record has it |
| ExpenseDb.ExpenseTable.Create | src/lib/db.ts:37-50 | stored through the schema as written iff it accepts the document and the id is new; a failure is a 500 that changes nothing |
| ExpenseDb.ExpenseTable.Update | src/lib/db.ts:52-74 | an unknown id changes nothing and returns null; otherwise only that record is replaced by the patched one, which is returned |
| ExpenseDb.ExpenseTable.Delete | src/lib/db.ts:76-85 | true iff a record had the id; that record is removed and the rest keep their order |
| ExpenseDb.ExpenseTable.BuildQuery | src/lib/db.ts:94-122 | the field-by-field assignments produce `QueryFor` |
| ExpenseDb.ExpenseTable.FilterAsWritten | src/lib/db.ts:87-136 | the matching rows of the query as written, latest date first |
| ExpenseDb.ExpenseTable.Filter | src/lib/db.ts:87-136 | with owner and company applied, every listed record has the requested owner and company |
| ExpensesApi.FiltersFor | src/app/api/expenses/route.ts:27-43 | only non-empty parameters enter the filter; amounts through `parseFloat`; employees add their id and others their company |
| ExpensesApi.FiltersNeverEmpty | src/app/api/expenses/route.ts:45-48 | every signed-in role adds a key, so `getAll` is never reached |
| ExpensesApi.BuildFilters | src/app/api/expenses/route.ts:27-43 | the key-by-key assignments produce `FiltersFor` |
| ExpensesApi.ListAsWritten | src/app/api/expenses/route.ts:9-63 | 401 without a session; otherwise the filter as written |
| ExpensesApi.List | src/app/api/expenses/route.ts:35-48 | with the scope applied, employees get only their own expenses and others only their company's |
| ExpensesApi.EmployeeSeesOthersAsWritten | src/app/api/expenses/route.ts:36-47 | as written, an employee's listing contains another user's expense |
| ExpensesApi.EmployeeSeesOwnOnly | src/app/api/expenses/route.ts:36-37 | with the scope, an employee's listing holds an expense iff it is theirs and passes the other filters |
| ExpensesApi.NewExpense | src/app/api/expenses/route.ts:78-92 | a fresh id, owner and company from the session, status Draft, tags or [] |
| ExpensesApi.NewExpenseIsCallersDraft | src/app/api/expenses/route.ts:78-94 | a stored new expense is a Draft of the caller, in the caller's company, with no approvals and the mis-encoded default currency symbol |
| ExpensesApi.Post | src/app/api/expenses/route.ts:66-111 | 401 without a session; otherwise the new draft is stored exactly when the schema as written accepts it and its id is new, and is then the expense the schema builds; else 500 "Failed to create expense" with nothing stored |
| UsersApi.ManagerInCompany | src/app/api/admin/users/route.ts:135-140 | finds an active manager of the caller's company with the id, and none exactly when there is none |
| UsersApi.Screen | src/app/api/admin/users/route.ts:71-148 | 401, then 403 for non-admins, then 400; a body passes exactly when name, email and password are truthy, the role is employee or manager, the session has a company, an employee names a manager, the email is free and a named manager is an active manager of the company |
| UsersApi.MissingFieldsFirst | src/app/api/admin/users/route.ts:86-91 | a missing field is reported before any other check |
| UsersApi.NewUserDoc | src/app/api/admin/users/route.ts:153-165 | the new id, the body's name and email, the hash, the screened role, the caller's company, active, and `managerId` only for an employee |
| UsersApi.WithoutPassword | src/app/api/admin/users/route.ts:170-174 | the answer carries every user field (id, name, email, role, company, manager, active flag) and not the password hash |
| UsersApi.PostUser | src/app/api/admin/users/route.ts:65-187 | a refused screen changes nothing; a passing one with a fresh id appends exactly the user the schema builds from the request (its role, name, lower-cased email, an employee's manager) and keeps "every employee's manager is an active manager of the same company" |
| UsersApi.PreserveManagersSound | src/app/api/admin/users/route.ts:115-148 | adding a manager, or an employee whose manager is an active manager of its company, preserves that invariant |
| UsersApi.ManagerName | src/app/api/admin/users/route.ts:39-50 | no manager name exactly when the manager id is missing or empty; "Unknown" when no user has that id or the manager's name is empty; otherwise the manager's name |
| UsersApi.CompanyMembers | src/app/api/admin/users/route.ts:29-34 | every user the query returns is active and in the given company |
| UsersApi.Entries | src/app/api/admin/users/route.ts:37-52 | one listing entry per given user, in the same order, each the user without its password plus its manager's name |
| UsersApi.ListUsers | src/app/api/admin/users/route.ts:10-62 | 401/403; otherwise exactly the active users of the caller's company, one entry per such user in table order (CompanyMembers mapped entry by entry), each without its password and with its manager's name |
| RegisterApi.RoleOf | src/app/api/auth/register/route.ts:38 | a truthy role is kept as given; a missing or empty role means "employee" |
| RegisterApi.Screen | src/app/api/auth/register/route.ts:24-67 | a body passes exactly when name, email and a password of at least 6 are given, an admin gives company name and currency, an employee or manager a company id, and the email is free; a taken email is 409 and every other refusal 400 |
| RegisterApi.EmailCheckedBeforeCompany | src/app/api/auth/register/route.ts:59-67 | a taken email is reported with 409 even when the company does not exist |
| RegisterApi.NewCompanyDoc | src/app/api/auth/register/route.ts:76-83 | the new id and the sent company name; India, INR and the rupee sign when not given; a placeholder administrator id |
| RegisterApi.NewUserDoc | src/app/api/auth/register/route.ts:88-96 | the new id, the name, the hash, the role and company; the email is lower-cased; admins have no manager and others their manager only when one is given |
| RegisterApi.Register | src/app/api/auth/register/route.ts:8-173 | a refused screen changes nothing; an employee or manager of an existing company is registered exactly when the schema accepts the user and its id is new, as the user built from the body, and a missing company is 404; an admin path as in RegisterAdmin |
| RegisterApi.RegisterAdmin | src/app/api/auth/register/route.ts:76-102 | succeeds exactly when the company and the user built from the body are accepted with new ids; the user is then an admin without a manager and the company, with its sent or default fields, points at that user; a failed user write leaves the company with its placeholder administrator behind |
| RegisterApi.RegistrationMayBreakManagersSound | src/app/api/auth/register/route.ts:139-147 | self sign-up can store an employee without a manager |
| RegisterPage.HandleCountryChange | src/app/auth/register/page.tsx:59-69 | an unknown country leaves the form unchanged; a known one sets the country, and the currency code and symbol of the first country in the list with that name |
| RegisterPage.Submit | src/app/auth/register/page.tsx:71-115 | mismatched passwords, then a short password, then the role's company field block the request; the body carries the company id only for non-admins and the company fields only for admins |
| RegisterPage.SentFormPassesServerChecks | src/app/auth/register/page.tsx:103-115 | a form the page sends, with a name, a free email and (for admins) a currency, passes the server's checks |
| RegisterPage.AdminWithoutCurrencyRefusedByServer | src/app/auth/register/page.tsx:85-93 | an admin who chose no country passes the page's checks but gets the server's 400 |
| ApprovalRulesApi.Screen | src/app/api/admin/approval-rules/route.ts:48-91 | 401, 403 for non-admins, then 400 for a missing name, an undefined minimum or no approvers, then 400 for a percentage outside 1..100 |
| ApprovalRulesApi.NumberApprovers | src/app/api/admin/approval-rules/route.ts:102-105 | stored approvers keep the input order and the i-th gets order i+1 |
| ApprovalRulesApi.NumberingIsOneToN | src/app/api/admin/approval-rules/route.ts:102-105 | the orders are strictly increasing and are exactly 1..n |
| ApprovalRulesApi.NumberingIgnoresInputOrder | src/app/api/admin/approval-rules/route.ts:102-105 | any `order` sent with an approver is ignored |
| ApprovalRulesApi.CreatedRule | src/app/api/admin/approval-rules/route.ts:95-114 | a screened request always yields a valid rule: active, in the caller's company, with the sent name and the approvers numbered 1..n; the minimum is non-zero exactly when a truthy minimum was sent and the maximum null exactly when none was; `??` gives manager-required true and sequential false; the percentage is 100 when not sent and always within 1..100; no specific approver and no categories unless sent |
| ApprovalRulesApi.PostRule | src/app/api/admin/approval-rules/route.ts:44-129 | a refused screen writes nothing; otherwise the rule is saved or the save fails with 500 |
| ApprovalRulesApi.MinAmountOrders | src/app/api/admin/approval-rules/route.ts:30 | ascending minimum amount is a total preorder |
| ApprovalRulesApi.ListRules | src/app/api/admin/approval-rules/route.ts:9-41 | 401/403; otherwise exactly the active rules of the caller's company, each as often as it is stored, ascending by minimum amount |
| ApprovalRulesPage.ResetForm | src/app/admin/approval-rules/page.tsx:175-189 | resetting gives back the form's initial state |
| ApprovalRulesPage.Remove | src/app/admin/approval-rules/page.tsx:195 | the removed id is gone and every other member is kept |
| ApprovalRulesPage.RemoveAbsent | src/app/admin/approval-rules/page.tsx:195 | removing an absent id changes nothing |
| ApprovalRulesPage.Toggle | src/app/admin/approval-rules/page.tsx:191-203 | the toggled id is present afterwards iff it was absent before; others unchanged; an absent id is appended at the end |
| ApprovalRulesPage.ToggleNoDuplicates | src/app/admin/approval-rules/page.tsx:191-203 | toggling keeps a duplicate-free list duplicate-free |
| ApprovalRulesPage.ToggleTwiceRestores | src/app/admin/approval-rules/page.tsx:191-203 | toggling an absent id twice restores the list |
| ApprovalRulesPage.ToggleApprover | src/app/admin/approval-rules/page.tsx:191-203 | only the approvers change, by a toggle |
| ApprovalRulesPage.ToggleCategory | src/app/admin/approval-rules/page.tsx:205-217 | only the categories change, by a toggle |
| ApprovalRulesPage.ApproverInputs | src/app/admin/approval-rules/page.tsx:125 | one `{ userId }` per selected id, in order, without an order |
| ApprovalRulesPage.HandleCreateRule | src/app/admin/approval-rules/page.tsx:108-134 | nothing is sent without approvers; otherwise the body carries every form field: name, description, the amounts (a missing maximum as null), one `{ userId }` per approver in order, the two flags, the percentage, the specific-approver rule and the categories |
| ApprovalRulesPage.SentFormAccepted | src/app/admin/approval-rules/page.tsx:120-134 | a named form with approvers and a percentage in 1..100 passes the server's screen, and the stored approvers are the selection numbered 1..n |
| ApprovalRulesPage.OutOfRangePercentageRefused | src/app/admin/approval-rules/page.tsx:128 | a percentage outside 1..100, which `handleCreateRule` forwards unchecked, is refused by the server with 400 |
| ApprovalsApi.SubmittedDescOrders | src/app/api/approvals/route.ts:34 | newest submission first, never-submitted last, is a total preorder |
| ApprovalsApi.WithOwner | src/app/api/approvals/route.ts:38-48 | "Unknown" and "" when the owner is missing; an empty name also gives "Unknown" |
| ApprovalsApi.ExpensesOf | src/app/api/approvals/route.ts:43-47 | the expenses under the items, in order |
| ApprovalsApi.Collect | src/app/api/approvals/route.ts:28-48 | exactly the picked expenses, each as often as it occurs in the table, with its owner's details, newest submission first |
| ApprovalsApi.Gate | src/app/api/approvals/route.ts:13-23 | 401 without a session, 403 for employees, and no refusal for managers and admins |
| ApprovalsApi.InboxAsWritten | src/app/api/approvals/route.ts:9-49 | lists an expense iff it is in the caller's company, under review, has some entry naming the caller and some pending entry; each listed as often as it occurs, newest submission first, with its owner's details |
| ApprovalsApi.Inbox | src/app/api/approvals/route.ts:9-49 | lists an expense iff it is in the caller's company, under review, and the caller's own entry is pending; each listed as often as it occurs, newest submission first, with its owner's details |
| ApprovalsApi.InboxWithinAsWritten | src/app/api/approvals/route.ts:28-33 | everything the intended inbox lists, the inbox as written lists too |
| ApprovalsApi.DecidedApprovalStillListedAsWritten | src/app/api/approvals/route.ts:31-32 | a manager who already approved still sees the expense while a colleague's entry is pending |
| BudgetsApi.WindowOf | src/app/api/budgets/route.ts:22-33 | the start and an explicit end date are the parsed dates, both valid days; there is no window exactly when the start, or an explicit end, does not parse |
| BudgetsApi.ImplicitWindowFollowsStart | src/app/api/budgets/route.ts:27-33 | an implicit end lies after the start: one month later (two when the day overflows) or one year later |
| BudgetsApi.StatusFor | src/app/api/budgets/route.ts:47-50 | remaining = amount − spent; exceeded iff remaining < 0; alert iff spent·100 ≥ threshold·amount for a positive amount (flipped for a negative one, spent > 0 for zero) |
| BudgetsApi.AlertOnShare | src/app/api/budgets/route.ts:48-50 | the percentage test equals the division-free comparison for either sign of amount |
| BudgetsApi.ActiveBudgetsFiltered | src/app/api/budgets/route.ts:15-36 | the budgets the loop treats as active, in stored order, are exactly what `filter` keeps under the test `now >= startDate && now <= endDate` |
| BudgetsApi.StatusesFollowActiveBudgets | src/app/api/budgets/route.ts:15-59 | exactly one status per active budget, in the order of the budgets: the k-th status is that of the k-th active budget |
| BudgetsApi.Statuses | src/app/api/budgets/route.ts:19-60 | a status for every active budget and only for active budgets, never more than there are budgets (one each, in budget order, by StatusesFollowActiveBudgets); each is the status of that budget for its spending (its approved expenses of the same category within its window) |
| BudgetsApi.ComputeStatuses | src/app/api/budgets/route.ts:19-60 | the loop that pushes statuses computes `Statuses` |
| BudgetsApi.NewBudgetDoc | src/app/api/budgets/route.ts:85-95 | the new id, the body's category, amount, period and dates, the alert threshold sent or 80 when falsy, and the current time |
| BudgetsApi.PostBudget | src/app/api/budgets/route.ts:79-116 | saved iff the schema accepts it and the id is new, as the budget the schema builds: the body's category, amount, period, start and end dates and the threshold default; 500 "Failed to create budget" otherwise |
| DashboardApi.MonthOf | src/app/api/dashboard/route.ts:25-28 | a parsed date's month is in 0..11 |
| DashboardApi.MonthlyTotal | src/app/api/dashboard/route.ts:22-34 | 0 when no expense is dated in the current month |
| DashboardApi.Breakdown | src/app/api/dashboard/route.ts:37-56 | one entry per category in first-occurrence order with its total, share and count; the amounts add up to the total and the counts to the number of expenses |
| DashboardApi.LaterFirstOrders | src/app/api/dashboard/route.ts:60 | latest date first is a total preorder |
| DashboardApi.Recent | src/app/api/dashboard/route.ts:59-61 | the first min(5, n) expenses of a latest-first permutation of all expenses |
| DashboardApi.PointFor | src/app/api/dashboard/route.ts:71-85 | a trend point holds the total and count of the expenses dated in its month |
| DashboardApi.TrendMonthAsWritten | src/app/api/dashboard/route.ts:66-69 | `setMonth(getMonth() - i)` on today's date always lands in a month numbered 0..11 |
| DashboardApi.TrendMonthsAsWritten | src/app/api/dashboard/route.ts:64-69 | the loop as written visits six months |
| DashboardApi.TrendRepeatsMonthAsWritten | src/app/api/dashboard/route.ts:66-67 | on 31 March 2024 the loop as written visits Oct, Dec, Dec, Jan, Mar, Mar, skipping November and February |
| DashboardApi.TrendMonth | src/app/api/dashboard/route.ts:64-69 | the month exactly i months before today's month |
| DashboardApi.TrendMonths | src/app/api/dashboard/route.ts:64-69 | six months |
| DashboardApi.TrendMonthsConsecutive | src/app/api/dashboard/route.ts:64-86 | the six months are consecutive, distinct and end with the current month |
| DashboardApi.TrendOnLastOfMarch | src/app/api/dashboard/route.ts:64-69 | on 31 March 2024 the months are October 2023 to March 2024 |
| DashboardApi.MonthlyTrend | src/app/api/dashboard/route.ts:64-86 | the intended loop: six points, one per calendar month back from the current one, oldest first |
| DashboardApi.MonthlyTrendAsWritten | src/app/api/dashboard/route.ts:64-86 | the loop as written: six points, the i-th for the month of today's date with its month set back, oldest first |
| DashboardApi.TrendAsWrittenOnEarlyDays | src/app/api/dashboard/route.ts:64-69 | on the 1st to the 28th of a month the loop as written visits exactly the six intended months |
| DashboardApi.Stats | src/app/api/dashboard/route.ts:11-94 | total, current month's total, one breakdown entry per category in first-occurrence order holding that category's total, count and percentage share of the total (entries summing to the total and the count), the recent list, and the six-month trend as the loop computes it, which is the intended one on days 1 to 28 |
| AnalyticsApi.AtLeastOne | src/app/api/analytics/route.ts:18 | `Math.max(1, n)` is at least 1 and equals n when n ≥ 1 |
| AnalyticsApi.FirstLargest | src/app/api/analytics/route.ts:39-41 | the position of the first entry with the largest amount |
| AnalyticsApi.TopCategory | src/app/api/analytics/route.ts:39-41 | "Food" when there are no entries; otherwise the first entry whose amount is largest |
| AnalyticsApi.TopCategoryIsLargest | src/app/api/analytics/route.ts:32-41 | the top category occurs among the expenses and no category has a larger total |
| AnalyticsApi.CategoryTotals | src/app/api/analytics/route.ts:32-38 | the per-category totals, in first-occurrence order |
| AnalyticsApi.CategoryAnalyses | src/app/api/analytics/route.ts:44-54 | each category's total, its share of the overall total and its number of expenses |
| AnalyticsApi.MonthTotals | src/app/api/analytics/route.ts:21-26 | the months in first-occurrence order with each month's total |
| AnalyticsApi.MonthlyAverage | src/app/api/analytics/route.ts:27-29 | the overall total over the number of distinct months (at least 1) |
| AnalyticsApi.MethodTotals | src/app/api/analytics/route.ts:57-78 | per payment method its total and count, adding up to the overall total and the number of expenses |
| AnalyticsApi.DailyTotals | src/app/api/analytics/route.ts:81-87 | one entry per distinct date text, covering every expense's date, with that date's total |
| AnalyticsApi.Analytics | src/app/api/analytics/route.ts:10-106 | the whole answer: total, averages, top category with the largest total, per-category and per-method entries with each group's total and count, one entry per date with that date's total, covering every expense; weekly and monthly empty |
| ExportApi.FormatOf | src/app/api/export/expenses/route.ts:11 | the format given, or "csv" when it is missing or empty |
| ExportApi.Selected | src/app/api/export/expenses/route.ts:18-26 | exactly the expenses of the given category within the inclusive date bounds, latest date first |
| ExportApi.EmptyQuerySelectsAll | src/app/api/export/expenses/route.ts:18-26 | with no parameters every expense is exported |
| ExportApi.HeaderLineUnbroken | src/app/api/export/expenses/route.ts:30-31 | the header line holds no line break |
| ExportApi.Quoted | src/app/api/export/expenses/route.ts:35 | a quoted cell is the text between two double quotes, unescaped |
| ExportApi.TagsText | src/app/api/export/expenses/route.ts:34 | no tags give "", one tag gives itself |
| ExportApi.TagsSplitBack | src/app/api/export/expenses/route.ts:34 | tags without a semicolon are recovered by splitting the cell on ";" |
| ExportApi.Cells | src/app/api/export/expenses/route.ts:35 | a line has eight cells |
| ExportApi.RowHasEightCells | src/app/api/export/expenses/route.ts:35 | a line without commas inside its cells splits into the id, quoted date, description, category, the amount, quoted method, status and tags, in that order |
| ExportApi.CommaInCellBreaksRow | src/app/api/export/expenses/route.ts:35 | a comma inside any cell stops the line splitting back into its cells |
| ExportApi.Rows | src/app/api/export/expenses/route.ts:32-36 | one line per expense, in order |
| ExportApi.CsvLines | src/app/api/export/expenses/route.ts:30-39 | the file is the header line followed by exactly one line per expense |
| ExportApi.Export | src/app/api/export/expenses/route.ts:6-64 | CSV by default, JSON with a count equal to the number of exported expenses, 400 for any other format |
| CountriesApi.Process | src/app/api/countries/route.ts:25-37 | the currency code is the first key or ""; name and symbol of that currency, "" when missing |
| CountriesApi.ByName | src/app/api/countries/route.ts:39-41 | countries are compared by their names |
| CountriesApi.ByNameOrders | src/app/api/countries/route.ts:39-41 | comparison by name is a total preorder when the collation is |
| CountriesApi.ProcessAll | src/app/api/countries/route.ts:24-37 | one processed entry per record, in order |
| CountriesApi.Countries | src/app/api/countries/route.ts:24-41 | every entry has a currency code; no longer than the input; exactly the processed countries with a code; sorted by name |
| CountriesApi.CountryKept | src/app/api/countries/route.ts:38 | every record with a currency appears in the list |
| Utils.Kept | src/lib/utils.ts:24 | every truthy argument's text is kept, only class names that were passed are kept, none is empty, and nothing is kept exactly when no argument is truthy |
| Utils.Cn | src/lib/utils.ts:23-25 | "" when no argument is truthy |
| Utils.CnSplitsBack | src/lib/utils.ts:23-25 | class names without spaces are recovered by splitting on a single space, so only the truthy ones remain |
| Utils.MonthName | src/lib/utils.ts:27-43 | a name exactly for 0..11, January first and December last; nothing otherwise |
| Utils.MonthNamesDistinct | src/lib/utils.ts:28-41 | a month's name determines the month |
| Navigation.Links | src/components/Navigation.tsx:12-28 | Home first, the five common pages, Profile last; the admin pages only for admins, Approvals only for managers and admins; 6, 7 or 9 links |
| Navigation.OneActiveLink | src/components/Navigation.tsx:41-50 | no two links share a target, so at most one is highlighted |

## Left out

- Network access, the database connection, sessions (`getServerSession`, the middleware), JSON parsing and response plumbing. Handlers take the session and the stored tables as inputs and answer with a `Result` whose error carries the status code and message.
- The catch-all 500 answers of the read handlers (budgets, dashboard, analytics, export, approvals, users, rules), which only happen when the database connection fails.
- Expense submission, approval and rejection, the rule-matching state machine, and currency conversion are not part of this model. Only the data shapes those handlers use (approval entries, rule fields) are modelled.
- Password hashing, `uuidv4`, `randomBytes`, `generateId` and the clock are parameters (`hash`, `freshId`, `now`, `today`). The same `now` serves every budget of one request.
- `formatCurrency`, `formatDate`, `getDateRange` and the `toLocaleDateString` month labels of the dashboard trend are left out. A trend point carries the year and zero-based month instead of the label.
- Time zones: dates are read as UTC. Only date-only `YYYY-MM-DD` strings parse, read as V8 reads them (any day 01..31, rolling over into the next month); any other text counts as an Invalid Date.
- JavaScript numbers are reals. NaN coming from the request body, and floating-point rounding, are not modelled. Division by zero is modelled (`Types.Divide`).
- Numeric text in a JSON body that the database would cast to a number is not modelled.
- `parseFloat` and the writing of a number into a CSV line are parameters.
- `ExpenseDb.ApplyPatch`: a patch cannot change `id` or `updatedAt`. The handler-supplied `updatedAt` always wins, and id changes are not modelled.
- `ExpenseDb.ExpenseTable.GetById`: a lookup with an undefined id is treated as "not found".
- Text.Lower: only the ASCII letters A-Z are lower-cased. `toLowerCase` and the schema's `lowercase` option map every Unicode letter ("É" to "é"); that mapping is not modelled.
- UserModel.FromDocument: the stored email is lower-cased in ASCII only, as `Text.Lower` does; an address with other upper-case letters keeps them.
- UserModel.EmailCaseInsensitive: holds for emails that differ in ASCII letter case only.
- RegisterApi.NewUserDoc: the email is lower-cased in ASCII only, so for non-ASCII upper-case letters the sign-up uniqueness check and the stored email differ from the program.
- `RegisterApi.Screen`: the password length counts characters (Dafny string elements) rather than UTF-16 code units.
- `RegisterPage.Submit`: the client-side check of the password length likewise counts characters (Dafny string elements) rather than UTF-16 code units.
- `DashboardApi.Recent`: an unparsable date sorts last. The source's comparator yields NaN for such a date, whose placement depends on the engine's sort; the contract does not fix more than "a latest-first permutation".
- `AnalyticsApi.MonthlyAverage`: the month key text `${year}-${month}` is modelled as the pair. Every unparsable date shares one key, as `NaN-NaN` does.
- `CountriesApi.ByName`: `localeCompare` is a parameter that must be a total preorder. Locale collation itself is not modelled.
- `CountriesApi.Countries`: the currency object is a list of entries in key order. A JSON text with a repeated key is not modelled, and neither is the integer-key ordering of `Object.keys`.
- `Sorting.SortBy`: the order among equal keys is fixed by insertion sort; no contract depends on it, matching MongoDB's unspecified order.
- HTML `required` and `min`/`max` attributes (the browser's constraint validation, which on the approval-rules form keeps the percentage within 1..100 before `handleCreateRule` runs), alerts, navigation after submit and all rendering in the pages.

## Findings

| source | as written | input that shows it | evidently intended | confidence | as-written member | corrected member |
|---|---|---|---|---|---|---|
| src/lib/db.ts:94-122 | `filter` builds its query from category, status, dates and amounts only; the `userId`/`companyId` keys the expenses handler adds (src/app/api/expenses/route.ts:36-43) are dropped | an employee listing with no parameters, while another user's expense is stored | an employee sees only their own expenses, a manager or admin only their company's | not executed | ExpensesApi.EmployeeSeesOthersAsWritten | ExpensesApi.EmployeeSeesOwnOnly |
| src/app/api/approvals/route.ts:31-32 | the approver id and the pending status are matched against the approvals array separately (no `$elemMatch`) | manager m1 whose own entry is Approved, while m2's entry is Pending | list an expense only while the caller's own entry is pending | not executed | ApprovalsApi.DecidedApprovalStillListedAsWritten | ApprovalsApi.Inbox |
| src/app/api/dashboard/route.ts:66-67 | each trend month is `setMonth(getMonth() - i)` on today's date, which overflows on late days | today = 31 March 2024: the months visited are Oct, Dec, Dec, Jan, Mar, Mar | the six consecutive months ending with the current one | not executed | DashboardApi.TrendRepeatsMonthAsWritten | DashboardApi.TrendMonthsConsecutive |
| src/models/Expense.ts:12 | the currency-symbol default is the mis-encoded "â‚¹" | any expense created without a currency symbol | the rupee sign "₹", the default the company schema uses | not executed | ExpenseModel.FromDocumentAsWritten | ExpenseModel.FromDocument |

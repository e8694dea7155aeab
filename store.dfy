/**
 * The user, company, approval-rule and budget collections. Each insert runs the schema
 * (validation and defaults) and then the unique indexes; a refused insert changes
 * nothing and surfaces as a thrown error, which the handlers turn into a 500.
 */
module Store {
  import opened Wrappers
  import opened Types
  import Text
  import Seqs
  import UserModel
  import CompanyModel
  import ApprovalRuleModel
  import BudgetModel

  /** No two elements share a key. */
  predicate UniqueBy<T>(s: seq<T>, key: T -> string)
  {
    forall i, j :: 0 <= i < j < |s| ==> key(s[i]) != key(s[j])
  }

  predicate HasKey<T>(s: seq<T>, key: T -> string, k: string)
  {
    exists i :: 0 <= i < |s| && key(s[i]) == k
  }

  /** Appending an element with a new key keeps the keys unique. */
  lemma AppendKeepsUnique<T>(s: seq<T>, key: T -> string, x: T)
    requires UniqueBy(s, key) && !HasKey(s, key, key(x))
    ensures UniqueBy(s + [x], key)
  {
    forall i, j | 0 <= i < j < |s + [x]| ensures key((s + [x])[i]) != key((s + [x])[j]) {
      if j == |s| {
        assert (s + [x])[i] == s[i];
      }
    }
  }

  function UserId(u: User): string { u.id }
  function UserEmail(u: User): string { u.email }
  function CompanyId(c: Company): string { c.id }
  function RuleId(r: ApprovalRule): string { r.id }
  function BudgetId(b: Budget): string { b.id }

  /** The user with that id, if any. */
  function UserById(users: seq<User>, id: string): (r: Option<User>)
    ensures r.Some? ==> r.value in users && r.value.id == id
    ensures r.None? <==> !HasKey(users, UserId, id)
  {
    Seqs.Find(users, (u: User) => u.id == id)
  }

  /** The user with that (lower-cased) email, if any. */
  function UserByEmail(users: seq<User>, email: string): (r: Option<User>)
    ensures r.Some? ==> r.value in users && r.value.email == email
    ensures r.None? <==> !HasKey(users, UserEmail, email)
  {
    Seqs.Find(users, (u: User) => u.email == email)
  }

  function CompanyById(companies: seq<Company>, id: string): (r: Option<Company>)
    ensures r.Some? ==> r.value in companies && r.value.id == id
    ensures r.None? <==> !HasKey(companies, CompanyId, id)
  {
    Seqs.Find(companies, (c: Company) => c.id == id)
  }

  class Database {
    var users: seq<User>
    var companies: seq<Company>
    var rules: seq<ApprovalRule>
    var budgets: seq<Budget>

    /** The unique indexes hold and every stored email is in lower case. */
    ghost predicate Valid()
      reads this
    {
      && UniqueBy(users, UserId) && UniqueBy(users, UserEmail)
      && (forall i :: 0 <= i < |users| ==> Text.Lower(users[i].email) == users[i].email)
      && UniqueBy(companies, CompanyId)
      && UniqueBy(rules, RuleId)
      && UniqueBy(budgets, BudgetId)
    }

    constructor ()
      ensures Valid()
      ensures users == [] && companies == [] && rules == [] && budgets == []
    {
      users, companies, rules, budgets := [], [], [], [];
    }

    /** Saves a user: refused when the schema rejects it or its id or lower-cased email is taken. */
    method InsertUser(d: UserModel.UserDoc) returns (r: Result<User>)
      requires Valid()
      modifies this
      ensures Valid()
      ensures r.Ok? <==> UserModel.FromDocument(d).Ok?
                         && !HasKey(old(users), UserId, UserModel.FromDocument(d).value.id)
                         && !HasKey(old(users), UserEmail, UserModel.FromDocument(d).value.email)
      ensures r.Ok? ==> r == UserModel.FromDocument(d) && users == old(users) + [r.value]
      ensures r.Err? ==> r.status == 500 && users == old(users)
      ensures companies == old(companies) && rules == old(rules) && budgets == old(budgets)
    {
      var u := UserModel.FromDocument(d);
      if u.Err? {
        return Err(500, "user validation failed");
      }
      if UserById(users, u.value.id).Some? || UserByEmail(users, u.value.email).Some? {
        return Err(500, "duplicate key");
      }
      AppendKeepsUnique(users, UserId, u.value);
      AppendKeepsUnique(users, UserEmail, u.value);
      users := users + [u.value];
      r := u;
    }

    /** Saves a company: refused when the schema rejects it or its id is taken. */
    method InsertCompany(d: CompanyModel.CompanyDoc) returns (r: Result<Company>)
      requires Valid()
      modifies this
      ensures Valid()
      ensures r.Ok? <==> CompanyModel.FromDocument(d).Ok?
                         && !HasKey(old(companies), CompanyId, CompanyModel.FromDocument(d).value.id)
      ensures r.Ok? ==> r == CompanyModel.FromDocument(d) && companies == old(companies) + [r.value]
      ensures r.Err? ==> r.status == 500 && companies == old(companies)
      ensures users == old(users) && rules == old(rules) && budgets == old(budgets)
    {
      var c := CompanyModel.FromDocument(d);
      if c.Err? {
        return Err(500, "company validation failed");
      }
      if CompanyById(companies, c.value.id).Some? {
        return Err(500, "duplicate key");
      }
      AppendKeepsUnique(companies, CompanyId, c.value);
      companies := companies + [c.value];
      r := c;
    }

    /** Saves an approval rule: refused when the schema rejects it or its id is taken. */
    method InsertRule(d: ApprovalRuleModel.RuleDoc) returns (r: Result<ApprovalRule>)
      requires Valid()
      modifies this
      ensures Valid()
      ensures r.Ok? <==> ApprovalRuleModel.FromDocument(d).Ok?
                         && !HasKey(old(rules), RuleId, ApprovalRuleModel.FromDocument(d).value.id)
      ensures r.Ok? ==> r == ApprovalRuleModel.FromDocument(d) && rules == old(rules) + [r.value]
      ensures r.Err? ==> r.status == 500 && rules == old(rules)
      ensures users == old(users) && companies == old(companies) && budgets == old(budgets)
    {
      var x := ApprovalRuleModel.FromDocument(d);
      if x.Err? {
        return Err(500, "approval rule validation failed");
      }
      if Seqs.Find(rules, (q: ApprovalRule) => q.id == x.value.id).Some? {
        return Err(500, "duplicate key");
      }
      AppendKeepsUnique(rules, RuleId, x.value);
      rules := rules + [x.value];
      r := x;
    }

    /** Saves a budget: refused when the schema rejects it or its id is taken. */
    method InsertBudget(d: BudgetModel.BudgetDoc) returns (r: Result<Budget>)
      requires Valid()
      modifies this
      ensures Valid()
      ensures r.Ok? <==> BudgetModel.FromDocument(d).Ok?
                         && !HasKey(old(budgets), BudgetId, BudgetModel.FromDocument(d).value.id)
      ensures r.Ok? ==> r == BudgetModel.FromDocument(d) && budgets == old(budgets) + [r.value]
      ensures r.Err? ==> r.status == 500 && budgets == old(budgets)
      ensures users == old(users) && companies == old(companies) && rules == old(rules)
    {
      var x := BudgetModel.FromDocument(d);
      if x.Err? {
        return Err(500, "budget validation failed");
      }
      if Seqs.Find(budgets, (b: Budget) => b.id == x.value.id).Some? {
        return Err(500, "duplicate key");
      }
      AppendKeepsUnique(budgets, BudgetId, x.value);
      budgets := budgets + [x.value];
      r := x;
    }

    /** `findOneAndUpdate({ id }, { adminId })` on companies; false when no company has the id. */
    method SetCompanyAdmin(companyId: string, adminId: string) returns (found: bool)
      requires Valid()
      modifies this
      ensures Valid()
      ensures found <==> HasKey(old(companies), CompanyId, companyId)
      ensures |companies| == |old(companies)|
      ensures forall i :: 0 <= i < |companies| ==>
                companies[i] == if old(companies)[i].id == companyId then old(companies)[i].(adminId := adminId)
                                else old(companies)[i]
      ensures users == old(users) && rules == old(rules) && budgets == old(budgets)
    {
      found := CompanyById(companies, companyId).Some?;
      var updated := seq(|companies|, i requires 0 <= i < |companies| reads this =>
        if companies[i].id == companyId then companies[i].(adminId := adminId) else companies[i]);
      assert forall i :: 0 <= i < |updated| ==> updated[i].id == companies[i].id;
      companies := updated;
    }
  }
}

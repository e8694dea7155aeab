/**
 * The navigation bar's links: the same five pages for everyone, the administration pages
 * for administrators, the approval inbox for managers and administrators, and the profile
 * last. A link is highlighted when the current path is exactly its target.
 */
module Navigation {
  import opened Wrappers
  import opened Types

  datatype Link = Link(href: string, name: string)

  const Home := Link("/", "Home")
  const Profile := Link("/profile", "Profile")
  const UserManagement := Link("/admin/users", "User Management")
  const ApprovalRules := Link("/admin/approval-rules", "Approval Rules")
  const Approvals := Link("/approvals", "Approvals")

  /** The links every visitor gets first, in order. */
  const Common: seq<Link> := [
    Home,
    Link("/dashboard", "Dashboard"),
    Link("/expenses", "Expenses"),
    Link("/budgets", "Budgets"),
    Link("/analytics", "Analytics")]

  /**
   * The `links` array for the signed-in user's role, `None` when nobody is signed in:
   * Home first and Profile last for everyone, 6 links for an employee or a visitor, 7 for
   * a manager and 9 for an administrator.
   */
  function Links(role: Option<Role>): (r: seq<Link>)
    ensures |r| >= 6 && r[..5] == Common && r[0] == Home && r[|r| - 1] == Profile
    ensures role == Some(Admin) ==> |r| == 9
    ensures role == Some(Manager) ==> |r| == 7
    ensures role.None? || role == Some(Employee) ==> |r| == 6
    ensures UserManagement in r <==> role == Some(Admin)
    ensures ApprovalRules in r <==> role == Some(Admin)
    ensures Approvals in r <==> role == Some(Manager) || role == Some(Admin)
  {
    var admin := if role == Some(Admin) then [UserManagement, ApprovalRules] else [];
    var approvals := if role == Some(Manager) || role == Some(Admin) then [Approvals] else [];
    Common + admin + approvals + [Profile]
  }

  /** `pathname === link.href`. */
  predicate IsActive(pathname: string, link: Link)
  {
    pathname == link.href
  }

  /** No two links lead to the same page, so at most one link is highlighted at a time. */
  lemma OneActiveLink(role: Option<Role>, pathname: string, i: nat, j: nat)
    requires i < |Links(role)| && j < |Links(role)|
    requires IsActive(pathname, Links(role)[i]) && IsActive(pathname, Links(role)[j])
    ensures i == j
  {
    var r := Links(role);
    assert forall a, b :: 0 <= a < b < |r| ==> r[a].href != r[b].href by {
      if role == Some(Admin) {
        assert r == Common + [UserManagement, ApprovalRules] + [Approvals] + [Profile];
      } else if role == Some(Manager) {
        assert r == Common + [Approvals] + [Profile];
      } else {
        assert r == Common + [Profile];
      }
    }
  }
}

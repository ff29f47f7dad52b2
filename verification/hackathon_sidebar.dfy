/** The Hackathon sidebar: which links a user sees and which one is highlighted. */
module HackathonSidebar {
  import opened Wrappers
  import opened HackathonTypes
  import Seqs
  import Strings

  datatype NavItem = NavItem(href: string, roles: seq<Role>)

  const Everyone: seq<Role> := [Student, Teacher, Admin]

  /** The five links every role may see. */
  const Shared: seq<NavItem> := [
    NavItem("/dashboard", Everyone),
    NavItem("/lessons", Everyone),
    NavItem("/assessments", Everyone),
    NavItem("/profile", Everyone),
    NavItem("/settings", Everyone)
  ]

  /** The administrators' link, listed last. */
  const AdminItem := NavItem("/admin", [Admin])

  const Navigation: seq<NavItem> := Shared + [AdminItem]

  predicate Visible(user: Option<User>, item: NavItem) {
    user.Some? && user.value.role in item.roles
  }

  /** `navigation.filter(item => user && item.roles.includes(user.role))`. */
  function VisibleItems(user: Option<User>): (r: seq<NavItem>)
    ensures forall i :: 0 <= i < |r| ==> r[i] in Navigation && Visible(user, r[i])
    ensures forall i :: 0 <= i < |Navigation| && Visible(user, Navigation[i]) ==> Navigation[i] in r
  {
    Seqs.Filter(Navigation, item => Visible(user, item))
  }

  /** Nobody signed in sees no links; an administrator sees all six. */
  lemma VisibleByRole(user: Option<User>)
    ensures user.None? ==> VisibleItems(user) == []
    ensures user.Some? && user.value.role == Admin ==> VisibleItems(user) == Navigation
  {
    if user.None? {
      Seqs.FilterNone(Navigation, item => Visible(user, item));
    } else if user.value.role == Admin {
      Seqs.FilterAll(Navigation, item => Visible(user, item));
    }
  }

  /** Students and teachers see the five shared links and never the admin one. */
  lemma NonAdminsSeeFive(user: User)
    requires user.role != Admin
    ensures VisibleItems(Some(user)) == Shared
  {
    var p := (item: NavItem) => Visible(Some(user), item);
    Seqs.FilterNone([AdminItem], p);
    Seqs.FilterAll(Shared, p);
    Seqs.FilterAppend(Shared, [AdminItem], p);
  }

  /** The link for `href` is highlighted on its own page and, except for the dashboard, below it. */
  predicate IsActive(pathname: string, href: string) {
    pathname == href || (href != "/dashboard" && Strings.StartsWith(pathname, href))
  }

  /** The dashboard link is highlighted only on '/dashboard' itself. */
  lemma DashboardExact(pathname: string)
    ensures IsActive(pathname, "/dashboard") <==> pathname == "/dashboard"
  {
  }

  /** Any other link stays highlighted on the pages below it. */
  lemma ActiveBelow(href: string, rest: string)
    requires href != "/dashboard"
    ensures IsActive(href + rest, href)
  {
    assert (href + rest)[..|href|] == href;
  }
}

/**
 * How the sidebar turns a navigation entry into a concrete link target and
 * decides which link is highlighted for the current pathname.
 */
module PathResolver {
  import opened Wrappers
  import opened Session
  import opened NavPolicy

  const UserIdPlaceholder: string := ":userId"
  const ProfilePrefix: string := "/profile/"

  /** `t` occurs in `s` starting at index `i`. */
  ghost predicate OccursAt(s: string, t: string, i: int)
  {
    0 <= i && i + |t| <= |s| && s[i..i + |t|] == t
  }

  /** `s.includes(t)`: some occurrence of `t` in `s` exists. */
  function Includes(s: string, t: string): (r: bool)
    ensures r <==> exists i :: OccursAt(s, t, i)
  {
    if |s| < |t| then false
    else if s[..|t|] == t then
      assert OccursAt(s, t, 0);
      true
    else
      var rest := Includes(s[1..], t);
      assert forall i :: OccursAt(s[1..], t, i) <==> OccursAt(s, t, i + 1) by {
        forall i ensures OccursAt(s[1..], t, i) <==> OccursAt(s, t, i + 1) {
          if 0 <= i && i + |t| <= |s| - 1 {
            assert s[1..][i..i + |t|] == s[i + 1..i + 1 + |t|];
          }
        }
      }
      assert !OccursAt(s, t, 0);
      assert forall i :: OccursAt(s, t, i) && i != 0 ==> OccursAt(s[1..], t, i - 1);
      rest
  }

  /** A string with no colon cannot contain the placeholder. */
  lemma NoColonNoPlaceholder(s: string)
    requires forall k :: 0 <= k < |s| ==> s[k] != ':'
    ensures !Includes(s, UserIdPlaceholder)
  {
    forall i ensures !OccursAt(s, UserIdPlaceholder, i) {
      if 0 <= i && i + |UserIdPlaceholder| <= |s| {
        assert s[i..i + |UserIdPlaceholder|][0] == s[i];
      }
    }
  }

  /**
   * The concrete target of an entry: any path containing the placeholder
   * becomes the fixed profile path of the user, every other path is kept.
   */
  function ResolvePath(entry: NavEntry, userId: string): (r: string)
    ensures (exists i :: OccursAt(entry.path, UserIdPlaceholder, i)) ==> r == ProfilePrefix + userId
    ensures !(exists i :: OccursAt(entry.path, UserIdPlaceholder, i)) ==> r == entry.path
  {
    if Includes(entry.path, UserIdPlaceholder) then ProfilePrefix + userId else entry.path
  }

  /** A `Link` of the sidebar: its target, label, icon, and whether it carries `active-link`. */
  datatype NavItem = NavItem(to: string, text: string, icon: string, active: bool)

  /** The `navLinks.map(...)` of the sidebar, for the user's id and the current pathname. */
  function NavItems(links: seq<NavEntry>, userId: string, pathname: string): (r: seq<NavItem>)
    ensures |r| == |links|
    ensures forall k :: 0 <= k < |r| ==>
              r[k].to == ResolvePath(links[k], userId)
              && r[k].text == links[k].text && r[k].icon == links[k].icon
              && (r[k].active <==> r[k].to == pathname)
  {
    seq(|links|, k requires 0 <= k < |links| =>
      var to := ResolvePath(links[k], userId);
      NavItem(to, links[k].text, links[k].icon, pathname == to))
  }

  /**
   * What the sidebar shows for the session: nothing without a user, otherwise
   * the user's permitted links resolved against the user's id.
   */
  function SidebarNav(user: Option<User>, pathname: string): (r: seq<NavItem>)
    ensures user.None? ==> r == []
    ensures user.Some? ==> r == NavItems(AccessibleLinks(user), user.value.id, pathname)
  {
    match user
    case None => []
    case Some(u) => NavItems(AccessibleLinks(user), u.id, pathname)
  }

  /** In a well-formed table the resolved targets are pairwise distinct. */
  lemma ResolvedDistinct(links: seq<NavEntry>, userId: string)
    requires WellFormedLinks(links)
    ensures forall i, j :: 0 <= i < |links| && 0 <= j < |links| && i != j ==>
              ResolvePath(links[i], userId) != ResolvePath(links[j], userId)
  {
    assert OccursAt(ProfileTemplate, UserIdPlaceholder, 9);
    assert (ProfilePrefix + userId)[1] == ProfilePrefix[1];
    forall i | 0 <= i < |links| && i != 1
      ensures ResolvePath(links[i], userId) == links[i].path
    {
      NoColonNoPlaceholder(links[i].path);
    }
  }

  /**
   * For every session and pathname the sidebar's link targets (its React keys)
   * are distinct, so at most one link is highlighted.
   */
  lemma AtMostOneActive(user: Option<User>, pathname: string)
    ensures forall i, j :: 0 <= i < |SidebarNav(user, pathname)| && 0 <= j < |SidebarNav(user, pathname)| && i != j ==>
              SidebarNav(user, pathname)[i].to != SidebarNav(user, pathname)[j].to
    ensures forall i, j ::
              (0 <= i < |SidebarNav(user, pathname)| && 0 <= j < |SidebarNav(user, pathname)|
               && SidebarNav(user, pathname)[i].active && SidebarNav(user, pathname)[j].active) ==> i == j
  {
    if user.Some? && AccessibleLinks(user) != [] {
      var links := AccessibleLinks(user);
      TableWellFormed();
      ResolvedDistinct(links, user.value.id);
    }
  }

  /** Highlighting is exact string equality: `/users` is not active on `/users/42`. */
  lemma NoPrefixHighlight(userId: string)
    ensures !NavItems([NavEntry("/users", "Users", People)], userId, "/users/42")[0].active
    ensures NavItems([NavEntry("/users", "Users", People)], userId, "/users")[0].active
  {
    NoColonNoPlaceholder("/users");
  }

  /** Any entry holding the placeholder, wherever it stands, goes to the profile path. */
  lemma PlaceholderIsNotSubstituted(userId: string)
    ensures ResolvePath(NavEntry("/reports/:userId/daily", "Reports", BarChart), userId) == ProfilePrefix + userId
  {
    assert OccursAt("/reports/:userId/daily", UserIdPlaceholder, 9);
  }

  /** An Admin on `/users` sees the Admin list in order with only the Users link highlighted. */
  lemma AdminOnUsers(u: User)
    requires u.role == "Admin"
    ensures |SidebarNav(Some(u), "/users")| == 12
    ensures forall k :: 0 <= k < 12 ==> SidebarNav(Some(u), "/users")[k].text == AdminLinks[k].text
    ensures forall k :: 0 <= k < 12 ==> (SidebarNav(Some(u), "/users")[k].active <==> k == 2)
  {
    var items := SidebarNav(Some(u), "/users");
    assert AccessibleLinks(Some(u)) == AdminLinks;
    assert items == NavItems(AdminLinks, u.id, "/users");
    NoColonNoPlaceholder("/users");
    assert items[2].to == "/users";
    AtMostOneActive(Some(u), "/users");
  }
}

/**
 * The role navigation table of the shell and the selection of the links a
 * session may see.
 */
module NavPolicy {
  import opened Wrappers
  import opened Session

  /** One navigation entry: a path template, its label (`text`; `label` is a Dafny keyword) and an icon. */
  datatype NavEntry = NavEntry(path: string, text: string, icon: string)

  const ProfileTemplate: string := "/profile/:userId"

  // Icons, as Unicode scalar values.
  const House: string := "\U{1F3E0}"
  const Person: string := "\U{1F464}"
  const People: string := "\U{1F465}"
  const Outbox: string := "\U{1F4E4}"
  const Card: string := "\U{1F4B3}"
  const BarChart: string := "\U{1F4CA}"
  const Clipboard: string := "\U{1F4CB}"
  const TrendUp: string := "\U{1F4C8}"
  const Ticket: string := "\U{1F3AB}"
  const Gear: string := "\U{2699}\U{FE0F}"
  const Loudspeaker: string := "\U{1F4E2}"
  const FileCabinet: string := "\U{1F5C4}\U{FE0F}"
  const Palette: string := "\U{1F3A8}"

  const ProfileEntry: NavEntry := NavEntry(ProfileTemplate, "My Profile", Person)

  const AdminLinks: seq<NavEntry> := [
    NavEntry("/admin", "Dashboard", House),
    ProfileEntry,
    NavEntry("/users", "Users", People),
    NavEntry("/campaigns", "Campaigns", Outbox),
    NavEntry("/credits", "Credits", Card),
    NavEntry("/reports", "Reports", BarChart),
    NavEntry("/history", "History", Clipboard),
    NavEntry("/analytics", "Analytics", TrendUp),
    NavEntry("/tickets", "Support Tickets", Ticket),
    NavEntry("/admin-announcements", "Manage Announcements", Gear),
    NavEntry("/announcements-history", "View Announcements", Loudspeaker),
    NavEntry("/backup", "Backup & Data", FileCabinet)
  ]

  const ResellerLinks: seq<NavEntry> := [
    NavEntry("/reseller-dashboard", "Dashboard", House),
    ProfileEntry,
    NavEntry("/users", "My Users", People),
    NavEntry("/campaigns", "Campaigns", Outbox),
    NavEntry("/history", "History", Clipboard),
    NavEntry("/analytics", "Analytics", TrendUp),
    NavEntry("/tickets", "Support Tickets", Ticket),
    NavEntry("/announcements-history", "Announcements", Loudspeaker),
    NavEntry("/whitelabel-settings", "Whitelabel", Palette)
  ]

  const SubResellerLinks: seq<NavEntry> := [
    NavEntry("/subreseller-dashboard", "Dashboard", House),
    ProfileEntry,
    NavEntry("/users", "My Users", People),
    NavEntry("/campaigns", "Campaigns", Outbox),
    NavEntry("/tickets", "Support Tickets", Ticket),
    NavEntry("/announcements-history", "Announcements", Loudspeaker),
    NavEntry("/whitelabel-settings", "Whitelabel", Palette)
  ]

  const UserLinks: seq<NavEntry> := [
    NavEntry("/user-dashboard", "Dashboard", House),
    ProfileEntry,
    NavEntry("/campaigns", "My Campaigns", Outbox),
    NavEntry("/tickets", "Support Tickets", Ticket),
    NavEntry("/announcements-history", "Announcements", Loudspeaker)
  ]

  /** `navLinksConfig`: the role tags, spelled as stored, and their ordered entries. */
  const NavLinksConfig: map<string, seq<NavEntry>> := map[
    "Admin" := AdminLinks,
    "Reseller" := ResellerLinks,
    "Sub-Reseller" := SubResellerLinks,
    "User" := UserLinks
  ]

  /** The table has exactly the four role keys, each with its fixed list. */
  lemma TableContents()
    ensures NavLinksConfig.Keys == {"Admin", "Reseller", "Sub-Reseller", "User"}
    ensures NavLinksConfig["Admin"] == AdminLinks && |AdminLinks| == 12
    ensures NavLinksConfig["Reseller"] == ResellerLinks && |ResellerLinks| == 9
    ensures NavLinksConfig["Sub-Reseller"] == SubResellerLinks && |SubResellerLinks| == 7
    ensures NavLinksConfig["User"] == UserLinks && |UserLinks| == 5
    ensures "SubReseller" !in NavLinksConfig
    ensures forall role :: role in NavLinksConfig ==>
              |NavLinksConfig[role]| >= 2 && NavLinksConfig[role][1] == ProfileEntry
  {
  }

  /**
   * `accessibleLinks`: the table entry of the user's role, and `[]` when there
   * is no user or the role is not a key of the table. Total: it never fails.
   */
  function AccessibleLinks(user: Option<User>): (r: seq<NavEntry>)
    ensures user.None? ==> r == []
    ensures user.Some? && user.value.role !in NavLinksConfig ==> r == []
    ensures user.Some? && user.value.role in NavLinksConfig ==> r == NavLinksConfig[user.value.role]
    ensures r == [] || r == AdminLinks || r == ResellerLinks || r == SubResellerLinks || r == UserLinks
  {
    match user
    case None => []
    case Some(u) => if u.role in NavLinksConfig then NavLinksConfig[u.role] else []
  }

  /** Any non-empty selection shows the profile link second. */
  lemma ProfileIsSecond(user: Option<User>)
    requires AccessibleLinks(user) != []
    ensures user.Some? && user.value.role in NavLinksConfig
    ensures |AccessibleLinks(user)| >= 2 && AccessibleLinks(user)[1] == ProfileEntry
  {
    TableContents();
  }

  /**
   * A table whose second entry is the profile entry, whose paths are distinct,
   * and whose other paths hold no colon (so no placeholder) and do not share
   * the profile template's second character (so none equals a profile path).
   */
  ghost predicate WellFormedLinks(links: seq<NavEntry>)
  {
    && |links| >= 2 && links[1] == ProfileEntry
    && (forall i, j :: 0 <= i < j < |links| ==> links[i].path != links[j].path)
    && (forall i, k :: 0 <= i < |links| && i != 1 && 0 <= k < |links[i].path| ==> links[i].path[k] != ':')
    && (forall i :: 0 <= i < |links| && i != 1 ==>
          |links[i].path| >= 2 && links[i].path[1] != ProfileTemplate[1])
  }

  // The facts about each list are checked one at a time, which keeps each proof small.

  lemma AdminDistinct() ensures forall i, j :: 0 <= i < j < |AdminLinks| ==> AdminLinks[i].path != AdminLinks[j].path {}
  lemma AdminColons()
    ensures forall i, k :: 0 <= i < |AdminLinks| && i != 1 && 0 <= k < |AdminLinks[i].path| ==> AdminLinks[i].path[k] != ':'
  {}
  lemma AdminPrefixes()
    ensures forall i :: 0 <= i < |AdminLinks| && i != 1 ==> |AdminLinks[i].path| >= 2 && AdminLinks[i].path[1] != ProfileTemplate[1]
  {}
  lemma ResellerDistinct() ensures forall i, j :: 0 <= i < j < |ResellerLinks| ==> ResellerLinks[i].path != ResellerLinks[j].path {}
  lemma ResellerColons()
    ensures forall i, k :: 0 <= i < |ResellerLinks| && i != 1 && 0 <= k < |ResellerLinks[i].path| ==> ResellerLinks[i].path[k] != ':'
  {}
  lemma ResellerPrefixes()
    ensures forall i :: 0 <= i < |ResellerLinks| && i != 1 ==> |ResellerLinks[i].path| >= 2 && ResellerLinks[i].path[1] != ProfileTemplate[1]
  {}
  lemma SubResellerDistinct()
    ensures forall i, j :: 0 <= i < j < |SubResellerLinks| ==> SubResellerLinks[i].path != SubResellerLinks[j].path
  {}
  lemma SubResellerColons()
    ensures forall i, k :: 0 <= i < |SubResellerLinks| && i != 1 && 0 <= k < |SubResellerLinks[i].path| ==> SubResellerLinks[i].path[k] != ':'
  {}
  lemma SubResellerPrefixes()
    ensures forall i :: 0 <= i < |SubResellerLinks| && i != 1 ==>
              |SubResellerLinks[i].path| >= 2 && SubResellerLinks[i].path[1] != ProfileTemplate[1]
  {}
  lemma UserDistinct() ensures forall i, j :: 0 <= i < j < |UserLinks| ==> UserLinks[i].path != UserLinks[j].path {}
  lemma UserColons()
    ensures forall i, k :: 0 <= i < |UserLinks| && i != 1 && 0 <= k < |UserLinks[i].path| ==> UserLinks[i].path[k] != ':'
  {}
  lemma UserPrefixes()
    ensures forall i :: 0 <= i < |UserLinks| && i != 1 ==> |UserLinks[i].path| >= 2 && UserLinks[i].path[1] != ProfileTemplate[1]
  {}

  /** Every list of the table is well formed. */
  lemma TableWellFormed()
    ensures WellFormedLinks(AdminLinks) && WellFormedLinks(ResellerLinks)
    ensures WellFormedLinks(SubResellerLinks) && WellFormedLinks(UserLinks)
  {
    AdminDistinct(); AdminColons(); AdminPrefixes();
    ResellerDistinct(); ResellerColons(); ResellerPrefixes();
    SubResellerDistinct(); SubResellerColons(); SubResellerPrefixes();
    UserDistinct(); UserColons(); UserPrefixes();
  }

  // ---- The lookup as written: a property read on a plain JavaScript object ----

  /**
   * Names every plain object inherits from `Object.prototype`. Reading one from
   * `navLinksConfig` yields a function or an object, which is truthy, so
   * `|| []` does not replace it.
   */
  const InheritedKeys: set<string> := {
    "constructor", "hasOwnProperty", "isPrototypeOf", "propertyIsEnumerable",
    "toLocaleString", "toString", "valueOf", "__proto__",
    "__defineGetter__", "__defineSetter__", "__lookupGetter__", "__lookupSetter__"
  }

  /** The value handed to `Sidebar` as `navLinks`: a list, or a non-array inherited member. */
  datatype LinksValue = Links(entries: seq<NavEntry>) | NotAList

  /** `user ? navLinksConfig[user.role] || [] : []` with JavaScript's inherited-property lookup. */
  function LookupAsWritten(user: Option<User>): (r: LinksValue)
    ensures r.NotAList? <==> user.Some? && user.value.role !in NavLinksConfig && user.value.role in InheritedKeys
  {
    match user
    case None => Links([])
    case Some(u) =>
      if u.role in NavLinksConfig then Links(NavLinksConfig[u.role])
      else if u.role in InheritedKeys then NotAList
      else Links([])
  }

  /** The table's own keys are not inherited names. */
  lemma OwnKeysNotInherited()
    ensures NavLinksConfig.Keys !! InheritedKeys
  {
    TableContents();
  }

  /**
   * As written, a stored role such as `"constructor"` makes `navLinks` a
   * function; `navLinks.map` then throws while the sidebar renders.
   */
  lemma AsWrittenFailsOnInheritedRole(u: User)
    requires u.role in InheritedKeys
    ensures LookupAsWritten(Some(u)).NotAList?
    ensures AccessibleLinks(Some(u)) == []
  {
    OwnKeysNotInherited();
  }

  /** Away from inherited names, the corrected lookup agrees with the code as written. */
  lemma AsWrittenAgreesOffInherited(user: Option<User>)
    requires user.Some? ==> user.value.role !in InheritedKeys
    ensures LookupAsWritten(user) == Links(AccessibleLinks(user))
  {
  }
}

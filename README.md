# Role-scoped application shell (`Layout`) in Dafny

This project models the logic inside the `Layout` component of the MessageMaster
front end (`src/components/Layout.jsx`) and proves properties of that model.
`Layout` is the shell that wraps every protected page:

- it picks the navigation links the session's role may see from a fixed table;
- it resolves each link's target, including the user's own profile path, and
  highlights the link whose target is the current pathname;
- it fetches the tenant's branding with the stored bearer token and tracks a
  loading flag and an image-error fallback for the brand panel;
- it tears down the session on logout.

Modules, leaves first:

- `Wrappers`: the `Option` datatype (`null` or a value).
- `Session`: `localStorage` as a `map<string, string>`; `getItem`, `removeItem`,
  the Bearer header of `getAuthHeaders`, and the two removals of logout.
- `NavPolicy`: the `navLinksConfig` table, entry by entry, and the
  `accessibleLinks` selection.
- `PathResolver`: the `includes(':userId')` test, path resolution, the
  sidebar's list of links with their `active-link` flag, and the proof that link
  targets are distinct.
- `BrandingResolver`: the three-way brand panel rule, the branding that a
  settled fetch installs, and the reset of the image-error flag.
- `Shell`: class `Layout` with the fields `Layout` updates in place (`user`,
  `branding`, `brandingLoading`). It also folds in `Sidebar`'s `logoError`
  flag and the `localStorage` store as fields. It has methods for the
  route-change effect, the settling of a branding request, the image `onError`
  handler and logout.

The model follows the code on these points:

- There is no stale-response guard. Each settled request is applied, and an
  older response that arrives late overwrites a newer one (`StaleResponseWins`).
- A missing credential leaves the branding as it was. It is not reset to the
  default.
- `brandingLoading` starts out `true` at mount.
- An empty stored token is falsy, so no header is sent.
- The unknown-role fallback to `[]` sits on a plain object lookup. This
  gives the result discussed under "## Findings".
- The role key is spelled `"Sub-Reseller"`, with a hyphen.

The JavaScript field `label` is called `text` here, because `label` is a Dafny
keyword.

## Model

| member | source | states |
|---|---|---|
| `Session.GetItem` | src/components/Layout.jsx:11 | `getItem` yields a value exactly when the key is stored, and that value is the stored one |
| `Session.UserText` | src/components/Layout.jsx:171 | the text given to `JSON.parse` is the stored user item when it is truthy, and `"null"` when it is absent or empty |
| `Session.AuthHeaders` | src/components/Layout.jsx:10-13 | a `headers` object exists exactly when a non-empty token is stored; its only key is `Authorization`, with value `"Bearer " + token`; otherwise the config is empty |
| `Session.BearerToken` | src/components/Layout.jsx:12 | inverse of the Bearer format: it yields a token exactly for values that start with `"Bearer "`, and prefixing gives the value back |
| `Session.AuthHeaderCarriesToken` | src/components/Layout.jsx:10-13 | the header built from a store carries back exactly the stored token |
| `Session.RemoveItem` | src/components/Layout.jsx:195 | `removeItem` removes the key and keeps every other entry unchanged |
| `Session.ClearSession` | src/components/Layout.jsx:194-196 | logout's store has exactly the old keys minus `"token"` and `"user"`, and every remaining value unchanged |
| `Session.ClearSessionIdempotent` | src/components/Layout.jsx:194-196 | clearing the session twice gives the same store as clearing it once |
| `Session.ClearSessionEndsSession` | src/components/Layout.jsx:194-196 | after logout no token or user item is stored, no auth header is built, and the next parsed user must be absent |
| `NavPolicy.TableContents` | src/components/Layout.jsx:17-59 | the table's keys are exactly Admin, Reseller, Sub-Reseller and User, with lists of 12, 9, 7 and 5 entries; `"SubReseller"` is not a key; every list has "My Profile" at `/profile/:userId` second |
| `NavPolicy.AccessibleLinks` | src/components/Layout.jsx:200 | the links are `[]` without a user or with a role that is not a key, and otherwise the role's list; the result is always `[]` or one of the four lists |
| `NavPolicy.ProfileIsSecond` | src/components/Layout.jsx:17-59 | any non-empty selection belongs to a known role and has the profile entry second |
| `NavPolicy.TableWellFormed` | src/components/Layout.jsx:17-59 | in each list the paths are distinct; only the profile template contains a colon; no other path shares the profile prefix's second character |
| `NavPolicy.LookupAsWritten` | src/components/Layout.jsx:200 | the lookup as written yields a non-list exactly when the role is not a table key but is a name inherited from `Object.prototype` |
| `NavPolicy.AsWrittenFailsOnInheritedRole` | src/components/Layout.jsx:200 | example of the finding: a role such as `"constructor"` yields a non-list as written; the corrected lookup gives `[]` |
| `NavPolicy.AsWrittenAgreesOffInherited` | src/components/Layout.jsx:200 | for every role that is not an inherited name, the as-written lookup and the corrected one agree |
| `PathResolver.Includes` | src/components/Layout.jsx:109 | `includes` is true exactly when the search string occurs at some index of the path |
| `PathResolver.NoColonNoPlaceholder` | src/components/Layout.jsx:109 | a path with no colon does not include `:userId` |
| `PathResolver.ResolvePath` | src/components/Layout.jsx:109 | a path containing `:userId` anywhere resolves to `"/profile/" + id`; every other path resolves to itself |
| `PathResolver.PlaceholderIsNotSubstituted` | src/components/Layout.jsx:109 | the placeholder is not substituted in place: `/reports/:userId/daily` also goes to `"/profile/" + id` |
| `PathResolver.NavItems` | src/components/Layout.jsx:108-117 | one link per entry, in order; each keeps the entry's label and icon, has the resolved target, and is active exactly when its target equals the pathname |
| `PathResolver.SidebarNav` | src/components/Layout.jsx:108-114 | no links without a user; otherwise the user's permitted links resolved against the user's id |
| `PathResolver.NoPrefixHighlight` | src/components/Layout.jsx:114 | `/users` is active on `/users` and not on `/users/42` |
| `PathResolver.ResolvedDistinct` | src/components/Layout.jsx:109-111 | in a well-formed list, two different entries never resolve to the same target |
| `PathResolver.AtMostOneActive` | src/components/Layout.jsx:108-114 | for every user and pathname, the sidebar's link targets (its React keys) are pairwise distinct, and at most one link is active |
| `PathResolver.AdminOnUsers` | src/components/Layout.jsx:108-114 | an Admin on `/users` sees 12 links with the Admin labels in order, and only the third ("Users") is active |
| `BrandingResolver.RenderBranding` | src/components/Layout.jsx:74-90 | placeholder exactly while loading; the logo (src = origin + reference, alt = company name) exactly when not loading with a non-empty reference and no image error; otherwise the company name |
| `BrandingResolver.SettledBranding` | src/components/Layout.jsx:180-184 | a successful fetch installs the body as-is; a failure installs `{MessageMaster, ""}` |
| `BrandingResolver.LogoErrorAfter` | src/components/Layout.jsx:69-72 | the image-error flag is cleared whenever the logo reference changes, and is kept otherwise |
| `BrandingResolver.LogoSourceRecoversReference` | src/components/Layout.jsx:81 | the image source starts with the fixed origin, and the logo reference follows it |
| `BrandingResolver.PanelAfterFailure` | src/components/Layout.jsx:182-186 | after a failed fetch the panel shows the text "MessageMaster", whatever came before |
| `BrandingResolver.PanelAfterNewLogo` | src/components/Layout.jsx:69-81 | a new non-empty logo reference is shown as an image, even if the previous one failed |
| `BrandingResolver.FailedLogoStaysSuppressed` | src/components/Layout.jsx:69-72 | when a reference that already failed arrives again, the panel keeps showing the name |
| `Shell.Layout.constructor` | src/components/Layout.jsx:162-167 | at mount: no user, default branding, loading shown, no image error |
| `Shell.Layout.SetBranding` | src/components/Layout.jsx:69-72 | the branding is replaced whole; the image-error flag follows `LogoErrorAfter` |
| `Shell.Layout.RouteChange` | src/components/Layout.jsx:170-181 | the user is re-read; a request is issued exactly when a token is stored, and loading (the placeholder) is shown exactly then; branding, flag and store are unchanged |
| `Shell.Layout.FetchSettled` | src/components/Layout.jsx:179-187 | the settled outcome sets the branding (body or default); loading ends and the placeholder goes away; a failure shows "MessageMaster"; nothing else changes |
| `Shell.Layout.OnRouteChange` | src/components/Layout.jsx:170-191 | after a route change has settled, loading is off; with a token the branding is the outcome's and the image-error flag follows `LogoErrorAfter`; without one the branding and flag are unchanged |
| `Shell.Layout.OnLogoError` | src/components/Layout.jsx:85 | an image error sets the flag, and the panel falls back to the company name |
| `Shell.Layout.Logout` | src/components/Layout.jsx:194-198 | the store loses exactly `"token"` and `"user"`; the redirect target is `"/login"`; no auth header can be built afterwards |
| `Shell.StaleResponseWins` | src/components/Layout.jsx:174-190 | with two requests in flight, the one settling last decides the branding, even when it belongs to the earlier route |
| `Shell.LogoutTwice` | src/components/Layout.jsx:194-196 | logging out twice leaves the store as logging out once does |

## Left out

- JSX, CSS and inline styles. The welcome name, the "Member since" line with
  its `toLocaleDateString`, the `aria-label` and the link text are presentation
  only.
- `NotificationBell` and `Outlet` are opaque child slots. NotificationBell.jsx
  is not part of this model.
- `axios.get` and the network. A request is issued by `Layout.RouteChange`; its
  result arrives as a `FetchOutcome` passed to `Layout.FetchSettled`. The body is
  not validated, because the code assigns `data` as-is.
- `JSON.parse`. The caller passes the parsed user. The only constraint is that
  an absent or empty item is parsed as `null`. A malformed item throws in the
  code, so the model does not claim to map malformed records to an absent
  session. Values that parse to a non-object are left out too.
- `User.createdAt`. It is used only for display.
- A missing `user.id`. The code would produce `/profile/undefined`; the model
  has a string id.
- `Branding` treats a missing, `null` or empty logo reference as the same falsy
  value `""`.
- React effect scheduling and batching. At mount the route-change effect is
  `Layout.RouteChange` after the constructor. The logo effect is folded into
  `Layout.SetBranding`. When no token is stored, loading is set and then cleared
  in one step, with no render in between.
- Writes by other parts of the application, such as the login page storing a
  token. Only logout changes the store here.
- The `console.error` diagnostic on a failed fetch.
- After logout the router navigates away. The `user` field is not cleared: the
  code does not clear it either.

## Findings

| source | as written | input that shows it | evidently intended | confidence | as-written member | corrected member |
|---|---|---|---|---|---|---|
| src/components/Layout.jsx:200 | the lookup `navLinksConfig[user.role]` reads a property of a plain object, so inherited names resolve to `Object.prototype` members. These are functions or objects, and truthy, so the `[]` fallback does not replace them, and `navLinks.map` (line 108) then throws during render | a stored user whose role is `"constructor"` (or `"toString"`, `"__proto__"`, ...) | any role that is not one of the four table keys selects `[]`, as the `[]` fallback shows | not executed; high | `NavPolicy.AsWrittenFailsOnInheritedRole` | `NavPolicy.AccessibleLinks` |

# Equipment lending client: cart, session and route guard

This project models the state logic of the browser client of an
equipment and meeting-room lending application, and proves properties of it.
It has three parts.

- **Cart store** (`cart.dfy`, module `Cart`). This is an ordered list of lines keyed by catalogue item id.
  - `addItem` merges into an existing line or appends a new one. It refuses, with a warning, when the held quantity plus the requested quantity exceeds the stock of the item handed in.
  - `removeItem` splices out the matching line.
  - `updateQuantity` ignores values below 1 and clamps values above the line's stored ceiling.
  - `clearCart` empties the list.
  - `totalItems` sums the quantities.

  The class `CartStore` holds the list as a `seq<Line>` field. Its methods are proved against the pure functions `Added`, `Removed`, `Updated` and `Total`. The lemmas about those functions state the behaviour of each operation, the invariants it keeps and its effect on the total.
- **Auth store** (`auth.dfy`, module `Auth`). The class `AuthStore` holds the signed-in `user`, the viewed `currentRole` and durable `storage`.
  - The startup role and the login role are derived from the user's roles. Each prefers `ADMIN`.
  - `isAdmin` looks at the viewed role and `isRealAdmin` at the roles held.
  - `switchRole` is open only to real admins. It returns where it navigates.
  - The store invariant is `currentRole != None ==> user != None`.
- **Router** (`router.dfy`, module `Router`). This part holds the route table as data and the `beforeEach` guard as a pure decision. It also proves that every navigation target of the auth store is a declared route: the guard admits `switchRole`'s targets for the new view and logout's `/` for every session.

`wrappers.dfy` defines `Option` and `Result`. `seqs.dfy` defines the first-match search that `find`, `findIndex` and route matching share.

Some points where the code does not do what its own comments or sibling operations suggest; the model follows the code:
- `updateQuantity` ignores a requested value below 1 (the "Min 1" comment at vue-app/src/stores/cart.js:43). It does not raise an existing quantity, and clamping to a stored ceiling below 1 leaves a quantity below 1 (`Cart.UpdateCanLeaveZero`). `addItem` has no lower bound at all: it accepts a quantity below 1 (`Cart.AddAcceptsNonPositive`). It also checks the incoming item's stock, not the stored ceiling, so a line can end above its stored ceiling (`Cart.AddCanExceedStoredCeiling`). The ceiling invariant is proved only when the incoming stock does not exceed the stored one (`Cart.AddKeepsWithinStock`). `updateQuantity` and `removeItem` keep it unconditionally.
- The comment at vue-app/src/stores/auth.js:60 says a user may only switch to roles they hold. The code at auth.js:64-66 checks only that the user is a real admin, then sets any token passed. The model does the same (`Auth.AuthStore.SwitchRole`).
- Login normalises the role differently from `getRoles`. `getRoles` treats an empty role token as absent, and startup maps a falsy first role to null. Login keeps an empty token as the role. `Auth.LoginMatchesStartup` proves that the two choices differ exactly in that case.

JavaScript's `null` and `undefined` are both `None`. Stock and quantities are unbounded integers.

## Model

| member | source | states |
|---|---|---|
| Seqs.FirstIndex | vue-app/src/stores/cart.js:31 | the position `findIndex` returns is the first one whose key matches, and -1 exactly when none does |
| Cart.IndexOf | vue-app/src/stores/cart.js:11 | the line `find`/`findIndex` selects is the first one with the id; -1 exactly when no line has it |
| Cart.CartStore.constructor | vue-app/src/stores/cart.js:6 | the cart starts empty |
| Cart.CartStore.TotalItems | vue-app/src/stores/cart.js:8 | totalItems is 0 for an empty cart and at least the number of lines when every quantity is at least 1 |
| Cart.CartStore.AddItem | vue-app/src/stores/cart.js:10-28 | the quantity defaults to 1; warns exactly when held plus requested exceeds the incoming stock; the new list is `Added` of the old; ids stay unique |
| Cart.CartStore.RemoveItem | vue-app/src/stores/cart.js:30-35 | the new list is `Removed` of the old; ids stay unique |
| Cart.CartStore.UpdateQuantity | vue-app/src/stores/cart.js:37-51 | warns exactly when an existing line is asked for a value that is at least 1 and above its stored ceiling; the new list is `Updated` of the old; ids stay unique |
| Cart.CartStore.ClearCart | vue-app/src/stores/cart.js:53-55 | the list is empty and totalItems is 0 |
| Cart.AddRefusedKeepsCart | vue-app/src/stores/cart.js:11-20 | when held (or 0) plus quantity exceeds the incoming item's stock, the list is unchanged |
| Cart.AddMergesIntoExisting | vue-app/src/stores/cart.js:22-23 | an accepted add for a present id raises that line's quantity by `quantity`, keeps its other fields, keeps the length and leaves every other line untouched |
| Cart.AddAppendsNewLine | vue-app/src/stores/cart.js:24-26 | an accepted add for an absent id appends exactly one line with the requested quantity and the incoming stock |
| Cart.AddKeepsIdsUnique | vue-app/src/stores/cart.js:11-26 | addItem never creates a second line for an id |
| Cart.AddKeepsWithinStock | vue-app/src/stores/cart.js:13-26 | every line stays within its stored ceiling when the incoming stock does not exceed the matched line's stored ceiling |
| Cart.AddCanExceedStoredCeiling | vue-app/src/stores/cart.js:13-23 | because the incoming stock is checked, a merge can leave a line above its stored ceiling (3 of 5 held, add 4 of an item reporting 10: 7) |
| Cart.AddAcceptsNonPositive | vue-app/src/stores/cart.js:17-26 | a quantity of 0 appends a zero line and a negative quantity lowers a line; neither is refused |
| Cart.AddTwice | vue-app/src/stores/cart.js:11-26 | adding a new item twice with q under ceiling c holds 2q when 2q <= c, and refuses the second add, holding q, when c < 2q |
| Cart.AddTotal | vue-app/src/stores/cart.js:8-26 | totalItems grows by `quantity` when addItem accepts and is unchanged when it refuses |
| Cart.RemoveAbsentKeepsCart | vue-app/src/stores/cart.js:30-35 | removing an absent id changes nothing |
| Cart.RemoveIsWithout | vue-app/src/stores/cart.js:30-35 | with unique ids, removal equals deleting every line with that id while keeping the others in order |
| Cart.RemoveKeepsInvariants | vue-app/src/stores/cart.js:30-35 | removal keeps ids unique and every line within its stored ceiling |
| Cart.RemoveTotal | vue-app/src/stores/cart.js:30-35 | totalItems drops by the removed line's quantity, or not at all |
| Cart.UpdateIgnored | vue-app/src/stores/cart.js:37-43 | an absent id or a value below 1 changes nothing and gives no warning |
| Cart.UpdateSetsClamped | vue-app/src/stores/cart.js:41-50 | otherwise the line gets the value, clamped to its stored ceiling with a warning exactly when clamped; the line ends within its ceiling; other lines and the length are unchanged |
| Cart.UpdateCanLeaveZero | vue-app/src/stores/cart.js:43-46 | a line accepted with 0 of a ceiling of 0 is clamped back to 0, with a warning, when asked for 3: nothing raises a quantity to 1 |
| Cart.UpdateKeepsInvariants | vue-app/src/stores/cart.js:41-50 | updateQuantity keeps ids unique and every line within its stored ceiling |
| Cart.UpdateTotal | vue-app/src/stores/cart.js:37-50 | totalItems changes by the difference between the line's new and old quantity |
| Cart.TotalAfterSet | vue-app/src/stores/cart.js:8 | changing one line's quantity changes the sum by the difference |
| Cart.TotalAfterSplice | vue-app/src/stores/cart.js:8 | splicing out one line takes its quantity off the sum |
| Auth.GetRoles | vue-app/src/stores/auth.js:11-14 | no user gives no roles; a role list is returned as it is; otherwise at most one role, never the empty token |
| Auth.AuthStore.IsAuthenticated | vue-app/src/stores/auth.js:22 | signed out, no role is held, and in a consistent store none is viewed |
| Auth.AuthStore.IsAdmin | vue-app/src/stores/auth.js:23 | the admin view means a role is viewed, and in a consistent store a user is signed in |
| Auth.AuthStore.IsRealAdmin | vue-app/src/stores/auth.js:25 | holding ADMIN needs a signed-in user, and holds exactly when startup would give the admin view |
| Auth.GetRolesNormalises | vue-app/src/stores/auth.js:11-14 | getRoles gives [] for no user, no role or an empty token, the list for a list, and [token] for a token |
| Auth.StoredUser | vue-app/src/stores/auth.js:8 | the startup user is the record stored under "user"; other stored text that parses truthy is a user with no roles; a missing key or falsy text gives no user |
| Auth.StartupRole | vue-app/src/stores/auth.js:17-18 | the startup role is ADMIN exactly when held, else a non-empty held role that is the first one, and null exactly when ADMIN is not held and the first role is missing or empty |
| Auth.LoginRole | vue-app/src/stores/auth.js:42-43 | the login role is ADMIN exactly when held, otherwise the first role; any non-empty role it picks is held; with no roles it is undefined or the empty token |
| Auth.LoginMatchesStartup | vue-app/src/stores/auth.js:42-43 | login and startup pick the same role for a record exactly when login does not pick the empty token |
| Auth.AuthStore.constructor | vue-app/src/stores/auth.js:8-18 | startup reads the user from storage, derives the viewed role, and satisfies the store invariant |
| Auth.AdminIsAuthenticated | vue-app/src/stores/auth.js:22-25 | under the store invariant, isAdmin and isRealAdmin each imply isAuthenticated |
| Auth.AuthStore.Login | vue-app/src/stores/auth.js:35-48 | a failed lookup raises the credentials error and changes nothing; a success sets the user and the login role, writes "user" to storage and returns the record |
| Auth.AuthStore.Logout | vue-app/src/stores/auth.js:51-56 | user and role become null, "user" and "admin_token" leave storage, and the target is "/" |
| Auth.AuthStore.SwitchRole | vue-app/src/stores/auth.js:64-71 | without ADMIN held nothing changes and nothing is navigated; otherwise the viewed role becomes the target token, unchecked, and the user, storage and isRealAdmin stay |
| Auth.SwitchTarget | vue-app/src/stores/auth.js:67-71 | switchRole navigates to /equipment exactly for USER from a path starting with /admin, to /admin/dashboard exactly for ADMIN, and nowhere otherwise |
| Auth.AdminPreview | vue-app/src/stores/auth.js:59-71 | a real admin who signs in and switches to USER is no longer isAdmin but still isRealAdmin |
| Router.BeforeEach | vue-app/src/router/index.js:74-96 | the guard allows exactly when the admin flag implies isAdmin and the auth flag implies isAuthenticated; any other answer is a redirect to "/" |
| Router.AdminRouteRefusesNonAdmins | vue-app/src/router/index.js:78-85 | an admin route redirects every non-admin view to "/", signed in or not, with the same target |
| Router.AuthRouteRefusesAnonymous | vue-app/src/router/index.js:89-92 | an auth route redirects an anonymous session to "/" |
| Router.PublicRouteAllowed | vue-app/src/router/index.js:78-95 | a route with neither flag is allowed whatever the session |
| Router.AdminViewOpensAdminRoute | vue-app/src/router/index.js:78-95 | an admin route without the auth flag is allowed on the admin view, signed in or not |
| Router.RouteIndex | vue-app/src/router/index.js:16-71 | route resolution picks the first route declared for a path, or none when no route has it |
| Router.RouteTableFlags | vue-app/src/router/index.js:16-71 | only /dashboard requires auth, only /admin/dashboard requires admin, and only /login and /admin/login redirect, both to "/" |
| Router.PathsDistinct | vue-app/src/router/index.js:16-71 | no two routes share a path |
| Router.LookupDeclared | vue-app/src/router/index.js:16-71 | every declared path resolves to its own route |
| Router.MetaFor | vue-app/src/router/index.js:16-71 | the requirements the guard sees after resolving a path and following a redirect: auth exactly for /dashboard, admin exactly for /admin/dashboard |
| Router.Navigate | vue-app/src/router/index.js:74-96 | a navigation is allowed exactly when /dashboard has a signed-in user and /admin/dashboard the admin view; otherwise it is redirected to "/" |
| Router.OnlyDashboardsGuarded | vue-app/src/router/index.js:29-33 | a navigation can be refused only on /dashboard or /admin/dashboard |
| Router.LoginPathsLandOnRoot | vue-app/src/router/index.js:52-59 | /login and /admin/login redirect to "/", and the guard allows them for every session |
| Router.AdminViewAllowedEverywhere | vue-app/src/router/index.js:78-95 | in a consistent auth store the admin view passes the guard on every route |
| Router.NavigationTargetsAllowed | vue-app/src/stores/auth.js:67-71 | each switchRole target is a declared, non-redirecting route that the guard admits for the new view; logout's "/" is the declared, non-redirecting landing route and is admitted in every session |
| Router.RegularViewRefusedOnAdminDashboard | vue-app/src/router/index.js:65-70 | after switching to USER, staying on /admin/dashboard would be refused, which is why switchRole moves to /equipment |

## Left out

- The users-table query in `login`, including `.single()` (auth.js:28-33), is a network call. `Login` receives its outcome as `Option<User>`: `None` stands for an error, no row, or more than one row.
- JSON serialisation in durable storage is not modelled. A stored value is either a user record or other text, with a flag for whether that text parses to a truthy value. Malformed JSON that would make `JSON.parse` throw at startup is not modelled.
- `router.push` and Vue Router internals are not modelled. `Logout` and `SwitchRole` return the target path. The current route's path is a parameter of `SwitchRole`.
- Route matching is exact path equality. Vue Router's case-insensitive and trailing-slash matching, and its route parameters, are not modelled. A redirect is followed for one hop, which is all the table needs.
- The toasts and console logging of the cart are not modelled. `AddItem` and `UpdateQuantity` return a `warned` flag instead.
- `Number(...)` coercion of `total_stock`, NaN and floating-point quantities are not modelled. Stock and quantity are unbounded integers.
- Vue reactivity, `async`/`await`, lazy component imports and the view components are not modelled. Each store is one object, and its operations run one at a time.
- Roles are modelled as strings. A role list holding non-string values is not modelled.
- Cart.CartStore.TotalItems: its own contract gives only bounds. The exact value is the fold `Total`, and the lemmas `Cart.AddTotal`, `Cart.RemoveTotal` and `Cart.UpdateTotal` relate it to each operation.

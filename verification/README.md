# PapiFast front end, modelled in Dafny

PapiFast is a React front end for an events and ticketing back office. Every page runs on
mock data. This project models its logic in Dafny:

- **The simulated session** (`contexts/AuthContext.tsx`). Login by role, logout, and branch
  switching.
- **The router and its guard** (`App.tsx`), and the login screen (`apps/publico/pages/Login.tsx`).
- **The role menus** (`constants.ts`) and the layout components that read them. The sidebar
  has expandable parents, active-path highlighting, the "Convites" context menu and the
  collapsed-rail flyout. The mobile menu grid, the bottom tab bar and the shell's persisted
  collapse flag are modelled too.
- **Seventeen list pages** of the ADMIN area (`/admin`) and the CLIENT area (`/app`). Each
  page has:
  - a search box;
  - zero or more drop-downs, each with a sentinel entry ("Todos…") that switches it off;
  - the filtered list, cut into fixed-size pages with JavaScript's `slice`;
  - summary cards;
  - usually a clear button.

Shared modules:

| module | what it holds |
|---|---|
| `Text` | `toLowerCase` on ASCII and Latin-1, and `includes` as a substring test. |
| `Seqs` | Order-preserving filter, counting, sums and first-occurrence de-duplication. |
| `Paging` | JavaScript `slice` with its clamping of negative and oversized bounds, the page cut, and `Math.ceil(n / k)`. |
| `ListView` | The `(criteria, currentPage)` state every list page keeps. |
| `Search` | One searched field, either case-folded or exact, and the sentinel drop-down test. |
| `Effects` | The ordered side effects of an event handler: a call into the session, then a navigation. |

Each page is one module. It holds:

- the page's row type and its mock rows;
- its page size, criteria, defaults and row test (`Matches`);
- `Filtered` and `Visible`;
- the state transitions of its controls;
- its cards.

React state updates are pure functions on an immutable view. Where the code behaves
surprisingly, the behaviour is proved as stated rather than "fixed". Examples:

- A filter edit keeps a page number that may now lie past the end.
- Some drop-downs are held in state but never consulted.
- Some cards are constants.
- A search-box placeholder names a field that is not searched.

## Model

| member | source | states |
|---|---|---|
| Text.LowerStr | apps/admin/pages/campanhas/Campanhas.tsx:49 | Lower-casing keeps the length and changes each character independently of its neighbours. |
| Text.LowerStrIdempotent | apps/admin/pages/campanhas/Campanhas.tsx:49 | Lower-casing twice gives the same string as lower-casing once. |
| Text.Includes | apps/admin/pages/campanhas/Campanhas.tsx:49 | `includes` holds exactly when the needle occurs at some offset of the haystack. |
| Text.TooLong | apps/client/pages/recibos/RecibosIngressos.tsx:32-34 | A needle longer than the haystack is never included. |
| Text.IncludesFolded | apps/admin/pages/campanhas/Campanhas.tsx:49-50 | Case-folded search holds exactly when the lower-cased term occurs in the lower-cased field. |
| Text.FoldedIgnoresCase | apps/admin/pages/campanhas/Campanhas.tsx:49-50 | Folded search gives the same answer whichever of term or field is already lower-cased. |
| Seqs.Filter | apps/admin/pages/campanhas/Campanhas.tsx:47-56 | The filter result is an order-preserving subsequence that keeps exactly the elements satisfying the test, each as often as in the input. |
| Seqs.FilterIdempotent | apps/admin/pages/campanhas/Campanhas.tsx:47-56 | Filtering an already filtered list changes nothing. |
| Seqs.FilterAppend | apps/admin/pages/campanhas/Campanhas.tsx:47-56 | Filtering distributes over concatenation. |
| Seqs.CountIsFilterLength | apps/admin/pages/campanhas/Campanhas.tsx:40 | `filter(p).length` equals the number of positions satisfying `p`. |
| Seqs.TallyIsCount | apps/admin/pages/campanhas/Campanhas.tsx:40 | A left-to-right tally equals the set-based count. |
| Seqs.CountSplit | apps/admin/pages/usuarios/UsuariosClientes.tsx:32-34 | Two complementary status counts add up to the length. |
| Seqs.CountThree | apps/admin/pages/cupons/Cupons.tsx:39-42 | Three exhaustive, mutually exclusive status counts add up to the length. |
| Seqs.TotalIsSum | apps/admin/pages/convites/Convites.tsx:39 | The left fold `reduce((acc, x) => acc + f(x), 0)` equals the recursive sum. |
| Seqs.SumNonNegative | apps/admin/pages/convites/Convites.tsx:39 | A sum of non-negative quantities is non-negative. |
| Seqs.Distinct | apps/admin/pages/campanhas/Campanhas.tsx:71 | `Array.from(new Set(...))` has no duplicates, has exactly the input's values, and keeps first-occurrence order. |
| Seqs.DistinctCount | apps/admin/pages/campanhas/Campanhas.tsx:42 | `new Set(...).size` is the number of distinct values. |
| Seqs.FilterNoDup | components/layout/Sidebar.tsx:42 | Filtering a duplicate-free list leaves it duplicate-free. |
| Paging.Clamp | apps/admin/pages/campanhas/Campanhas.tsx:61 | `slice` bounds: negative bounds count from the end, and every bound is clamped into `[0, length]`. |
| Paging.Slice | apps/admin/pages/campanhas/Campanhas.tsx:61 | Every sliced row comes from the list, and in-range bounds give exactly the rows from `start` up to `end`. |
| Paging.SliceWindow | apps/admin/pages/campanhas/Campanhas.tsx:61 | Whatever the bounds, the slice is the run of the list between the two clamped bounds, empty when they cross. |
| Paging.Page | apps/admin/pages/campanhas/Campanhas.tsx:59-62 | Page `p >= 1` is the filtered list from `(p-1)*k` to `(p-1)*k + k`, both clamped. It holds at most `k` rows, all from the list. Page 0 is empty. |
| Paging.TotalPages | apps/admin/pages/campanhas/Campanhas.tsx:267 | `ceil(n/k)` is the least `t` with `t*k >= n`; it is 0 exactly when there are no rows. |
| Paging.PageSizes | apps/admin/pages/campanhas/Campanhas.tsx:59-62 | Pages before the last are full, the last holds the non-empty remainder, and every later page is empty. |
| Paging.PastTheEnd | apps/admin/pages/campanhas/Campanhas.tsx:59-62 | A page number beyond `ceil(n/k)` shows nothing. |
| Paging.PagesPartition | apps/admin/pages/campanhas/Campanhas.tsx:267 | Pages 1 to `ceil(n/k)`, concatenated, give back the whole list. |
| Paging.ConcatIsPrefix | apps/admin/pages/campanhas/Campanhas.tsx:59-62 | The first `m` pages, concatenated, are the list's first `m*k` rows. |
| ListView.SetPage | apps/admin/pages/campanhas/Campanhas.tsx:33 | Moving to another page keeps the criteria. |
| Search.FieldMatches | apps/admin/pages/filiais/Filiais.tsx:67-68 | A folded field matches when the lower-cased term occurs in it. An exact field matches on the term as typed. |
| Search.EmptyTermMatches | apps/admin/pages/campanhas/Campanhas.tsx:49-50 | The empty search term matches every field. |
| Search.Allows | apps/admin/pages/campanhas/Campanhas.tsx:50-51 | The sentinel entry of a drop-down admits every value; any other selection admits exactly the equal value. |
| Auth.FindFilial | contexts/AuthContext.tsx:47 | `find` yields a branch exactly when a listed branch has that id, and then it yields that branch. |
| Auth.Login | contexts/AuthContext.tsx:25-39 | Login sets user 123 with the role. Only ADMIN gets branch 1, which is then selected. Any other role leaves the selected branch as it was. |
| Auth.Logout | contexts/AuthContext.tsx:41-44 | Logout clears user and branch, whatever they were. |
| Auth.SwitchFilial | contexts/AuthContext.tsx:46-49 | Switching selects branch 1 or 2. Any other id changes nothing. The user is never touched. |
| Auth.IsAuthenticated | contexts/AuthContext.tsx:52 | A session is authenticated exactly when a user is set. |
| Auth.AuthenticationLifecycle | contexts/AuthContext.tsx:52 | The start state is anonymous. Login authenticates and logout ends it. A branch switch never changes it. |
| Auth.SwitchToAllBranchesIsNoOp | contexts/AuthContext.tsx:46-49 | Id 0, the dashboard's "all branches" entry, leaves the session unchanged. |
| Auth.NonAdminLoginKeepsBranch | contexts/AuthContext.tsx:36-38 | Any non-ADMIN login after an ADMIN login keeps the ADMIN's branch. From a fresh session it selects none. |
| Effects.Run | apps/publico/pages/Login.tsx:10-17 | A handler ends at a location exactly when it navigates, and then at the target of its last navigation. Navigations alone leave the session as it was. |
| Effects.HandleLogout | components/layout/Shell.tsx:24-27 | Logging out from any session ends anonymous at `/`. |
| Routes.Allowed | App.tsx:37-73 | The admin area admits exactly ADMIN and GERENTE, the client area exactly CLIENTE and ADMIN. FUNCIONARIO and GUEST are admitted nowhere. |
| Routes.DeclaredPages | App.tsx:39-92 | The admin area declares 16 pages and the client area 12; both declare the menu, support, sell and voucher pages. |
| Routes.AdminPagesDistinct | App.tsx:39-61 | No admin page is declared twice. |
| Routes.AppPagesDistinct | App.tsx:75-92 | No client page is declared twice. |
| Routes.Fallback | App.tsx:63-94 | Each catch-all target is a declared page of its area, and it is the page the guard sends that area's own role to. |
| Routes.HomeOf | App.tsx:22 | A refused ADMIN goes to `/admin/dashboard`; every other refused role goes to `/app/home`. |
| Routes.Guard | App.tsx:13-26 | The guard renders exactly for an authenticated user whose role is allowed. Otherwise an anonymous visitor goes to `/`, and a refused user goes to the role's home. |
| Routes.Visit | App.tsx:34-98 | A guarded area renders a page exactly when the user is authenticated, the role is admitted and the sub-path is declared. Otherwise it redirects: an anonymous visitor to `/`, a refused role to its home, and an admitted user on an unknown sub-path to the area's catch-all page. |
| Routes.Locate | App.tsx:35 | A location is assigned to an area only when it is that area's root or lies below it. |
| Routes.Resolve | App.tsx:28-101 | `/` always shows the login screen, and a rendered page always means an admitted, authenticated user. |
| Routes.LocatePage | App.tsx:35-71 | Every page path is located in its own area with its own sub-path. |
| Routes.ResolvePage | App.tsx:30-98 | Resolving a page path is a visit to that page of that area. |
| Routes.CatchAllLands | App.tsx:63-94 | An admitted user on an unknown sub-path is redirected to a location that renders the area's catch-all page. |
| Routes.AnonymousGoesToLogin | App.tsx:16-18 | Without login, every guarded location redirects to `/`. |
| Routes.AdminSeesBothAreas | App.tsx:37 | ADMIN is admitted to both areas, and within each exactly the declared pages render. |
| Routes.ClientKeptOutOfAdmin | App.tsx:20-23 | A CLIENTE asking for an admin page goes to `/app/home`, which renders. |
| Routes.UnadmittedRoleLoops | App.tsx:20-23 | FUNCIONARIO and GUEST are sent from every page to `/app/home`, and from there to `/app/home` again. |
| Routes.ManagerLoopsInAppArea | App.tsx:73 | GERENTE is bounced from every `/app` page to `/app/home`, which bounces again, while `/admin/dashboard` renders. |
| Routes.HandleLogin | apps/publico/pages/Login.tsx:10-17 | The login button logs in first, then navigates to the role's start page. |
| Routes.LoginThenNavigate | apps/publico/pages/Login.tsx:11-12 | The login call happens before the navigation, so the navigation sees the new session. |
| Routes.LoginLands | apps/publico/pages/Login.tsx:12-16 | Both offered logins land on a page the guard renders for that role, whatever the session was before. |
| Nav.Menu | constants.ts:17-89 | Menus exist exactly for ADMIN and CLIENTE. |
| Nav.MenuOrAdmin | components/layout/Sidebar.tsx:35 | A role without a menu falls back to the ADMIN menu. |
| Nav.Targets | constants.ts:24-32 | An entry links to its own path, or, when it has sub-items, to theirs in order. |
| Nav.TargetOfSomeItem | constants.ts:18-88 | Every link of a menu belongs to one of its entries. |
| Nav.InAreaPaths | constants.ts:18-88 | When every entry and sub-item is in an area, so is every path of the menu. |
| Nav.PathsStayInArea | constants.ts:18-88 | Every ADMIN menu path starts with `/admin/` and every CLIENTE path with `/app/`. |
| Nav.LabelsUnique | constants.ts:18-88 | Top-level labels are unique in each menu. |
| Nav.MenusAreTwoLevels | constants.ts:24-85 | No sub-item carries sub-items of its own. |
| Nav.KnownSubMenus | constants.ts:24-76 | ADMIN "Eventos" has "Meus Eventos" and "Todos os Eventos", ADMIN "Recibos" has one sub-item, and CLIENTE "Cupons" has "Disponíveis" and "Meus Cupons". |
| MenuLinks.AdminMenuLinksRender | constants.ts:18-54 | For ADMIN, every link of the ADMIN menu resolves to a page that renders. |
| MenuLinks.AdminEntriesRender | constants.ts:18-54 | For ADMIN, every target of every ADMIN menu entry renders. |
| MenuLinks.ClientMenuLinksRender | constants.ts:55-88 | For CLIENTE, every link of the CLIENTE menu resolves to a page that renders. |
| MenuLinks.ClientEntriesRender | constants.ts:55-88 | For CLIENTE, every target of every CLIENTE menu entry renders. |
| Sidebar.Items | components/layout/Sidebar.tsx:33-35 | There is nothing without a user. CLIENTE gets the client menu; every other role gets the ADMIN menu. |
| Sidebar.ToggleExpand | components/layout/Sidebar.tsx:37-44 | Collapsed, toggling does nothing. Expanded, it flips exactly the one label's membership and never creates a duplicate. An absent label is appended at the end; removing a label keeps the others in order. |
| Sidebar.ToggleTwiceRestores | components/layout/Sidebar.tsx:41-43 | Toggling a closed label twice restores the expanded list exactly. |
| Sidebar.IsActivePath | components/layout/Sidebar.tsx:46-52 | An entry is highlighted exactly when the location is its own path or one of its sub-items' paths. |
| Sidebar.SomePathIs | components/layout/Sidebar.tsx:49 | `some` holds exactly when one sub-item's path is the location. |
| Sidebar.ParentHighlighted | components/layout/Sidebar.tsx:46-52 | Visiting any sub-item highlights its parent. |
| Sidebar.HandleContextMenu | components/layout/Sidebar.tsx:54-59 | Right-clicking opens the context menu at the pointer exactly on "Convites"; on any other entry nothing changes. |
| Sidebar.WindowClick | components/layout/Sidebar.tsx:27-31 | Any click closes the context menu. |
| Sidebar.HandleNewInvite | components/layout/Sidebar.tsx:61-63 | The menu's action goes to `/app/convites` for every role and leaves the session alone. |
| Sidebar.Visible | components/layout/Sidebar.tsx:246 | The flyout is never drawn in the expanded sidebar. Collapsed, it is drawn exactly while an entry is hovered. |
| Sidebar.MouseEnter | components/layout/Sidebar.tsx:66-80 | Entering an entry of the collapsed rail shows its flyout and cancels a pending hide; expanded, nothing happens. |
| Sidebar.MouseLeave | components/layout/Sidebar.tsx:82-87 | Leaving the collapsed rail schedules a hide and keeps the flyout for now; expanded, nothing happens. |
| Sidebar.FlyoutEnter | components/layout/Sidebar.tsx:89-91 | Entering the flyout cancels the pending hide. |
| Sidebar.FlyoutLeave | components/layout/Sidebar.tsx:93-97 | Leaving the flyout schedules a hide. |
| Sidebar.TimerFires | components/layout/Sidebar.tsx:84-86 | A scheduled hide removes the flyout; with none scheduled nothing changes. |
| Sidebar.LeaveThenWaitHides | components/layout/Sidebar.tsx:82-87 | Leaving the rail and waiting leaves no flyout visible. |
| Sidebar.LeaveIntoFlyoutKeepsIt | components/layout/Sidebar.tsx:89-91 | Moving from an entry into its flyout before the delay keeps the flyout, even after the timer. |
| Sidebar.SlideToNextEntry | components/layout/Sidebar.tsx:66-68 | Sliding from one entry to the next shows the second entry's flyout, even after the first timer. |
| Sidebar.ExpandedModeIgnoresHover | components/layout/Sidebar.tsx:67 | In the expanded sidebar, hovering never changes the flyout state. |
| MenuMobile.TilesOf | components/layout/MenuMobilePage.tsx:71-100 | A leaf gives its own tile. A parent gives one tile per sub-item, in order, with the sub-item's caption and path. The tile takes the sub-item's icon, or the parent's when that is empty. |
| MenuMobile.Grid | components/layout/MenuMobilePage.tsx:71-100 | A tile is on the grid exactly when some menu entry contributes it. |
| MenuMobile.Page | components/layout/MenuMobilePage.tsx:12-14 | There is nothing without a user; otherwise the grid of the role's menu, falling back to the ADMIN menu. |
| MenuMobile.TilePathsAppend | components/layout/MenuMobilePage.tsx:71-100 | The links of two grids in a row are the links of each, in order. |
| MenuMobile.GridLinksAreMenuTargets | components/layout/MenuMobilePage.tsx:71-100 | The grid's links are the menu's targets, in order: parents are replaced by their sub-items. |
| MenuMobile.GridSize | components/layout/MenuMobilePage.tsx:71-100 | The grid has one tile per leaf plus one per sub-item. |
| MenuMobile.TilesHaveIcons | components/layout/MenuMobilePage.tsx:82 | When every entry has an icon, every tile has one. |
| MenuMobile.GridCounts | components/layout/MenuMobilePage.tsx:71-100 | The ADMIN grid has 14 tiles and the CLIENTE grid 11. |
| BottomNav.BarArea | components/layout/BottomNav.tsx:9 | Only ADMIN gets the admin bar. |
| BottomNav.TabPages | components/layout/BottomNav.tsx:14-29 | Each bar's four tabs point at pages its area declares, the last at the menu. |
| BottomNav.MakeTab | components/layout/BottomNav.tsx:39 | Only the "Home" tab matches its path exactly. |
| BottomNav.Bar | components/layout/BottomNav.tsx:9-29 | There is nothing without a user. Otherwise there are four tabs: the ADMIN bar for ADMIN, the `/app` bar for every other role. The tabs lead, in order, to dashboard, events, sell and menu of the admin area, or to home, invitations, my events and menu of the client area. Their captions are Home, Eventos, Vender, Menu and Home, Convites, Eventos, Menu. |
| BottomNav.ExactOnlyForHome | components/layout/BottomNav.tsx:39 | Below its own path, every tab but Home is lit. |
| BottomNav.BelowPath | components/layout/BottomNav.tsx:39 | Below its own path, a tab is lit exactly when it is not exact. |
| BottomNav.IsActive | components/layout/BottomNav.tsx:36-43 | A tab is lit on its own path, and only on or below it. An exact tab is lit only on its own path. |
| BottomNav.TabPath | components/layout/BottomNav.tsx:14-29 | Tab `i` of a user's bar leads to page `i` of that bar's area. |
| BottomNav.TabsRender | components/layout/BottomNav.tsx:14-28 | For ADMIN and CLIENTE, every tab resolves to a page that renders. |
| BottomNav.ManagerTabsBounce | components/layout/BottomNav.tsx:21-29 | A GERENTE is shown `/app` tabs, and each of them redirects to `/app/home`. |
| Shell.ParseCollapsed | components/layout/Shell.tsx:9-12 | The stored flag reads as collapsed exactly when it is the text `true`. |
| Shell.Persist | components/layout/Shell.tsx:20-22 | The flag is stored as `true` or `false`, and reading it back gives the flag. |
| Shell.ToggleCollapsed | components/layout/Shell.tsx:48 | Toggling flips the flag. |
| Shell.ReloadRestores | components/layout/Shell.tsx:9-22 | After any number of toggles the reloaded flag is the current one. An even count restores the start. |
| Shell.FirstName | components/layout/Shell.tsx:86 | The greeting is the longest space-free prefix of the name. |
| Shell.Initial | components/layout/Shell.tsx:90 | The avatar letter is the name's first character, or nothing for an empty name. |
| Shell.FirstNameStopsAtSpace | components/layout/Shell.tsx:86 | A first word followed by a space is exactly the greeting. |
| AdminCampanhas.Matches | apps/admin/pages/campanhas/Campanhas.tsx:48-55 | A campaign matches when its name or branch contains the term, ignoring case, and each drop-down is at its sentinel or equal to it. |
| AdminCampanhas.Filtered | apps/admin/pages/campanhas/Campanhas.tsx:47-56 | The list is the matching campaigns, in data order, each as often as in the data. |
| AdminCampanhas.Visible | apps/admin/pages/campanhas/Campanhas.tsx:59-62 | At most six campaigns, all matching: the current six-row window of the filtered list. |
| AdminCampanhas.SetTerm | apps/admin/pages/campanhas/Campanhas.tsx:130 | Editing the search term changes only that criterion and keeps the page number: no effect resets it. |
| AdminCampanhas.SetStatus | apps/admin/pages/campanhas/Campanhas.tsx:141 | Editing the status changes only that criterion and keeps the page number: no effect resets it. |
| AdminCampanhas.SetFilial | apps/admin/pages/campanhas/Campanhas.tsx:159 | Editing the branch changes only that criterion and keeps the page number: no effect resets it. |
| AdminCampanhas.Clear | apps/admin/pages/campanhas/Campanhas.tsx:64-69 | Clearing resets every criterion to its default and shows page 1 of every campaign. |
| AdminCampanhas.DefaultsShowAll | apps/admin/pages/campanhas/Campanhas.tsx:30-32 | The initial criteria list every campaign. |
| AdminCampanhas.EditsKeepPage | apps/admin/pages/campanhas/Campanhas.tsx:130-158 | No filter edit resets the page. An edit that leaves too few rows for the current page shows an empty page. |
| AdminCampanhas.Stats | apps/admin/pages/campanhas/Campanhas.tsx:37-44 | The cards count campaigns, active ones, paused ones and distinct branches over all data, whatever the filters. |
| AdminCampanhas.BranchOptions | apps/admin/pages/campanhas/Campanhas.tsx:71 | The branch options are each branch of the data exactly once, in the order of each branch's first campaign. |
| AdminCampanhas.BranchOptionSelects | apps/admin/pages/campanhas/Campanhas.tsx:162-163 | Every offered branch lists at least one campaign, and only campaigns of it. |
| AdminCampanhas.MockCards | apps/admin/pages/campanhas/Campanhas.tsx:19-26 | On the mock data: 6 campaigns, 3 active, 1 paused. |
| AdminConvites.Matches | apps/admin/pages/convites/Convites.tsx:52-62 | An invitation matches when name, e-mail or event contains the term, ignoring case, and status and event are at their sentinels or equal. |
| AdminConvites.Filtered | apps/admin/pages/convites/Convites.tsx:51-63 | The list is the matching invitations, in data order, each as often as in the data. |
| AdminConvites.Visible | apps/admin/pages/convites/Convites.tsx:66-69 | At most five invitations, all matching: the current five-row window. |
| AdminConvites.SetTerm | apps/admin/pages/convites/Convites.tsx:112 | Editing the search term changes only that criterion and keeps the page number: no effect resets it. |
| AdminConvites.SetStatus | apps/admin/pages/convites/Convites.tsx:123 | Editing the status changes only that criterion and keeps the page number: no effect resets it. |
| AdminConvites.SetEvent | apps/admin/pages/convites/Convites.tsx:139 | Editing the event changes only that criterion and keeps the page number: no effect resets it. |
| AdminConvites.Clear | apps/admin/pages/convites/Convites.tsx:73-78 | Clearing resets every criterion to its default and shows page 1 of every invitation. |
| AdminConvites.DefaultsShowAll | apps/admin/pages/convites/Convites.tsx:29-31 | The initial criteria list every invitation. |
| AdminConvites.StalePageOnMockData | apps/admin/pages/convites/Convites.tsx:32-33 | On page 2 of the mock list, choosing "Ativo" keeps page 2. Only 4 rows match, so the page is empty. |
| AdminConvites.SecondPageOfSix | apps/admin/pages/convites/Convites.tsx:66-69 | Of six rows, page 2 shows just the sixth. |
| AdminConvites.MockActiveCount | apps/admin/pages/convites/Convites.tsx:19-26 | Four mock invitations are active. |
| AdminConvites.Stats | apps/admin/pages/convites/Convites.tsx:36-48 | The cards count batches, active batches, summed guests and distinct events over all data. |
| AdminConvites.MockCards | apps/admin/pages/convites/Convites.tsx:19-26 | On the mock data: 6 batches, 4 active, 17 guests. |
| AdminConvites.EventOptions | apps/admin/pages/convites/Convites.tsx:71 | The event options are each event of the data exactly once, in the order of each event's first invitation. |
| AdminConvites.EventOptionSelects | apps/admin/pages/convites/Convites.tsx:142-143 | Every offered event lists at least one invitation, and only invitations to it. |
| AdminCupons.NameMatches | apps/admin/pages/cupons/Cupons.tsx:56 | A missing client name never matches; a present one matches when it contains the term, ignoring case. |
| AdminCupons.Matches | apps/admin/pages/cupons/Cupons.tsx:54-62 | A coupon matches on its client name or token and the status drop-down. |
| AdminCupons.Filtered | apps/admin/pages/cupons/Cupons.tsx:53-63 | The list is the matching coupons, in data order, each as often as in the data. |
| AdminCupons.Visible | apps/admin/pages/cupons/Cupons.tsx:66-69 | At most five coupons, all matching: the current five-row window. |
| AdminCupons.TableBody | apps/admin/pages/cupons/Cupons.tsx:232-239 | The "Nenhum cupom encontrado." row appears exactly when the page is empty; otherwise the page's rows do. |
| AdminCupons.SetTerm | apps/admin/pages/cupons/Cupons.tsx:111 | Editing the search term changes only that criterion and keeps the page number: no effect resets it. |
| AdminCupons.SetStatus | apps/admin/pages/cupons/Cupons.tsx:122 | Editing the status changes only that criterion and keeps the page number: no effect resets it. |
| AdminCupons.SetState | apps/admin/pages/cupons/Cupons.tsx:151 | Editing the state changes only that criterion and keeps the page number: no effect resets it. |
| AdminCupons.SetCity | apps/admin/pages/cupons/Cupons.tsx:165 | Editing the city changes only that criterion and keeps the page number: no effect resets it. |
| AdminCupons.Clear | apps/admin/pages/cupons/Cupons.tsx:71-77 | Clearing resets every criterion to its default and shows page 1 of every coupon. |
| AdminCupons.DefaultsShowAll | apps/admin/pages/cupons/Cupons.tsx:29-32 | The initial criteria list every coupon, with or without a client. |
| AdminCupons.LocationIgnored | apps/admin/pages/cupons/Cupons.tsx:31-32 | City and state selections never change the list or the page. |
| AdminCupons.NoClientSearchedByToken | apps/admin/pages/cupons/Cupons.tsx:56-57 | A coupon without a client is found through its token alone. |
| AdminCupons.Stats | apps/admin/pages/cupons/Cupons.tsx:38-50 | The cards count available, in-use and used coupons, which add up to the total. |
| AdminCupons.MockCards | apps/admin/pages/cupons/Cupons.tsx:20-26 | On the mock data: 5 coupons, 2 available, 2 in use, 1 used. |
| AdminEventosMeus.Matches | apps/admin/pages/eventos/EventosMeus.tsx:84 | An event matches when its title contains the term, ignoring case. |
| AdminEventosMeus.Filtered | apps/admin/pages/eventos/EventosMeus.tsx:82-90 | The list is the matching events, in data order, each as often as in the data. |
| AdminEventosMeus.Visible | apps/admin/pages/eventos/EventosMeus.tsx:92-95 | At most six events, all matching: the current six-row window. |
| AdminEventosMeus.SetTerm | apps/admin/pages/eventos/EventosMeus.tsx:161 | Editing the search term changes only that criterion and keeps the page number: no effect resets it. |
| AdminEventosMeus.SetStatus | apps/admin/pages/eventos/EventosMeus.tsx:172 | Editing the status changes only that criterion and keeps the page number: no effect resets it. |
| AdminEventosMeus.Clear | apps/admin/pages/eventos/EventosMeus.tsx:97-101 | Clearing resets every criterion to its default and shows page 1 of every event. |
| AdminEventosMeus.DefaultsShowAll | apps/admin/pages/eventos/EventosMeus.tsx:68-69 | The initial criteria list every event. |
| AdminEventosMeus.StatusIgnored | apps/admin/pages/eventos/EventosMeus.tsx:85-90 | The status drop-down never changes the list or the page. |
| AdminEventosMeus.Stats | apps/admin/pages/eventos/EventosMeus.tsx:73-80 | The first card is the number of events. |
| AdminEventosMeus.CardsIgnoreStatuses | apps/admin/pages/eventos/EventosMeus.tsx:76-77 | Two lists of equal length show the same cards: the other cards are constants. |
| AdminEventosMeus.MockCards | apps/admin/pages/eventos/EventosMeus.tsx:23-63 | All three mock events are active, yet the cards report 1 upcoming and 2 past. |
| AdminFiliais.Matches | apps/admin/pages/filiais/Filiais.tsx:67-68 | A branch matches when its name contains the term ignoring case, or its CNPJ contains it as typed. |
| AdminFiliais.Filtered | apps/admin/pages/filiais/Filiais.tsx:65-71 | The list is the matching branches, in data order, each as often as in the data. |
| AdminFiliais.Visible | apps/admin/pages/filiais/Filiais.tsx:73-76 | At most six branches, all matching: the current six-row window. |
| AdminFiliais.SetTerm | apps/admin/pages/filiais/Filiais.tsx:115 | Editing the search term changes only that criterion and keeps the page number: no effect resets it. |
| AdminFiliais.Clear | apps/admin/pages/filiais/Filiais.tsx:78-81 | Clearing resets every criterion to its default and shows page 1 of every branch. |
| AdminFiliais.DefaultsShowAll | apps/admin/pages/filiais/Filiais.tsx:50 | The empty search lists every branch. |
| AdminFiliais.CnpjFindsBranch | apps/admin/pages/filiais/Filiais.tsx:68 | Any piece of a CNPJ finds its branch. |
| AdminFiliais.Stats | apps/admin/pages/filiais/Filiais.tsx:54-63 | The cards are the branch count, the summed products and an empty placeholder. |
| AdminFiliais.MockCards | apps/admin/pages/filiais/Filiais.tsx:18-47 | On the mock data: 3 branches, 581 products. |
| AdminVoucher.Matches | apps/admin/pages/voucher/Voucher.tsx:56-62 | A voucher matches when name or code contains the term, ignoring case, and the status is at its sentinel or equal. |
| AdminVoucher.Filtered | apps/admin/pages/voucher/Voucher.tsx:55-63 | The list is the matching vouchers, in data order, each as often as in the data. |
| AdminVoucher.Visible | apps/admin/pages/voucher/Voucher.tsx:65-68 | At most five vouchers, all matching: the current five-row window. |
| AdminVoucher.SetTerm | apps/admin/pages/voucher/Voucher.tsx:109 | Editing the search term changes only that criterion and keeps the page number: no effect resets it. |
| AdminVoucher.SetStatus | apps/admin/pages/voucher/Voucher.tsx:120 | Editing the status changes only that criterion and keeps the page number: no effect resets it. |
| AdminVoucher.SetFilial | apps/admin/pages/voucher/Voucher.tsx:136 | Editing the branch changes only that criterion and keeps the page number: no effect resets it. |
| AdminVoucher.Clear | apps/admin/pages/voucher/Voucher.tsx:70-75 | Clearing resets every criterion to its default and shows page 1 of every voucher. |
| AdminVoucher.DefaultsShowAll | apps/admin/pages/voucher/Voucher.tsx:27-29 | The initial criteria list every voucher. |
| AdminVoucher.FilialIgnored | apps/admin/pages/voucher/Voucher.tsx:29 | The branch drop-down never changes the list or the page. |
| AdminVoucher.ExpiredOnlyUnderSentinel | apps/admin/pages/voucher/Voucher.tsx:123-125 | An expired voucher is listed only with the status drop-down at its sentinel, because no option selects it. |
| AdminVoucher.Stats | apps/admin/pages/voucher/Voucher.tsx:33-35 | The counting cards are the number of vouchers and of unused ones over all data. |
| AdminVoucher.MockCards | apps/admin/pages/voucher/Voucher.tsx:19-24 | On the mock data: 4 vouchers, 3 unused. |
| AdminUsuariosClientes.Matches | apps/admin/pages/usuarios/UsuariosClientes.tsx:40-42 | A client matches when name or e-mail contains the term ignoring case, or the contact contains it as typed. |
| AdminUsuariosClientes.Filtered | apps/admin/pages/usuarios/UsuariosClientes.tsx:38-45 | The list is the matching clients, in data order, each as often as in the data. |
| AdminUsuariosClientes.Visible | apps/admin/pages/usuarios/UsuariosClientes.tsx:47-50 | At most eight clients, all matching: the current eight-row window. |
| AdminUsuariosClientes.SetTerm | apps/admin/pages/usuarios/UsuariosClientes.tsx:82 | Editing the search term changes only that criterion and keeps the page number: no effect resets it. |
| AdminUsuariosClientes.Clear | apps/admin/pages/usuarios/UsuariosClientes.tsx:72 | Clearing empties the search but keeps the page: it shows that page of every client. |
| AdminUsuariosClientes.DefaultsShowAll | apps/admin/pages/usuarios/UsuariosClientes.tsx:26 | The empty search lists every client. |
| AdminUsuariosClientes.ClearPastTheEnd | apps/admin/pages/usuarios/UsuariosClientes.tsx:72 | Clearing while on a page beyond the full list's last shows nothing. |
| AdminUsuariosClientes.Stats | apps/admin/pages/usuarios/UsuariosClientes.tsx:30-36 | The cards count clients, active and deactivated ones; the two add up to the total. |
| AdminUsuariosClientes.MockCards | apps/admin/pages/usuarios/UsuariosClientes.tsx:18-23 | On the mock data: 4 clients, 2 active, 2 deactivated. |
| AdminUsuariosFuncionarios.Matches | apps/admin/pages/usuarios/UsuariosFuncionarios.tsx:37-38 | Staff match when name or e-mail contains the term, ignoring case. |
| AdminUsuariosFuncionarios.Filtered | apps/admin/pages/usuarios/UsuariosFuncionarios.tsx:35-41 | The list is the matching staff, in data order, each as often as in the data. |
| AdminUsuariosFuncionarios.Visible | apps/admin/pages/usuarios/UsuariosFuncionarios.tsx:43-46 | At most eight staff, all matching: the current eight-row window. |
| AdminUsuariosFuncionarios.SetTerm | apps/admin/pages/usuarios/UsuariosFuncionarios.tsx:78 | Editing the search term changes only that criterion and keeps the page number: no effect resets it. |
| AdminUsuariosFuncionarios.Clear | apps/admin/pages/usuarios/UsuariosFuncionarios.tsx:68 | Clearing empties the search but keeps the page. |
| AdminUsuariosFuncionarios.DefaultsShowAll | apps/admin/pages/usuarios/UsuariosFuncionarios.tsx:23 | The empty search lists all staff. |
| AdminUsuariosFuncionarios.ContactNotSearched | apps/admin/pages/usuarios/UsuariosFuncionarios.tsx:76 | The contact, offered by the placeholder, plays no part in the search. |
| AdminUsuariosFuncionarios.Stats | apps/admin/pages/usuarios/UsuariosFuncionarios.tsx:27-33 | The cards count staff, active and deactivated ones; the two add up to the total. |
| AdminUsuariosFuncionarios.MockCards | apps/admin/pages/usuarios/UsuariosFuncionarios.tsx:18-20 | On the mock data: 1 member, active. |
| AdminVender.Matches | apps/admin/pages/vender/Vender.tsx:38 | An event matches when its name contains the term, ignoring case. |
| AdminVender.Filtered | apps/admin/pages/vender/Vender.tsx:36-41 | The list is the matching events, in data order, each as often as in the data. |
| AdminVender.Visible | apps/admin/pages/vender/Vender.tsx:43-46 | At most five events, all matching: the current five-row window. |
| AdminVender.SetTerm | apps/admin/pages/vender/Vender.tsx:81 | Editing the search term changes only that criterion and keeps the page number: no effect resets it. |
| AdminVender.SetStatus | apps/admin/pages/vender/Vender.tsx:92 | Editing the status changes only that criterion and keeps the page number: no effect resets it. |
| AdminVender.Clear | apps/admin/pages/vender/Vender.tsx:48-52 | Clearing resets every criterion to its default and shows page 1 of every event. |
| AdminVender.DefaultsShowAll | apps/admin/pages/vender/Vender.tsx:22-24 | The initial criteria list every event. |
| AdminVender.StatusIgnored | apps/admin/pages/vender/Vender.tsx:23 | The status drop-down never changes the list or the page. |
| AdminVender.Stats | apps/admin/pages/vender/Vender.tsx:27-34 | The first card is the number of events. |
| AdminVender.CardsIgnoreContents | apps/admin/pages/vender/Vender.tsx:30-32 | Two lists of equal length show the same cards: the other cards are constants. |
| AdminEventosLista.Matches | apps/admin/pages/eventos/EventosLista.tsx:31 | An event matches when its title contains the term, ignoring case. |
| AdminEventosLista.Filtered | apps/admin/pages/eventos/EventosLista.tsx:29-34 | The list is the matching events, in data order, each as often as in the data. |
| AdminEventosLista.Visible | apps/admin/pages/eventos/EventosLista.tsx:37-40 | At most ten events, all matching: the current ten-row window. |
| AdminEventosLista.SetTerm | apps/admin/pages/eventos/EventosLista.tsx:69 | Editing the search term changes only that criterion and keeps the page number: no effect resets it. |
| AdminEventosLista.SetState | apps/admin/pages/eventos/EventosLista.tsx:80 | Editing the state changes only that criterion and keeps the page number: no effect resets it. |
| AdminEventosLista.SetCity | apps/admin/pages/eventos/EventosLista.tsx:97 | Editing the city changes only that criterion and keeps the page number: no effect resets it. |
| AdminEventosLista.Clear | apps/admin/pages/eventos/EventosLista.tsx:42-47 | Clearing resets every criterion to its default and shows page 1 of every event. |
| AdminEventosLista.DefaultsShowAll | apps/admin/pages/eventos/EventosLista.tsx:22-24 | The initial criteria list every event. |
| AdminEventosLista.LocationIgnored | apps/admin/pages/eventos/EventosLista.tsx:34 | State and city selections never change the list or the page. |
| AdminEventosLista.SameTitleSameFate | apps/admin/pages/eventos/EventosLista.tsx:30-33 | Two events with the same title are listed together or not at all. Two distinct ones are both kept: there is no de-duplication. |
| AdminEventosLista.MockDuplicate | apps/admin/pages/eventos/EventosLista.tsx:13-14 | The mock data holds two different events with the same title. |
| ClientConvites.Matches | apps/client/pages/convites/Convites.tsx:56-66 | A group matches when its group or event name contains the term, ignoring case, and the event is at its sentinel or equal. |
| ClientConvites.Filtered | apps/client/pages/convites/Convites.tsx:56-66 | The list is the matching groups, in data order, each as often as in the data. |
| ClientConvites.Visible | apps/client/pages/convites/Convites.tsx:69-73 | At most five groups, all matching: the current five-row window. |
| ClientConvites.Settle | apps/client/pages/convites/Convites.tsx:76-78 | After a criteria change the page returns to 1. Setting the same criteria again changes nothing. |
| ClientConvites.SetTerm | apps/client/pages/convites/Convites.tsx:76-78 | Typing sets the term and returns to page 1, unless the term is unchanged. |
| ClientConvites.SetEvent | apps/client/pages/convites/Convites.tsx:133-141 | Choosing an event sets it and returns to page 1, unless it is unchanged. |
| ClientConvites.Clear | apps/client/pages/convites/Convites.tsx:111-114 | Clearing lists every group on page 1. Already at the defaults, it changes nothing, not even the page. |
| ClientConvites.DefaultsShowAll | apps/client/pages/convites/Convites.tsx:34-35 | The initial criteria list every group. |
| ClientConvites.EditShowsFirstPage | apps/client/pages/convites/Convites.tsx:76-78 | After an edit the first page of the new list is shown, so any match is visible. |
| ClientConvites.ClearAtDefaultsPastTheEnd | apps/client/pages/convites/Convites.tsx:111-114 | Clearing at the defaults on a page past the end keeps that page and so still shows nothing. |
| ClientConvites.PagesOfTwelve | apps/client/pages/convites/Convites.tsx:208 | Twelve rows make three pages of 5, 5 and 2; page 4 is empty. |
| ClientConvites.MockPages | apps/client/pages/convites/Convites.tsx:18-31 | The twelve mock groups take three pages, the last holding two. |
| ClientConvites.Stats | apps/client/pages/convites/Convites.tsx:42-53 | Events and unique events are both the distinct event count. Invitations are the summed quantities. Unique clients are the distinct group count. |
| ClientConvites.MockCards | apps/client/pages/convites/Convites.tsx:18-31 | On the mock data, the invitations card reads 235. |
| ClientConvites.EventOptions | apps/client/pages/convites/Convites.tsx:80 | The options are the sentinel, then each event of the data exactly once, in the order of each event's first group. |
| ClientConvites.EventOptionSelects | apps/client/pages/convites/Convites.tsx:133-141 | Every offered event lists at least one group, and only groups of it. |
| ClientMeusEventos.StatusName | components/common/EventCard.tsx:9 | No status is spelt like the "Todos" sentinel. |
| ClientMeusEventos.Matches | apps/client/pages/eventos/MeusEventos.tsx:88-95 | An event matches when title or category contains the term, ignoring case, and the status is at its sentinel or equal. |
| ClientMeusEventos.Filtered | apps/client/pages/eventos/MeusEventos.tsx:88-95 | The list is the matching events, in data order, each as often as in the data. |
| ClientMeusEventos.Visible | apps/client/pages/eventos/MeusEventos.tsx:98-101 | At most six events, all matching: the current six-row window. |
| ClientMeusEventos.SetTerm | apps/client/pages/eventos/MeusEventos.tsx:173 | Editing the search term changes only that criterion and keeps the page number: no effect resets it. |
| ClientMeusEventos.SetStatus | apps/client/pages/eventos/MeusEventos.tsx:184 | Editing the status changes only that criterion and keeps the page number: no effect resets it. |
| ClientMeusEventos.Clear | apps/client/pages/eventos/MeusEventos.tsx:103-107 | Clearing resets every criterion to its default and shows page 1 of every event. |
| ClientMeusEventos.DefaultsShowAll | apps/client/pages/eventos/MeusEventos.tsx:72-74 | The initial criteria list every event. |
| ClientMeusEventos.StatusSelects | apps/client/pages/eventos/MeusEventos.tsx:187-190 | Each status option lists exactly the events in that status. |
| ClientMeusEventos.Stats | apps/client/pages/eventos/MeusEventos.tsx:78-85 | The cards count all events, active ones as upcoming and finished ones as past. Drafts count in the total only. |
| ClientMeusEventos.MockCards | apps/client/pages/eventos/MeusEventos.tsx:11-67 | On the mock data: 5 events, 3 upcoming, 1 past. |
| ClientRecibosPresente.StatusName | apps/client/pages/recibos/RecibosPresente.tsx:90-93 | No status is spelt like the "Todos" sentinel. |
| ClientRecibosPresente.Matches | apps/client/pages/recibos/RecibosPresente.tsx:32-41 | A receipt matches when its event name contains the term ignoring case, or its code contains it as typed. Status and event must be at their sentinels or equal. |
| ClientRecibosPresente.Filtered | apps/client/pages/recibos/RecibosPresente.tsx:32-41 | The list is the matching receipts, in data order, each as often as in the data. |
| ClientRecibosPresente.Visible | apps/client/pages/recibos/RecibosPresente.tsx:43-46 | At most eight receipts, all matching: the current eight-row window. |
| ClientRecibosPresente.SetTerm | apps/client/pages/recibos/RecibosPresente.tsx:76 | Editing the search term changes only that criterion and keeps the page number: no effect resets it. |
| ClientRecibosPresente.SetStatus | apps/client/pages/recibos/RecibosPresente.tsx:87 | Editing the status changes only that criterion and keeps the page number: no effect resets it. |
| ClientRecibosPresente.SetEvent | apps/client/pages/recibos/RecibosPresente.tsx:104 | Editing the event changes only that criterion and keeps the page number: no effect resets it. |
| ClientRecibosPresente.Clear | apps/client/pages/recibos/RecibosPresente.tsx:48-53 | Clearing resets every criterion to its default and shows page 1 of every receipt. |
| ClientRecibosPresente.DefaultsShowAll | apps/client/pages/recibos/RecibosPresente.tsx:26-29 | The initial criteria list every receipt. |
| ClientRecibosPresente.CodeFindsReceipt | apps/client/pages/recibos/RecibosPresente.tsx:35 | Any piece of a code finds its receipt: "1" finds "14" as well. |
| ClientRecibosPresente.EventOptions | apps/client/pages/recibos/RecibosPresente.tsx:55 | The options are the sentinel, then each event of the data exactly once, in the order of each event's first receipt. |
| ClientRecibosPresente.EventOptionSelects | apps/client/pages/recibos/RecibosPresente.tsx:107-108 | Every offered event lists at least one receipt, and only receipts of it. |
| ClientRecibosPresente.StatusSelects | apps/client/pages/recibos/RecibosPresente.tsx:90-93 | Each status option lists exactly the receipts in that status. |
| ClientRecibosIngressos.StatusName | apps/client/pages/recibos/RecibosIngressos.tsx:11 | No status is spelt like the "Todos" sentinel. |
| ClientRecibosIngressos.Matches | apps/client/pages/recibos/RecibosIngressos.tsx:30-38 | A receipt matches when code or total contains the term as typed, and the status is at its sentinel or equal. |
| ClientRecibosIngressos.Filtered | apps/client/pages/recibos/RecibosIngressos.tsx:30-38 | The list is the matching receipts, in data order, each as often as in the data. |
| ClientRecibosIngressos.Visible | apps/client/pages/recibos/RecibosIngressos.tsx:40-43 | At most eight receipts, all matching: the current eight-row window. |
| ClientRecibosIngressos.SetTerm | apps/client/pages/recibos/RecibosIngressos.tsx:70 | Editing the search term changes only that criterion and keeps the page number: no effect resets it. |
| ClientRecibosIngressos.SetStatus | apps/client/pages/recibos/RecibosIngressos.tsx:81 | Editing the status changes only that criterion and keeps the page number: no effect resets it. |
| ClientRecibosIngressos.Clear | apps/client/pages/recibos/RecibosIngressos.tsx:45-49 | Clearing resets every criterion to its default and shows page 1 of every receipt. |
| ClientRecibosIngressos.DefaultsShowAll | apps/client/pages/recibos/RecibosIngressos.tsx:25-27 | The initial criteria list every receipt. |
| ClientRecibosIngressos.TotalFindsReceipt | apps/client/pages/recibos/RecibosIngressos.tsx:33 | Any piece of a total, as typed, finds its receipt. |
| ClientRecibosIngressos.LongTermFindsNothing | apps/client/pages/recibos/RecibosIngressos.tsx:32-34 | A term longer than both code and total matches nothing: there is no folding or trimming. |
| ClientRecibosIngressos.StatusSelects | apps/client/pages/recibos/RecibosIngressos.tsx:84-87 | Each status option lists exactly the receipts in that status. |
| ClientVender.Matches | apps/client/pages/vender/Vender.tsx:60-64 | An event matches when its name contains the term, ignoring case. |
| ClientVender.Filtered | apps/client/pages/vender/Vender.tsx:60-64 | The list is the matching events, in data order, each as often as in the data. |
| ClientVender.SetTerm | apps/client/pages/vender/Vender.tsx:95 | Editing the search term changes only that criterion and keeps the page number: no effect resets it. |
| ClientVender.SetStatus | apps/client/pages/vender/Vender.tsx:106 | Editing the status changes only that criterion and keeps the page number: no effect resets it. |
| ClientVender.Visible | apps/client/pages/vender/Vender.tsx:66-69 | At most five events, all matching: the current five-row window. |
| ClientVender.DefaultsShowAll | apps/client/pages/vender/Vender.tsx:48-51 | The initial criteria list every event. |
| ClientVender.StatusIgnored | apps/client/pages/vender/Vender.tsx:49 | The status drop-down never changes the list or the page. |
| ClientVender.NameFindsEvent | apps/client/pages/vender/Vender.tsx:62 | Any piece of a name finds its event, ignoring case. |
| ClientVender.ShownEventsMatchData | apps/client/pages/vender/Vender.tsx:53-58 | The fixed event card agrees with the number of mock events, all of them listed. |
| ClientVoucher.Matches | apps/client/pages/voucher/Voucher.tsx:55 | A voucher matches when its code contains the term, ignoring case. |
| ClientVoucher.Filtered | apps/client/pages/voucher/Voucher.tsx:53-57 | The list is the matching vouchers, in data order, each as often as in the data. |
| ClientVoucher.Visible | apps/client/pages/voucher/Voucher.tsx:59-62 | At most six vouchers, all matching: the current six-row window. |
| ClientVoucher.SetTerm | apps/client/pages/voucher/Voucher.tsx:95 | Editing the search term changes only that criterion and keeps the page number: no effect resets it. |
| ClientVoucher.Clear | apps/client/pages/voucher/Voucher.tsx:64-67 | Clearing resets every criterion to its default and shows page 1 of every voucher. |
| ClientVoucher.DefaultsShowAll | apps/client/pages/voucher/Voucher.tsx:25 | The empty search lists every voucher. |
| ClientVoucher.NameNotSearched | apps/client/pages/voucher/Voucher.tsx:93 | The client name, offered by the placeholder, plays no part in the search. |
| ClientVoucher.NameSearchFindsNothing | apps/client/pages/voucher/Voucher.tsx:93 | Searching a name longer than every code finds nothing, even for the vouchers' owner. |
| ClientVoucher.Stats | apps/client/pages/voucher/Voucher.tsx:29-31 | The counting cards are the number of vouchers and of unused ones. |
| ClientVoucher.MockCards | apps/client/pages/voucher/Voucher.tsx:19-22 | On the mock data: 2 vouchers, both unused. |
| ClientMeusCupons.Matches | apps/client/pages/cupons/MeusCupons.tsx:39-40 | A coupon matches when token or client name contains the term, ignoring case. |
| ClientMeusCupons.Filtered | apps/client/pages/cupons/MeusCupons.tsx:37-42 | The list is the matching coupons, in data order, each as often as in the data. |
| ClientMeusCupons.Visible | apps/client/pages/cupons/MeusCupons.tsx:44-47 | At most eight coupons, all matching: the current eight-row window. |
| ClientMeusCupons.SetTerm | apps/client/pages/cupons/MeusCupons.tsx:74 | Editing the search term changes only that criterion and keeps the page number: no effect resets it. |
| ClientMeusCupons.Clear | apps/client/pages/cupons/MeusCupons.tsx:64 | Clearing empties the search but keeps the page: it shows that page of every coupon. |
| ClientMeusCupons.DefaultsShowAll | apps/client/pages/cupons/MeusCupons.tsx:26 | The empty search lists every coupon. |
| ClientMeusCupons.OwnerFindsAll | apps/client/pages/cupons/MeusCupons.tsx:40 | Searching the owner's name lists every coupon of that owner. |
| ClientMeusCupons.ShownMatchesData | apps/client/pages/cupons/MeusCupons.tsx:30-35 | The fixed cards 3/0/0/3 agree with a count over the mock coupons: all three are expired. |

## Left out

- Rendering: markup, classes, colours, badges, grid/list view switches and the shared presentational components. None of them affect which rows are listed.
- The `Pagination` component is not part of this model. Any integer page a control may set is allowed; `ListView.SetPage` keeps the criteria.
- Money cards of both voucher pages: they parse and format floating-point currency.
- `components/forms/MoneyInput.tsx`: float division and locale formatting.
- `services/geminiService.ts`: a network client.
- The admin dashboard and client home: charts, dates and static lists. Only the dashboard's branch 0 is used, in `Auth.SwitchToAllBranchesIsNoOp`.
- `CuponsDisponiveis`, `Suporte`, `Sincronizar`, `EventosNovo` and `TodosEventos`: static pages with no list logic. Their routes are modelled.
- Timers: the sidebar's 150 ms hide delay is a pending flag that `Sidebar.TimerFires` resolves. Real time is not modelled.
- DOM geometry: the flyout's vertical offset.
- The global click listener. Only its effect is modelled, as `Sidebar.WindowClick`.
- The shell's profile menu and its click-outside handler.
- `localStorage` reads and writes: only the parse and the serialisation are modelled.
- The missing-provider error of `useAuth`, and hook lifecycles.
- `toLowerCase` is modelled for ASCII and the Latin-1 upper-case letters. Other scripts are left unchanged.
- Router matching: the model compares locations exactly. React Router matches paths case-insensitively and ignores a trailing slash, so `/admin/Dashboard` and `/admin/dashboard/` render the dashboard in the program but reach the catch-all redirect in the model.
- Router catch-all: the relative targets of `<Navigate to="dashboard" />` and `<Navigate to="home" />` (App.tsx:63 and App.tsx:94) are taken to resolve against the area, as `/admin/dashboard` and `/app/home`. That is how React Router 6 resolves them without its relative-splat-path option; with that option the model's redirect targets would be wrong. `/admin` and `/app` alone reach the catch-all too.
- The token drop-down of the admin coupon page is uncontrolled and filters nothing; it is not modelled.
- Effects run after the render that changed the criteria, so the client invitation page shows one intermediate frame first. Only the settled state is modelled.
- ClientConvites.Stats: states no bound of the event counts by the number of rows.
- ClientConvites.MockCards: states only the invitation total on the mock data, not the distinct counts.
- AdminCampanhas.MockCards: states the total, active and paused counts on the mock data, not the number of branches.
- AdminConvites.MockCards: states the batch, active and guest counts on the mock data, not the number of events.
- AdminEventosMeus.Stats: states only the first card; the other three cards are constants, shown equal across lists of equal length by `AdminEventosMeus.CardsIgnoreStatuses`.
- AdminVender.Stats: states only the first card; the others are constants, shown by `AdminVender.CardsIgnoreContents`.

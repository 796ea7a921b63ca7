/** The mobile tab bar of `components/layout/BottomNav.tsx`. */
module BottomNav {
  import opened Optional
  import opened Auth
  import opened Nav
  import opened Routes

  /** A tab: caption, target, icon, and whether it is active on its exact path only. */
  datatype Tab = Tab(caption: string, path: string, icon: string, exact: bool)

  /** `end={item.label === 'Home'}`: only the Home tab is matched exactly. */
  function MakeTab(caption: string, path: string, icon: string): (t: Tab)
    ensures t.exact <==> caption == "Home"
  {
    Tab(caption, path, icon, caption == "Home")
  }

  /** The area a role's bar points into: the admin area for ADMIN only. */
  function BarArea(role: Role): (a: Area)
    ensures a == AdminArea <==> role == ADMIN
  {
    if role == ADMIN then AdminArea else AppArea
  }

  /** The pages the four tabs of an area's bar point at, left to right; each is
      declared in that area. */
  function TabPages(a: Area): (r: seq<string>)
    ensures |r| == 4 && r[3] == "menu"
    ensures forall i :: 0 <= i < 4 ==> r[i] in Pages(a)
  {
    match a
    case AdminArea => ["dashboard", "eventos", "vender", "menu"]
    case AppArea => ["home", "convites", "eventos/meus", "menu"]
  }

  /** The four tabs: the ADMIN bar for ADMIN, the client bar for every other role. */
  function Bar(user: Option<User>): (r: Option<seq<Tab>>)
    ensures r.None? <==> user.None?
    ensures r.Some? ==> |r.value| == 4
    ensures r.Some? ==> var a, p := BarArea(user.value.role), TabPages(BarArea(user.value.role));
      && r.value[0].path == PathOf(a, p[0]) && r.value[1].path == PathOf(a, p[1])
      && r.value[2].path == PathOf(a, p[2]) && r.value[3].path == PathOf(a, p[3])
    ensures r.Some? ==> var a := BarArea(user.value.role);
      r.value[0].caption == "Home" && r.value[3] == Tab("Menu", PathOf(a, "menu"), "fa-bars", false)
    ensures r.Some? && user.value.role == ADMIN ==>
      r.value[1].caption == "Eventos" && r.value[2].caption == "Vender"
    ensures r.Some? && user.value.role != ADMIN ==>
      r.value[1].caption == "Convites" && r.value[2].caption == "Eventos"
  {
    if user.None? then None
    else if user.value.role == ADMIN then Some([
      MakeTab("Home", Admin("dashboard"), "fa-home"),
      MakeTab("Eventos", Admin("eventos"), "fa-calendar"),
      MakeTab("Vender", Admin("vender"), "fa-cash-register"),
      MakeTab("Menu", Admin("menu"), "fa-bars")])
    else Some([
      MakeTab("Home", App("home"), "fa-home"),
      MakeTab("Convites", App("convites"), "fa-envelope"),
      MakeTab("Eventos", App("eventos/meus"), "fa-calendar-check"),
      MakeTab("Menu", App("menu"), "fa-bars")])
  }

  /** How a `NavLink` decides it is active: on its own path, and unless it is exact,
      on every path below it. */
  predicate IsActive(t: Tab, current: string): (b: bool)
    ensures current == t.path ==> b
    ensures b ==> HasPrefix(current, t.path)
    ensures t.exact ==> (b <==> current == t.path)
  {
    current == t.path || (!t.exact && HasPrefix(current, t.path + "/"))
  }

  /** Only Home is exact: it is not lit below its path, the others are. */
  lemma ExactOnlyForHome(user: User, i: int, rest: string)
    requires 0 <= i < 4
    ensures var t := Bar(Some(user)).value[i];
      IsActive(t, t.path + "/" + rest) <==> i != 0
  {
    var t := Bar(Some(user)).value[i];
    BelowPath(t, rest);
    assert t.exact <==> i == 0;
  }

  /** Below its own path a tab is lit exactly when it is not exact. */
  lemma BelowPath(t: Tab, rest: string)
    ensures IsActive(t, t.path + "/" + rest) <==> !t.exact
  {
    var c := t.path + "/" + rest;
    assert c[..|t.path + "/"|] == t.path + "/";
    assert |c| > |t.path|;
  }

  /** For ADMIN and CLIENTE, every tab leads to a page that renders. */
  lemma TabsRender(s: Session, i: int)
    requires IsAuthenticated(s) && (s.user.value.role == ADMIN || s.user.value.role == CLIENTE)
    requires 0 <= i < 4
    ensures Resolve(s, Bar(s.user).value[i].path).Render?
  {
    var a := BarArea(s.user.value.role);
    TabPath(s.user.value, i);
    ResolvePage(s, a, TabPages(a)[i]);
  }

  /** A GERENTE gets the client bar, whose every tab the guard sends back to `/app/home`. */
  lemma ManagerTabsBounce(s: Session, i: int)
    requires IsAuthenticated(s) && s.user.value.role == GERENTE
    requires 0 <= i < 4
    ensures Resolve(s, Bar(s.user).value[i].path) == Redirect(App("home"))
  {
    TabPath(s.user.value, i);
    ResolvePage(s, AppArea, TabPages(AppArea)[i]);
  }

  /** Tab `i` of a user's bar leads to page `i` of the bar's area. */
  lemma TabPath(user: User, i: int)
    requires 0 <= i < 4
    ensures var a := BarArea(user.role);
      Bar(Some(user)).value[i].path == PathOf(a, TabPages(a)[i])
  {
    // One case per tab, each closed by the matching conjunct of `Bar`'s contract.
    if i == 0 { } else if i == 1 { } else if i == 2 { } else { }
  }
}

/** The route table of `App.tsx`, its `RequireAuth` guard, and the login screen's
    handler that leads into it. */
module Routes {
  import opened Optional
  import opened Auth
  import opened Effects
  import opened Nav
  import Seqs

  /** The two guarded areas, mounted at `/admin` and `/app` with every path below them. */
  datatype Area = AdminArea | AppArea

  /** What the router shows for a location. `Render` is a page inside the shell. */
  datatype Outcome = ShowLogin | Render(area: Area, sub: string) | Redirect(to: string) | NoMatch

  /** The roles each area's guard admits. */
  function Allowed(a: Area): (r: seq<Role>)
    ensures a == AdminArea ==> forall role :: role in r <==> role == ADMIN || role == GERENTE
    ensures a == AppArea ==> forall role :: role in r <==> role == CLIENTE || role == ADMIN
    ensures FUNCIONARIO !in r && GUEST !in r
  {
    match a
    case AdminArea => [ADMIN, GERENTE]
    case AppArea => [CLIENTE, ADMIN]
  }

  /** The pages declared under each area, relative to it. */
  function Pages(a: Area): seq<string>
  {
    match a
    case AdminArea => ["dashboard", "campanhas", "convites", "cupons", "voucher",
                       "eventos", "eventos/meus", "eventos/novo", "vender", "filiais",
                       "recibos/ingressos", "usuarios/clientes", "usuarios/funcionarios",
                       "sincronizar", "suporte", "menu"]
    case AppArea => ["home", "convites", "eventos/meus", "eventos/todos", "vender",
                     "cupons/disponiveis", "cupons/meus", "recibos/presente",
                     "recibos/ingressos", "voucher", "suporte", "menu"]
  }

  /** The admin area declares sixteen pages and the client area twelve; both have
      the menu, support, sell and voucher pages. */
  lemma DeclaredPages(a: Area)
    ensures a == AdminArea ==> |Pages(a)| == 16
    ensures a == AppArea ==> |Pages(a)| == 12
    ensures var r := Pages(a); "menu" in r && "suporte" in r && "vender" in r && "voucher" in r
  {
  }

  /** No page is declared twice in the admin area. */
  lemma AdminPagesDistinct()
    ensures Seqs.NoDup(Pages(AdminArea))
  {
  }

  /** No page is declared twice in the client area. */
  lemma AppPagesDistinct()
    ensures Seqs.NoDup(Pages(AppArea))
  {
  }

  /** The absolute path of a page of an area. */
  function PathOf(a: Area, sub: string): string
  {
    match a
    case AdminArea => Admin(sub)
    case AppArea => App(sub)
  }

  /** Where the catch-all route of each area sends an unknown sub-path. */
  function Fallback(a: Area): (r: string)
    ensures r in Pages(a)
    ensures PathOf(a, r) == HomeOf(if a == AdminArea then ADMIN else CLIENTE)
  {
    match a
    case AdminArea => "dashboard"
    case AppArea => "home"
  }

  /** Where a role lands when it may not enter an area. */
  function HomeOf(role: Role): (p: string)
    ensures role == ADMIN ==> p == Admin("dashboard")
    ensures role != ADMIN ==> p == App("home")
  {
    if role == ADMIN then Admin("dashboard") else App("home")
  }

  /** `RequireAuth`: `None` renders the children inside the shell, `Some(p)` redirects to `p`.
      An absent role list admits every authenticated user. */
  function Guard(s: Session, allowed: Option<seq<Role>>): (r: Option<string>)
    ensures r.None? <==> IsAuthenticated(s) && (allowed.None? || s.user.value.role in allowed.value)
    ensures !IsAuthenticated(s) ==> r == Some("/")
    ensures IsAuthenticated(s) && r.Some? ==> r == Some(HomeOf(s.user.value.role))
  {
    if !IsAuthenticated(s) then Some("/")
    else if allowed.Some? && s.user.Some? && s.user.value.role !in allowed.value then
      Some(HomeOf(s.user.value.role))
    else None
  }

  /** A visit to `sub` inside an area: the guard first, then the area's own routes,
      with the catch-all sending every unknown sub-path to the area's start page. */
  function Visit(s: Session, a: Area, sub: string): (o: Outcome)
    ensures o.Render? <==> IsAuthenticated(s) && s.user.value.role in Allowed(a) && sub in Pages(a)
    ensures o.Render? ==> o == Render(a, sub)
    ensures !o.Render? ==> o.Redirect?
    ensures Guard(s, Some(Allowed(a))).Some? ==> o == Redirect(Guard(s, Some(Allowed(a))).value)
    ensures !IsAuthenticated(s) ==> o == Redirect("/")
    ensures IsAuthenticated(s) && s.user.value.role !in Allowed(a) ==> o == Redirect(HomeOf(s.user.value.role))
    ensures IsAuthenticated(s) && s.user.value.role in Allowed(a) && sub !in Pages(a)
      ==> o == Redirect(PathOf(a, Fallback(a)))
  {
    match Guard(s, Some(Allowed(a)))
    case Some(to) => Redirect(to)
    case None => if sub in Pages(a) then Render(a, sub) else Redirect(PathOf(a, Fallback(a)))
  }

  /** Which area a location belongs to, and the rest of it. `/admin` and `/app` alone
      match their area with an empty rest. */
  function Locate(path: string): (r: Option<(Area, string)>)
    ensures r.Some? && r.value.0 == AdminArea ==> path == "/admin" || path == Admin(r.value.1)
    ensures r.Some? && r.value.0 == AppArea ==> path == "/app" || path == App(r.value.1)
  {
    if path == "/admin" then Some((AdminArea, ""))
    else if HasPrefix(path, "/admin/") then Some((AdminArea, path[7..]))
    else if path == "/app" then Some((AppArea, ""))
    else if HasPrefix(path, "/app/") then Some((AppArea, path[5..]))
    else None
  }

  /** The whole router: `/` is the login screen, whatever the session. */
  function Resolve(s: Session, path: string): (o: Outcome)
    ensures path == "/" ==> o == ShowLogin
    ensures o.Render? ==> IsAuthenticated(s) && s.user.value.role in Allowed(o.area)
  {
    if path == "/" then ShowLogin
    else match Locate(path)
      case Some((a, sub)) => Visit(s, a, sub)
      case None => NoMatch
  }

  lemma LocatePage(a: Area, sub: string)
    ensures Locate(PathOf(a, sub)) == Some((a, sub))
  {
    var p := PathOf(a, sub);
    if a == AdminArea {
      assert HasPrefix(p, "/admin/") && p[7..] == sub;
    } else {
      assert p[..5] == "/app/" && p[2] == 'p';
      assert !HasPrefix(p, "/admin/") by {
        if 7 <= |p| { assert p[..7][2] == 'p'; }
      }
      assert p != "/admin" by { if |p| == 6 { assert "/admin"[2] == 'd'; } }
      assert p[5..] == sub;
    }
  }

  /** The page path of an area resolves to a visit of that page. */
  lemma ResolvePage(s: Session, a: Area, sub: string)
    ensures Resolve(s, PathOf(a, sub)) == Visit(s, a, sub)
  {
    LocatePage(a, sub);
  }

  /** An unknown sub-path of an area is redirected to a page of the same area that
      renders for everyone the area admits. */
  lemma CatchAllLands(s: Session, a: Area, sub: string)
    requires IsAuthenticated(s) && s.user.value.role in Allowed(a) && sub !in Pages(a)
    ensures Visit(s, a, sub).Redirect?
    ensures Resolve(s, Visit(s, a, sub).to) == Render(a, Fallback(a))
  {
    ResolvePage(s, a, Fallback(a));
  }

  /** Nobody gets past the guard without logging in: every guarded location
      sends an anonymous visitor to the login screen. */
  lemma AnonymousGoesToLogin(path: string)
    requires Locate(path).Some?
    ensures Resolve(Initial, path) == Redirect("/")
  {
  }

  /** ADMIN is admitted to both areas; within an area exactly the declared pages render. */
  lemma AdminSeesBothAreas(s: Session, a: Area, sub: string)
    requires IsAuthenticated(s) && s.user.value.role == ADMIN
    ensures Resolve(s, PathOf(a, sub)).Render? <==> sub in Pages(a)
  {
    ResolvePage(s, a, sub);
  }

  /** A CLIENTE trying the admin area is sent to the client start page, which renders. */
  lemma ClientKeptOutOfAdmin(s: Session, sub: string)
    requires IsAuthenticated(s) && s.user.value.role == CLIENTE
    ensures Resolve(s, Admin(sub)) == Redirect(App("home"))
    ensures Resolve(s, App("home")) == Render(AppArea, "home")
  {
    ResolvePage(s, AdminArea, sub);
    ResolvePage(s, AppArea, "home");
  }

  /** A role admitted to neither area (FUNCIONARIO, GUEST) is redirected to
      `/app/home`, and `/app/home` redirects to itself: the guard never lets it settle. */
  lemma UnadmittedRoleLoops(s: Session)
    requires IsAuthenticated(s)
    requires s.user.value.role == FUNCIONARIO || s.user.value.role == GUEST
    ensures Resolve(s, App("home")) == Redirect(App("home"))
    ensures forall a, sub :: Resolve(s, PathOf(a, sub)) == Redirect(App("home"))
  {
    forall a, sub ensures Resolve(s, PathOf(a, sub)) == Redirect(App("home")) {
      ResolvePage(s, a, sub);
    }
  }

  /** A GERENTE may use the admin area but is bounced from the client area to
      `/app/home`, which bounces it again. */
  lemma ManagerLoopsInAppArea(s: Session, sub: string)
    requires IsAuthenticated(s) && s.user.value.role == GERENTE
    ensures Resolve(s, App(sub)) == Redirect(App("home"))
    ensures Resolve(s, Admin("dashboard")) == Render(AdminArea, "dashboard")
  {
    ResolvePage(s, AppArea, sub);
    ResolvePage(s, AdminArea, "dashboard");
  }

  /** The two profiles the login screen offers. */
  const LoginChoices: seq<Role> := [ADMIN, CLIENTE]

  /** `handleLogin(role)`: log in, then go to the role's start page. */
  function HandleLogin(role: Role): (es: seq<Effect>)
    ensures forall s :: Run(s, es) == After(Login(s, role), Some(HomeOf(role)))
  {
    LoginThenNavigate(role, HomeOf(role));
    [CallLogin(role), Navigate(HomeOf(role))]
  }

  lemma LoginThenNavigate(role: Role, path: string)
    ensures forall s :: Run(s, [CallLogin(role), Navigate(path)]) == After(Login(s, role), Some(path))
  {
    forall s ensures Run(s, [CallLogin(role), Navigate(path)]) == After(Login(s, role), Some(path)) {
      var es := [CallLogin(role), Navigate(path)];
      var s' := Login(s, role);
      assert es[1..] == [Navigate(path)];
      assert [Navigate(path)][1..] == [];
      assert Run(s', []) == After(s', None);
      assert Run(s', [Navigate(path)]) == After(s', Some(path));
    }
  }

  /** Each login button lands on a page that renders, whatever came before. */
  lemma LoginLands(s: Session, role: Role)
    requires role in LoginChoices
    ensures var after := Run(s, HandleLogin(role));
      Resolve(after.session, after.location.value).Render?
  {
    var after := Run(s, HandleLogin(role));
    if role == ADMIN {
      ResolvePage(after.session, AdminArea, "dashboard");
    } else {
      ResolvePage(after.session, AppArea, "home");
    }
  }
}

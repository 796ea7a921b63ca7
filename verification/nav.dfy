/** The navigation data of `constants.ts`: a menu tree per role. */
module Nav {
  import opened Optional
  import opened Auth
  import Seqs

  /** A menu entry; `name` is the source's `label` (a reserved word here). The type allows sub-items to nest further; the data never does. */
  datatype NavItem = NavItem(name: string, path: string, icon: string, subItems: Option<seq<NavItem>>)

  function Leaf(name: string, path: string, icon: string): NavItem
  {
    NavItem(name, path, icon, None)
  }

  /** `/admin/<sub>` and `/app/<sub>`: the two areas every menu path lives under. */
  function Admin(sub: string): string { "/admin/" + sub }
  function App(sub: string): string { "/app/" + sub }

  const AdminMenu: seq<NavItem> := [
    Leaf("Home", Admin("dashboard"), "fa-home"),
    Leaf("Campanhas", Admin("campanhas"), "fa-chart-line"),
    Leaf("Convites", Admin("convites"), "fa-envelope"),
    Leaf("Cupons", Admin("cupons"), "fa-ticket"),
    Leaf("Voucher", Admin("voucher"), "fa-clock"),
    NavItem("Eventos", Admin("eventos"), "fa-calendar", Some([
      Leaf("Meus Eventos", Admin("eventos/meus"), "fa-calendar-day"),
      Leaf("Todos os Eventos", Admin("eventos"), "fa-list")])),
    Leaf("Vender", Admin("vender"), "fa-cash-register"),
    Leaf("Filiais", Admin("filiais"), "fa-store"),
    NavItem("Recibos", Admin("recibos"), "fa-file-invoice", Some([
      Leaf("Ingressos", Admin("recibos/ingressos"), "fa-ticket-alt")])),
    NavItem("Usuários", Admin("usuarios"), "fa-users", Some([
      Leaf("Clientes", Admin("usuarios/clientes"), "fa-user-group"),
      Leaf("Funcionários", Admin("usuarios/funcionarios"), "fa-id-card")])),
    Leaf("Sincronizar/UAIPDV", Admin("sincronizar"), "fa-sync"),
    Leaf("Suporte", Admin("suporte"), "fa-headset")
  ]

  const ClientMenu: seq<NavItem> := [
    Leaf("Home", App("home"), "fa-home"),
    Leaf("Convites", App("convites"), "fa-envelope"),
    NavItem("Eventos", App("eventos"), "fa-calendar", Some([
      Leaf("Meus Eventos", App("eventos/meus"), "fa-calendar-check"),
      Leaf("Todos os Eventos", App("eventos/todos"), "fa-list")])),
    Leaf("Vender", App("vender"), "fa-ticket"),
    NavItem("Cupons", App("cupons"), "fa-tags", Some([
      Leaf("Disponíveis", App("cupons/disponiveis"), "fa-cart-plus"),
      Leaf("Meus Cupons", App("cupons/meus"), "fa-tag")])),
    NavItem("Recibos", App("recibos"), "fa-file-invoice", Some([
      Leaf("De Presente", App("recibos/presente"), "fa-gift"),
      Leaf("De Ingressos", App("recibos/ingressos"), "fa-ticket-alt")])),
    Leaf("Voucher", App("voucher"), "fa-clock"),
    Leaf("Suporte", App("suporte"), "fa-headset")
  ]

  /** `NAV_ITEMS[role]`: the record has keys for ADMIN and CLIENTE only. */
  function Menu(role: Role): (r: Option<seq<NavItem>>)
    ensures r.Some? <==> role == ADMIN || role == CLIENTE
  {
    match role
    case ADMIN => Some(AdminMenu)
    case CLIENTE => Some(ClientMenu)
    case _ => None
  }

  /** `NAV_ITEMS[role] || NAV_ITEMS[ADMIN]`: a role without its own menu gets the ADMIN one. */
  function MenuOrAdmin(role: Role): (r: seq<NavItem>)
    ensures Menu(role).Some? ==> r == Menu(role).value
    ensures Menu(role).None? ==> r == AdminMenu
  {
    match Menu(role)
    case Some(m) => m
    case None => AdminMenu
  }

  function Labels(items: seq<NavItem>): seq<string>
  {
    Seqs.Map(items, (i: NavItem) => i.name)
  }

  /** The sub-items of an entry, `[]` when it has none. */
  function Subs(item: NavItem): seq<NavItem>
  {
    if item.subItems.Some? then item.subItems.value else []
  }

  /** Every path in a two-level menu: each entry's own path and its sub-items' paths. */
  function AllPaths(items: seq<NavItem>): seq<string>
    decreases |items|
  {
    if |items| == 0 then []
    else [items[0].path] + Seqs.Map(Subs(items[0]), (s: NavItem) => s.path) + AllPaths(items[1..])
  }

  /** Where clicking an entry can lead: a leaf links to its own path, an entry with
      sub-items only opens them, so its targets are the sub-items' paths. */
  function Targets(item: NavItem): (r: seq<string>)
    ensures item.subItems.None? ==> r == [item.path]
    ensures item.subItems.Some? ==>
      (|r| == |item.subItems.value| && forall j :: 0 <= j < |r| ==> r[j] == item.subItems.value[j].path)
  {
    if item.subItems.Some? then Seqs.Map(item.subItems.value, (s: NavItem) => s.path)
    else [item.path]
  }

  /** Every link target of a menu, entry by entry. */
  function TargetPaths(items: seq<NavItem>): seq<string>
    decreases |items|
  {
    if |items| == 0 then [] else Targets(items[0]) + TargetPaths(items[1..])
  }

  /** A link target of the menu is a link target of one of its entries. */
  lemma {:induction false} TargetOfSomeItem(items: seq<NavItem>, p: string)
    requires p in TargetPaths(items)
    ensures exists i :: 0 <= i < |items| && p in Targets(items[i])
    decreases |items|
  {
    if p !in Targets(items[0]) {
      TargetOfSomeItem(items[1..], p);
      var i :| 0 <= i < |items[1..]| && p in Targets(items[1..][i]);
      assert p in Targets(items[i + 1]);
    }
  }

  /** Sub-items never carry sub-items of their own: the tree is at most two deep. */
  ghost predicate TwoLevels(items: seq<NavItem>)
  {
    forall i, j :: 0 <= i < |items| && 0 <= j < |Subs(items[i])| ==> Subs(items[i])[j].subItems.None?
  }

  predicate HasPrefix(s: string, prefix: string)
  {
    |prefix| <= |s| && s[..|prefix|] == prefix
  }

  /** Every entry and every sub-item of `items` has a path under `prefix`. */
  ghost predicate InArea(items: seq<NavItem>, prefix: string)
  {
    forall i :: 0 <= i < |items| ==>
      HasPrefix(items[i].path, prefix)
      && forall j :: 0 <= j < |Subs(items[i])| ==> HasPrefix(Subs(items[i])[j].path, prefix)
  }

  lemma {:induction false} InAreaPaths(items: seq<NavItem>, prefix: string)
    requires InArea(items, prefix)
    ensures forall p :: p in AllPaths(items) ==> HasPrefix(p, prefix)
    decreases |items|
  {
    if |items| > 0 {
      assert InArea(items[1..], prefix) by {
        forall i | 0 <= i < |items[1..]| ensures items[1..][i] == items[i + 1] {}
      }
      InAreaPaths(items[1..], prefix);
    }
  }

  /** Each menu stays inside its own area. */
  lemma PathsStayInArea()
    ensures forall p :: p in AllPaths(AdminMenu) ==> HasPrefix(p, "/admin/")
    ensures forall p :: p in AllPaths(ClientMenu) ==> HasPrefix(p, "/app/")
  {
    AdminInArea();
    ClientInArea();
  }

  lemma AdminInArea()
    ensures forall p :: p in AllPaths(AdminMenu) ==> HasPrefix(p, "/admin/")
  {
    InAreaPaths(AdminMenu, "/admin/");
  }

  lemma ClientInArea()
    ensures forall p :: p in AllPaths(ClientMenu) ==> HasPrefix(p, "/app/")
  {
    InAreaPaths(ClientMenu, "/app/");
  }

  /** Top-level labels are unique per role, so they can key the expand set. */
  lemma LabelsUnique()
    ensures Seqs.NoDup(Labels(AdminMenu))
    ensures Seqs.NoDup(Labels(ClientMenu))
  {
    AdminLabelsUnique();
    ClientLabelsUnique();
  }

  lemma AdminLabelsUnique()
    ensures Seqs.NoDup(Labels(AdminMenu))
  {
  }

  lemma ClientLabelsUnique()
    ensures Seqs.NoDup(Labels(ClientMenu))
  {
  }

  lemma MenusAreTwoLevels()
    ensures TwoLevels(AdminMenu)
    ensures TwoLevels(ClientMenu)
  {
    AdminTwoLevels();
    ClientTwoLevels();
  }

  lemma AdminTwoLevels()
    ensures TwoLevels(AdminMenu)
  {
  }

  lemma ClientTwoLevels()
    ensures TwoLevels(ClientMenu)
  {
  }

  /** The sub-menus the two roles are known for. */
  lemma KnownSubMenus()
    ensures AdminMenu[5].name == "Eventos"
         && Labels(Subs(AdminMenu[5])) == ["Meus Eventos", "Todos os Eventos"]
    ensures AdminMenu[8].name == "Recibos" && |Subs(AdminMenu[8])| == 1
    ensures ClientMenu[4].name == "Cupons"
         && Labels(Subs(ClientMenu[4])) == ["Disponíveis", "Meus Cupons"]
  {
  }
}

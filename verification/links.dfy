/** The menus and the route table agree: every link a menu offers leads to a page
    that renders for the role the menu belongs to. */
module MenuLinks {
  import opened Auth
  import opened Nav
  import opened Routes

  /** Every link of a role's menu leads to a page that renders for that role. */
  lemma AdminMenuLinksRender(s: Session)
    requires IsAuthenticated(s) && s.user.value.role == ADMIN
    ensures forall p :: p in TargetPaths(AdminMenu) ==> Resolve(s, p).Render?
  {
    AdminEntriesRender(s);
    forall p | p in TargetPaths(AdminMenu) ensures Resolve(s, p).Render? {
      TargetOfSomeItem(AdminMenu, p);
    }
  }

  /** The same, entry by entry. */
  lemma AdminEntriesRender(s: Session)
    requires IsAuthenticated(s) && s.user.value.role == ADMIN
    ensures forall i, p :: 0 <= i < |AdminMenu| && p in Targets(AdminMenu[i]) ==> Resolve(s, p).Render?
  {
    forall i | 0 <= i < |AdminMenu| ensures forall p :: p in Targets(AdminMenu[i]) ==> Resolve(s, p).Render? {
      AdminEntryRender(s, i);
    }
  }

  lemma AdminEntryRender(s: Session, i: int)
    requires IsAuthenticated(s) && s.user.value.role == ADMIN
    requires 0 <= i < |AdminMenu|
    ensures forall p :: p in Targets(AdminMenu[i]) ==> Resolve(s, p).Render?
  {
    if i == 0 { AdminEntryRender0(s); }
    else if i == 1 { AdminEntryRender1(s); }
    else if i == 2 { AdminEntryRender2(s); }
    else if i == 3 { AdminEntryRender3(s); }
    else if i == 4 { AdminEntryRender4(s); }
    else if i == 5 { AdminEntryRender5(s); }
    else if i == 6 { AdminEntryRender6(s); }
    else if i == 7 { AdminEntryRender7(s); }
    else if i == 8 { AdminEntryRender8(s); }
    else if i == 9 { AdminEntryRender9(s); }
    else if i == 10 { AdminEntryRender10(s); }
    else { AdminEntryRender11(s); }
  }

  /* One lemma per entry keeps each proof obligation small. */

  lemma AdminEntryRender0(s: Session)
    requires IsAuthenticated(s) && s.user.value.role == ADMIN
    ensures forall p :: p in Targets(AdminMenu[0]) ==> Resolve(s, p).Render?
  {
    assert Pages(AdminArea)[0] == "dashboard";
    assert Targets(AdminMenu[0]) == [Admin("dashboard")];
    ResolvePage(s, AdminArea, "dashboard");
  }

  lemma AdminEntryRender1(s: Session)
    requires IsAuthenticated(s) && s.user.value.role == ADMIN
    ensures forall p :: p in Targets(AdminMenu[1]) ==> Resolve(s, p).Render?
  {
    assert Pages(AdminArea)[1] == "campanhas";
    assert Targets(AdminMenu[1]) == [Admin("campanhas")];
    ResolvePage(s, AdminArea, "campanhas");
  }

  lemma AdminEntryRender2(s: Session)
    requires IsAuthenticated(s) && s.user.value.role == ADMIN
    ensures forall p :: p in Targets(AdminMenu[2]) ==> Resolve(s, p).Render?
  {
    assert Pages(AdminArea)[2] == "convites";
    assert Targets(AdminMenu[2]) == [Admin("convites")];
    ResolvePage(s, AdminArea, "convites");
  }

  lemma AdminEntryRender3(s: Session)
    requires IsAuthenticated(s) && s.user.value.role == ADMIN
    ensures forall p :: p in Targets(AdminMenu[3]) ==> Resolve(s, p).Render?
  {
    assert Pages(AdminArea)[3] == "cupons";
    assert Targets(AdminMenu[3]) == [Admin("cupons")];
    ResolvePage(s, AdminArea, "cupons");
  }

  lemma AdminEntryRender4(s: Session)
    requires IsAuthenticated(s) && s.user.value.role == ADMIN
    ensures forall p :: p in Targets(AdminMenu[4]) ==> Resolve(s, p).Render?
  {
    assert Pages(AdminArea)[4] == "voucher";
    assert Targets(AdminMenu[4]) == [Admin("voucher")];
    ResolvePage(s, AdminArea, "voucher");
  }

  lemma AdminEntryRender5(s: Session)
    requires IsAuthenticated(s) && s.user.value.role == ADMIN
    ensures forall p :: p in Targets(AdminMenu[5]) ==> Resolve(s, p).Render?
  {
    assert Pages(AdminArea)[6] == "eventos/meus" && Pages(AdminArea)[5] == "eventos";
    assert Targets(AdminMenu[5]) == [Admin("eventos/meus"), Admin("eventos")];
    ResolvePage(s, AdminArea, "eventos/meus"); ResolvePage(s, AdminArea, "eventos");
  }

  lemma AdminEntryRender6(s: Session)
    requires IsAuthenticated(s) && s.user.value.role == ADMIN
    ensures forall p :: p in Targets(AdminMenu[6]) ==> Resolve(s, p).Render?
  {
    assert Pages(AdminArea)[8] == "vender";
    assert Targets(AdminMenu[6]) == [Admin("vender")];
    ResolvePage(s, AdminArea, "vender");
  }

  lemma AdminEntryRender7(s: Session)
    requires IsAuthenticated(s) && s.user.value.role == ADMIN
    ensures forall p :: p in Targets(AdminMenu[7]) ==> Resolve(s, p).Render?
  {
    assert Pages(AdminArea)[9] == "filiais";
    assert Targets(AdminMenu[7]) == [Admin("filiais")];
    ResolvePage(s, AdminArea, "filiais");
  }

  lemma AdminEntryRender8(s: Session)
    requires IsAuthenticated(s) && s.user.value.role == ADMIN
    ensures forall p :: p in Targets(AdminMenu[8]) ==> Resolve(s, p).Render?
  {
    assert Pages(AdminArea)[10] == "recibos/ingressos";
    assert Targets(AdminMenu[8]) == [Admin("recibos/ingressos")];
    ResolvePage(s, AdminArea, "recibos/ingressos");
  }

  lemma AdminEntryRender9(s: Session)
    requires IsAuthenticated(s) && s.user.value.role == ADMIN
    ensures forall p :: p in Targets(AdminMenu[9]) ==> Resolve(s, p).Render?
  {
    assert Pages(AdminArea)[11] == "usuarios/clientes" && Pages(AdminArea)[12] == "usuarios/funcionarios";
    assert Targets(AdminMenu[9]) == [Admin("usuarios/clientes"), Admin("usuarios/funcionarios")];
    ResolvePage(s, AdminArea, "usuarios/clientes"); ResolvePage(s, AdminArea, "usuarios/funcionarios");
  }

  lemma AdminEntryRender10(s: Session)
    requires IsAuthenticated(s) && s.user.value.role == ADMIN
    ensures forall p :: p in Targets(AdminMenu[10]) ==> Resolve(s, p).Render?
  {
    assert Pages(AdminArea)[13] == "sincronizar";
    assert Targets(AdminMenu[10]) == [Admin("sincronizar")];
    ResolvePage(s, AdminArea, "sincronizar");
  }

  lemma AdminEntryRender11(s: Session)
    requires IsAuthenticated(s) && s.user.value.role == ADMIN
    ensures forall p :: p in Targets(AdminMenu[11]) ==> Resolve(s, p).Render?
  {
    assert Pages(AdminArea)[14] == "suporte";
    assert Targets(AdminMenu[11]) == [Admin("suporte")];
    ResolvePage(s, AdminArea, "suporte");
  }

  lemma ClientMenuLinksRender(s: Session)
    requires IsAuthenticated(s) && s.user.value.role == CLIENTE
    ensures forall p :: p in TargetPaths(ClientMenu) ==> Resolve(s, p).Render?
  {
    ClientEntriesRender(s);
    forall p | p in TargetPaths(ClientMenu) ensures Resolve(s, p).Render? {
      TargetOfSomeItem(ClientMenu, p);
    }
  }

  lemma ClientEntriesRender(s: Session)
    requires IsAuthenticated(s) && s.user.value.role == CLIENTE
    ensures forall i, p :: 0 <= i < |ClientMenu| && p in Targets(ClientMenu[i]) ==> Resolve(s, p).Render?
  {
    forall i | 0 <= i < |ClientMenu| ensures forall p :: p in Targets(ClientMenu[i]) ==> Resolve(s, p).Render? {
      ClientEntryRender(s, i);
    }
  }

  lemma ClientEntryRender(s: Session, i: int)
    requires IsAuthenticated(s) && s.user.value.role == CLIENTE
    requires 0 <= i < |ClientMenu|
    ensures forall p :: p in Targets(ClientMenu[i]) ==> Resolve(s, p).Render?
  {
    if i == 0 { ClientEntryRender0(s); }
    else if i == 1 { ClientEntryRender1(s); }
    else if i == 2 { ClientEntryRender2(s); }
    else if i == 3 { ClientEntryRender3(s); }
    else if i == 4 { ClientEntryRender4(s); }
    else if i == 5 { ClientEntryRender5(s); }
    else if i == 6 { ClientEntryRender6(s); }
    else { ClientEntryRender7(s); }
  }

  /* One lemma per entry, as for the ADMIN menu. */

  lemma ClientEntryRender0(s: Session)
    requires IsAuthenticated(s) && s.user.value.role == CLIENTE
    ensures forall p :: p in Targets(ClientMenu[0]) ==> Resolve(s, p).Render?
  {
    assert Pages(AppArea)[0] == "home";
    assert Targets(ClientMenu[0]) == [App("home")];
    ResolvePage(s, AppArea, "home");
  }

  lemma ClientEntryRender1(s: Session)
    requires IsAuthenticated(s) && s.user.value.role == CLIENTE
    ensures forall p :: p in Targets(ClientMenu[1]) ==> Resolve(s, p).Render?
  {
    assert Pages(AppArea)[1] == "convites";
    assert Targets(ClientMenu[1]) == [App("convites")];
    ResolvePage(s, AppArea, "convites");
  }

  lemma ClientEntryRender2(s: Session)
    requires IsAuthenticated(s) && s.user.value.role == CLIENTE
    ensures forall p :: p in Targets(ClientMenu[2]) ==> Resolve(s, p).Render?
  {
    assert Pages(AppArea)[2] == "eventos/meus" && Pages(AppArea)[3] == "eventos/todos";
    assert Targets(ClientMenu[2]) == [App("eventos/meus"), App("eventos/todos")];
    ResolvePage(s, AppArea, "eventos/meus"); ResolvePage(s, AppArea, "eventos/todos");
  }

  lemma ClientEntryRender3(s: Session)
    requires IsAuthenticated(s) && s.user.value.role == CLIENTE
    ensures forall p :: p in Targets(ClientMenu[3]) ==> Resolve(s, p).Render?
  {
    assert Pages(AppArea)[4] == "vender";
    assert Targets(ClientMenu[3]) == [App("vender")];
    ResolvePage(s, AppArea, "vender");
  }

  lemma ClientEntryRender4(s: Session)
    requires IsAuthenticated(s) && s.user.value.role == CLIENTE
    ensures forall p :: p in Targets(ClientMenu[4]) ==> Resolve(s, p).Render?
  {
    assert Pages(AppArea)[5] == "cupons/disponiveis" && Pages(AppArea)[6] == "cupons/meus";
    assert Targets(ClientMenu[4]) == [App("cupons/disponiveis"), App("cupons/meus")];
    ResolvePage(s, AppArea, "cupons/disponiveis"); ResolvePage(s, AppArea, "cupons/meus");
  }

  lemma ClientEntryRender5(s: Session)
    requires IsAuthenticated(s) && s.user.value.role == CLIENTE
    ensures forall p :: p in Targets(ClientMenu[5]) ==> Resolve(s, p).Render?
  {
    assert Pages(AppArea)[7] == "recibos/presente" && Pages(AppArea)[8] == "recibos/ingressos";
    assert Targets(ClientMenu[5]) == [App("recibos/presente"), App("recibos/ingressos")];
    ResolvePage(s, AppArea, "recibos/presente"); ResolvePage(s, AppArea, "recibos/ingressos");
  }

  lemma ClientEntryRender6(s: Session)
    requires IsAuthenticated(s) && s.user.value.role == CLIENTE
    ensures forall p :: p in Targets(ClientMenu[6]) ==> Resolve(s, p).Render?
  {
    assert Pages(AppArea)[9] == "voucher";
    assert Targets(ClientMenu[6]) == [App("voucher")];
    ResolvePage(s, AppArea, "voucher");
  }

  lemma ClientEntryRender7(s: Session)
    requires IsAuthenticated(s) && s.user.value.role == CLIENTE
    ensures forall p :: p in Targets(ClientMenu[7]) ==> Resolve(s, p).Render?
  {
    assert Pages(AppArea)[10] == "suporte";
    assert Targets(ClientMenu[7]) == [App("suporte")];
    ResolvePage(s, AppArea, "suporte");
  }
}

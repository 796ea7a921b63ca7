/** `null`/`undefined` as a value. */
module Optional {
  datatype Option<+T> = None | Some(value: T)
}

/** The simulated session of `contexts/AuthContext.tsx`: who is logged in and which
    branch ("filial") is selected. */
module Auth {
  import opened Optional

  datatype Role = ADMIN | GERENTE | FUNCIONARIO | CLIENTE | GUEST

  datatype Filial = Filial(id: int, nome: string, cnpj: string, endereco: string)

  datatype User = User(id: int, nome: string, email: string, role: Role, filialId: Option<int>)

  datatype Session = Session(user: Option<User>, filial: Option<Filial>)

  /** The fixed branch list. */
  const MockFiliais: seq<Filial> := [
    Filial(1, "Matriz São Paulo", "00.000.000/0001-00", "Av Paulista 1000"),
    Filial(2, "Filial Rio", "00.000.000/0002-00", "Av Atlantica 500")
  ]

  /** `MOCK_FILIAIS.find(f => f.id === id)`. */
  function FindFilial(id: int): (r: Option<Filial>)
    ensures r.Some? <==> exists i :: 0 <= i < |MockFiliais| && MockFiliais[i].id == id
    ensures r.Some? ==> r.value in MockFiliais && r.value.id == id
  {
    FindIn(MockFiliais, id)
  }

  function FindIn(fs: seq<Filial>, id: int): (r: Option<Filial>)
    ensures r.Some? <==> exists i :: 0 <= i < |fs| && fs[i].id == id
    ensures r.Some? ==> r.value in fs && r.value.id == id
    decreases |fs|
  {
    if |fs| == 0 then None
    else if fs[0].id == id then Some(fs[0])
    else
      var r := FindIn(fs[1..], id);
      assert forall i :: 1 <= i < |fs| ==> fs[i] == fs[1..][i - 1];
      r
  }

  /** Both state hooks start out `null`. */
  const Initial: Session := Session(None, None)

  /** The user `login(role)` fabricates. */
  function MockUser(role: Role): User
  {
    User(123,
         if role == ADMIN then "Administrador Papi" else "Cliente Feliz",
         "user@papifast.com",
         role,
         if role == ADMIN then Some(1) else None)
  }

  /** JavaScript truthiness of an optional number (`undefined` and `0` are falsy). */
  predicate Truthy(n: Option<int>)
  {
    n.Some? && n.value != 0
  }

  /** `login(role)`: sets the fabricated user; only when that user carries a
      (truthy) branch id is the branch looked up and set, to `null` if unknown. */
  function Login(s: Session, role: Role): (r: Session)
    ensures r.user.Some? && r.user.value.id == 123 && r.user.value.role == role
    ensures r.user.value.email == "user@papifast.com"
    ensures r.user.value.filialId.Some? <==> role == ADMIN
    ensures role == ADMIN ==> r.user.value.filialId == Some(1)
    ensures role == ADMIN ==> r.filial == Some(Filial(1, "Matriz São Paulo", "00.000.000/0001-00", "Av Paulista 1000"))
    ensures role != ADMIN ==> r.filial == s.filial
  {
    var u := MockUser(role);
    if Truthy(u.filialId) then
      Session(Some(u), FindFilial(u.filialId.value))
    else
      Session(Some(u), s.filial)
  }

  /** `logout()`: both user and branch are cleared, whatever they were. */
  function Logout(s: Session): (r: Session)
    ensures r.user.None? && r.filial.None?
    ensures r == Initial
  {
    Session(None, None)
  }

  /** `switchFilial(id)`: selects the listed branch with that id; an id not in the
      list changes nothing. The user is never touched. */
  function SwitchFilial(s: Session, id: int): (r: Session)
    ensures r.user == s.user
    ensures (id == 1 || id == 2) ==> r.filial.Some? && r.filial.value.id == id && r.filial.value in MockFiliais
    ensures !(id == 1 || id == 2) ==> r == s
  {
    match FindFilial(id)
    case Some(f) => s.(filial := Some(f))
    case None => s
  }

  /** `isAuthenticated: !!user`. */
  predicate IsAuthenticated(s: Session): (b: bool)
    ensures b <==> s.user != None
  {
    s.user.Some?
  }

  /** Only `login` makes a session authenticated, only `logout` ends it. */
  lemma AuthenticationLifecycle(s: Session, role: Role, id: int)
    ensures !IsAuthenticated(Initial)
    ensures IsAuthenticated(Login(s, role))
    ensures !IsAuthenticated(Logout(s))
    ensures IsAuthenticated(SwitchFilial(s, id)) == IsAuthenticated(s)
  {
  }

  /** The dashboard's "Todas as Filiais" entry sends id 0, which is no listed branch:
      choosing it leaves the previous branch selected. */
  lemma SwitchToAllBranchesIsNoOp(s: Session)
    ensures SwitchFilial(s, 0) == s
  {
  }

  /** A non-ADMIN login after an ADMIN login keeps the ADMIN's branch. */
  lemma NonAdminLoginKeepsBranch(role: Role)
    requires role != ADMIN
    ensures Login(Login(Initial, ADMIN), role).filial == Some(MockFiliais[0])
    ensures Login(Initial, role).filial.None?
  {
  }
}

/** The side effects an event handler performs, in order: calls into the session
    and `navigate(path)`. */
module Effects {
  import opened Optional
  import opened Auth

  datatype Effect = CallLogin(role: Role) | CallLogout | Navigate(path: string)

  /** Where a sequence of effects leaves the session and the location. */
  datatype After = After(session: Session, location: Option<string>)

  /** Performs the effects left to right; the last navigation decides the location. */
  function Run(s: Session, es: seq<Effect>): (r: After)
    ensures r.location.Some? <==> exists i :: 0 <= i < |es| && es[i].Navigate?
    ensures r.location.Some? ==> exists i :: (0 <= i < |es| && es[i] == Navigate(r.location.value) &&
                                              forall j :: i < j < |es| ==> !es[j].Navigate?)
    ensures (forall i :: 0 <= i < |es| ==> es[i].Navigate?) ==> r.session == s
    decreases |es|
  {
    if |es| == 0 then After(s, None)
    else
      var s' := match es[0]
        case CallLogin(r) => Login(s, r)
        case CallLogout => Logout(s)
        case Navigate(_) => s;
      var rest := Run(s', es[1..]);
      if rest.location.None? && es[0].Navigate? then After(rest.session, Some(es[0].path)) else rest
  }

  /** `handleLogout` of the shell and of the mobile menu: `logout()`, then `navigate('/')`. */
  function HandleLogout(): (es: seq<Effect>)
    ensures forall s :: Run(s, es) == After(Initial, Some("/"))
  {
    [CallLogout, Navigate("/")]
  }
}

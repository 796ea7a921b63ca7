/** The ADMIN coupon list (`apps/admin/pages/cupons/Cupons.tsx`): a search over the
    client's name, which may be missing, and the token; a status drop-down; city and
    state drop-downs that are kept in state but never consulted; five rows a page. */
module AdminCupons {
  import opened Optional
  import opened Text
  import opened Seqs
  import opened Paging
  import opened Search
  import opened ListView

  datatype Status = EmUso | Disponivel | Utilizado

  /** The status as the data and the drop-down spell it. */
  function StatusName(s: Status): string
  {
    match s
    case EmUso => "Em uso"
    case Disponivel => "Disponível"
    case Utilizado => "Utilizado"
  }

  /** A coupon, reduced to the fields the list logic reads; an unassigned coupon
      has no client (`null`). */
  datatype Coupon = Coupon(id: int, clientName: Option<string>, token: string, status: Status)

  const Data: seq<Coupon> := [
    Coupon(1, Some("Alex"), "#teste", EmUso),
    Coupon(2, None, "#teste", Disponivel),
    Coupon(3, Some("João Silva"), "#natal25", Utilizado),
    Coupon(4, None, "#verao10", Disponivel),
    Coupon(5, Some("Maria Oliveira"), "#vip_gold", EmUso)
  ]

  const K: nat := 5
  const AllStatuses: string := "Todos os Status"
  const AllCities: string := "Todas as Cidades"
  const AllStates: string := "Todos os Estados"

  datatype Criteria = Criteria(term: string, status: string, city: string, state: string)

  const Defaults: Criteria := Criteria("", AllStatuses, AllCities, AllStates)

  /** `clientName?.toLowerCase().includes(term) || false`: a missing name never matches. */
  function NameMatches(name: Option<string>, term: string): (b: bool)
    ensures b <==> name.Some? && Contains(LowerStr(name.value), LowerStr(term))
  {
    match name
    case None => false
    case Some(n) => FieldMatches(Folded(n), term)
  }

  /** The row test: the name (when there is one) or the token contains the term,
      ignoring case, and the status drop-down is at its sentinel or equal; city and
      state play no part. */
  function Matches(c: Criteria, x: Coupon): (b: bool)
    ensures b <==>
      && ((x.clientName.Some? && Contains(LowerStr(x.clientName.value), LowerStr(c.term)))
          || Contains(LowerStr(x.token), LowerStr(c.term)))
      && (c.status == AllStatuses || StatusName(x.status) == c.status)
  {
    && (NameMatches(x.clientName, c.term) || FieldMatches(Folded(x.token), c.term))
    && Allows(c.status, AllStatuses, StatusName(x.status))
  }

  /** The matching coupons of `rows`, in order. */
  function Filtered(rows: seq<Coupon>, c: Criteria): (r: seq<Coupon>)
    ensures IsSubsequence(r, rows)
    ensures forall x :: x in r <==> x in rows && Matches(c, x)
    ensures forall x :: multiset(r)[x] == if Matches(c, x) then multiset(rows)[x] else 0
  {
    Filter(rows, x => Matches(c, x))
  }

  /** The rows of the current page. */
  function Visible(rows: seq<Coupon>, v: View<Criteria>): (r: seq<Coupon>)
    ensures |r| <= K
    ensures forall x :: x in r ==> x in rows && Matches(v.criteria, x)
    ensures v.page >= 1 ==>
      var f := Filtered(rows, v.criteria);
      var start := (v.page - 1) * K;
      start >= 0 && r == f[Min(start, |f|)..Min(start + K, |f|)]
  {
    Page(Filtered(rows, v.criteria), v.page, K)
  }

  /** The table body: the page's rows, or the single "nothing found" row when the
      page is empty. */
  datatype Body = Rows(rows: seq<Coupon>) | Message(text: string)

  function TableBody(rows: seq<Coupon>, v: View<Criteria>): (b: Body)
    ensures b.Message? <==> Visible(rows, v) == []
    ensures b.Message? ==> b.text == "Nenhum cupom encontrado."
    ensures b.Rows? ==> b.rows == Visible(rows, v)
  {
    var shown := Visible(rows, v);
    if |shown| == 0 then Message("Nenhum cupom encontrado.") else Rows(shown)
  }

  /** Editing the search box or a drop-down: the page number is kept. */
  function SetTerm(v: View<Criteria>, t: string): (r: View<Criteria>)
    ensures r.page == v.page
    ensures r.criteria == v.criteria.(term := t)
  {
    v.(criteria := v.criteria.(term := t))
  }

  function SetStatus(v: View<Criteria>, s: string): (r: View<Criteria>)
    ensures r.page == v.page
    ensures r.criteria == v.criteria.(status := s)
  {
    v.(criteria := v.criteria.(status := s))
  }

  function SetCity(v: View<Criteria>, s: string): (r: View<Criteria>)
    ensures r.page == v.page
    ensures r.criteria == v.criteria.(city := s)
  {
    v.(criteria := v.criteria.(city := s))
  }

  function SetState(v: View<Criteria>, s: string): (r: View<Criteria>)
    ensures r.page == v.page
    ensures r.criteria == v.criteria.(state := s)
  {
    v.(criteria := v.criteria.(state := s))
  }

  /** The clear button resets all four criteria and shows the first page of the
      whole list. */
  function Clear(v: View<Criteria>): (r: View<Criteria>)
    ensures r.page == 1
    ensures r.criteria == Defaults
    ensures forall rows :: Filtered(rows, r.criteria) == rows
  {
    forall rows ensures Filtered(rows, Defaults) == rows { DefaultsShowAll(rows); }
    View(Defaults, 1)
  }

  /** With no criteria every coupon is listed, with or without a client: the
      token always contains the empty term. */
  lemma DefaultsShowAll(rows: seq<Coupon>)
    ensures Filtered(rows, Defaults) == rows
  {
    forall i | 0 <= i < |rows| ensures Matches(Defaults, rows[i]) {
      EmptyTermMatches(Folded(rows[i].token));
    }
    FilterKeepsAll(rows, x => Matches(Defaults, x));
  }

  /** The city and state selections never change the list. */
  lemma LocationIgnored(rows: seq<Coupon>, v: View<Criteria>, city: string, state: string)
    ensures Filtered(rows, SetState(SetCity(v, city), state).criteria) == Filtered(rows, v.criteria)
    ensures Visible(rows, SetState(SetCity(v, city), state)) == Visible(rows, v)
  {
    var w := SetState(SetCity(v, city), state);
    FilterAgree(rows, x => Matches(w.criteria, x), x => Matches(v.criteria, x));
  }

  /** A coupon without a client is found through its token alone. */
  lemma NoClientSearchedByToken(c: Criteria, x: Coupon)
    requires x.clientName.None?
    ensures Matches(c, x) <==>
      Contains(LowerStr(x.token), LowerStr(c.term)) && (c.status == AllStatuses || StatusName(x.status) == c.status)
  {
  }

  predicate IsDisponivel(x: Coupon) { x.status == Disponivel }
  predicate IsEmUso(x: Coupon) { x.status == EmUso }
  predicate IsUtilizado(x: Coupon) { x.status == Utilizado }

  /** The four cards. */
  datatype Cards = Cards(total: nat, disponiveis: nat, emUso: nat, utilizados: nat)

  /** The cards take the rows and nothing else; the three status counts add up to
      the total because every coupon has exactly one status. */
  function Stats(rows: seq<Coupon>): (s: Cards)
    ensures s.total == |rows|
    ensures s.disponiveis == |set i | 0 <= i < |rows| && rows[i].status == Disponivel|
    ensures s.emUso == |set i | 0 <= i < |rows| && rows[i].status == EmUso|
    ensures s.utilizados == |set i | 0 <= i < |rows| && rows[i].status == Utilizado|
    ensures s.disponiveis + s.emUso + s.utilizados == s.total
  {
    assert Positions(rows, IsDisponivel) == set i | 0 <= i < |rows| && rows[i].status == Disponivel;
    assert Positions(rows, IsEmUso) == set i | 0 <= i < |rows| && rows[i].status == EmUso;
    assert Positions(rows, IsUtilizado) == set i | 0 <= i < |rows| && rows[i].status == Utilizado;
    CountThree(rows, IsDisponivel, IsEmUso, IsUtilizado);
    Cards(|rows|, Count(rows, IsDisponivel), Count(rows, IsEmUso), Count(rows, IsUtilizado))
  }

  /** On the mock data the cards read 5 coupons: 2 available, 2 in use, 1 used. */
  lemma MockCards()
    ensures Stats(Data) == Cards(5, 2, 2, 1)
  {
    TallyIsCount(Data, IsDisponivel);
    TallyIsCount(Data, IsEmUso);
    TallyIsCount(Data, IsUtilizado);
  }
}

/** The CLIENT coupon list (`apps/client/pages/cupons/MeusCupons.tsx`): a search over
    token and client name ignoring case, eight rows a page, fixed cards, and a clear
    button that empties the search box only. */
module ClientMeusCupons {
  import opened Text
  import opened Seqs
  import opened Paging
  import opened Search
  import opened ListView

  datatype Status = Expirado | Disponivel | Utilizado

  /** A coupon, reduced to the fields the list logic reads. */
  datatype Coupon = Coupon(id: int, clientName: string, token: string, status: Status)

  const Data: seq<Coupon> := [
    Coupon(1, "Alex", "#Sorvete de Morango", Expirado),
    Coupon(2, "Alex", "#Sorvete de Morango", Expirado),
    Coupon(3, "Alex", "#teste", Expirado)
  ]

  const K: nat := 8

  /** The only criterion is the search term. */
  type Criteria = string

  const Defaults: Criteria := ""

  /** The row test: token or client name contains the term, ignoring case. */
  function Matches(term: Criteria, x: Coupon): (b: bool)
    ensures b <==> Contains(LowerStr(x.token), LowerStr(term)) || Contains(LowerStr(x.clientName), LowerStr(term))
  {
    FieldMatches(Folded(x.token), term) || FieldMatches(Folded(x.clientName), term)
  }

  /** The matching coupons of `rows`, in order. */
  function Filtered(rows: seq<Coupon>, term: Criteria): (r: seq<Coupon>)
    ensures IsSubsequence(r, rows)
    ensures forall x :: x in r <==> x in rows && Matches(term, x)
    ensures forall x :: multiset(r)[x] == if Matches(term, x) then multiset(rows)[x] else 0
  {
    Filter(rows, x => Matches(term, x))
  }

  /** The rows of the current page. */
  function Visible(rows: seq<Coupon>, v: View<Criteria>): (r: seq<Coupon>)
    ensures |r| <= K
    ensures forall x :: x in r ==> x in rows && Matches(v.criteria, x)
    ensures v.page >= 1 ==>
      var f := Filtered(rows, v.criteria);
      var start := (v.page - 1) * K;
      start >= 0 && r == f[Min(start, |f|)..Min(start + K, |f|)]
  {
    Page(Filtered(rows, v.criteria), v.page, K)
  }

  /** Typing in the search box: the page number is kept. */
  function SetTerm(v: View<Criteria>, t: string): (r: View<Criteria>)
    ensures r.page == v.page
    ensures r.criteria == t
  {
    v.(criteria := t)
  }

  /** The clear button empties the search box and leaves the page number alone. */
  function Clear(v: View<Criteria>): (r: View<Criteria>)
    ensures r.page == v.page
    ensures r.criteria == Defaults
    ensures forall rows :: Filtered(rows, r.criteria) == rows
    ensures forall rows :: Visible(rows, r) == Page(rows, v.page, K)
  {
    forall rows ensures Filtered(rows, Defaults) == rows { DefaultsShowAll(rows); }
    v.(criteria := Defaults)
  }

  /** With an empty search box every coupon is listed. */
  lemma DefaultsShowAll(rows: seq<Coupon>)
    ensures Filtered(rows, Defaults) == rows
  {
    forall i | 0 <= i < |rows| ensures Matches(Defaults, rows[i]) {
      EmptyTermMatches(Folded(rows[i].token));
    }
    FilterKeepsAll(rows, x => Matches(Defaults, x));
  }

  /** Searching the owner's name finds every coupon of that owner. */
  lemma OwnerFindsAll(rows: seq<Coupon>, name: string)
    requires forall i :: 0 <= i < |rows| ==> rows[i].clientName == name
    ensures Filtered(rows, name) == rows
  {
    forall i | 0 <= i < |rows| ensures Matches(name, rows[i]) {
      var n := LowerStr(name);
      assert OccursAt(n, n, 0);
      ContainsAt(n, n, 0);
    }
    FilterKeepsAll(rows, x => Matches(name, x));
  }

  /** The four cards are fixed numbers, not derived from the rows. */
  datatype Cards = Cards(total: nat, disponiveis: nat, utilizados: nat, expirados: nat)

  const Shown: Cards := Cards(3, 0, 0, 3)

  predicate IsExpirado(x: Coupon) { x.status == Expirado }
  predicate IsDisponivel(x: Coupon) { x.status == Disponivel }
  predicate IsUtilizado(x: Coupon) { x.status == Utilizado }

  /** The fixed cards agree with a count over the mock list: three coupons, all
      expired. */
  lemma ShownMatchesData()
    ensures Shown.total == |Data|
    ensures Shown.expirados == Count(Data, IsExpirado)
    ensures Shown.disponiveis == Count(Data, IsDisponivel)
    ensures Shown.utilizados == Count(Data, IsUtilizado)
  {
    TallyIsCount(Data, IsExpirado);
    TallyIsCount(Data, IsDisponivel);
    TallyIsCount(Data, IsUtilizado);
  }
}

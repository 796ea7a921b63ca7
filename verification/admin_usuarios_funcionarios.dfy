/** The ADMIN staff list (`apps/admin/pages/usuarios/UsuariosFuncionarios.tsx`): a
    search over name and e-mail ignoring case (the contact is not searched); eight
    rows a page; clearing empties the search box only. */
module AdminUsuariosFuncionarios {
  import opened Text
  import opened Seqs
  import opened Paging
  import opened Search
  import opened ListView

  datatype Status = Ativo | Desativado

  /** A staff member, reduced to the fields the list logic reads. */
  datatype Staff = Staff(id: int, name: string, email: string, status: Status, contact: string)

  const Data: seq<Staff> := [
    Staff(1, "Marcelo", "marcelo@vlks.com.br", Ativo, "(31) 97253-2104")
  ]

  const K: nat := 8

  /** The only criterion is the search term. */
  type Criteria = string

  const Defaults: Criteria := ""

  /** The row test: name or e-mail contains the term, ignoring case. */
  function Matches(term: Criteria, x: Staff): (b: bool)
    ensures b <==> Contains(LowerStr(x.name), LowerStr(term)) || Contains(LowerStr(x.email), LowerStr(term))
  {
    FieldMatches(Folded(x.name), term) || FieldMatches(Folded(x.email), term)
  }

  /** The matching staff members of `rows`, in order. */
  function Filtered(rows: seq<Staff>, term: Criteria): (r: seq<Staff>)
    ensures IsSubsequence(r, rows)
    ensures forall x :: x in r <==> x in rows && Matches(term, x)
    ensures forall x :: multiset(r)[x] == if Matches(term, x) then multiset(rows)[x] else 0
  {
    Filter(rows, x => Matches(term, x))
  }

  /** The rows of the current page. */
  function Visible(rows: seq<Staff>, v: View<Criteria>): (r: seq<Staff>)
    ensures |r| <= K
    ensures forall x :: x in r ==> x in rows && Matches(v.criteria, x)
    ensures v.page >= 1 ==>
      var f := Filtered(rows, v.criteria);
      var start := (v.page - 1) * K;
      start >= 0 && r == f[Min(start, |f|)..Min(start + K, |f|)]
  {
    Page(Filtered(rows, v.criteria), v.page, K)
  }

  /** Typing in the search box: the page number is kept. */
  function SetTerm(v: View<Criteria>, t: string): (r: View<Criteria>)
    ensures r.page == v.page
    ensures r.criteria == t
  {
    v.(criteria := t)
  }

  /** The clear button empties the search box and leaves the page number alone. */
  function Clear(v: View<Criteria>): (r: View<Criteria>)
    ensures r.page == v.page
    ensures r.criteria == Defaults
    ensures forall rows :: Filtered(rows, r.criteria) == rows
    ensures forall rows :: Visible(rows, r) == Page(rows, v.page, K)
  {
    forall rows ensures Filtered(rows, Defaults) == rows { DefaultsShowAll(rows); }
    v.(criteria := Defaults)
  }

  /** With an empty search box every staff member is listed. */
  lemma DefaultsShowAll(rows: seq<Staff>)
    ensures Filtered(rows, Defaults) == rows
  {
    forall i | 0 <= i < |rows| ensures Matches(Defaults, rows[i]) {
      EmptyTermMatches(Folded(rows[i].name));
    }
    FilterKeepsAll(rows, x => Matches(Defaults, x));
  }

  /** The contact takes no part in the search, although the placeholder offers it:
      changing it changes no outcome. */
  lemma ContactNotSearched(term: Criteria, x: Staff, contact: string)
    ensures Matches(term, x.(contact := contact)) == Matches(term, x)
  {
  }

  predicate IsAtivo(x: Staff) { x.status == Ativo }
  predicate IsDesativado(x: Staff) { x.status == Desativado }

  /** The three cards. */
  datatype Cards = Cards(total: nat, ativos: nat, inativos: nat)

  /** The cards take the rows and nothing else; the two counts add up to the total. */
  function Stats(rows: seq<Staff>): (s: Cards)
    ensures s.total == |rows|
    ensures s.ativos == |set i | 0 <= i < |rows| && rows[i].status == Ativo|
    ensures s.inativos == |set i | 0 <= i < |rows| && rows[i].status == Desativado|
    ensures s.ativos + s.inativos == s.total
  {
    assert Positions(rows, IsAtivo) == set i | 0 <= i < |rows| && rows[i].status == Ativo;
    assert Positions(rows, IsDesativado) == set i | 0 <= i < |rows| && rows[i].status == Desativado;
    CountSplit(rows, IsAtivo, IsDesativado);
    Cards(|rows|, Count(rows, IsAtivo), Count(rows, IsDesativado))
  }

  /** On the mock data the cards read 1 staff member, active. */
  lemma MockCards()
    ensures Stats(Data) == Cards(1, 1, 0)
  {
    TallyIsCount(Data, IsAtivo);
    TallyIsCount(Data, IsDesativado);
  }
}

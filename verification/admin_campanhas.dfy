/** The campaign list of the ADMIN area (`apps/admin/pages/campanhas/Campanhas.tsx`):
    a search over name and branch, a status and a branch drop-down, six rows a page. */
module AdminCampanhas {
  import opened Text
  import opened Seqs
  import opened Paging
  import opened Search
  import opened ListView

  datatype Status = Ativa | Pausada | Rascunho | Finalizada

  /** The status as the data and the drop-down spell it. */
  function StatusName(s: Status): string
  {
    match s
    case Ativa => "Ativa"
    case Pausada => "Pausada"
    case Rascunho => "Rascunho"
    case Finalizada => "Finalizada"
  }

  /** A campaign, reduced to the fields the list logic reads. */
  datatype Campaign = Campaign(id: int, nome: string, filial: string, status: Status)

  const Data: seq<Campaign> := [
    Campaign(1, "Campanha Desmostração", "UAI PDV - DEMONSTRACAO", Ativa),
    Campaign(2, "Campanha teste", "Uaipdv - Shows", Ativa),
    Campaign(3, "Sexta Da Promo", "UAIPDV- Eventos", Ativa),
    Campaign(4, "Liquidação de Verão", "Matriz São Paulo", Pausada),
    Campaign(5, "Black Friday Antecipada", "Filial Rio", Rascunho),
    Campaign(6, "Dia dos Pais", "Todas as Filiais", Finalizada)
  ]

  const K: nat := 6
  const AllStatuses: string := "Todos os Status"
  const AllBranches: string := "--- Todas as Filiais ---"

  datatype Criteria = Criteria(term: string, status: string, filial: string)

  const Defaults: Criteria := Criteria("", AllStatuses, AllBranches)

  /** The row test: name or branch contains the term, ignoring case, and each
      drop-down is at its sentinel or equals the row's value. */
  function Matches(c: Criteria, x: Campaign): (b: bool)
    ensures b <==>
      && (Contains(LowerStr(x.nome), LowerStr(c.term)) || Contains(LowerStr(x.filial), LowerStr(c.term)))
      && (c.status == AllStatuses || StatusName(x.status) == c.status)
      && (c.filial == AllBranches || x.filial == c.filial)
  {
    && (FieldMatches(Folded(x.nome), c.term) || FieldMatches(Folded(x.filial), c.term))
    && Allows(c.status, AllStatuses, StatusName(x.status))
    && Allows(c.filial, AllBranches, x.filial)
  }

  /** The matching campaigns of `rows`, in order. */
  function Filtered(rows: seq<Campaign>, c: Criteria): (r: seq<Campaign>)
    ensures IsSubsequence(r, rows)
    ensures forall x :: x in r <==> x in rows && Matches(c, x)
    ensures forall x :: multiset(r)[x] == if Matches(c, x) then multiset(rows)[x] else 0
  {
    Filter(rows, x => Matches(c, x))
  }

  /** The rows of the current page. */
  function Visible(rows: seq<Campaign>, v: View<Criteria>): (r: seq<Campaign>)
    ensures |r| <= K
    ensures forall x :: x in r ==> x in rows && Matches(v.criteria, x)
    ensures v.page >= 1 ==>
      var f := Filtered(rows, v.criteria);
      var start := (v.page - 1) * K;
      start >= 0 && r == f[Min(start, |f|)..Min(start + K, |f|)]
  {
    Page(Filtered(rows, v.criteria), v.page, K)
  }

  /** Editing the search box or a drop-down: the page number is kept. */
  function SetTerm(v: View<Criteria>, t: string): (r: View<Criteria>)
    ensures r.page == v.page
    ensures r.criteria == v.criteria.(term := t)
  {
    v.(criteria := v.criteria.(term := t))
  }

  function SetStatus(v: View<Criteria>, s: string): (r: View<Criteria>)
    ensures r.page == v.page
    ensures r.criteria == v.criteria.(status := s)
  {
    v.(criteria := v.criteria.(status := s))
  }

  function SetFilial(v: View<Criteria>, f: string): (r: View<Criteria>)
    ensures r.page == v.page
    ensures r.criteria == v.criteria.(filial := f)
  {
    v.(criteria := v.criteria.(filial := f))
  }

  /** The clear button shows the first page of the whole list. */
  function Clear(v: View<Criteria>): (r: View<Criteria>)
    ensures r.page == 1
    ensures r.criteria == Defaults
    ensures forall rows :: Filtered(rows, r.criteria) == rows
  {
    forall rows ensures Filtered(rows, Defaults) == rows { DefaultsShowAll(rows); }
    View(Defaults, 1)
  }

  /** With no criteria every campaign is listed. */
  lemma DefaultsShowAll(rows: seq<Campaign>)
    ensures Filtered(rows, Defaults) == rows
  {
    forall i | 0 <= i < |rows| ensures Matches(Defaults, rows[i]) {
      EmptyTermMatches(Folded(rows[i].nome));
    }
    FilterKeepsAll(rows, x => Matches(Defaults, x));
  }

  /** None of the three edits touches the page number, so an edit that leaves fewer
      rows than the pages before the current one hold shows an empty page. */
  lemma EditsKeepPage(rows: seq<Campaign>, v: View<Criteria>, e: View<Criteria>)
    requires v.page >= 1
    requires exists t :: e == SetTerm(v, t) || e == SetStatus(v, t) || e == SetFilial(v, t)
    ensures e.page == v.page
    ensures |Filtered(rows, e.criteria)| <= (v.page - 1) * K ==> Visible(rows, e) == []
  {
  }

  predicate IsAtiva(x: Campaign) { x.status == Ativa }
  predicate IsPausada(x: Campaign) { x.status == Pausada }
  function FilialOf(x: Campaign): string { x.filial }

  /** The four cards. */
  datatype Cards = Cards(total: nat, ativas: nat, pausadas: nat, filiais: nat)

  /** The cards take the rows and nothing else: no criteria, no page. */
  function Stats(rows: seq<Campaign>): (s: Cards)
    ensures s.total == |rows|
    ensures s.ativas == |set i | 0 <= i < |rows| && rows[i].status == Ativa|
    ensures s.pausadas == |set i | 0 <= i < |rows| && rows[i].status == Pausada|
    ensures s.ativas + s.pausadas <= s.total
    ensures s.filiais == |set i | 0 <= i < |rows| :: rows[i].filial|
  {
    var fs := Map(rows, FilialOf);
    assert Elems(fs) == set i | 0 <= i < |rows| :: rows[i].filial;
    var a := Count(rows, IsAtiva);
    var p := Count(rows, IsPausada);
    assert Positions(rows, IsAtiva) == set i | 0 <= i < |rows| && rows[i].status == Ativa;
    assert Positions(rows, IsPausada) == set i | 0 <= i < |rows| && rows[i].status == Pausada;
    CountDisjoint(rows, IsAtiva, IsPausada);
    Cards(|rows|, a, p, DistinctCount(fs))
  }

  /** The branch drop-down after its sentinel: each branch of the rows once, in order
      of first appearance. */
  function BranchOptions(rows: seq<Campaign>): (r: seq<string>)
    ensures NoDup(r)
    ensures forall f :: f in r <==> exists i :: 0 <= i < |rows| && rows[i].filial == f
    ensures forall x :: x in r <==> x in Map(rows, FilialOf)
    ensures forall i, j :: 0 <= i < j < |r| ==>
      FirstIndex(Map(rows, FilialOf), r[i]) < FirstIndex(Map(rows, FilialOf), r[j])
  {
    Distinct(Map(rows, FilialOf))
  }

  /** Every offered branch lists at least one campaign, and only campaigns of it
      (a branch spelled like the sentinel would stand for all of them). */
  lemma BranchOptionSelects(rows: seq<Campaign>, f: string)
    requires f in BranchOptions(rows) && f != AllBranches
    ensures |Filtered(rows, Defaults.(filial := f))| > 0
    ensures forall x :: x in Filtered(rows, Defaults.(filial := f)) ==> x.filial == f
  {
    var c := Defaults.(filial := f);
    var i :| 0 <= i < |rows| && rows[i].filial == f;
    EmptyTermMatches(Folded(rows[i].nome));
    assert Matches(c, rows[i]);
    var fl := Filtered(rows, c);
    assert rows[i] in fl;
  }

  /** On the mock data the cards read 6 campaigns, 3 active and 1 paused. */
  lemma MockCards()
    ensures Stats(Data).total == 6 && Stats(Data).ativas == 3 && Stats(Data).pausadas == 1
  {
    TallyIsCount(Data, IsAtiva);
    TallyIsCount(Data, IsPausada);
  }
}

/** The CLIENT "Meus Eventos" list (`apps/client/pages/eventos/MeusEventos.tsx`): a
    search over title and category ignoring case, a status drop-down, six events a
    page. */
module ClientMeusEventos {
  import opened Text
  import opened Seqs
  import opened Paging
  import opened Search
  import opened ListView

  datatype Status = Ativo | Rascunho | Finalizado

  /** The status as the data and the drop-down values spell it. */
  function StatusName(s: Status): (n: string)
    ensures n != AllStatuses
  {
    match s
    case Ativo => "Ativo"
    case Rascunho => "Rascunho"
    case Finalizado => "Finalizado"
  }

  /** An event, reduced to the fields the list logic reads. */
  datatype Event = Event(id: int, title: string, category: string, status: Status)

  const Data: seq<Event> := [
    Event(1, "Rock Legends", "Aniversário", Ativo),
    Event(2, "Sexta-Feira Country", "Aniversário", Ativo),
    Event(3, "Teste de Lotes", "Encontro, Networking", Ativo),
    Event(4, "Festival de Verão", "Show", Rascunho),
    Event(5, "Workshop de Tecnologia", "Workshop", Finalizado)
  ]

  const K: nat := 6
  const AllStatuses: string := "Todos"

  datatype Criteria = Criteria(term: string, status: string)

  const Defaults: Criteria := Criteria("", AllStatuses)

  /** The row test: title or category contains the term, ignoring case, and the
      status drop-down is at its sentinel or equal. */
  function Matches(c: Criteria, x: Event): (b: bool)
    ensures b <==>
      && (Contains(LowerStr(x.title), LowerStr(c.term)) || Contains(LowerStr(x.category), LowerStr(c.term)))
      && (c.status == AllStatuses || StatusName(x.status) == c.status)
  {
    && (FieldMatches(Folded(x.title), c.term) || FieldMatches(Folded(x.category), c.term))
    && Allows(c.status, AllStatuses, StatusName(x.status))
  }

  /** The matching events of `rows`, in order. */
  function Filtered(rows: seq<Event>, c: Criteria): (r: seq<Event>)
    ensures IsSubsequence(r, rows)
    ensures forall x :: x in r <==> x in rows && Matches(c, x)
    ensures forall x :: multiset(r)[x] == if Matches(c, x) then multiset(rows)[x] else 0
  {
    Filter(rows, x => Matches(c, x))
  }

  /** The events of the current page. */
  function Visible(rows: seq<Event>, v: View<Criteria>): (r: seq<Event>)
    ensures |r| <= K
    ensures forall x :: x in r ==> x in rows && Matches(v.criteria, x)
    ensures v.page >= 1 ==>
      var f := Filtered(rows, v.criteria);
      var start := (v.page - 1) * K;
      start >= 0 && r == f[Min(start, |f|)..Min(start + K, |f|)]
  {
    Page(Filtered(rows, v.criteria), v.page, K)
  }

  /** Editing the search box or the drop-down: the page number is kept. */
  function SetTerm(v: View<Criteria>, t: string): (r: View<Criteria>)
    ensures r.page == v.page
    ensures r.criteria == v.criteria.(term := t)
  {
    v.(criteria := v.criteria.(term := t))
  }

  function SetStatus(v: View<Criteria>, s: string): (r: View<Criteria>)
    ensures r.page == v.page
    ensures r.criteria == v.criteria.(status := s)
  {
    v.(criteria := v.criteria.(status := s))
  }

  /** The clear button resets term and status and shows the first page of all events. */
  function Clear(v: View<Criteria>): (r: View<Criteria>)
    ensures r.page == 1
    ensures r.criteria == Defaults
    ensures forall rows :: Filtered(rows, r.criteria) == rows
  {
    forall rows ensures Filtered(rows, Defaults) == rows { DefaultsShowAll(rows); }
    View(Defaults, 1)
  }

  /** With no criteria every event is listed. */
  lemma DefaultsShowAll(rows: seq<Event>)
    ensures Filtered(rows, Defaults) == rows
  {
    forall i | 0 <= i < |rows| ensures Matches(Defaults, rows[i]) {
      EmptyTermMatches(Folded(rows[i].title));
    }
    FilterKeepsAll(rows, x => Matches(Defaults, x));
  }

  /** Each status entry of the drop-down lists exactly the events in that status. */
  lemma StatusSelects(rows: seq<Event>, s: Status)
    ensures forall x :: x in Filtered(rows, Defaults.(status := StatusName(s))) <==> x in rows && x.status == s
  {
    forall x | x in rows && x.status == s ensures Matches(Defaults.(status := StatusName(s)), x) {
      EmptyTermMatches(Folded(x.title));
    }
  }

  predicate IsAtivo(x: Event) { x.status == Ativo }
  predicate IsFinalizado(x: Event) { x.status == Finalizado }

  /** The four cards; tickets sold is a fixed text. */
  datatype Cards = Cards(total: nat, proximos: nat, passados: nat, vendidos: string)

  /** The cards take the rows and nothing else: drafts are counted in the total only. */
  function Stats(rows: seq<Event>): (s: Cards)
    ensures s.total == |rows|
    ensures s.proximos == |set i | 0 <= i < |rows| && rows[i].status == Ativo|
    ensures s.passados == |set i | 0 <= i < |rows| && rows[i].status == Finalizado|
    ensures s.proximos + s.passados <= s.total
    ensures s.vendidos == "1.240"
  {
    assert Positions(rows, IsAtivo) == set i | 0 <= i < |rows| && rows[i].status == Ativo;
    assert Positions(rows, IsFinalizado) == set i | 0 <= i < |rows| && rows[i].status == Finalizado;
    CountDisjoint(rows, IsAtivo, IsFinalizado);
    Cards(|rows|, Count(rows, IsAtivo), Count(rows, IsFinalizado), "1.240")
  }

  /** On the mock data the cards read 5 events, 3 upcoming, 1 past. */
  lemma MockCards()
    ensures Stats(Data) == Cards(5, 3, 1, "1.240")
  {
    TallyIsCount(Data, IsAtivo);
    TallyIsCount(Data, IsFinalizado);
  }
}

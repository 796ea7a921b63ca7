/** The ADMIN "Meus Eventos" list (`apps/admin/pages/eventos/EventosMeus.tsx`): a
    search over the title only; the status drop-down is kept in state but never
    consulted; six rows a page. */
module AdminEventosMeus {
  import opened Text
  import opened Seqs
  import opened Paging
  import opened Search
  import opened ListView

  /** An event, reduced to the fields the list logic reads. */
  datatype Event = Event(id: int, title: string, status: string)

  const Data: seq<Event> := [
    Event(1, "Rock Legends", "Ativo"),
    Event(2, "Sexta-Feira Country", "Ativo"),
    Event(3, "teste de lotes", "Ativo")
  ]

  const K: nat := 6

  datatype Criteria = Criteria(term: string, status: string)

  const Defaults: Criteria := Criteria("", "Eventos Ativos")

  /** Only the title is searched, ignoring case; the status plays no part. */
  function Matches(c: Criteria, x: Event): (b: bool)
    ensures b <==> Contains(LowerStr(x.title), LowerStr(c.term))
  {
    FieldMatches(Folded(x.title), c.term)
  }

  /** The matching events of `rows`, in order. */
  function Filtered(rows: seq<Event>, c: Criteria): (r: seq<Event>)
    ensures IsSubsequence(r, rows)
    ensures forall x :: x in r <==> x in rows && Matches(c, x)
    ensures forall x :: multiset(r)[x] == if Matches(c, x) then multiset(rows)[x] else 0
  {
    Filter(rows, x => Matches(c, x))
  }

  /** The rows of the current page. */
  function Visible(rows: seq<Event>, v: View<Criteria>): (r: seq<Event>)
    ensures |r| <= K
    ensures forall x :: x in r ==> x in rows && Matches(v.criteria, x)
    ensures v.page >= 1 ==>
      var f := Filtered(rows, v.criteria);
      var start := (v.page - 1) * K;
      start >= 0 && r == f[Min(start, |f|)..Min(start + K, |f|)]
  {
    Page(Filtered(rows, v.criteria), v.page, K)
  }

  /** Editing the search box or the status drop-down: the page number is kept. */
  function SetTerm(v: View<Criteria>, t: string): (r: View<Criteria>)
    ensures r.page == v.page
    ensures r.criteria == v.criteria.(term := t)
  {
    v.(criteria := v.criteria.(term := t))
  }

  function SetStatus(v: View<Criteria>, s: string): (r: View<Criteria>)
    ensures r.page == v.page
    ensures r.criteria == v.criteria.(status := s)
  {
    v.(criteria := v.criteria.(status := s))
  }

  /** The clear button shows the first page of the whole list. */
  function Clear(v: View<Criteria>): (r: View<Criteria>)
    ensures r.page == 1
    ensures r.criteria == Defaults
    ensures forall rows :: Filtered(rows, r.criteria) == rows
  {
    forall rows ensures Filtered(rows, Defaults) == rows { DefaultsShowAll(rows); }
    View(Defaults, 1)
  }

  /** With an empty search box every event is listed. */
  lemma DefaultsShowAll(rows: seq<Event>)
    ensures Filtered(rows, Defaults) == rows
  {
    forall i | 0 <= i < |rows| ensures Matches(Defaults, rows[i]) {
      EmptyTermMatches(Folded(rows[i].title));
    }
    FilterKeepsAll(rows, x => Matches(Defaults, x));
  }

  /** The status selection never changes the list, although the filter is recomputed
      when it changes. */
  lemma StatusIgnored(rows: seq<Event>, v: View<Criteria>, s: string)
    ensures SetStatus(v, s).page == v.page
    ensures Filtered(rows, SetStatus(v, s).criteria) == Filtered(rows, v.criteria)
    ensures Visible(rows, SetStatus(v, s)) == Visible(rows, v)
  {
    FilterAgree(rows, x => Matches(SetStatus(v, s).criteria, x), x => Matches(v.criteria, x));
  }

  /** The four cards: the number of events, then fixed values that do not look at
      the events at all. */
  datatype Cards = Cards(total: nat, proximos: nat, passados: nat, vendidos: string)

  function Stats(rows: seq<Event>): (s: Cards)
    ensures s.total == |rows|
  {
    Cards(|rows|, 1, 2, "Ingressos Vendidos")
  }

  /** Only the number of events reaches the cards: two lists of the same length,
      whatever their statuses, show the same cards. */
  lemma CardsIgnoreStatuses(a: seq<Event>, b: seq<Event>)
    requires |a| == |b|
    ensures Stats(a) == Stats(b)
  {
  }

  /** On the mock data all three events are active, yet the cards report one
      upcoming and two past events. */
  lemma MockCards()
    ensures Stats(Data).total == 3
    ensures Stats(Data).proximos == 1 && Stats(Data).passados == 2
    ensures Stats(Data).proximos + Stats(Data).passados == |Data|
    ensures forall i :: 0 <= i < |Data| ==> Data[i].status == "Ativo"
  {
  }
}

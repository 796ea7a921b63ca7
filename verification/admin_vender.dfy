/** The ADMIN sales list (`apps/admin/pages/vender/Vender.tsx`): a search over the
    event name; the status drop-down is kept in state but never consulted; five rows
    a page. */
module AdminVender {
  import opened Text
  import opened Seqs
  import opened Paging
  import opened Search
  import opened ListView

  /** An event on sale, reduced to the fields the list logic reads. */
  datatype SalesEvent = SalesEvent(id: int, eventName: string)

  const Data: seq<SalesEvent> := [
    SalesEvent(1, "Rock Legends"),
    SalesEvent(2, "Sexta-Feira Country"),
    SalesEvent(3, "teste de lotes")
  ]

  const K: nat := 5

  datatype Criteria = Criteria(term: string, status: string)

  const Defaults: Criteria := Criteria("", "Eventos Ativos")

  /** Only the event name is searched, ignoring case; the status plays no part. */
  function Matches(c: Criteria, x: SalesEvent): (b: bool)
    ensures b <==> Contains(LowerStr(x.eventName), LowerStr(c.term))
  {
    FieldMatches(Folded(x.eventName), c.term)
  }

  /** The matching events of `rows`, in order. */
  function Filtered(rows: seq<SalesEvent>, c: Criteria): (r: seq<SalesEvent>)
    ensures IsSubsequence(r, rows)
    ensures forall x :: x in r <==> x in rows && Matches(c, x)
    ensures forall x :: multiset(r)[x] == if Matches(c, x) then multiset(rows)[x] else 0
  {
    Filter(rows, x => Matches(c, x))
  }

  /** The rows of the current page. */
  function Visible(rows: seq<SalesEvent>, v: View<Criteria>): (r: seq<SalesEvent>)
    ensures |r| <= K
    ensures forall x :: x in r ==> x in rows && Matches(v.criteria, x)
    ensures v.page >= 1 ==>
      var f := Filtered(rows, v.criteria);
      var start := (v.page - 1) * K;
      start >= 0 && r == f[Min(start, |f|)..Min(start + K, |f|)]
  {
    Page(Filtered(rows, v.criteria), v.page, K)
  }

  /** Editing the search box or the status drop-down: the page number is kept. */
  function SetTerm(v: View<Criteria>, t: string): (r: View<Criteria>)
    ensures r.page == v.page
    ensures r.criteria == v.criteria.(term := t)
  {
    v.(criteria := v.criteria.(term := t))
  }

  function SetStatus(v: View<Criteria>, s: string): (r: View<Criteria>)
    ensures r.page == v.page
    ensures r.criteria == v.criteria.(status := s)
  {
    v.(criteria := v.criteria.(status := s))
  }

  /** The clear button resets term and status and shows the first page of the
      whole list. */
  function Clear(v: View<Criteria>): (r: View<Criteria>)
    ensures r.page == 1
    ensures r.criteria == Defaults
    ensures forall rows :: Filtered(rows, r.criteria) == rows
  {
    forall rows ensures Filtered(rows, Defaults) == rows { DefaultsShowAll(rows); }
    View(Defaults, 1)
  }

  /** With an empty search box every event is listed. */
  lemma DefaultsShowAll(rows: seq<SalesEvent>)
    ensures Filtered(rows, Defaults) == rows
  {
    forall i | 0 <= i < |rows| ensures Matches(Defaults, rows[i]) {
      EmptyTermMatches(Folded(rows[i].eventName));
    }
    FilterKeepsAll(rows, x => Matches(Defaults, x));
  }

  /** The status selection never changes the list. */
  lemma StatusIgnored(rows: seq<SalesEvent>, v: View<Criteria>, s: string)
    ensures SetStatus(v, s).page == v.page
    ensures Filtered(rows, SetStatus(v, s).criteria) == Filtered(rows, v.criteria)
    ensures Visible(rows, SetStatus(v, s)) == Visible(rows, v)
  {
    FilterAgree(rows, x => Matches(SetStatus(v, s).criteria, x), x => Matches(v.criteria, x));
  }

  /** The four cards: the number of events, then fixed values. */
  datatype Cards = Cards(eventos: nat, disponiveis: nat, vendidos: nat, proximos: nat)

  function Stats(rows: seq<SalesEvent>): (s: Cards)
    ensures s.eventos == |rows|
  {
    Cards(|rows|, 88, 5, 1)
  }

  /** Only the number of events reaches the cards. */
  lemma CardsIgnoreContents(a: seq<SalesEvent>, b: seq<SalesEvent>)
    requires |a| == |b|
    ensures Stats(a) == Stats(b)
  {
  }
}

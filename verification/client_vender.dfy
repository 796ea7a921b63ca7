/** The CLIENT sales list (`apps/client/pages/vender/Vender.tsx`): a search over the
    event name ignoring case, a status drop-down that is kept in state but never
    consulted, five rows a page, fixed cards and no clear button. */
module ClientVender {
  import opened Text
  import opened Seqs
  import opened Paging
  import opened Search
  import opened ListView

  /** An event on sale, reduced to the fields the list logic reads. */
  datatype SalesEvent = SalesEvent(id: int, name: string)

  const Data: seq<SalesEvent> := [
    SalesEvent(1, "Sexta-Feira Country"),
    SalesEvent(2, "Sexta-Feira Countrygf"),
    SalesEvent(3, "Sexta-Feira Countrygfg"),
    SalesEvent(4, "tgshehe3th")
  ]

  const K: nat := 5

  datatype Criteria = Criteria(term: string, status: string)

  const Defaults: Criteria := Criteria("", "Eventos Ativos")

  /** Only the name is searched, ignoring case; the status plays no part. */
  function Matches(c: Criteria, x: SalesEvent): (b: bool)
    ensures b <==> Contains(LowerStr(x.name), LowerStr(c.term))
  {
    FieldMatches(Folded(x.name), c.term)
  }

  /** The matching events of `rows`, in order. */
  function Filtered(rows: seq<SalesEvent>, c: Criteria): (r: seq<SalesEvent>)
    ensures IsSubsequence(r, rows)
    ensures forall x :: x in r <==> x in rows && Matches(c, x)
    ensures forall x :: multiset(r)[x] == if Matches(c, x) then multiset(rows)[x] else 0
  {
    Filter(rows, x => Matches(c, x))
  }

  /** The rows of the current page. */
  function Visible(rows: seq<SalesEvent>, v: View<Criteria>): (r: seq<SalesEvent>)
    ensures |r| <= K
    ensures forall x :: x in r ==> x in rows && Matches(v.criteria, x)
    ensures v.page >= 1 ==>
      var f := Filtered(rows, v.criteria);
      var start := (v.page - 1) * K;
      start >= 0 && r == f[Min(start, |f|)..Min(start + K, |f|)]
  {
    Page(Filtered(rows, v.criteria), v.page, K)
  }

  /** Editing the search box or the drop-down: the page number is kept. The page has
      no clear action. */
  function SetTerm(v: View<Criteria>, t: string): (r: View<Criteria>)
    ensures r.page == v.page
    ensures r.criteria == v.criteria.(term := t)
  {
    v.(criteria := v.criteria.(term := t))
  }

  function SetStatus(v: View<Criteria>, s: string): (r: View<Criteria>)
    ensures r.page == v.page
    ensures r.criteria == v.criteria.(status := s)
  {
    v.(criteria := v.criteria.(status := s))
  }

  /** With an empty search box every event is listed. */
  lemma DefaultsShowAll(rows: seq<SalesEvent>)
    ensures Filtered(rows, Defaults) == rows
  {
    forall i | 0 <= i < |rows| ensures Matches(Defaults, rows[i]) {
      EmptyTermMatches(Folded(rows[i].name));
    }
    FilterKeepsAll(rows, x => Matches(Defaults, x));
  }

  /** The status selection never changes the list. */
  lemma StatusIgnored(rows: seq<SalesEvent>, v: View<Criteria>, s: string)
    ensures SetStatus(v, s).page == v.page
    ensures Filtered(rows, SetStatus(v, s).criteria) == Filtered(rows, v.criteria)
    ensures Visible(rows, SetStatus(v, s)) == Visible(rows, v)
  {
    FilterAgree(rows, x => Matches(SetStatus(v, s).criteria, x), x => Matches(v.criteria, x));
  }

  /** A term that is a piece of an event's name in lower case finds that event. */
  lemma NameFindsEvent(rows: seq<SalesEvent>, term: string, j: int, i: nat)
    requires 0 <= j < |rows| && OccursAt(LowerStr(rows[j].name), LowerStr(term), i)
    ensures rows[j] in Filtered(rows, Defaults.(term := term))
  {
    ContainsAt(LowerStr(rows[j].name), LowerStr(term), i);
  }

  /** The four cards are fixed numbers, not derived from the rows. */
  datatype Cards = Cards(eventos: nat, disponiveis: nat, vendidos: nat, proximos: nat)

  const Shown: Cards := Cards(4, 43, 5, 4)

  /** Of the fixed cards, the number of events agrees with the mock list, and every
      mock event is listed with the search box empty. */
  lemma ShownEventsMatchData()
    ensures Shown.eventos == |Data| == |Filtered(Data, Defaults)|
  {
    DefaultsShowAll(Data);
  }
}

/** The CLIENT guest-group list (`apps/client/pages/convites/Convites.tsx`): a search
    over group and event ignoring case, an event drop-down, five rows a page, and an
    effect that goes back to page 1 whenever the search term or the event changes. */
module ClientConvites {
  import opened Text
  import opened Seqs
  import opened Paging
  import opened Search
  import opened ListView

  /** A guest group, reduced to the fields the list logic reads. */
  datatype Group = Group(id: int, evento: string, grupo: string, quantidade: int)

  const Data: seq<Group> := [
    Group(1, "Rock Legends", "Familia", 3),
    Group(2, "Rock Legends", "VIPs", 2),
    Group(3, "Festival de Verão", "Promoters", 15),
    Group(4, "Noite de Gala", "Imprensa", 5),
    Group(5, "Sexta-Feira Country", "Sócios", 50),
    Group(6, "Rock Legends", "Amigos", 8),
    Group(7, "Festival de Verão", "Patrocinadores", 10),
    Group(8, "Noite de Gala", "Influencers", 12),
    Group(9, "Sexta-Feira Country", "Funcionários", 20),
    Group(10, "Rock Legends", "Camarote", 4),
    Group(11, "Festival de Verão", "Pista", 100),
    Group(12, "Noite de Gala", "Diretoria", 6)
  ]

  const K: nat := 5
  const AllEvents: string := "Todos os Eventos"

  datatype Criteria = Criteria(term: string, event: string)

  const Defaults: Criteria := Criteria("", AllEvents)

  /** The row test: group or event contains the term, ignoring case, and the event
      drop-down is at its sentinel or names the row's event. */
  function Matches(c: Criteria, x: Group): (b: bool)
    ensures b <==>
      && (Contains(LowerStr(x.grupo), LowerStr(c.term)) || Contains(LowerStr(x.evento), LowerStr(c.term)))
      && (c.event == AllEvents || x.evento == c.event)
  {
    && (FieldMatches(Folded(x.grupo), c.term) || FieldMatches(Folded(x.evento), c.term))
    && Allows(c.event, AllEvents, x.evento)
  }

  /** The matching groups of `rows`, in order. */
  function Filtered(rows: seq<Group>, c: Criteria): (r: seq<Group>)
    ensures IsSubsequence(r, rows)
    ensures forall x :: x in r <==> x in rows && Matches(c, x)
    ensures forall x :: multiset(r)[x] == if Matches(c, x) then multiset(rows)[x] else 0
  {
    Filter(rows, x => Matches(c, x))
  }

  /** The rows of the current page. */
  function Visible(rows: seq<Group>, v: View<Criteria>): (r: seq<Group>)
    ensures |r| <= K
    ensures forall x :: x in r ==> x in rows && Matches(v.criteria, x)
    ensures v.page >= 1 ==>
      var f := Filtered(rows, v.criteria);
      var start := (v.page - 1) * K;
      start >= 0 && r == f[Min(start, |f|)..Min(start + K, |f|)]
  {
    Page(Filtered(rows, v.criteria), v.page, K)
  }

  /** A change of criteria followed by the reset effect: the effect runs only when a
      criterion actually changed, since setting a state to its own value re-renders
      nothing. */
  function Settle(v: View<Criteria>, c: Criteria): (r: View<Criteria>)
    ensures r.criteria == c
    ensures c != v.criteria ==> r.page == 1
    ensures c == v.criteria ==> r == v
  {
    if c == v.criteria then v else View(c, 1)
  }

  /** Typing in the search box and choosing an event. */
  function SetTerm(v: View<Criteria>, t: string): (r: View<Criteria>)
    ensures r.criteria == v.criteria.(term := t)
    ensures r.page == 1 || r == v
  {
    Settle(v, v.criteria.(term := t))
  }

  function SetEvent(v: View<Criteria>, e: string): (r: View<Criteria>)
    ensures r.criteria == v.criteria.(event := e)
    ensures r.page == 1 || r == v
  {
    Settle(v, v.criteria.(event := e))
  }

  /** The clear button resets term and event; the page goes back to 1 through the
      effect, unless both already held their defaults, in which case nothing
      changes at all. */
  function Clear(v: View<Criteria>): (r: View<Criteria>)
    ensures forall rows :: Filtered(rows, r.criteria) == rows
    ensures v.criteria != Defaults ==> r == View(Defaults, 1)
    ensures v.criteria == Defaults ==> r == v
  {
    forall rows ensures Filtered(rows, Defaults) == rows { DefaultsShowAll(rows); }
    Settle(v, Defaults)
  }

  /** With no criteria every group is listed. */
  lemma DefaultsShowAll(rows: seq<Group>)
    ensures Filtered(rows, Defaults) == rows
  {
    forall i | 0 <= i < |rows| ensures Matches(Defaults, rows[i]) {
      EmptyTermMatches(Folded(rows[i].grupo));
    }
    FilterKeepsAll(rows, x => Matches(Defaults, x));
  }

  /** Because of the reset effect, an edit that changes the criteria never strands
      the user on an empty page while some group matches: the first page is shown. */
  lemma EditShowsFirstPage(rows: seq<Group>, v: View<Criteria>, c: Criteria)
    requires c != v.criteria
    ensures Settle(v, c).page == 1
    ensures |Filtered(rows, c)| > 0 ==> |Visible(rows, Settle(v, c))| > 0
    ensures Visible(rows, Settle(v, c)) == Page(Filtered(rows, c), 1, K)
  {
    PageSizes(Filtered(rows, c), 1, K);
  }

  /** The reset does not reach the clear button pressed at the defaults: from a page
      past the end it stays there with an empty table. */
  lemma ClearAtDefaultsPastTheEnd(rows: seq<Group>, p: int)
    requires p > TotalPages(|rows|, K)
    ensures Clear(View(Defaults, p)).page == p
    ensures Visible(rows, Clear(View(Defaults, p))) == []
  {
    DefaultsShowAll(rows);
    PageSizes(rows, p, K);
  }

  /** Twelve rows under no criteria make three pages of 5, 5 and 2 rows. */
  lemma PagesOfTwelve(rows: seq<Group>)
    requires |rows| == 12
    ensures TotalPages(|rows|, K) == 3
    ensures |Visible(rows, View(Defaults, 1))| == 5
    ensures |Visible(rows, View(Defaults, 2))| == 5
    ensures |Visible(rows, View(Defaults, 3))| == 2
    ensures Visible(rows, View(Defaults, 4)) == []
  {
    DefaultsShowAll(rows);
    PageSizes(rows, 1, K);
    PageSizes(rows, 2, K);
    PageSizes(rows, 3, K);
    PageSizes(rows, 4, K);
  }

  /** The mock list therefore spans three pages. */
  lemma MockPages()
    ensures TotalPages(|Data|, K) == 3
    ensures |Visible(Data, View(Defaults, 3))| == 2
  {
    PagesOfTwelve(Data);
  }

  function EventOf(x: Group): string { x.evento }
  function GroupOf(x: Group): string { x.grupo }
  function QuantityOf(x: Group): int { x.quantidade }

  /** The four cards; the distinct-event count is shown twice. */
  datatype Cards = Cards(eventos: nat, convites: int, eventosUnicos: nat, clientesUnicos: nat)

  /** The cards take the rows and nothing else: distinct events (twice), the sum of
      the quantities, and the distinct groups. */
  function Stats(rows: seq<Group>): (s: Cards)
    ensures s.eventos == s.eventosUnicos == |set i | 0 <= i < |rows| :: rows[i].evento|
    ensures s.convites == Sum(rows, QuantityOf)
    ensures (forall i :: 0 <= i < |rows| ==> rows[i].quantidade >= 0) ==> s.convites >= 0
    ensures s.clientesUnicos == |set i | 0 <= i < |rows| :: rows[i].grupo|
  {
    var es := Map(rows, EventOf);
    var gs := Map(rows, GroupOf);
    assert Elems(es) == set i | 0 <= i < |rows| :: rows[i].evento;
    assert Elems(gs) == set i | 0 <= i < |rows| :: rows[i].grupo;
    SumNonNegative(rows, QuantityOf);
    var e := DistinctCount(es);
    Cards(e, Sum(rows, QuantityOf), e, DistinctCount(gs))
  }

  /** On the mock data the invitation card reads 235. */
  lemma MockCards()
    ensures Stats(Data).convites == 235
  {
    TotalIsSum(Data, QuantityOf);
  }

  /** The event drop-down: the sentinel, then each event of the rows once, in order
      of first appearance. */
  function EventOptions(rows: seq<Group>): (r: seq<string>)
    ensures |r| >= 1 && r[0] == AllEvents
    ensures NoDup(r[1..])
    ensures forall e :: e in r[1..] <==> exists i :: 0 <= i < |rows| && rows[i].evento == e
    ensures forall x :: x in r[1..] <==> x in Map(rows, EventOf)
    ensures forall i, j :: 1 <= i < j < |r| ==>
      FirstIndex(Map(rows, EventOf), r[i]) < FirstIndex(Map(rows, EventOf), r[j])
  {
    var d := Distinct(Map(rows, EventOf));
    assert ([AllEvents] + d)[1..] == d;
    [AllEvents] + d
  }

  /** Every offered event other than the sentinel lists at least one group, and only
      groups of that event. */
  lemma EventOptionSelects(rows: seq<Group>, e: string)
    requires e in EventOptions(rows)[1..] && e != AllEvents
    ensures |Filtered(rows, Defaults.(event := e))| > 0
    ensures forall x :: x in Filtered(rows, Defaults.(event := e)) ==> x.evento == e
  {
    var c := Defaults.(event := e);
    var i :| 0 <= i < |rows| && rows[i].evento == e;
    EmptyTermMatches(Folded(rows[i].grupo));
    assert Matches(c, rows[i]);
    var fl := Filtered(rows, c);
    assert rows[i] in fl;
  }
}

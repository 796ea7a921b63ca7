/** The ADMIN invitation list (`apps/admin/pages/convites/Convites.tsx`): a search
    over client name, client e-mail and event, a status and an event drop-down,
    five rows a page. */
module AdminConvites {
  import opened Text
  import opened Seqs
  import opened Paging
  import opened Search
  import opened ListView

  datatype Status = Ativo | Desativado

  /** The status as the data and the drop-down spell it. */
  function StatusName(s: Status): string
  {
    match s
    case Ativo => "Ativo"
    case Desativado => "Desativado"
  }

  /** An invitation batch, reduced to the fields the list logic reads. */
  datatype Invite = Invite(id: int, clientName: string, clientEmail: string, count: int, eventName: string, status: Status)

  const Data: seq<Invite> := [
    Invite(1, "Alex", "alexssandromercer@gmail.com", 3, "Rock Legends", Desativado),
    Invite(2, "Alex", "alexssandromercer@gmail.com", 5, "Rock Legends", Ativo),
    Invite(3, "Mariana Silva", "mariana.silva@email.com", 2, "Festival de Verão", Ativo),
    Invite(4, "João Souza", "joao.souza@email.com", 1, "Sexta-Feira Country", Ativo),
    Invite(5, "Fernanda Costa", "fernanda.costa@email.com", 4, "Rock Legends", Ativo),
    Invite(6, "Carlos Oliveira", "carlos.oliveira@email.com", 2, "Noite de Gala", Desativado)
  ]

  const K: nat := 5
  const AllStatuses: string := "Todos os Status"
  const AllEvents: string := "Todos os Eventos"

  datatype Criteria = Criteria(term: string, status: string, event: string)

  const Defaults: Criteria := Criteria("", AllStatuses, AllEvents)

  /** The row test: name, e-mail or event contains the term, ignoring case, and
      each drop-down is at its sentinel or equals the row's value. */
  function Matches(c: Criteria, x: Invite): (b: bool)
    ensures b <==>
      && (|| Contains(LowerStr(x.clientName), LowerStr(c.term))
          || Contains(LowerStr(x.clientEmail), LowerStr(c.term))
          || Contains(LowerStr(x.eventName), LowerStr(c.term)))
      && (c.status == AllStatuses || StatusName(x.status) == c.status)
      && (c.event == AllEvents || x.eventName == c.event)
  {
    && (|| FieldMatches(Folded(x.clientName), c.term)
        || FieldMatches(Folded(x.clientEmail), c.term)
        || FieldMatches(Folded(x.eventName), c.term))
    && Allows(c.status, AllStatuses, StatusName(x.status))
    && Allows(c.event, AllEvents, x.eventName)
  }

  /** The matching invitations of `rows`, in order. */
  function Filtered(rows: seq<Invite>, c: Criteria): (r: seq<Invite>)
    ensures IsSubsequence(r, rows)
    ensures forall x :: x in r <==> x in rows && Matches(c, x)
    ensures forall x :: multiset(r)[x] == if Matches(c, x) then multiset(rows)[x] else 0
  {
    Filter(rows, x => Matches(c, x))
  }

  /** The rows of the current page. */
  function Visible(rows: seq<Invite>, v: View<Criteria>): (r: seq<Invite>)
    ensures |r| <= K
    ensures forall x :: x in r ==> x in rows && Matches(v.criteria, x)
    ensures v.page >= 1 ==>
      var f := Filtered(rows, v.criteria);
      var start := (v.page - 1) * K;
      start >= 0 && r == f[Min(start, |f|)..Min(start + K, |f|)]
  {
    Page(Filtered(rows, v.criteria), v.page, K)
  }

  /** Editing the search box or a drop-down: the page number is kept. */
  function SetTerm(v: View<Criteria>, t: string): (r: View<Criteria>)
    ensures r.page == v.page
    ensures r.criteria == v.criteria.(term := t)
  {
    v.(criteria := v.criteria.(term := t))
  }

  function SetStatus(v: View<Criteria>, s: string): (r: View<Criteria>)
    ensures r.page == v.page
    ensures r.criteria == v.criteria.(status := s)
  {
    v.(criteria := v.criteria.(status := s))
  }

  function SetEvent(v: View<Criteria>, e: string): (r: View<Criteria>)
    ensures r.page == v.page
    ensures r.criteria == v.criteria.(event := e)
  {
    v.(criteria := v.criteria.(event := e))
  }

  /** The clear button shows the first page of the whole list. */
  function Clear(v: View<Criteria>): (r: View<Criteria>)
    ensures r.page == 1
    ensures r.criteria == Defaults
    ensures forall rows :: Filtered(rows, r.criteria) == rows
  {
    forall rows ensures Filtered(rows, Defaults) == rows { DefaultsShowAll(rows); }
    View(Defaults, 1)
  }

  /** With no criteria every invitation is listed. */
  lemma DefaultsShowAll(rows: seq<Invite>)
    ensures Filtered(rows, Defaults) == rows
  {
    forall i | 0 <= i < |rows| ensures Matches(Defaults, rows[i]) {
      EmptyTermMatches(Folded(rows[i].clientName));
    }
    FilterKeepsAll(rows, x => Matches(Defaults, x));
  }

  /** Because an edit keeps the page number, the mock list on its second page (one
      row) shows nothing once "Ativo" is selected: four rows remain, all on page 1. */
  lemma StalePageOnMockData()
    ensures Visible(Data, View(Defaults, 2)) == [Data[5]]
    ensures SetStatus(View(Defaults, 2), "Ativo").page == 2
    ensures |Filtered(Data, Defaults.(status := "Ativo"))| == 4
    ensures Visible(Data, SetStatus(View(Defaults, 2), "Ativo")) == []
  {
    MockSecondPage();
    MockActiveCount();
  }

  lemma MockSecondPage()
    ensures Visible(Data, View(Defaults, 2)) == [Data[5]]
  {
    SecondPageOfSix(Data);
  }

  lemma SecondPageOfSix(rows: seq<Invite>)
    requires |rows| == 6
    ensures Visible(rows, View(Defaults, 2)) == [rows[5]]
  {
    DefaultsShowAll(rows);
    assert Visible(rows, View(Defaults, 2)) == Page(rows, 2, K) == rows[5..6];
  }

  lemma MockActiveCount()
    ensures |Filtered(Data, Defaults.(status := "Ativo"))| == 4
  {
    var c := Defaults.(status := "Ativo");
    forall i | 0 <= i < |Data| ensures Matches(c, Data[i]) == IsAtivo(Data[i]) {
      EmptyTermMatches(Folded(Data[i].clientName));
    }
    FilterAgree(Data, x => Matches(c, x), IsAtivo);
    CountIsFilterLength(Data, IsAtivo);
    TallyIsCount(Data, IsAtivo);
  }

  predicate IsAtivo(x: Invite) { x.status == Ativo }
  function CountOf(x: Invite): int { x.count }
  function EventOf(x: Invite): string { x.eventName }

  /** The four cards. */
  datatype Cards = Cards(total: nat, ativos: nat, convites: int, eventos: nat)

  /** The cards take the rows and nothing else: the number of batches, the active
      ones, the invitations over all batches, and the distinct events. */
  function Stats(rows: seq<Invite>): (s: Cards)
    ensures s.total == |rows|
    ensures s.ativos == |set i | 0 <= i < |rows| && rows[i].status == Ativo|
    ensures s.convites == Sum(rows, CountOf)
    ensures (forall i :: 0 <= i < |rows| ==> rows[i].count >= 0) ==> s.convites >= 0
    ensures s.eventos == |set i | 0 <= i < |rows| :: rows[i].eventName|
  {
    var es := Map(rows, EventOf);
    assert Elems(es) == set i | 0 <= i < |rows| :: rows[i].eventName;
    assert Positions(rows, IsAtivo) == set i | 0 <= i < |rows| && rows[i].status == Ativo;
    SumNonNegative(rows, CountOf);
    Cards(|rows|, Count(rows, IsAtivo), Sum(rows, CountOf), DistinctCount(es))
  }

  /** On the mock data the cards read 6 batches, 4 active, 17 invitations. */
  lemma MockCards()
    ensures Stats(Data).total == 6 && Stats(Data).ativos == 4 && Stats(Data).convites == 17
  {
    TallyIsCount(Data, IsAtivo);
    TotalIsSum(Data, CountOf);
  }

  /** The event drop-down after its sentinel: each event of the rows once, in order
      of first appearance. */
  function EventOptions(rows: seq<Invite>): (r: seq<string>)
    ensures NoDup(r)
    ensures forall e :: e in r <==> exists i :: 0 <= i < |rows| && rows[i].eventName == e
    ensures forall x :: x in r <==> x in Map(rows, EventOf)
    ensures forall i, j :: 0 <= i < j < |r| ==>
      FirstIndex(Map(rows, EventOf), r[i]) < FirstIndex(Map(rows, EventOf), r[j])
  {
    Distinct(Map(rows, EventOf))
  }

  /** Every offered event lists at least one invitation, and only invitations to it. */
  lemma EventOptionSelects(rows: seq<Invite>, e: string)
    requires e in EventOptions(rows) && e != AllEvents
    ensures |Filtered(rows, Defaults.(event := e))| > 0
    ensures forall x :: x in Filtered(rows, Defaults.(event := e)) ==> x.eventName == e
  {
    var c := Defaults.(event := e);
    var i :| 0 <= i < |rows| && rows[i].eventName == e;
    EmptyTermMatches(Folded(rows[i].clientName));
    assert Matches(c, rows[i]);
    var fl := Filtered(rows, c);
    assert rows[i] in fl;
  }
}

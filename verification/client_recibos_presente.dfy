/** The CLIENT gift-receipt list (`apps/client/pages/recibos/RecibosPresente.tsx`): a
    search over the event name ignoring case or the order code as typed, status and
    event drop-downs, eight rows a page. */
module ClientRecibosPresente {
  import opened Text
  import opened Seqs
  import opened Paging
  import opened Search
  import opened ListView

  datatype Status = Aprovado | Pendente | Cancelado

  /** The status as the data and the drop-down spell it. */
  function StatusName(s: Status): (n: string)
    ensures n != All
  {
    match s
    case Aprovado => "Aprovado"
    case Pendente => "Pendente"
    case Cancelado => "Cancelado"
  }

  /** A gift receipt, reduced to the fields the list logic reads. */
  datatype Receipt = Receipt(id: int, status: Status, eventName: string, code: string)

  const Data: seq<Receipt> := [
    Receipt(1, Aprovado, "Rock Legends", "9"),
    Receipt(2, Pendente, "Festival de Verão", "14"),
    Receipt(3, Cancelado, "Show Acústico", "5")
  ]

  const K: nat := 8

  /** Both drop-downs use the same sentinel. */
  const All: string := "Todos"

  datatype Criteria = Criteria(term: string, status: string, event: string)

  const Defaults: Criteria := Criteria("", All, All)

  /** The row test: the event name contains the term ignoring case, or the code
      contains it exactly; and each drop-down is at the sentinel or equal. */
  function Matches(c: Criteria, x: Receipt): (b: bool)
    ensures b <==>
      && (Contains(LowerStr(x.eventName), LowerStr(c.term)) || Contains(x.code, c.term))
      && (c.status == All || StatusName(x.status) == c.status)
      && (c.event == All || x.eventName == c.event)
  {
    && (FieldMatches(Folded(x.eventName), c.term) || FieldMatches(Exact(x.code), c.term))
    && Allows(c.status, All, StatusName(x.status))
    && Allows(c.event, All, x.eventName)
  }

  /** The matching receipts of `rows`, in order. */
  function Filtered(rows: seq<Receipt>, c: Criteria): (r: seq<Receipt>)
    ensures IsSubsequence(r, rows)
    ensures forall x :: x in r <==> x in rows && Matches(c, x)
    ensures forall x :: multiset(r)[x] == if Matches(c, x) then multiset(rows)[x] else 0
  {
    Filter(rows, x => Matches(c, x))
  }

  /** The rows of the current page. */
  function Visible(rows: seq<Receipt>, v: View<Criteria>): (r: seq<Receipt>)
    ensures |r| <= K
    ensures forall x :: x in r ==> x in rows && Matches(v.criteria, x)
    ensures v.page >= 1 ==>
      var f := Filtered(rows, v.criteria);
      var start := (v.page - 1) * K;
      start >= 0 && r == f[Min(start, |f|)..Min(start + K, |f|)]
  {
    Page(Filtered(rows, v.criteria), v.page, K)
  }

  /** Editing the search box or a drop-down: the page number is kept. */
  function SetTerm(v: View<Criteria>, t: string): (r: View<Criteria>)
    ensures r.page == v.page
    ensures r.criteria == v.criteria.(term := t)
  {
    v.(criteria := v.criteria.(term := t))
  }

  function SetStatus(v: View<Criteria>, s: string): (r: View<Criteria>)
    ensures r.page == v.page
    ensures r.criteria == v.criteria.(status := s)
  {
    v.(criteria := v.criteria.(status := s))
  }

  function SetEvent(v: View<Criteria>, e: string): (r: View<Criteria>)
    ensures r.page == v.page
    ensures r.criteria == v.criteria.(event := e)
  {
    v.(criteria := v.criteria.(event := e))
  }

  /** The clear button resets all three criteria and shows the first page of all
      receipts. */
  function Clear(v: View<Criteria>): (r: View<Criteria>)
    ensures r.page == 1
    ensures r.criteria == Defaults
    ensures forall rows :: Filtered(rows, r.criteria) == rows
  {
    forall rows ensures Filtered(rows, Defaults) == rows { DefaultsShowAll(rows); }
    View(Defaults, 1)
  }

  /** With no criteria every receipt is listed. */
  lemma DefaultsShowAll(rows: seq<Receipt>)
    ensures Filtered(rows, Defaults) == rows
  {
    forall i | 0 <= i < |rows| ensures Matches(Defaults, rows[i]) {
      EmptyTermMatches(Folded(rows[i].eventName));
    }
    FilterKeepsAll(rows, x => Matches(Defaults, x));
  }

  /** Any piece of a code, as typed, finds its receipt when the drop-downs are at
      their sentinels: searching "1" finds code "14" as well. */
  lemma CodeFindsReceipt(term: string, x: Receipt, i: nat)
    requires OccursAt(x.code, term, i)
    ensures Matches(Defaults.(term := term), x)
  {
    ContainsAt(x.code, term, i);
  }

  function EventOf(x: Receipt): string { x.eventName }

  /** The event drop-down: the sentinel, then each event of the rows once, in order
      of first appearance. */
  function EventOptions(rows: seq<Receipt>): (r: seq<string>)
    ensures |r| >= 1 && r[0] == All
    ensures NoDup(r[1..])
    ensures forall e :: e in r[1..] <==> exists i :: 0 <= i < |rows| && rows[i].eventName == e
    ensures forall x :: x in r[1..] <==> x in Map(rows, EventOf)
    ensures forall i, j :: 1 <= i < j < |r| ==>
      FirstIndex(Map(rows, EventOf), r[i]) < FirstIndex(Map(rows, EventOf), r[j])
  {
    var d := Distinct(Map(rows, EventOf));
    assert ([All] + d)[1..] == d;
    [All] + d
  }

  /** Every offered event other than the sentinel lists at least one receipt, and
      only receipts of that event. */
  lemma EventOptionSelects(rows: seq<Receipt>, e: string)
    requires e in EventOptions(rows)[1..] && e != All
    ensures |Filtered(rows, Defaults.(event := e))| > 0
    ensures forall x :: x in Filtered(rows, Defaults.(event := e)) ==> x.eventName == e
  {
    var c := Defaults.(event := e);
    var i :| 0 <= i < |rows| && rows[i].eventName == e;
    EmptyTermMatches(Folded(rows[i].eventName));
    assert Matches(c, rows[i]);
    var fl := Filtered(rows, c);
    assert rows[i] in fl;
  }

  /** Each status entry of the drop-down lists exactly the receipts in that status. */
  lemma StatusSelects(rows: seq<Receipt>, s: Status)
    ensures forall x :: x in Filtered(rows, Defaults.(status := StatusName(s))) <==> x in rows && x.status == s
  {
    forall x | x in rows && x.status == s ensures Matches(Defaults.(status := StatusName(s)), x) {
      EmptyTermMatches(Folded(x.eventName));
    }
  }
}

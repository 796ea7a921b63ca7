/** The CLIENT ticket-receipt list (`apps/client/pages/recibos/RecibosIngressos.tsx`):
    a search over order code and total, both as typed, a status drop-down, eight rows
    a page. */
module ClientRecibosIngressos {
  import opened Text
  import opened Seqs
  import opened Paging
  import opened Search
  import opened ListView

  datatype Status = Aprovado | Pendente | Cancelado

  /** The status as the data and the drop-down spell it. */
  function StatusName(s: Status): (n: string)
    ensures n != AllStatuses
  {
    match s
    case Aprovado => "Aprovado"
    case Pendente => "Pendente"
    case Cancelado => "Cancelado"
  }

  /** A ticket receipt, reduced to the fields the list logic reads. */
  datatype Receipt = Receipt(id: int, status: Status, code: string, total: string)

  const Data: seq<Receipt> := [
    Receipt(1, Aprovado, "16", "R$ 30,00"),
    Receipt(2, Aprovado, "12", "R$ 60,00"),
    Receipt(3, Cancelado, "8", "R$ 30,00")
  ]

  const K: nat := 8
  const AllStatuses: string := "Todos"

  datatype Criteria = Criteria(term: string, status: string)

  const Defaults: Criteria := Criteria("", AllStatuses)

  /** The row test: code or total contains the term exactly (no case folding), and
      the status drop-down is at its sentinel or equal. */
  function Matches(c: Criteria, x: Receipt): (b: bool)
    ensures b <==>
      && (Contains(x.code, c.term) || Contains(x.total, c.term))
      && (c.status == AllStatuses || StatusName(x.status) == c.status)
  {
    && (FieldMatches(Exact(x.code), c.term) || FieldMatches(Exact(x.total), c.term))
    && Allows(c.status, AllStatuses, StatusName(x.status))
  }

  /** The matching receipts of `rows`, in order. */
  function Filtered(rows: seq<Receipt>, c: Criteria): (r: seq<Receipt>)
    ensures IsSubsequence(r, rows)
    ensures forall x :: x in r <==> x in rows && Matches(c, x)
    ensures forall x :: multiset(r)[x] == if Matches(c, x) then multiset(rows)[x] else 0
  {
    Filter(rows, x => Matches(c, x))
  }

  /** The rows of the current page. */
  function Visible(rows: seq<Receipt>, v: View<Criteria>): (r: seq<Receipt>)
    ensures |r| <= K
    ensures forall x :: x in r ==> x in rows && Matches(v.criteria, x)
    ensures v.page >= 1 ==>
      var f := Filtered(rows, v.criteria);
      var start := (v.page - 1) * K;
      start >= 0 && r == f[Min(start, |f|)..Min(start + K, |f|)]
  {
    Page(Filtered(rows, v.criteria), v.page, K)
  }

  /** Editing the search box or the drop-down: the page number is kept. */
  function SetTerm(v: View<Criteria>, t: string): (r: View<Criteria>)
    ensures r.page == v.page
    ensures r.criteria == v.criteria.(term := t)
  {
    v.(criteria := v.criteria.(term := t))
  }

  function SetStatus(v: View<Criteria>, s: string): (r: View<Criteria>)
    ensures r.page == v.page
    ensures r.criteria == v.criteria.(status := s)
  {
    v.(criteria := v.criteria.(status := s))
  }

  /** The clear button resets term and status and shows the first page of all
      receipts. */
  function Clear(v: View<Criteria>): (r: View<Criteria>)
    ensures r.page == 1
    ensures r.criteria == Defaults
    ensures forall rows :: Filtered(rows, r.criteria) == rows
  {
    forall rows ensures Filtered(rows, Defaults) == rows { DefaultsShowAll(rows); }
    View(Defaults, 1)
  }

  /** With no criteria every receipt is listed. */
  lemma DefaultsShowAll(rows: seq<Receipt>)
    ensures Filtered(rows, Defaults) == rows
  {
    forall i | 0 <= i < |rows| ensures Matches(Defaults, rows[i]) {
      EmptyTermMatches(Exact(rows[i].code));
    }
    FilterKeepsAll(rows, x => Matches(Defaults, x));
  }

  /** Any piece of the total, as typed, finds its receipt under the sentinel status. */
  lemma TotalFindsReceipt(term: string, x: Receipt, i: nat)
    requires OccursAt(x.total, term, i)
    ensures Matches(Defaults.(term := term), x)
  {
    ContainsAt(x.total, term, i);
  }

  /** A term longer than both code and total finds nothing, whatever the status. */
  lemma LongTermFindsNothing(c: Criteria, x: Receipt)
    requires |c.term| > |x.code| && |c.term| > |x.total|
    ensures !Matches(c, x)
  {
    TooLong(x.code, c.term);
    TooLong(x.total, c.term);
  }

  /** Each status entry of the drop-down lists exactly the receipts in that status. */
  lemma StatusSelects(rows: seq<Receipt>, s: Status)
    ensures forall x :: x in Filtered(rows, Defaults.(status := StatusName(s))) <==> x in rows && x.status == s
  {
    forall x | x in rows && x.status == s ensures Matches(Defaults.(status := StatusName(s)), x) {
      EmptyTermMatches(Exact(x.code));
    }
  }
}

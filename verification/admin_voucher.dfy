/** The ADMIN voucher list (`apps/admin/pages/voucher/Voucher.tsx`): a search over
    client name and voucher code, a status drop-down, a branch drop-down that is kept
    in state but never consulted, five rows a page. */
module AdminVoucher {
  import opened Text
  import opened Seqs
  import opened Paging
  import opened Search
  import opened ListView

  /** The record type admits an expired voucher, which the drop-down does not offer. */
  datatype Status = NaoUsado | Usado | Vencido

  /** The status as the data and the drop-down spell it. */
  function StatusName(s: Status): string
  {
    match s
    case NaoUsado => "Não Usado"
    case Usado => "Usado"
    case Vencido => "Vencido"
  }

  /** A voucher, reduced to the fields the list logic reads. */
  datatype Voucher = Voucher(id: int, clientName: string, code: string, status: Status)

  const Data: seq<Voucher> := [
    Voucher(1, "pedro", "13SM-1V20", NaoUsado),
    Voucher(2, "Alex", "13SM-291V25", NaoUsado),
    Voucher(3, "Alex", "13SM-371V10", NaoUsado),
    Voucher(4, "João Silva", "13SM-555V50", Usado)
  ]

  const K: nat := 5
  const AllStatuses: string := "Todos os Status"
  const AllBranches: string := "--- Todas as Filiais ---"

  /** The entries of the status drop-down. */
  const StatusOptions: seq<string> := [AllStatuses, "Não Usado", "Usado"]

  datatype Criteria = Criteria(term: string, status: string, filial: string)

  const Defaults: Criteria := Criteria("", AllStatuses, AllBranches)

  /** The row test: name or code contains the term, ignoring case, and the status
      drop-down is at its sentinel or equal; the branch plays no part. */
  function Matches(c: Criteria, x: Voucher): (b: bool)
    ensures b <==>
      && (Contains(LowerStr(x.clientName), LowerStr(c.term)) || Contains(LowerStr(x.code), LowerStr(c.term)))
      && (c.status == AllStatuses || StatusName(x.status) == c.status)
  {
    && (FieldMatches(Folded(x.clientName), c.term) || FieldMatches(Folded(x.code), c.term))
    && Allows(c.status, AllStatuses, StatusName(x.status))
  }

  /** The matching vouchers of `rows`, in order. */
  function Filtered(rows: seq<Voucher>, c: Criteria): (r: seq<Voucher>)
    ensures IsSubsequence(r, rows)
    ensures forall x :: x in r <==> x in rows && Matches(c, x)
    ensures forall x :: multiset(r)[x] == if Matches(c, x) then multiset(rows)[x] else 0
  {
    Filter(rows, x => Matches(c, x))
  }

  /** The rows of the current page. */
  function Visible(rows: seq<Voucher>, v: View<Criteria>): (r: seq<Voucher>)
    ensures |r| <= K
    ensures forall x :: x in r ==> x in rows && Matches(v.criteria, x)
    ensures v.page >= 1 ==>
      var f := Filtered(rows, v.criteria);
      var start := (v.page - 1) * K;
      start >= 0 && r == f[Min(start, |f|)..Min(start + K, |f|)]
  {
    Page(Filtered(rows, v.criteria), v.page, K)
  }

  /** Editing the search box or a drop-down: the page number is kept. */
  function SetTerm(v: View<Criteria>, t: string): (r: View<Criteria>)
    ensures r.page == v.page
    ensures r.criteria == v.criteria.(term := t)
  {
    v.(criteria := v.criteria.(term := t))
  }

  function SetStatus(v: View<Criteria>, s: string): (r: View<Criteria>)
    ensures r.page == v.page
    ensures r.criteria == v.criteria.(status := s)
  {
    v.(criteria := v.criteria.(status := s))
  }

  function SetFilial(v: View<Criteria>, f: string): (r: View<Criteria>)
    ensures r.page == v.page
    ensures r.criteria == v.criteria.(filial := f)
  {
    v.(criteria := v.criteria.(filial := f))
  }

  /** The clear button resets all three criteria and shows the first page of the
      whole list. */
  function Clear(v: View<Criteria>): (r: View<Criteria>)
    ensures r.page == 1
    ensures r.criteria == Defaults
    ensures forall rows :: Filtered(rows, r.criteria) == rows
  {
    forall rows ensures Filtered(rows, Defaults) == rows { DefaultsShowAll(rows); }
    View(Defaults, 1)
  }

  /** With no criteria every voucher is listed. */
  lemma DefaultsShowAll(rows: seq<Voucher>)
    ensures Filtered(rows, Defaults) == rows
  {
    forall i | 0 <= i < |rows| ensures Matches(Defaults, rows[i]) {
      EmptyTermMatches(Folded(rows[i].clientName));
    }
    FilterKeepsAll(rows, x => Matches(Defaults, x));
  }

  /** The branch selection never changes the list. */
  lemma FilialIgnored(rows: seq<Voucher>, v: View<Criteria>, f: string)
    ensures Filtered(rows, SetFilial(v, f).criteria) == Filtered(rows, v.criteria)
    ensures Visible(rows, SetFilial(v, f)) == Visible(rows, v)
  {
    FilterAgree(rows, x => Matches(SetFilial(v, f).criteria, x), x => Matches(v.criteria, x));
  }

  /** With the status drop-down at one of its entries, an expired voucher is listed
      only under the sentinel. */
  lemma ExpiredOnlyUnderSentinel(c: Criteria, x: Voucher)
    requires c.status in StatusOptions
    requires x.status == Vencido && Matches(c, x)
    ensures c.status == AllStatuses
  {
  }

  predicate IsNaoUsado(x: Voucher) { x.status == NaoUsado }

  /** The two counting cards; the two money cards are left out. */
  datatype Cards = Cards(total: nat, ativos: nat)

  /** The cards take the rows and nothing else. */
  function Stats(rows: seq<Voucher>): (s: Cards)
    ensures s.total == |rows|
    ensures s.ativos == |set i | 0 <= i < |rows| && rows[i].status == NaoUsado|
  {
    assert Positions(rows, IsNaoUsado) == set i | 0 <= i < |rows| && rows[i].status == NaoUsado;
    Cards(|rows|, Count(rows, IsNaoUsado))
  }

  /** On the mock data the cards read 4 vouchers, 3 unused. */
  lemma MockCards()
    ensures Stats(Data) == Cards(4, 3)
  {
    TallyIsCount(Data, IsNaoUsado);
  }
}

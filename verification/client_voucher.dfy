/** The CLIENT voucher list (`apps/client/pages/voucher/Voucher.tsx`): a search over
    the voucher code ignoring case (the client name is not searched, although the
    placeholder offers it), six rows a page. */
module ClientVoucher {
  import opened Text
  import opened Seqs
  import opened Paging
  import opened Search
  import opened ListView

  datatype Status = NaoUsado | Usado

  /** A voucher, reduced to the fields the list logic reads. */
  datatype Voucher = Voucher(id: int, clientName: string, code: string, status: Status)

  const Data: seq<Voucher> := [
    Voucher(1, "Alex", "13SM-291V25", NaoUsado),
    Voucher(2, "Alex", "13SM-371V10", NaoUsado)
  ]

  const K: nat := 6

  /** The only criterion is the search term. */
  type Criteria = string

  const Defaults: Criteria := ""

  /** The row test: the code contains the term, ignoring case. */
  function Matches(term: Criteria, x: Voucher): (b: bool)
    ensures b <==> Contains(LowerStr(x.code), LowerStr(term))
  {
    FieldMatches(Folded(x.code), term)
  }

  /** The matching vouchers of `rows`, in order. */
  function Filtered(rows: seq<Voucher>, term: Criteria): (r: seq<Voucher>)
    ensures IsSubsequence(r, rows)
    ensures forall x :: x in r <==> x in rows && Matches(term, x)
    ensures forall x :: multiset(r)[x] == if Matches(term, x) then multiset(rows)[x] else 0
  {
    Filter(rows, x => Matches(term, x))
  }

  /** The rows of the current page. */
  function Visible(rows: seq<Voucher>, v: View<Criteria>): (r: seq<Voucher>)
    ensures |r| <= K
    ensures forall x :: x in r ==> x in rows && Matches(v.criteria, x)
    ensures v.page >= 1 ==>
      var f := Filtered(rows, v.criteria);
      var start := (v.page - 1) * K;
      start >= 0 && r == f[Min(start, |f|)..Min(start + K, |f|)]
  {
    Page(Filtered(rows, v.criteria), v.page, K)
  }

  /** Typing in the search box: the page number is kept. */
  function SetTerm(v: View<Criteria>, t: string): (r: View<Criteria>)
    ensures r.page == v.page
    ensures r.criteria == t
  {
    v.(criteria := t)
  }

  /** The clear button empties the search box and shows the first page of all
      vouchers. */
  function Clear(v: View<Criteria>): (r: View<Criteria>)
    ensures r.page == 1
    ensures r.criteria == Defaults
    ensures forall rows :: Filtered(rows, r.criteria) == rows
  {
    forall rows ensures Filtered(rows, Defaults) == rows { DefaultsShowAll(rows); }
    View(Defaults, 1)
  }

  /** With an empty search box every voucher is listed. */
  lemma DefaultsShowAll(rows: seq<Voucher>)
    ensures Filtered(rows, Defaults) == rows
  {
    forall i | 0 <= i < |rows| ensures Matches(Defaults, rows[i]) {
      EmptyTermMatches(Folded(rows[i].code));
    }
    FilterKeepsAll(rows, x => Matches(Defaults, x));
  }

  /** The client name takes no part in the search: changing it changes no outcome. */
  lemma NameNotSearched(term: Criteria, x: Voucher, name: string)
    ensures Matches(term, x.(clientName := name)) == Matches(term, x)
  {
  }

  /** Searching for a client name longer than every code finds nothing, even when
      that client owns vouchers. */
  lemma NameSearchFindsNothing(rows: seq<Voucher>, term: Criteria)
    requires forall i :: 0 <= i < |rows| ==> |term| > |rows[i].code|
    ensures Filtered(rows, term) == []
  {
    forall i | 0 <= i < |rows| ensures !Matches(term, rows[i]) {
      assert |LowerStr(term)| == |term|;
      TooLong(LowerStr(rows[i].code), LowerStr(term));
    }
    assert forall x :: x !in Filtered(rows, term);
  }

  predicate IsNaoUsado(x: Voucher) { x.status == NaoUsado }

  /** The two counting cards; the two money cards are left out. */
  datatype Cards = Cards(total: nat, ativos: nat)

  /** The cards take the rows and nothing else. */
  function Stats(rows: seq<Voucher>): (s: Cards)
    ensures s.total == |rows|
    ensures s.ativos == |set i | 0 <= i < |rows| && rows[i].status == NaoUsado|
  {
    assert Positions(rows, IsNaoUsado) == set i | 0 <= i < |rows| && rows[i].status == NaoUsado;
    Cards(|rows|, Count(rows, IsNaoUsado))
  }

  /** On the mock data the cards read 2 vouchers, both unused. */
  lemma MockCards()
    ensures Stats(Data) == Cards(2, 2)
  {
    TallyIsCount(Data, IsNaoUsado);
  }
}

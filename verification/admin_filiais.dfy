/** The ADMIN branch list (`apps/admin/pages/filiais/Filiais.tsx`): a search over the
    branch name, ignoring case, or the CNPJ as typed; six rows a page. */
module AdminFiliais {
  import opened Text
  import opened Seqs
  import opened Paging
  import opened Search
  import opened ListView

  /** A branch, reduced to the fields the list logic reads. */
  datatype Branch = Branch(id: int, name: string, cnpj: string, productsCount: int)

  const Data: seq<Branch> := [
    Branch(1, "UAI PDV - DEMONSTRACAO", "24.865.243/0001-50", 572),
    Branch(2, "Uaipdv - Shows", "54.884.603/0001-22", 1),
    Branch(3, "UAIPDV- Eventos", "39.106.040/0001-58", 8)
  ]

  const K: nat := 6

  /** The only criterion is the search term. */
  type Criteria = string

  const Defaults: Criteria := ""

  /** The row test: the name contains the term ignoring case, or the CNPJ contains
      it exactly. */
  function Matches(term: Criteria, x: Branch): (b: bool)
    ensures b <==> Contains(LowerStr(x.name), LowerStr(term)) || Contains(x.cnpj, term)
  {
    FieldMatches(Folded(x.name), term) || FieldMatches(Exact(x.cnpj), term)
  }

  /** The matching branches of `rows`, in order. */
  function Filtered(rows: seq<Branch>, term: Criteria): (r: seq<Branch>)
    ensures IsSubsequence(r, rows)
    ensures forall x :: x in r <==> x in rows && Matches(term, x)
    ensures forall x :: multiset(r)[x] == if Matches(term, x) then multiset(rows)[x] else 0
  {
    Filter(rows, x => Matches(term, x))
  }

  /** The rows of the current page. */
  function Visible(rows: seq<Branch>, v: View<Criteria>): (r: seq<Branch>)
    ensures |r| <= K
    ensures forall x :: x in r ==> x in rows && Matches(v.criteria, x)
    ensures v.page >= 1 ==>
      var f := Filtered(rows, v.criteria);
      var start := (v.page - 1) * K;
      start >= 0 && r == f[Min(start, |f|)..Min(start + K, |f|)]
  {
    Page(Filtered(rows, v.criteria), v.page, K)
  }

  /** Typing in the search box: the page number is kept. */
  function SetTerm(v: View<Criteria>, t: string): (r: View<Criteria>)
    ensures r.page == v.page
    ensures r.criteria == t
  {
    v.(criteria := t)
  }

  /** The clear button empties the search box and shows the first page of the
      whole list. */
  function Clear(v: View<Criteria>): (r: View<Criteria>)
    ensures r.page == 1
    ensures r.criteria == Defaults
    ensures forall rows :: Filtered(rows, r.criteria) == rows
  {
    forall rows ensures Filtered(rows, Defaults) == rows { DefaultsShowAll(rows); }
    View(Defaults, 1)
  }

  /** With an empty search box every branch is listed. */
  lemma DefaultsShowAll(rows: seq<Branch>)
    ensures Filtered(rows, Defaults) == rows
  {
    forall i | 0 <= i < |rows| ensures Matches(Defaults, rows[i]) {
      EmptyTermMatches(Folded(rows[i].name));
    }
    FilterKeepsAll(rows, x => Matches(Defaults, x));
  }

  /** A term found in the CNPJ finds the branch, whatever its name. */
  lemma CnpjFindsBranch(term: Criteria, x: Branch, i: int)
    requires 0 <= i && i + |term| <= |x.cnpj| && x.cnpj[i..i + |term|] == term
    ensures Matches(term, x)
  {
    ContainsAt(x.cnpj, term, i);
  }

  function ProductsOf(x: Branch): int { x.productsCount }

  /** The three cards; the third is an empty placeholder. */
  datatype Cards = Cards(total: nat, produtos: int, usuarios: string)

  /** The cards take the rows and nothing else. */
  function Stats(rows: seq<Branch>): (s: Cards)
    ensures s.total == |rows|
    ensures s.produtos == Sum(rows, ProductsOf)
    ensures (forall i :: 0 <= i < |rows| ==> rows[i].productsCount >= 0) ==> s.produtos >= 0
    ensures s.usuarios == ""
  {
    SumNonNegative(rows, ProductsOf);
    Cards(|rows|, Sum(rows, ProductsOf), "")
  }

  /** On the mock data the cards read 3 branches and 581 products. */
  lemma MockCards()
    ensures Stats(Data) == Cards(3, 581, "")
  {
    TotalIsSum(Data, ProductsOf);
  }
}

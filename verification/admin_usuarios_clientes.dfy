/** The ADMIN client list (`apps/admin/pages/usuarios/UsuariosClientes.tsx`): a search
    over name and e-mail ignoring case, or the contact as typed; eight rows a page;
    clearing empties the search box only. */
module AdminUsuariosClientes {
  import opened Text
  import opened Seqs
  import opened Paging
  import opened Search
  import opened ListView

  datatype Status = Ativo | Desativado

  /** A client, reduced to the fields the list logic reads. */
  datatype Client = Client(id: int, name: string, email: string, status: Status, contact: string)

  const Data: seq<Client> := [
    Client(1, "Alex", "alexssandromercer@gmail.com", Ativo, "(47) 99270-5677"),
    Client(2, "Empresa D", "kalil.fsg@gmail.com", Desativado, "(31) 99510-2502"),
    Client(3, "Kalil Felipe Silva Fernandes", "kalil.fsf@gmail.com", Ativo, "(31) 99513-2502"),
    Client(4, "pedro", "pedrolucasmota2005@gmail.com", Desativado, "(27) 99517-6920")
  ]

  const K: nat := 8

  /** The only criterion is the search term. */
  type Criteria = string

  const Defaults: Criteria := ""

  /** The row test: name or e-mail contains the term ignoring case, or the contact
      contains it exactly. */
  function Matches(term: Criteria, x: Client): (b: bool)
    ensures b <==>
      || Contains(LowerStr(x.name), LowerStr(term))
      || Contains(LowerStr(x.email), LowerStr(term))
      || Contains(x.contact, term)
  {
    || FieldMatches(Folded(x.name), term)
    || FieldMatches(Folded(x.email), term)
    || FieldMatches(Exact(x.contact), term)
  }

  /** The matching clients of `rows`, in order. */
  function Filtered(rows: seq<Client>, term: Criteria): (r: seq<Client>)
    ensures IsSubsequence(r, rows)
    ensures forall x :: x in r <==> x in rows && Matches(term, x)
    ensures forall x :: multiset(r)[x] == if Matches(term, x) then multiset(rows)[x] else 0
  {
    Filter(rows, x => Matches(term, x))
  }

  /** The rows of the current page. */
  function Visible(rows: seq<Client>, v: View<Criteria>): (r: seq<Client>)
    ensures |r| <= K
    ensures forall x :: x in r ==> x in rows && Matches(v.criteria, x)
    ensures v.page >= 1 ==>
      var f := Filtered(rows, v.criteria);
      var start := (v.page - 1) * K;
      start >= 0 && r == f[Min(start, |f|)..Min(start + K, |f|)]
  {
    Page(Filtered(rows, v.criteria), v.page, K)
  }

  /** Typing in the search box: the page number is kept. */
  function SetTerm(v: View<Criteria>, t: string): (r: View<Criteria>)
    ensures r.page == v.page
    ensures r.criteria == t
  {
    v.(criteria := t)
  }

  /** The clear button empties the search box and leaves the page number alone: the
      whole list is shown from the page that was open. */
  function Clear(v: View<Criteria>): (r: View<Criteria>)
    ensures r.page == v.page
    ensures r.criteria == Defaults
    ensures forall rows :: Filtered(rows, r.criteria) == rows
    ensures forall rows :: Visible(rows, r) == Page(rows, v.page, K)
  {
    forall rows ensures Filtered(rows, Defaults) == rows { DefaultsShowAll(rows); }
    v.(criteria := Defaults)
  }

  /** With an empty search box every client is listed. */
  lemma DefaultsShowAll(rows: seq<Client>)
    ensures Filtered(rows, Defaults) == rows
  {
    forall i | 0 <= i < |rows| ensures Matches(Defaults, rows[i]) {
      EmptyTermMatches(Folded(rows[i].name));
    }
    FilterKeepsAll(rows, x => Matches(Defaults, x));
  }

  /** Clearing from a page past the end of the whole list shows an empty page. */
  lemma ClearPastTheEnd(rows: seq<Client>, v: View<Criteria>)
    requires v.page > TotalPages(|rows|, K)
    ensures Visible(rows, Clear(v)) == []
  {
    PageSizes(rows, v.page, K);
  }

  predicate IsAtivo(x: Client) { x.status == Ativo }
  predicate IsDesativado(x: Client) { x.status == Desativado }

  /** The three cards. */
  datatype Cards = Cards(total: nat, ativos: nat, inativos: nat)

  /** The cards take the rows and nothing else; every client is either active or
      inactive, so the two counts add up to the total. */
  function Stats(rows: seq<Client>): (s: Cards)
    ensures s.total == |rows|
    ensures s.ativos == |set i | 0 <= i < |rows| && rows[i].status == Ativo|
    ensures s.inativos == |set i | 0 <= i < |rows| && rows[i].status == Desativado|
    ensures s.ativos + s.inativos == s.total
  {
    assert Positions(rows, IsAtivo) == set i | 0 <= i < |rows| && rows[i].status == Ativo;
    assert Positions(rows, IsDesativado) == set i | 0 <= i < |rows| && rows[i].status == Desativado;
    CountSplit(rows, IsAtivo, IsDesativado);
    Cards(|rows|, Count(rows, IsAtivo), Count(rows, IsDesativado))
  }

  /** On the mock data the cards read 4 clients, 2 active, 2 inactive. */
  lemma MockCards()
    ensures Stats(Data) == Cards(4, 2, 2)
  {
    TallyIsCount(Data, IsAtivo);
    TallyIsCount(Data, IsDesativado);
  }
}

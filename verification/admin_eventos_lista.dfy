/** The ADMIN "Todos os Eventos" list (`apps/admin/pages/eventos/EventosLista.tsx`):
    a search over the title; state and city drop-downs that are kept in state but
    never consulted; ten rows a page. */
module AdminEventosLista {
  import opened Text
  import opened Seqs
  import opened Paging
  import opened Search
  import opened ListView

  /** A public event, reduced to the fields the list logic reads. */
  datatype Event = Event(id: int, title: string, category: string)

  const Data: seq<Event> := [
    Event(1, "Festa Havaina", "Aniversário"),
    Event(2, "Sexta-Feira Country", "Aniversário"),
    Event(3, "teste de lotes", "Encontro, Networking"),
    Event(4, "As Aventuras de Mike - O Hotel Assombrado", "Aniversário"),
    Event(5, "BASSZONE FESTIVAL", "Aniversário"),
    Event(6, "BASSZONE FESTIVAL", "Aniversário"),
    Event(7, "Teste 1.0", "Educação"),
    Event(8, "Rock Legends", "Aniversário"),
    Event(9, "Sexta-Feira Countrygf", "E-Sports"),
    Event(10, "Sexta-Feira Countrygfg", "Familia e Educação")
  ]

  const K: nat := 10

  datatype Criteria = Criteria(term: string, state: string, city: string)

  const Defaults: Criteria := Criteria("", "Todos os Estados", "Todas as Cidades")

  /** Only the title is searched, ignoring case; state and city play no part. */
  function Matches(c: Criteria, x: Event): (b: bool)
    ensures b <==> Contains(LowerStr(x.title), LowerStr(c.term))
  {
    FieldMatches(Folded(x.title), c.term)
  }

  /** The matching events of `rows`, in order. */
  function Filtered(rows: seq<Event>, c: Criteria): (r: seq<Event>)
    ensures IsSubsequence(r, rows)
    ensures forall x :: x in r <==> x in rows && Matches(c, x)
    ensures forall x :: multiset(r)[x] == if Matches(c, x) then multiset(rows)[x] else 0
  {
    Filter(rows, x => Matches(c, x))
  }

  /** The rows of the current page. */
  function Visible(rows: seq<Event>, v: View<Criteria>): (r: seq<Event>)
    ensures |r| <= K
    ensures forall x :: x in r ==> x in rows && Matches(v.criteria, x)
    ensures v.page >= 1 ==>
      var f := Filtered(rows, v.criteria);
      var start := (v.page - 1) * K;
      start >= 0 && r == f[Min(start, |f|)..Min(start + K, |f|)]
  {
    Page(Filtered(rows, v.criteria), v.page, K)
  }

  /** Editing the search box or a drop-down: the page number is kept. */
  function SetTerm(v: View<Criteria>, t: string): (r: View<Criteria>)
    ensures r.page == v.page
    ensures r.criteria == v.criteria.(term := t)
  {
    v.(criteria := v.criteria.(term := t))
  }

  function SetState(v: View<Criteria>, s: string): (r: View<Criteria>)
    ensures r.page == v.page
    ensures r.criteria == v.criteria.(state := s)
  {
    v.(criteria := v.criteria.(state := s))
  }

  function SetCity(v: View<Criteria>, s: string): (r: View<Criteria>)
    ensures r.page == v.page
    ensures r.criteria == v.criteria.(city := s)
  {
    v.(criteria := v.criteria.(city := s))
  }

  /** The clear button resets all three criteria and shows the first page of the
      whole list. */
  function Clear(v: View<Criteria>): (r: View<Criteria>)
    ensures r.page == 1
    ensures r.criteria == Defaults
    ensures forall rows :: Filtered(rows, r.criteria) == rows
  {
    forall rows ensures Filtered(rows, Defaults) == rows { DefaultsShowAll(rows); }
    View(Defaults, 1)
  }

  /** With an empty search box every event is listed. */
  lemma DefaultsShowAll(rows: seq<Event>)
    ensures Filtered(rows, Defaults) == rows
  {
    forall i | 0 <= i < |rows| ensures Matches(Defaults, rows[i]) {
      EmptyTermMatches(Folded(rows[i].title));
    }
    FilterKeepsAll(rows, x => Matches(Defaults, x));
  }

  /** The state and city selections never change the list. */
  lemma LocationIgnored(rows: seq<Event>, v: View<Criteria>, state: string, city: string)
    ensures Filtered(rows, SetCity(SetState(v, state), city).criteria) == Filtered(rows, v.criteria)
    ensures Visible(rows, SetCity(SetState(v, state), city)) == Visible(rows, v)
  {
    var w := SetCity(SetState(v, state), city);
    FilterAgree(rows, x => Matches(w.criteria, x), x => Matches(v.criteria, x));
  }

  /** There is no de-duplication: two events with the same title are listed or
      hidden together, each as its own row. */
  lemma SameTitleSameFate(rows: seq<Event>, c: Criteria, i: int, j: int)
    requires 0 <= i < |rows| && 0 <= j < |rows| && rows[i].title == rows[j].title
    ensures rows[i] in Filtered(rows, c) <==> rows[j] in Filtered(rows, c)
    ensures rows[i] != rows[j] && rows[i] in Filtered(rows, c) ==> |Filtered(rows, c)| >= 2
  {
    var f := Filtered(rows, c);
    assert Matches(c, rows[i]) == Matches(c, rows[j]);
    if rows[i] != rows[j] && rows[i] in f {
      var a :| 0 <= a < |f| && f[a] == rows[i];
      var b :| 0 <= b < |f| && f[b] == rows[j];
      assert a != b;
    }
  }

  /** The mock list holds such a pair: events 5 and 6 share a title. */
  lemma MockDuplicate()
    ensures Data[4].title == Data[5].title && Data[4] != Data[5]
  {
  }
}

/** The search box and the drop-down filters of the list pages. */
module Search {
  import opened Text

  /** One searched field of a record. Most pages lower-case both the field and the
      term (`Folded`); some test a field with a bare `includes` (`Exact`). */
  datatype Field = Folded(text: string) | Exact(text: string)

  function FieldMatches(f: Field, term: string): (b: bool)
    ensures f.Folded? ==> (b <==> Contains(LowerStr(f.text), LowerStr(term)))
    ensures f.Exact? ==> (b <==> Contains(f.text, term))
  {
    match f
    case Folded(s) => IncludesFolded(s, term)
    case Exact(s) => Includes(s, term)
  }

  /** An empty search box matches every field: `includes("")` always holds. */
  lemma EmptyTermMatches(f: Field)
    ensures FieldMatches(f, "")
  {
    match f
    case Folded(s) => EmptyNeedle(LowerStr(s));
    case Exact(s) => EmptyNeedle(s);
  }

  /** A drop-down filter: its "no constraint" entry `sentinel` admits every value,
      any other selection admits exactly the equal value. */
  predicate Allows(selected: string, sentinel: string, value: string): (b: bool)
    ensures selected == sentinel ==> b
    ensures selected != sentinel ==> (b <==> value == selected)
  {
    selected == sentinel || value == selected
  }
}

/** The layout frame of `components/layout/Shell.tsx`: the remembered collapsed state of
    the sidebar and the greeting of the header. */
module Shell {
  import opened Optional

  /** The storage key the collapsed state is kept under. */
  const StorageKey := "sidebarCollapsed"

  /** Reading the stored value at start-up (`saved === 'true'`): only the exact text
      `true` means collapsed; a missing or any other value means expanded. */
  function ParseCollapsed(saved: Option<string>): (b: bool)
    ensures b <==> saved.Some? && saved.value == "true"
  {
    match saved
    case Some(v) => v == "true"
    case None => false
  }

  /** Writing the state back (`String(b)`). */
  function Persist(b: bool): (s: string)
    ensures s == "true" || s == "false"
    ensures ParseCollapsed(Some(s)) == b
  {
    if b then "true" else "false"
  }

  /** What the header button and the sidebar's own button both do. */
  function ToggleCollapsed(b: bool): (r: bool)
    ensures r != b
  {
    !b
  }

  /** A reload restores the state as it was left, however often it was toggled. */
  lemma {:induction false} ReloadRestores(b: bool, toggles: nat)
    ensures ParseCollapsed(Some(Persist(Toggled(b, toggles)))) == Toggled(b, toggles)
    ensures Toggled(b, toggles) == (if toggles % 2 == 0 then b else !b)
  {
    if toggles > 0 {
      ReloadRestores(b, toggles - 1);
    }
  }

  /** The state after `n` clicks on either toggle. */
  function Toggled(b: bool, n: nat): bool
  {
    if n == 0 then b else ToggleCollapsed(Toggled(b, n - 1))
  }

  /** The header's first name, `nome.split(' ')[0]`: everything before the first space. */
  function FirstName(nome: string): (r: string)
    ensures |r| <= |nome| && r == nome[..|r|]
    ensures ' ' !in r
    ensures |r| == |nome| || nome[|r|] == ' '
    decreases |nome|
  {
    if |nome| == 0 || nome[0] == ' ' then ""
    else [nome[0]] + FirstName(nome[1..])
  }

  /** The avatar letter, `nome.charAt(0)`: empty for an empty name. */
  function Initial(nome: string): (r: string)
    ensures |nome| == 0 ==> r == ""
    ensures |nome| > 0 ==> r == [nome[0]]
  {
    if |nome| == 0 then "" else nome[..1]
  }

  /** A name whose first word is `word` is greeted by `word`. */
  lemma {:induction false} FirstNameStopsAtSpace(word: string, rest: string)
    requires ' ' !in word
    requires |rest| > 0 && rest[0] == ' '
    ensures FirstName(word + rest) == word
    decreases |word|
  {
    if |word| == 0 {
      assert word + rest == rest;
    } else {
      assert (word + rest)[1..] == word[1..] + rest;
      FirstNameStopsAtSpace(word[1..], rest);
    }
  }
}

/** The desktop sidebar of `components/layout/Sidebar.tsx`: which menu it shows, the
    accordion of expanded entries, the active highlight, the "Convites" context menu
    and the hover flyout of the collapsed mode. */
module Sidebar {
  import opened Optional
  import opened Auth
  import opened Nav
  import opened Effects
  import Seqs

  /** The entries shown: nothing without a user, else the user's menu with the fallback. */
  function Items(user: Option<User>): (r: Option<seq<NavItem>>)
    ensures r.None? <==> user.None?
    ensures user.Some? && user.value.role == CLIENTE ==> r == Some(ClientMenu)
    ensures user.Some? && user.value.role != CLIENTE ==> r == Some(AdminMenu)
  {
    if user.None? then None else Some(MenuOrAdmin(user.value.role))
  }

  /** `toggleExpand(label)`: ignored while collapsed; otherwise the entry's label `key` is removed
      when present and appended when absent. */
  function ToggleExpand(collapsed: bool, expanded: seq<string>, key: string): (r: seq<string>)
    ensures collapsed ==> r == expanded
    ensures !collapsed ==> forall x :: x in r <==> (x in expanded) != (x == key)
    ensures Seqs.NoDup(expanded) ==> Seqs.NoDup(r)
    ensures !collapsed && key !in expanded ==> r == expanded + [key]
    ensures !collapsed && key in expanded ==> Seqs.IsSubsequence(r, expanded)
  {
    if collapsed then expanded
    else if key in expanded then
      var r := Seqs.Filter(expanded, (x: string) => x != key);
      forall x ensures x in r <==> (x in expanded) != (x == key) {
        assert x in r <==> multiset(r)[x] > 0;
      }
      Seqs.FilterNoDup(expanded, (x: string) => x != key);
      r
    else expanded + [key]
  }

  /** Opening an entry and closing it again restores the accordion exactly. */
  lemma ToggleTwiceRestores(expanded: seq<string>, key: string)
    requires key !in expanded
    ensures ToggleExpand(false, ToggleExpand(false, expanded, key), key) == expanded
  {
    var p := (x: string) => x != key;
    Seqs.FilterAppend(expanded, [key], p);
    Seqs.FilterKeepsAll(expanded, p);
    assert Seqs.Filter([key], p) == [];
  }

  /** `isActivePath(item)`: the entry is highlighted when the location is its own path
      or the path of one of its sub-items. */
  function IsActivePath(item: NavItem, current: string): (b: bool)
    ensures b <==> current == item.path || (item.subItems.Some? && current in Targets(item))
  {
    item.path == current || (item.subItems.Some? && SomePathIs(item.subItems.value, current))
  }

  /** `subs.some(sub => sub.path === current)`. */
  function SomePathIs(subs: seq<NavItem>, current: string): (b: bool)
    ensures b <==> exists j :: 0 <= j < |subs| && subs[j].path == current
    decreases |subs|
  {
    if |subs| == 0 then false
    else
      var rest := SomePathIs(subs[1..], current);
      assert forall j :: 1 <= j < |subs| ==> subs[j] == subs[1..][j - 1];
      subs[0].path == current || rest
  }

  /** On a sub-item's page its parent entry is highlighted. */
  lemma ParentHighlighted(item: NavItem, j: int)
    requires item.subItems.Some? && 0 <= j < |item.subItems.value|
    ensures IsActivePath(item, item.subItems.value[j].path)
  {
    assert Targets(item)[j] == item.subItems.value[j].path;
  }

  /** The right-click menu: closed, or open at a screen position. */
  datatype ContextMenu = Closed | OpenAt(x: int, y: int)

  /** `handleContextMenu`: only the "Convites" entry opens the menu (and suppresses the
      browser's own); on any other entry the browser's menu appears. The second
      component says whether the default was prevented. */
  function HandleContextMenu(menu: ContextMenu, item: NavItem, x: int, y: int): (r: (ContextMenu, bool))
    ensures r.1 <==> item.name == "Convites"
    ensures r.1 ==> r.0 == OpenAt(x, y)
    ensures !r.1 ==> r.0 == menu
  {
    if item.name == "Convites" then (OpenAt(x, y), true) else (menu, false)
  }

  /** Any click in the window closes the context menu. */
  function WindowClick(menu: ContextMenu): (r: ContextMenu)
    ensures r == Closed
  {
    Closed
  }

  /** `handleNewInvite`: the menu's only action opens the client invitations page. */
  function HandleNewInvite(): (es: seq<Effect>)
    ensures forall s :: Run(s, es) == After(s, Some(App("convites")))
  {
    [Navigate(App("convites"))]
  }

  /** The collapsed mode's flyout: the hovered entry and whether a hide timer is armed. */
  datatype Flyout = Flyout(hovered: Option<NavItem>, hidePending: bool)

  const NoFlyout := Flyout(None, false)

  /** The flyout is drawn only while collapsed and while an entry is hovered. */
  predicate Visible(collapsed: bool, f: Flyout): (b: bool)
    ensures !collapsed ==> !b
    ensures collapsed ==> (b <==> f.hovered.Some?)
  {
    collapsed && f.hovered.Some?
  }

  /** `handleMouseEnter`: only while collapsed; cancels a pending hide and shows the entry. */
  function MouseEnter(collapsed: bool, f: Flyout, item: NavItem): (r: Flyout)
    ensures !collapsed ==> r == f
    ensures collapsed ==> r.hovered == Some(item) && !r.hidePending
  {
    if !collapsed then f else Flyout(Some(item), false)
  }

  /** `handleMouseLeave`: only while collapsed; arms the 150 ms hide timer. */
  function MouseLeave(collapsed: bool, f: Flyout): (r: Flyout)
    ensures !collapsed ==> r == f
    ensures collapsed ==> r.hovered == f.hovered && r.hidePending
  {
    if !collapsed then f else f.(hidePending := true)
  }

  /** `handleFlyoutEnter`: cancels a pending hide, in either mode. */
  function FlyoutEnter(f: Flyout): (r: Flyout)
    ensures r.hovered == f.hovered && !r.hidePending
  {
    f.(hidePending := false)
  }

  /** `handleFlyoutLeave`: arms the hide timer, in either mode. */
  function FlyoutLeave(f: Flyout): (r: Flyout)
    ensures r.hovered == f.hovered && r.hidePending
  {
    f.(hidePending := true)
  }

  /** The armed timer runs out: the hovered entry is cleared. Nothing happens without one. */
  function TimerFires(f: Flyout): (r: Flyout)
    ensures f.hidePending ==> r == NoFlyout
    ensures !f.hidePending ==> r == f
  {
    if f.hidePending then NoFlyout else f
  }

  /** Leaving an entry and doing nothing else hides the flyout once the timer runs out. */
  lemma LeaveThenWaitHides(f: Flyout)
    ensures !Visible(true, TimerFires(MouseLeave(true, f)))
  {
  }

  /** Moving from an entry into its flyout before the timer runs out keeps it open. */
  lemma LeaveIntoFlyoutKeepsIt(f: Flyout, item: NavItem)
    ensures var g := MouseEnter(true, f, item);
      TimerFires(FlyoutEnter(MouseLeave(true, g))) == g && Visible(true, g)
  {
  }

  /** Moving from one entry straight to another shows the second one, and the first
      entry's timer no longer hides it. */
  lemma SlideToNextEntry(f: Flyout, a: NavItem, b: NavItem)
    ensures TimerFires(MouseEnter(true, MouseLeave(true, MouseEnter(true, f, a)), b)).hovered == Some(b)
  {
  }

  /** In the expanded mode the hover handlers of the entries change nothing. */
  lemma ExpandedModeIgnoresHover(f: Flyout, item: NavItem)
    ensures MouseLeave(false, MouseEnter(false, f, item)) == f
  {
  }
}

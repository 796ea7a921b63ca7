/** The mobile menu page of `components/layout/MenuMobilePage.tsx`: the role's menu
    laid out as a grid of tiles, sub-items flattened into it. */
module MenuMobile {
  import opened Optional
  import opened Auth
  import opened Nav
  import Seqs

  /** One tile of the grid: a link with a caption and an icon. */
  datatype Tile = Tile(caption: string, path: string, icon: string)

  /** The tiles of one entry: an entry with sub-items contributes one tile per sub-item,
      whose icon falls back to the parent's when its own is empty (`sub.icon || item.icon`);
      any other entry contributes its own tile. */
  function TilesOf(item: NavItem): (r: seq<Tile>)
    ensures item.subItems.None? ==> r == [Tile(item.name, item.path, item.icon)]
    ensures item.subItems.Some? ==> |r| == |item.subItems.value|
    ensures item.subItems.Some? ==> forall j :: 0 <= j < |r| ==>
      && r[j].caption == item.subItems.value[j].name
      && r[j].path == item.subItems.value[j].path
      && (item.subItems.value[j].icon != "" ==> r[j].icon == item.subItems.value[j].icon)
      && (item.subItems.value[j].icon == "" ==> r[j].icon == item.icon)
  {
    if item.subItems.Some? then
      Seqs.Map(item.subItems.value, (sub: NavItem) =>
        Tile(sub.name, sub.path, if sub.icon != "" then sub.icon else item.icon))
    else [Tile(item.name, item.path, item.icon)]
  }

  /** The whole grid, entry after entry: a tile is on it exactly when some entry
      contributes it. */
  function Grid(items: seq<NavItem>): (r: seq<Tile>)
    ensures forall t :: t in r <==> exists i :: 0 <= i < |items| && t in TilesOf(items[i])
    decreases |items|
  {
    if |items| == 0 then []
    else
      var rest := Grid(items[1..]);
      assert forall i :: 1 <= i < |items| ==> items[i] == items[1..][i - 1];
      TilesOf(items[0]) + rest
  }

  /** The page: nothing without a user, else the grid of the user's menu with the fallback. */
  function Page(user: Option<User>): (r: Option<seq<Tile>>)
    ensures r.None? <==> user.None?
    ensures user.Some? ==> r == Some(Grid(MenuOrAdmin(user.value.role)))
  {
    if user.None? then None else Some(Grid(MenuOrAdmin(user.value.role)))
  }

  function TilePaths(tiles: seq<Tile>): seq<string>
  {
    Seqs.Map(tiles, (t: Tile) => t.path)
  }

  lemma TilePathsAppend(a: seq<Tile>, b: seq<Tile>)
    ensures TilePaths(a + b) == TilePaths(a) + TilePaths(b)
  {
  }

  /** The grid links exactly where the sidebar links, in the same order. */
  lemma {:induction false} GridLinksAreMenuTargets(items: seq<NavItem>)
    ensures TilePaths(Grid(items)) == TargetPaths(items)
    decreases |items|
  {
    if |items| > 0 {
      GridLinksAreMenuTargets(items[1..]);
      TilePathsAppend(TilesOf(items[0]), Grid(items[1..]));
    }
  }

  /** The grid has one tile per leaf entry plus one per sub-item. */
  function TileCount(items: seq<NavItem>): nat
    decreases |items|
  {
    if |items| == 0 then 0
    else (if items[0].subItems.Some? then |items[0].subItems.value| else 1) + TileCount(items[1..])
  }

  lemma {:induction false} GridSize(items: seq<NavItem>)
    ensures |Grid(items)| == TileCount(items)
    decreases |items|
  {
    if |items| > 0 {
      GridSize(items[1..]);
    }
  }

  /** No tile is left without an icon when every entry has one. */
  lemma {:induction false} TilesHaveIcons(items: seq<NavItem>)
    requires forall i :: 0 <= i < |items| ==> items[i].icon != ""
    ensures forall t :: t in Grid(items) ==> t.icon != ""
    decreases |items|
  {
    if |items| > 0 {
      TilesHaveIcons(items[1..]);
    }
  }

  /** The ADMIN grid has 14 tiles, the CLIENTE grid 11. */
  lemma GridCounts()
    ensures |Grid(AdminMenu)| == 14
    ensures |Grid(ClientMenu)| == 11
  {
    AdminGridCount();
    ClientGridCount();
  }

  lemma AdminGridCount()
    ensures |Grid(AdminMenu)| == 14
  {
    GridSize(AdminMenu);
  }

  lemma ClientGridCount()
    ensures |Grid(ClientMenu)| == 11
  {
    GridSize(ClientMenu);
  }
}

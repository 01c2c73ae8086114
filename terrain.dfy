/**
 * The tile grid: tile coordinates, the lookup of a tile's terrain type, and
 * the neighbours requested when the player nears a tile edge.
 */
module Terrain {
  import opened Options
  import opened PlotKeys
  import opened Geometry

  /** The terrain types a plot can be loaded as (PLOT_TYPES). */
  datatype PlotType = Forest | Water | Plain | Mountain | Desert

  /** Integer tile coordinates. */
  datatype Tile = Tile(x: int, z: int)

  /** Side of one square tile (plotSize). */
  const PlotSize: real := 4.0
  /** Distance from an edge within which the neighbour is requested (spawnDistance). */
  const SpawnDistance: real := 1.5

  /**
   * getPlotKey for a tile: the string under which the scene stores it. The
   * registry is modelled as keyed by the tile itself; KeyInjective shows the
   * two keyings hold the same entries.
   */
  function Key(t: Tile): string {
    PlotKey(t.x, t.z)
  }

  /** Distinct tiles have distinct string keys: the string-keyed map holds one entry per tile. */
  lemma KeyInjective(a: Tile, b: Tile)
    ensures Key(a) == Key(b) <==> a == b
  {
    PlotKeyInjective(a.x, a.z, b.x, b.z);
  }

  /** The tile holding ground point (x, z): `Math.floor(x / plotSize)` on each axis. */
  function TileOf(x: real, z: real): (t: Tile)
    ensures InSquare(x, z, t)
  {
    Tile((x / PlotSize).Floor, (z / PlotSize).Floor)
  }

  /** No other tile's square holds the point: the tile under it is unique. */
  lemma TileOfUnique(x: real, z: real)
    ensures forall t :: InSquare(x, z, t) ==> t == TileOf(x, z)
  {
  }

  /** hasPlot(x, z): `plots.has(getPlotKey(x, z))`. */
  predicate HasPlot(plots: map<Tile, PlotType>, x: int, z: int) {
    Tile(x, z) in plots
  }

  /** hasPlot holds exactly when some stored tile has the string key of tile (x, z). */
  lemma HasPlotByKey(plots: map<Tile, PlotType>, x: int, z: int)
    ensures HasPlot(plots, x, z) <==> exists t :: t in plots && Key(t) == Key(Tile(x, z))
  {
    KeyedMember(plots, Tile(x, z));
  }

  /** A tile is stored exactly when some stored tile has its string key. */
  lemma KeyedMember(plots: map<Tile, PlotType>, u: Tile)
    ensures u in plots <==> exists t :: t in plots && Key(t) == Key(u)
  {
    if exists t :: t in plots && Key(t) == Key(u) {
      var t :| t in plots && Key(t) == Key(u);
      KeyInjective(t, u);
    }
  }

  /** Whether ground point (x, z) lies in the square footprint of tile t. */
  predicate InSquare(x: real, z: real, t: Tile) {
    PlotSize * t.x as real <= x < PlotSize * (t.x + 1) as real &&
    PlotSize * t.z as real <= z < PlotSize * (t.z + 1) as real
  }

  /** getPlotTypeAt(x, z): the stored type of the tile under (x, z), or null. */
  function TypeAt(plots: map<Tile, PlotType>, x: real, z: real): (r: Option<PlotType>)
    ensures forall t :: InSquare(x, z, t) ==> r == if t in plots then Some(plots[t]) else None
  {
    TileOfUnique(x, z);
    var t := TileOf(x, z);
    if t in plots then Some(plots[t]) else None
  }

  /**
   * A point reads the entry of tile t exactly when it lies in t's square: the
   * floor division finds the tile, and its string key names no other tile.
   */
  lemma TypeAtReadsOwnTile(plots: map<Tile, PlotType>, x: real, z: real, t: Tile)
    ensures Key(TileOf(x, z)) == Key(t) <==> InSquare(x, z, t)
    ensures InSquare(x, z, t) ==>
      TypeAt(plots, x, z) == if t in plots then Some(plots[t]) else None
  {
    var c := TileOf(x, z);
    KeyInjective(c, t);
    assert c == t <==> InSquare(x, z, t);
  }

  /** Neighbouring tiles: they differ by one in exactly one axis. */
  predicate Adjacent(a: Tile, b: Tile) {
    (a.z == b.z && (a.x == b.x + 1 || a.x == b.x - 1)) ||
    (a.x == b.x && (a.z == b.z + 1 || a.z == b.z - 1))
  }

  /** The neighbour `t` when the player is near its edge, else nothing. */
  function EdgeTile(near: bool, t: Tile): set<Tile> {
    if near then {t} else {}
  }

  /**
   * The neighbours of tile c asked for when the player is near its east,
   * west, north and south edges, in the order checkAndAddPlots tests them.
   */
  function Edges(c: Tile, east: bool, west: bool, north: bool, south: bool): (r: set<Tile>)
    ensures forall t :: t in r ==> Adjacent(t, c)
  {
    EdgeTile(east, Tile(c.x + 1, c.z)) + EdgeTile(west, Tile(c.x - 1, c.z)) +
    EdgeTile(north, Tile(c.x, c.z + 1)) + EdgeTile(south, Tile(c.x, c.z - 1))
  }

  /**
   * The tiles checkAndAddPlots asks for from player position (x, z): the
   * offsets within the tile are JavaScript remainders `x % plotSize`.
   */
  function EdgeRequests(x: real, z: real): (r: set<Tile>)
    ensures forall t :: t in r ==> Adjacent(t, TileOf(x, z))
  {
    var rx := RemPlotSize(x);
    var rz := RemPlotSize(z);
    Edges(TileOf(x, z), rx > PlotSize - SpawnDistance, rx < SpawnDistance,
          rz > PlotSize - SpawnDistance, rz < SpawnDistance)
  }

  /**
   * Edges as the four tests accumulate it, starting from no request: proof
   * scaffolding that lets a caller match the union term by term.
   */
  lemma EdgesInOrder(c: Tile, east: bool, west: bool, north: bool, south: bool)
    ensures Edges(c, east, west, north, south) ==
      {} + EdgeTile(east, Tile(c.x + 1, c.z)) + EdgeTile(west, Tile(c.x - 1, c.z)) +
      EdgeTile(north, Tile(c.x, c.z + 1)) + EdgeTile(south, Tile(c.x, c.z - 1))
  {
  }

  /**
   * On each axis where the coordinate is non-negative the remainder is the
   * offset inside the tile, so the neighbour across an edge is requested
   * exactly when the player is within SpawnDistance of that edge.
   */
  lemma EdgeRequestsNonNegative(x: real, z: real)
    ensures x >= 0.0 ==> var c := TileOf(x, z);
      var off := x - PlotSize * c.x as real;
      (Tile(c.x + 1, c.z) in EdgeRequests(x, z) <==> off > PlotSize - SpawnDistance) &&
      (Tile(c.x - 1, c.z) in EdgeRequests(x, z) <==> off < SpawnDistance)
    ensures z >= 0.0 ==> var c := TileOf(x, z);
      var off := z - PlotSize * c.z as real;
      (Tile(c.x, c.z + 1) in EdgeRequests(x, z) <==> off > PlotSize - SpawnDistance) &&
      (Tile(c.x, c.z - 1) in EdgeRequests(x, z) <==> off < SpawnDistance)
  {
  }

  /**
   * For a negative coordinate the truncating remainder is never positive:
   * the −1 neighbour is always requested and the +1 neighbour never is,
   * wherever in its tile the player stands.
   */
  lemma EdgeRequestsNegative(x: real, z: real)
    ensures x < 0.0 ==> var c := TileOf(x, z);
      Tile(c.x - 1, c.z) in EdgeRequests(x, z) && Tile(c.x + 1, c.z) !in EdgeRequests(x, z)
    ensures z < 0.0 ==> var c := TileOf(x, z);
      Tile(c.x, c.z - 1) in EdgeRequests(x, z) && Tile(c.x, c.z + 1) !in EdgeRequests(x, z)
  {
  }

  /** An instance: at x = −0.5 the player is 0.5 from tile 0 but tile −2 is asked for. */
  lemma NegativeEdgeExample()
    ensures TileOf(-0.5, 2.0) == Tile(-1, 0)
    ensures EdgeRequests(-0.5, 2.0) == {Tile(-2, 0)}
  {
    assert (-0.5 / 4.0).Floor == -1;
    assert Trunc(-0.5 / 4.0) == 0;
    assert Trunc(2.0 / 4.0) == 0;
    var r := EdgeRequests(-0.5, 2.0);
    assert RemPlotSize(-0.5) == -0.5;
    assert RemPlotSize(2.0) == 2.0;
  }
}

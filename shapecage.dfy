// The free-form deformation cage of 6_lab/src/ShapeCage.cpp: toLocal gives
// every mesh vertex a tile of the control-point grid and coordinates (u, v)
// inside it; toWorld puts each vertex back by bilinear interpolation between
// the (possibly moved) corners of its tile.

module ShapeCages {
  import opened LinAlg
  import opened Grids

  /** What toLocal records for one vertex: (u, v) and the tile index. */
  datatype Local = Local(u: real, v: real, tile: int)

  // ---- tiles in scan order ----

  /** The tiles toLocal examines: (nrows - 1) x (ncols - 1) of them. */
  function NumTiles(nrows: int, ncols: int): nat {
    if nrows < 2 || ncols < 2 then 0 else (nrows - 1) * (ncols - 1)
  }

  /** Every tile's corners are stored points of the grid. */
  predicate TilesStored(cps: seq<Vec2>, nrows: int, ncols: int) {
    nrows < 2 || ncols < 2 || nrows * ncols <= |cps|
  }

  /** Tile s of the scan: columns outside, rows inside, so tile s is at row
      s % (nrows - 1) of column s / (nrows - 1). */
  function ScanIndex(nrows: int, ncols: int, s: int): int
    requires nrows >= 2
  {
    Index(ncols, s % (nrows - 1), s / (nrows - 1))
  }

  lemma ScanCell(nrows: int, ncols: int, s: int)
    requires 0 <= s < NumTiles(nrows, ncols)
    ensures 0 <= s % (nrows - 1) < nrows - 1 && 0 <= s / (nrows - 1) < ncols - 1
  {
    var r := nrows - 1;
    if s / r >= ncols - 1 {
      MulAtLeastBy(s / r, ncols - 1, r);
      assert false;
    }
  }

  lemma MulAtLeastBy(a: int, b: int, n: int)
    requires a >= b >= 0 && n > 0
    ensures n * a >= n * b
  {
  }

  /** Every tile scanned is a valid argument of getTileCPs. */
  lemma ScanIndexOk(cps: seq<Vec2>, nrows: int, ncols: int, s: int)
    requires TilesStored(cps, nrows, ncols) && 0 <= s < NumTiles(nrows, ncols)
    ensures 0 <= ScanIndex(nrows, ncols, s) && ScanIndex(nrows, ncols, s) + ncols + 1 < |cps|
  {
    ScanCell(nrows, ncols, s);
    var row, col := s % (nrows - 1), s / (nrows - 1);
    IndexInRange(nrows, ncols, row + 1, col + 1);
    IndexInRange(nrows, ncols, row, col);
  }

  function TileAt(cps: seq<Vec2>, nrows: int, ncols: int, s: int): (t: seq<Vec2>)
    requires TilesStored(cps, nrows, ncols) && 0 <= s < NumTiles(nrows, ncols)
    ensures |t| == 4
  {
    ScanIndexOk(cps, nrows, ncols, s);
    TileCorners(cps, ncols, ScanIndex(nrows, ncols, s))
  }

  /** (x, y) lies strictly inside the box spanned by corners 0 and 3. */
  predicate Inside(t: seq<Vec2>, x: real, y: real)
    requires |t| == 4
  {
    x > t[0].x && x < t[3].x && y > t[0].y && y < t[3].y
  }

  /** The local coordinates of (x, y) in tile t, recorded as tile `index`. */
  function LocalIn(t: seq<Vec2>, x: real, y: real, index: int): Local
    requires |t| == 4 && Inside(t, x, y)
  {
    Local((x - t[0].x) / (t[3].x - t[0].x), (y - t[0].y) / (t[3].y - t[0].y), index)
  }

  predicate ContainsAt(cps: seq<Vec2>, nrows: int, ncols: int, x: real, y: real, s: int)
    requires TilesStored(cps, nrows, ncols) && 0 <= s < NumTiles(nrows, ncols)
  {
    Inside(TileAt(cps, nrows, ncols, s), x, y)
  }

  function LocalAt(cps: seq<Vec2>, nrows: int, ncols: int, x: real, y: real, s: int): Local
    requires TilesStored(cps, nrows, ncols) && 0 <= s < NumTiles(nrows, ncols)
    requires ContainsAt(cps, nrows, ncols, x, y, s)
  {
    LocalIn(TileAt(cps, nrows, ncols, s), x, y, ScanIndex(nrows, ncols, s))
  }

  /** The scan of the first s tiles starting from `init`: each tile that
      contains (x, y) overwrites u, v and the tile index. */
  function Scan(cps: seq<Vec2>, nrows: int, ncols: int, x: real, y: real, s: nat, init: Local): Local
    requires TilesStored(cps, nrows, ncols) && s <= NumTiles(nrows, ncols)
  {
    if s == 0 then init
    else
      var prev := Scan(cps, nrows, ncols, x, y, s - 1, init);
      if ContainsAt(cps, nrows, ncols, x, y, s - 1) then LocalAt(cps, nrows, ncols, x, y, s - 1) else prev
  }

  /** toLocal for one vertex whose tile entry holds `prev`. */
  function Locate(cps: seq<Vec2>, nrows: int, ncols: int, x: real, y: real, prev: int): Local
    requires TilesStored(cps, nrows, ncols)
  {
    Scan(cps, nrows, ncols, x, y, NumTiles(nrows, ncols), Local(0.0, 0.0, prev))
  }

  /** Without a containing tile the scan leaves `init`; otherwise the last
      containing tile decides. */
  lemma {:induction false} ScanSpec(cps: seq<Vec2>, nrows: int, ncols: int, x: real, y: real, s: nat, init: Local)
    requires TilesStored(cps, nrows, ncols) && s <= NumTiles(nrows, ncols)
    ensures (forall t :: 0 <= t < s ==> !ContainsAt(cps, nrows, ncols, x, y, t)) ==>
      Scan(cps, nrows, ncols, x, y, s, init) == init
    ensures forall t :: (0 <= t < s && ContainsAt(cps, nrows, ncols, x, y, t) &&
                         (forall t2 :: t < t2 < s ==> !ContainsAt(cps, nrows, ncols, x, y, t2))) ==>
      Scan(cps, nrows, ncols, x, y, s, init) == LocalAt(cps, nrows, ncols, x, y, t)
  {
    if s > 0 {
      ScanSpec(cps, nrows, ncols, x, y, s - 1, init);
    }
  }

  /** A vertex in no tile gets u = v = 0 and keeps its tile entry; otherwise
      it gets the local coordinates in the last tile of the scan holding it. */
  lemma LocateSpec(cps: seq<Vec2>, nrows: int, ncols: int, x: real, y: real, prev: int)
    requires TilesStored(cps, nrows, ncols)
    ensures (forall t :: 0 <= t < NumTiles(nrows, ncols) ==> !ContainsAt(cps, nrows, ncols, x, y, t)) ==>
      Locate(cps, nrows, ncols, x, y, prev) == Local(0.0, 0.0, prev)
    ensures forall t :: (0 <= t < NumTiles(nrows, ncols) && ContainsAt(cps, nrows, ncols, x, y, t) &&
                         (forall t2 :: t < t2 < NumTiles(nrows, ncols) ==> !ContainsAt(cps, nrows, ncols, x, y, t2))) ==>
      Locate(cps, nrows, ncols, x, y, prev) == LocalAt(cps, nrows, ncols, x, y, t)
  {
    ScanSpec(cps, nrows, ncols, x, y, NumTiles(nrows, ncols), Local(0.0, 0.0, prev));
  }

  lemma RatioInUnit(a: real, x: real, b: real)
    requires a < x < b
    ensures 0.0 < (x - a) / (b - a) < 1.0
  {
    var q := (x - a) / (b - a);
    assert q * (b - a) == x - a;
    if q >= 1.0 {
      RealMulAtLeast(q, b - a);
      assert false;
    }
  }

  lemma RealMulAtLeast(q: real, d: real)
    requires q >= 1.0 && d > 0.0
    ensures q * d >= d
  {
    assert (q - 1.0) * d >= 0.0;
  }

  /** A vertex inside tile s gets u, v strictly between 0 and 1 and a tile
      index that getTileCPs accepts. */
  lemma LocalAtSpec(cps: seq<Vec2>, nrows: int, ncols: int, x: real, y: real, s: int)
    requires TilesStored(cps, nrows, ncols) && 0 <= s < NumTiles(nrows, ncols)
    requires ContainsAt(cps, nrows, ncols, x, y, s)
    ensures var l := LocalAt(cps, nrows, ncols, x, y, s);
      0.0 < l.u < 1.0 && 0.0 < l.v < 1.0 &&
      l.tile == ScanIndex(nrows, ncols, s) && 0 <= l.tile && l.tile + ncols + 1 < |cps|
  {
    ScanIndexOk(cps, nrows, ncols, s);
    var t := TileAt(cps, nrows, ncols, s);
    RatioInUnit(t[0].x, x, t[3].x);
    RatioInUnit(t[0].y, y, t[3].y);
  }

  /** The tile entry toLocal leaves is a valid getTileCPs argument whenever
      the one it started with is. */
  lemma {:induction false} ScanTileValid(cps: seq<Vec2>, nrows: int, ncols: int, x: real, y: real, s: nat, init: Local)
    requires TilesStored(cps, nrows, ncols) && s <= NumTiles(nrows, ncols)
    requires 0 <= init.tile && init.tile + ncols + 1 < |cps|
    ensures var l := Scan(cps, nrows, ncols, x, y, s, init); 0 <= l.tile && l.tile + ncols + 1 < |cps|
  {
    if s > 0 {
      ScanTileValid(cps, nrows, ncols, x, y, s - 1, init);
      if ContainsAt(cps, nrows, ncols, x, y, s - 1) {
        LocalAtSpec(cps, nrows, ncols, x, y, s - 1);
      }
    }
  }

  // ---- bilinear interpolation ----

  /** toWorld's interpolation: along u on the lower and upper edges, then
      along v between them. */
  function Bilinear(t: seq<Vec2>, u: real, v: real): Vec2
    requires |t| == 4
  {
    var p0 := Add2(Scale2(1.0 - u, t[0]), Scale2(u, t[1]));
    var p1 := Add2(Scale2(1.0 - u, t[2]), Scale2(u, t[3]));
    Add2(Scale2(1.0 - v, p0), Scale2(v, p1))
  }

  /** The corners of the unit square go to the corners of the tile. */
  lemma BilinearCorners(t: seq<Vec2>)
    requires |t| == 4
    ensures Bilinear(t, 0.0, 0.0) == t[0] && Bilinear(t, 1.0, 0.0) == t[1]
    ensures Bilinear(t, 0.0, 1.0) == t[2] && Bilinear(t, 1.0, 1.0) == t[3]
  {
  }

  /** An undeformed tile: an axis-aligned rectangle with corner 1 to the
      right of corner 0 and corner 2 above it. */
  predicate Rectangle(t: seq<Vec2>)
    requires |t| == 4
  {
    t[1] == Vec2(t[3].x, t[0].y) && t[2] == Vec2(t[0].x, t[3].y)
  }

  /** On a rectangle, interpolating at the local coordinates of a point
      inside gives the point back. */
  lemma LocalInverse(t: seq<Vec2>, x: real, y: real, index: int)
    requires |t| == 4 && Rectangle(t) && Inside(t, x, y)
    ensures var l := LocalIn(t, x, y, index); Bilinear(t, l.u, l.v) == Vec2(x, y)
  {
    var l := LocalIn(t, x, y, index);
    assert l.u * (t[3].x - t[0].x) == x - t[0].x;
    assert l.v * (t[3].y - t[0].y) == y - t[0].y;
    InterpolateEdge(t[0].x, t[3].x, l.u);
    InterpolateEdge(t[0].y, t[3].y, l.v);
  }

  lemma InterpolateEdge(a: real, b: real, u: real)
    ensures (1.0 - u) * a + u * b == a + u * (b - a)
  {
  }

  /** Every tile of the grid is an undeformed rectangle. */
  ghost predicate Undeformed(cps: seq<Vec2>, nrows: int, ncols: int)
    requires TilesStored(cps, nrows, ncols)
  {
    forall s :: 0 <= s < NumTiles(nrows, ncols) ==> Rectangle(TileAt(cps, nrows, ncols, s))
  }

  /** The grid after reset is undeformed. */
  lemma ResetUndeformed(nrows: int, ncols: int)
    requires nrows >= 2 && ncols >= 2
    ensures TilesStored(ResetGrid(nrows, ncols), nrows, ncols)
    ensures Undeformed(ResetGrid(nrows, ncols), nrows, ncols)
  {
    forall s | 0 <= s < NumTiles(nrows, ncols)
      ensures Rectangle(TileAt(ResetGrid(nrows, ncols), nrows, ncols, s))
    {
      ScanCell(nrows, ncols, s);
      ResetTile(nrows, ncols, s % (nrows - 1), s / (nrows - 1));
    }
  }

  lemma ResetTile(nrows: int, ncols: int, row: int, col: int)
    requires nrows >= 2 && ncols >= 2 && 0 <= row < nrows - 1 && 0 <= col < ncols - 1
    ensures 0 <= Index(ncols, row, col) && Index(ncols, row, col) + ncols + 1 < |ResetGrid(nrows, ncols)|
    ensures Rectangle(TileCorners(ResetGrid(nrows, ncols), ncols, Index(ncols, row, col)))
  {
    var g := ResetGrid(nrows, ncols);
    var i := Index(ncols, row, col);
    ResetGridAt(nrows, ncols, row, col);
    ResetGridAt(nrows, ncols, row, col + 1);
    ResetGridAt(nrows, ncols, row + 1, col);
    ResetGridAt(nrows, ncols, row + 1, col + 1);
    assert Index(ncols, row, col + 1) == i + 1;
    assert Index(ncols, row + 1, col) == i + ncols;
    assert Index(ncols, row + 1, col + 1) == i + ncols + 1;
    var t := TileCorners(g, ncols, i);
    assert t[1] == ResetPoint(nrows, ncols, row, col + 1);
    assert t[3] == ResetPoint(nrows, ncols, row + 1, col + 1);
  }

  /** On an undeformed grid, toWorld after toLocal puts every vertex that
      lies strictly inside some tile back where it was. */
  lemma LocateRoundTrip(cps: seq<Vec2>, nrows: int, ncols: int, x: real, y: real, prev: int, s: int)
    requires TilesStored(cps, nrows, ncols) && Undeformed(cps, nrows, ncols)
    requires 0 <= s < NumTiles(nrows, ncols) && ContainsAt(cps, nrows, ncols, x, y, s)
    ensures var l := Locate(cps, nrows, ncols, x, y, prev);
      0 <= l.tile && 0 <= ncols && l.tile + ncols + 1 < |cps| &&
      Bilinear(TileCorners(cps, ncols, l.tile), l.u, l.v) == Vec2(x, y)
  {
    var n := NumTiles(nrows, ncols);
    var last := LastContaining(cps, nrows, ncols, x, y, s, n);
    LocateSpec(cps, nrows, ncols, x, y, prev);
    LocalAtSpec(cps, nrows, ncols, x, y, last);
    LocalInverse(TileAt(cps, nrows, ncols, last), x, y, ScanIndex(nrows, ncols, last));
  }

  /** The last tile below n that contains (x, y), given that tile s does. */
  lemma {:induction false} LastContaining(cps: seq<Vec2>, nrows: int, ncols: int, x: real, y: real, s: int, n: int)
    returns (last: int)
    requires TilesStored(cps, nrows, ncols) && 0 <= s < n <= NumTiles(nrows, ncols)
    requires ContainsAt(cps, nrows, ncols, x, y, s)
    ensures s <= last < n && ContainsAt(cps, nrows, ncols, x, y, last)
    ensures forall t2 :: last < t2 < n ==> !ContainsAt(cps, nrows, ncols, x, y, t2)
    decreases n
  {
    if ContainsAt(cps, nrows, ncols, x, y, n - 1) || s == n - 1 {
      last := n - 1;
    } else {
      last := LastContaining(cps, nrows, ncols, x, y, s, n - 1);
    }
  }

  // ---- whole buffers ----

  /** The record toLocal makes for every vertex, given the tile entries after
      the resize. */
  function Locals(pos: seq<real>, tiles: seq<int>, cps: seq<Vec2>, nrows: int, ncols: int): (ls: seq<Local>)
    requires |tiles| == |pos| / 3 && (|pos| >= 3 ==> TilesStored(cps, nrows, ncols))
    ensures |ls| == |pos| / 3
  {
    seq(|pos| / 3, k requires 0 <= k < |pos| / 3 => Locate(cps, nrows, ncols, pos[3 * k], pos[3 * k + 1], tiles[k]))
  }

  /** Each tile entry is a valid getTileCPs argument for the first n vertices. */
  predicate TilesValid(tiles: seq<int>, n: int, cps: seq<Vec2>, ncols: int) {
    n <= |tiles| && 0 <= ncols && forall k :: 0 <= k < n ==> 0 <= tiles[k] && tiles[k] + ncols + 1 < |cps|
  }

  function Coord2(p: Vec2, c: int): real { if c == 0 then p.x else p.y }

  /** The positions toWorld writes: x and y of each vertex interpolated in its
      recorded tile, everything else as it was. */
  function Deformed(pos: seq<real>, local: seq<real>, tiles: seq<int>, cps: seq<Vec2>, ncols: int): (r: seq<real>)
    requires 2 * (|pos| / 3) <= |local| && TilesValid(tiles, |pos| / 3, cps, ncols)
    ensures |r| == |pos|
  {
    seq(|pos|, t requires 0 <= t < |pos| =>
      if t < 3 * (|pos| / 3) && t % 3 < 2 then
        Coord2(Bilinear(TileCorners(cps, ncols, tiles[t / 3]), local[2 * (t / 3)], local[2 * (t / 3) + 1]), t % 3)
      else pos[t])
  }

  /** toWorld changes x and y only: each z, and any entries past the last
      whole vertex, keep their values. */
  lemma DeformedKeepsZ(pos: seq<real>, local: seq<real>, tiles: seq<int>, cps: seq<Vec2>, ncols: int, t: int)
    requires 2 * (|pos| / 3) <= |local| && TilesValid(tiles, |pos| / 3, cps, ncols)
    requires 0 <= t < |pos| && (t % 3 == 2 || t >= 3 * (|pos| / 3))
    ensures Deformed(pos, local, tiles, cps, ncols)[t] == pos[t]
  {
  }

  /** The buffer form of the round trip: on an undeformed grid, toWorld
      applied to what toLocal recorded restores x and y of every vertex that
      lies strictly inside a tile. */
  lemma BuffersRoundTrip(pos: seq<real>, tiles: seq<int>, cps: seq<Vec2>, nrows: int, ncols: int,
                         local: seq<real>, after: seq<int>, k: int, s: int)
    requires |tiles| == |pos| / 3 && TilesStored(cps, nrows, ncols) && Undeformed(cps, nrows, ncols)
    requires |local| == 2 * (|pos| / 3) && |after| == |pos| / 3
    requires forall j :: 0 <= j < |pos| / 3 ==>
      local[2 * j] == Locals(pos, tiles, cps, nrows, ncols)[j].u &&
      local[2 * j + 1] == Locals(pos, tiles, cps, nrows, ncols)[j].v &&
      after[j] == Locals(pos, tiles, cps, nrows, ncols)[j].tile
    requires TilesValid(after, |pos| / 3, cps, ncols)
    requires 0 <= k < |pos| / 3 && 0 <= s < NumTiles(nrows, ncols) && ContainsAt(cps, nrows, ncols, pos[3 * k], pos[3 * k + 1], s)
    ensures Deformed(pos, local, after, cps, ncols)[3 * k] == pos[3 * k]
    ensures Deformed(pos, local, after, cps, ncols)[3 * k + 1] == pos[3 * k + 1]
  {
    LocateRoundTrip(cps, nrows, ncols, pos[3 * k], pos[3 * k + 1], tiles[k], s);
    assert (3 * k) / 3 == k && (3 * k + 1) / 3 == k;
  }

  /** The mesh positions and the local coordinates of 6_lab's ShapeCage,
      with the grid it shares. */
  class ShapeCage {
    var posBuf: seq<real>
    var posLocalBuf: seq<real>
    var tileIndexBuf: seq<int>
    var grid: Grid?

    constructor()
      ensures posBuf == [] && posLocalBuf == [] && tileIndexBuf == [] && grid == null
    {
      posBuf, posLocalBuf, tileIndexBuf := [], [], [];
      grid := null;
    }

    method SetGrid(g: Grid)
      modifies this`grid
      ensures grid == g
    {
      grid := g;
    }

    /** load: the positions of the mesh when it loads (ok). */
    method Load(ok: bool, positions: seq<real>)
      modifies this`posBuf
      ensures posBuf == if ok then positions else old(posBuf)
    {
      if ok {
        posBuf := positions;
      }
    }

    /** The tile loop of toLocal for the vertex at (x, y) whose entry holds
        `prev`: columns outside, rows inside, the last containing tile
        winning. */
    method LocateVertex(x: real, y: real, prev: int) returns (l: Local)
      requires grid != null && TilesStored(grid.cps, grid.nrows, grid.ncols)
      ensures l == Locate(grid.cps, grid.nrows, grid.ncols, x, y, prev)
    {
      var g := grid;
      var nrows, ncols := g.nrows, g.ncols;
      ghost var init := Local(0.0, 0.0, prev);
      var u, v, tile := 0.0, 0.0, prev;
      ghost var s: nat := 0;
      var col := 0;
      while col < ncols - 1
        invariant 0 <= col && (col <= ncols - 1 || col == 0)
        invariant s <= NumTiles(nrows, ncols) && Local(u, v, tile) == Scan(g.cps, nrows, ncols, x, y, s, init)
        invariant nrows >= 2 ==> s == col * (nrows - 1)
        invariant nrows < 2 ==> s == 0
      {
        var row := 0;
        while row < nrows - 1
          invariant 0 <= row && (row <= nrows - 1 || row == 0)
          invariant s <= NumTiles(nrows, ncols) && Local(u, v, tile) == Scan(g.cps, nrows, ncols, x, y, s, init)
          invariant nrows >= 2 ==> s == col * (nrows - 1) + row
          invariant nrows < 2 ==> s == 0
        {
          ScanStepAt(nrows, ncols, row, col);
          ScanIndexOk(g.cps, nrows, ncols, s);
          var tileIndex := g.IndexAt(row, col);
          var cs := g.GetTileCPs(tileIndex);
          assert cs == TileAt(g.cps, nrows, ncols, s);
          var xmin, ymin := cs[0].x, cs[0].y;
          var xmax, ymax := cs[3].x, cs[3].y;
          if x > xmin && x < xmax && y > ymin && y < ymax {
            u := (x - xmin) / (xmax - xmin);
            v := (y - ymin) / (ymax - ymin);
            tile := tileIndex;
          }
          row, s := row + 1, s + 1;
        }
        if nrows >= 2 {
          MulSucc(col, nrows - 1);
        }
        col := col + 1;
      }
      l := Local(u, v, tile);
      if nrows >= 2 && ncols >= 2 {
        assert s == (ncols - 1) * (nrows - 1);
      }
    }

    /** toLocal: resizes the two buffers, then records every vertex's local
        coordinates and tile. The tile scan and the getTileCPs(0) call it
        makes per vertex need the grid's tiles to be stored; with no vertex
        nothing is read. */
    method ToLocal()
      requires grid != null
      requires |posBuf| >= 3 ==> TilesStored(grid.cps, grid.nrows, grid.ncols)
      requires |posBuf| >= 3 ==> 0 <= grid.ncols && grid.ncols + 1 < |grid.cps|
      modifies this`posLocalBuf, this`tileIndexBuf
      ensures |posLocalBuf| == 2 * (|posBuf| / 3) && |tileIndexBuf| == |posBuf| / 3
      ensures forall k :: 0 <= k < |posBuf| / 3 ==>
        var l := Locals(posBuf, Resized(old(tileIndexBuf), |posBuf| / 3, 0), grid.cps, grid.nrows, grid.ncols)[k];
        posLocalBuf[2 * k] == l.u && posLocalBuf[2 * k + 1] == l.v && tileIndexBuf[k] == l.tile
    {
      var n := |posBuf| / 3;
      posLocalBuf := Resized(posLocalBuf, n * 2, 0.0);
      tileIndexBuf := Resized(tileIndexBuf, n, 0);
      RecordVertices();
    }

    /** The vertex loop of toLocal, on buffers already of the right size. */
    method RecordVertices()
      requires grid != null
      requires |posBuf| >= 3 ==> TilesStored(grid.cps, grid.nrows, grid.ncols)
      requires |posBuf| >= 3 ==> 0 <= grid.ncols && grid.ncols + 1 < |grid.cps|
      requires |posLocalBuf| == 2 * (|posBuf| / 3) && |tileIndexBuf| == |posBuf| / 3
      modifies this`posLocalBuf, this`tileIndexBuf
      ensures |posLocalBuf| == 2 * (|posBuf| / 3) && |tileIndexBuf| == |posBuf| / 3
      ensures forall k :: 0 <= k < |posBuf| / 3 ==>
        var l := Locals(posBuf, old(tileIndexBuf), grid.cps, grid.nrows, grid.ncols)[k];
        posLocalBuf[2 * k] == l.u && posLocalBuf[2 * k + 1] == l.v && tileIndexBuf[k] == l.tile
    {
      var n := |posBuf| / 3;
      ghost var ls := Locals(posBuf, tileIndexBuf, grid.cps, grid.nrows, grid.ncols);
      ghost var tiles := tileIndexBuf;
      var k := 0;
      while k < n
        invariant 0 <= k <= n && |posLocalBuf| == 2 * n && |tileIndexBuf| == n
        invariant forall j :: k <= j < n ==> tileIndexBuf[j] == tiles[j]
        invariant forall j :: 0 <= j < k ==>
          posLocalBuf[2 * j] == ls[j].u && posLocalBuf[2 * j + 1] == ls[j].v && tileIndexBuf[j] == ls[j].tile
      {
        var x, y := posBuf[3 * k], posBuf[3 * k + 1];
        var l := LocateVertex(x, y, tileIndexBuf[k]);
        var first := grid.GetTileCPs(0);
        tileIndexBuf := tileIndexBuf[k := l.tile];
        posLocalBuf := posLocalBuf[2 * k := l.u][2 * k + 1 := l.v];
        k := k + 1;
      }
    }

    /** toWorld: every vertex's x and y from its tile's current corners. */
    method ToWorld()
      requires grid != null && 2 * (|posBuf| / 3) <= |posLocalBuf|
      requires TilesValid(tileIndexBuf, |posBuf| / 3, grid.cps, grid.ncols)
      modifies this`posBuf
      ensures posBuf == Deformed(old(posBuf), posLocalBuf, tileIndexBuf, grid.cps, grid.ncols)
    {
      var n := |posBuf| / 3;
      ghost var pos := posBuf;
      ghost var target := Deformed(pos, posLocalBuf, tileIndexBuf, grid.cps, grid.ncols);
      var k := 0;
      while k < n
        invariant 0 <= k <= n && |posBuf| == |pos|
        invariant forall t :: 0 <= t < |pos| ==> posBuf[t] == if t < 3 * k then target[t] else pos[t]
      {
        var u, v := posLocalBuf[2 * k], posLocalBuf[2 * k + 1];
        var cs := grid.GetTileCPs(tileIndexBuf[k]);
        var p0 := Add2(Scale2(1.0 - u, cs[0]), Scale2(u, cs[1]));
        var p1 := Add2(Scale2(1.0 - u, cs[2]), Scale2(u, cs[3]));
        var puv := Add2(Scale2(1.0 - v, p0), Scale2(v, p1));
        assert puv == Bilinear(TileCorners(grid.cps, grid.ncols, tileIndexBuf[k]), u, v);
        assert (3 * k) / 3 == k && (3 * k + 1) / 3 == k && (3 * k + 2) / 3 == k;
        posBuf := posBuf[3 * k := puv.x][3 * k + 1 := puv.y];
        k := k + 1;
      }
    }
  }

  lemma MulSucc(a: int, n: int)
    ensures a * n + n == (a + 1) * n
  {
  }

  /** Row and column of scan position col * (nrows - 1) + row. */
  lemma ScanStepAt(nrows: int, ncols: int, row: int, col: int)
    requires 0 <= row < nrows - 1 && 0 <= col < ncols - 1
    ensures 0 <= col * (nrows - 1) + row < NumTiles(nrows, ncols)
    ensures ScanIndex(nrows, ncols, col * (nrows - 1) + row) == Index(ncols, row, col)
  {
    IndexInverse(nrows - 1, col, row);
    IndexInRange(ncols - 1, nrows - 1, col, row);
  }

  /** After toLocal, every vertex's tile entry is valid when the entries it
      started from were (new entries start at tile 0). */
  lemma LocalsTilesValid(pos: seq<real>, tiles: seq<int>, cps: seq<Vec2>, nrows: int, ncols: int)
    requires |tiles| == |pos| / 3 && TilesStored(cps, nrows, ncols)
    requires TilesValid(tiles, |pos| / 3, cps, ncols)
    ensures forall k :: 0 <= k < |pos| / 3 ==>
      0 <= Locals(pos, tiles, cps, nrows, ncols)[k].tile && Locals(pos, tiles, cps, nrows, ncols)[k].tile + ncols + 1 < |cps|
  {
    forall k | 0 <= k < |pos| / 3
      ensures 0 <= Locals(pos, tiles, cps, nrows, ncols)[k].tile && Locals(pos, tiles, cps, nrows, ncols)[k].tile + ncols + 1 < |cps|
    {
      ScanTileValid(cps, nrows, ncols, pos[3 * k], pos[3 * k + 1], NumTiles(nrows, ncols), Local(0.0, 0.0, tiles[k]));
    }
  }
}

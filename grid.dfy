// The control-point grid of the skinning and free-form-deformation labs: a
// row-major vector of 2D points, a selected point, and a line-oriented save
// file (skeleton_asgn/src/Grid.cpp; the interface is 6_lab/src/Grid.h).

module Grids {
  import opened LinAlg
  import opened Options

  /** Row-major position of (row, col) in a grid with ncols columns. */
  function Index(ncols: int, row: int, col: int): int { row * ncols + col }

  /** (row, col) is a cell of an nrows x ncols grid whose point is stored. */
  ghost predicate Cell(cps: seq<Vec2>, nrows: int, ncols: int, row: int, col: int) {
    0 <= row < nrows && 0 <= col < ncols && Index(ncols, row, col) < |cps|
  }

  /** Every cell of the grid has its point stored. */
  predicate Fits(cps: seq<Vec2>, nrows: int, ncols: int) {
    nrows <= 0 || ncols <= 0 || nrows * ncols <= |cps|
  }

  lemma IndexInRange(nrows: int, ncols: int, row: int, col: int)
    requires 0 <= row < nrows && 0 <= col < ncols
    ensures 0 <= Index(ncols, row, col) < nrows * ncols
  {
    assert row * ncols <= (nrows - 1) * ncols;
  }

  /** Under Fits, the stored cells are exactly the rectangle of the grid. */
  lemma FitsCells(cps: seq<Vec2>, nrows: int, ncols: int, row: int, col: int)
    requires Fits(cps, nrows, ncols) && 0 <= row < nrows && 0 <= col < ncols
    ensures Cell(cps, nrows, ncols, row, col)
  {
    IndexInRange(nrows, ncols, row, col);
  }

  /** indexAt is one-to-one: the row and the column are recovered from it. */
  lemma IndexInverse(ncols: int, row: int, col: int)
    requires 0 <= row && 0 <= col < ncols
    ensures Index(ncols, row, col) / ncols == row
    ensures Index(ncols, row, col) % ncols == col
  {
    var k := Index(ncols, row, col);
    var q, r := k / ncols, k % ncols;
    assert k == q * ncols + r && 0 <= r < ncols;
    MulSub(q, row, ncols);
    assert (q - row) * ncols == col - r;
    if q > row {
      MulAtLeast(q - row, ncols);
    } else if q < row {
      MulAtLeast(row - q, ncols);
      MulSub(row, q, ncols);
    }
  }

  /** Distinct cells have distinct positions. */
  lemma IndexDistinct(ncols: int, r1: int, c1: int, r2: int, c2: int)
    requires 0 <= r1 && 0 <= c1 < ncols && 0 <= r2 && 0 <= c2 < ncols
    requires r1 != r2 || c1 != c2
    ensures Index(ncols, r1, c1) != Index(ncols, r2, c2)
  {
    IndexInverse(ncols, r1, c1);
    IndexInverse(ncols, r2, c2);
  }

  lemma MulSub(a: int, b: int, n: int)
    ensures (a - b) * n == a * n - b * n
  {
  }

  lemma MulAtLeast(a: int, n: int)
    requires a >= 1 && n > 0
    ensures a * n >= n
  {
  }

  /** indexAt is onto: every position of an nrows x ncols vector is a cell's. */
  lemma IndexOnto(nrows: int, ncols: int, k: int)
    requires 0 < ncols && 0 <= k < nrows * ncols
    ensures 0 <= k / ncols < nrows && Index(ncols, k / ncols, k % ncols) == k
  {
  }

  /** Where reset puts cell (row, col): spread evenly over [-1, 1] x [-1, 1]. */
  function ResetPoint(nrows: int, ncols: int, row: int, col: int): Vec2
    requires nrows >= 2 && ncols >= 2
  {
    Vec2(-1.0 + (col as real) / (ncols as real - 1.0) * 2.0,
         -1.0 + (row as real) / (nrows as real - 1.0) * 2.0)
  }

  /** The whole reset grid, in row-major order. */
  function ResetGrid(nrows: int, ncols: int): (g: seq<Vec2>)
    requires nrows >= 2 && ncols >= 2
    ensures |g| == nrows * ncols
  {
    seq(nrows * ncols, k requires 0 <= k < nrows * ncols => ResetPoint(nrows, ncols, k / ncols, k % ncols))
  }

  lemma ResetGridAt(nrows: int, ncols: int, row: int, col: int)
    requires nrows >= 2 && ncols >= 2 && 0 <= row < nrows && 0 <= col < ncols
    ensures 0 <= Index(ncols, row, col) < |ResetGrid(nrows, ncols)|
    ensures ResetGrid(nrows, ncols)[Index(ncols, row, col)] == ResetPoint(nrows, ncols, row, col)
  {
    IndexInRange(nrows, ncols, row, col);
    IndexInverse(ncols, row, col);
  }

  /** The reset grid has its corners at (-1, -1) and (1, 1). */
  lemma ResetCorners(nrows: int, ncols: int)
    requires nrows >= 2 && ncols >= 2
    ensures ResetGrid(nrows, ncols)[0] == Vec2(-1.0, -1.0)
    ensures ResetGrid(nrows, ncols)[Index(ncols, nrows - 1, ncols - 1)] == Vec2(1.0, 1.0)
  {
    ResetGridAt(nrows, ncols, 0, 0);
    ResetGridAt(nrows, ncols, nrows - 1, ncols - 1);
    SelfQuotient(ncols);
    SelfQuotient(nrows);
  }

  /** Every reset point lies in the square [-1, 1] x [-1, 1]. */
  lemma ResetInSquare(nrows: int, ncols: int, k: int)
    requires nrows >= 2 && ncols >= 2 && 0 <= k < nrows * ncols
    ensures -1.0 <= ResetGrid(nrows, ncols)[k].x <= 1.0
    ensures -1.0 <= ResetGrid(nrows, ncols)[k].y <= 1.0
  {
    IndexOnto(nrows, ncols, k);
    var row, col := k / ncols, k % ncols;
    UnitFraction(col, ncols);
    UnitFraction(row, nrows);
  }

  lemma SelfQuotient(n: int)
    requires n >= 2
    ensures ((n - 1) as real) / (n as real - 1.0) == 1.0
  {
    var d := n as real - 1.0;
    assert (n - 1) as real == d && d > 0.0;
  }

  lemma UnitFraction(i: int, n: int)
    requires 0 <= i < n && n >= 2
    ensures 0.0 <= (i as real) / (n as real - 1.0) <= 1.0
  {
    var d, x := n as real - 1.0, i as real;
    assert 0.0 <= x <= d && d > 0.0;
    var q := x / d;
    assert q * d == x;
    assert (1.0 - q) * d == d - x;
    NonNegFactor(q, d);
    NonNegFactor(1.0 - q, d);
  }

  /** A product that is non-negative, with a positive factor, has a
      non-negative other factor. */
  lemma NonNegFactor(a: real, b: real)
    requires b > 0.0 && a * b >= 0.0
    ensures a >= 0.0
  {
  }

  /** The four control points of the tile whose lower-left point is at
      `index`: lower-left, lower-right, upper-left, upper-right. The asserts
      of getTileCPs bound only the index; `0 <= ncols` stands for a
      well-formed grid, whose column count is never negative. */
  function TileCorners(cps: seq<Vec2>, ncols: int, index: int): (t: seq<Vec2>)
    requires 0 <= index && 0 <= ncols && index + ncols + 1 < |cps|
    ensures |t| == 4
  {
    [cps[index], cps[index + 1], cps[index + ncols], cps[index + ncols + 1]]
  }

  /** C++ vector::resize: keep a prefix or pad with `fill`. */
  function Resized<T>(s: seq<T>, n: nat, fill: T): (r: seq<T>)
    ensures |r| == n
    ensures forall k :: 0 <= k < n && k < |s| ==> r[k] == s[k]
    ensures forall k :: |s| <= k < n ==> r[k] == fill
  {
    if n <= |s| then s[..n] else s + seq(n - |s|, _ => fill)
  }

  /** Euclidean distance through the supplied square root. */
  function Dist(mt: Maths, p: Vec2, q: Vec2): real { Norm2(mt, Sub2(p, q)) }

  /** (r1, c1) comes before (r2, c2) in the column-major scan of findClosest. */
  predicate Before(r1: int, c1: int, r2: int, c2: int) {
    c1 < c2 || (c1 == c2 && r1 < r2)
  }

  /** (row, col) is the cell findClosest settles on: nearer than 0.1, strictly
      nearer than every cell scanned before it and no farther than any after. */
  ghost predicate FirstNearest(cps: seq<Vec2>, nrows: int, ncols: int, mt: Maths, p: Vec2, row: int, col: int)
    requires Cell(cps, nrows, ncols, row, col)
  {
    var d := Dist(mt, p, cps[Index(ncols, row, col)]);
    d < 0.1 &&
    forall r, c :: Cell(cps, nrows, ncols, r, c) ==>
      (Before(r, c, row, col) ==> Dist(mt, p, cps[Index(ncols, r, c)]) > d) &&
      (!Before(r, c, row, col) ==> Dist(mt, p, cps[Index(ncols, r, c)]) >= d)
  }

  /** What findClosest leaves in `closest`: -1 exactly when no cell is
      nearer than 0.1, and otherwise the position of a cell that is
      FirstNearest. */
  ghost predicate Selected(cps: seq<Vec2>, nrows: int, ncols: int, mt: Maths, p: Vec2, closest: int) {
    (closest == -1 <==>
       forall r, c :: Cell(cps, nrows, ncols, r, c) ==> Dist(mt, p, cps[Index(ncols, r, c)]) >= 0.1) &&
    (closest != -1 ==>
       exists r, c :: Cell(cps, nrows, ncols, r, c) && closest == Index(ncols, r, c) &&
         FirstNearest(cps, nrows, ncols, mt, p, r, c))
  }

  /** The state of findClosest's scan once every cell before (row, col) has
      been looked at: either nothing nearer than 0.1 was seen, or `closest` is
      the cell (br, bc) first attaining the least distance seen, `dmin`. */
  ghost predicate Scanned(cps: seq<Vec2>, nrows: int, ncols: int, mt: Maths, p: Vec2, row: int, col: int,
                          closest: int, dmin: real, br: int, bc: int)
  {
    (closest == -1 ==>
       dmin == 0.1 &&
       forall r, c :: Cell(cps, nrows, ncols, r, c) && Before(r, c, row, col) ==> Dist(mt, p, cps[Index(ncols, r, c)]) >= 0.1) &&
    (closest != -1 ==>
       Cell(cps, nrows, ncols, br, bc) && Before(br, bc, row, col) &&
       closest == Index(ncols, br, bc) && dmin == Dist(mt, p, cps[Index(ncols, br, bc)]) && dmin < 0.1 &&
       forall r, c :: Cell(cps, nrows, ncols, r, c) && Before(r, c, row, col) ==>
         (Before(r, c, br, bc) ==> Dist(mt, p, cps[Index(ncols, r, c)]) > dmin) &&
         (!Before(r, c, br, bc) ==> Dist(mt, p, cps[Index(ncols, r, c)]) >= dmin))
  }

  /** Looking at cell (row, col) with the strict comparison of findClosest:
      a strictly nearer cell becomes the selection ... */
  lemma ScanCloser(cps: seq<Vec2>, nrows: int, ncols: int, mt: Maths, p: Vec2, row: int, col: int,
                   closest: int, dmin: real, br: int, bc: int)
    requires Scanned(cps, nrows, ncols, mt, p, row, col, closest, dmin, br, bc)
    requires Cell(cps, nrows, ncols, row, col)
    requires Dist(mt, p, cps[Index(ncols, row, col)]) < dmin
    ensures Scanned(cps, nrows, ncols, mt, p, row + 1, col, Index(ncols, row, col),
                    Dist(mt, p, cps[Index(ncols, row, col)]), row, col)
  {
  }

  /** ... and any other cell leaves the selection as it is. */
  lemma ScanNotCloser(cps: seq<Vec2>, nrows: int, ncols: int, mt: Maths, p: Vec2, row: int, col: int,
                      closest: int, dmin: real, br: int, bc: int)
    requires Scanned(cps, nrows, ncols, mt, p, row, col, closest, dmin, br, bc)
    requires Cell(cps, nrows, ncols, row, col)
    requires Dist(mt, p, cps[Index(ncols, row, col)]) >= dmin
    ensures Scanned(cps, nrows, ncols, mt, p, row + 1, col, closest, dmin, br, bc)
  {
  }

  lemma ScanNextColumn(cps: seq<Vec2>, nrows: int, ncols: int, mt: Maths, p: Vec2, row: int, col: int,
                       closest: int, dmin: real, br: int, bc: int)
    requires Scanned(cps, nrows, ncols, mt, p, row, col, closest, dmin, br, bc) && row >= nrows
    ensures Scanned(cps, nrows, ncols, mt, p, 0, col + 1, closest, dmin, br, bc)
  {
  }

  lemma ScanDone(cps: seq<Vec2>, nrows: int, ncols: int, mt: Maths, p: Vec2, col: int,
                 closest: int, dmin: real, br: int, bc: int)
    requires Scanned(cps, nrows, ncols, mt, p, 0, col, closest, dmin, br, bc) && col >= ncols
    ensures Selected(cps, nrows, ncols, mt, p, closest)
  {
    if closest != -1 {
      assert FirstNearest(cps, nrows, ncols, mt, p, br, bc);
    }
  }

  // ---- the save file ----

  /** A text file as the loader sees it, after `in >> nrows >> ncols`: the two
      header integers, the complete lines that follow the one holding ncols
      (each ended by a newline), and the unterminated text after the last
      newline. */
  datatype TextFile = TextFile(nrows: int, ncols: int, lines: seq<string>, tail: string)

  /** One more than the largest value of a C++ `int`. */
  const IntLimit: int := 0x8000_0000

  /** The line save writes after the points. */
  const EndLine: string := "##################################"

  /** load keeps a line unless it is shorter than two characters or starts with '#'. */
  predicate Kept(line: string) { |line| >= 2 && line[0] != '#' }

  /** The points load reads from a sequence of lines, through the supplied
      decimal parser. */
  function Points(parse: string -> Vec2, lines: seq<string>): seq<Vec2>
  {
    if lines == [] then []
    else
      var init := Points(parse, lines[..|lines| - 1]);
      var last := lines[|lines| - 1];
      if Kept(last) then init + [parse(last)] else init
  }

  /** The file save writes for a grid, through the supplied decimal printer. */
  function SavedFile(fmt: Vec2 -> string, nrows: int, ncols: int, cps: seq<Vec2>): (f: TextFile)
    ensures |f.lines| == |cps| + 1 && f.lines[|cps|] == EndLine
  {
    TextFile(nrows, ncols, seq(|cps|, k requires 0 <= k < |cps| => fmt(cps[k])) + [EndLine], "")
  }

  /** The printer writes a point as a line load keeps and reads back exactly. */
  ghost predicate Printable(fmt: Vec2 -> string, parse: string -> Vec2) {
    forall v :: Kept(fmt(v)) && parse(fmt(v)) == v
  }

  lemma {:induction false} PointsOfPrinted(fmt: Vec2 -> string, parse: string -> Vec2, cps: seq<Vec2>)
    requires Printable(fmt, parse)
    ensures Points(parse, seq(|cps|, k requires 0 <= k < |cps| => fmt(cps[k]))) == cps
  {
    var lines := seq(|cps|, k requires 0 <= k < |cps| => fmt(cps[k]));
    if cps != [] {
      var init := cps[..|cps| - 1];
      assert lines[..|lines| - 1] == seq(|init|, k requires 0 <= k < |init| => fmt(init[k]));
      PointsOfPrinted(fmt, parse, init);
      assert Kept(fmt(cps[|cps| - 1]));
      assert cps == init + [cps[|cps| - 1]];
    }
  }

  /** Loading what save wrote restores nrows, ncols and every point, in order;
      the closing '#' line is skipped. */
  lemma SaveLoadRoundTrip(fmt: Vec2 -> string, parse: string -> Vec2, nrows: int, ncols: int, cps: seq<Vec2>)
    requires Printable(fmt, parse)
    ensures SavedFile(fmt, nrows, ncols, cps).nrows == nrows
    ensures SavedFile(fmt, nrows, ncols, cps).ncols == ncols
    ensures Points(parse, SavedFile(fmt, nrows, ncols, cps).lines) == cps
  {
    var f := SavedFile(fmt, nrows, ncols, cps);
    var pts := seq(|cps|, k requires 0 <= k < |cps| => fmt(cps[k]));
    assert f.lines[..|f.lines| - 1] == pts;
    PointsOfPrinted(fmt, parse, cps);
    assert !Kept(EndLine);
  }

  /** Comment and short lines add nothing; every other line adds one point. */
  lemma {:induction false} PointsCount(parse: string -> Vec2, lines: seq<string>)
    ensures |Points(parse, lines)| <= |lines|
    ensures (forall i :: 0 <= i < |lines| ==> !Kept(lines[i])) ==> Points(parse, lines) == []
  {
    if lines != [] {
      PointsCount(parse, lines[..|lines| - 1]);
    }
  }

  /** Every cell scanned by reset before (row, col), in its column-major
      order, already holds its point of g. */
  ghost predicate AgreeBefore(cps: seq<Vec2>, g: seq<Vec2>, nrows: int, ncols: int, row: int, col: int)
    requires |cps| == |g|
  {
    forall r, c :: Cell(cps, nrows, ncols, r, c) && Before(r, c, row, col) ==>
      cps[Index(ncols, r, c)] == g[Index(ncols, r, c)]
  }

  /** Writing cell (row, col)'s point moves the scan on by one cell and
      leaves every other cell as it was. */
  lemma AgreeStep(cps: seq<Vec2>, g: seq<Vec2>, nrows: int, ncols: int, row: int, col: int)
    requires |cps| == |g| && 0 <= row && 0 <= col < ncols
    requires 0 <= Index(ncols, row, col) < |cps|
    requires AgreeBefore(cps, g, nrows, ncols, row, col)
    ensures AgreeBefore(cps[Index(ncols, row, col) := g[Index(ncols, row, col)]], g, nrows, ncols, row + 1, col)
  {
    var k := Index(ncols, row, col);
    var cps' := cps[k := g[k]];
    forall r, c | Cell(cps', nrows, ncols, r, c) && Before(r, c, row + 1, col)
      ensures cps'[Index(ncols, r, c)] == g[Index(ncols, r, c)]
    {
      if r != row || c != col {
        IndexDistinct(ncols, r, c, row, col);
      }
    }
  }

  /** Once every column is done the whole vector is g. */
  lemma AgreeAll(cps: seq<Vec2>, g: seq<Vec2>, nrows: int, ncols: int)
    requires 0 < ncols && |cps| == |g| == nrows * ncols
    requires AgreeBefore(cps, g, nrows, ncols, 0, ncols)
    ensures cps == g
  {
    forall k | 0 <= k < |cps|
      ensures cps[k] == g[k]
    {
      IndexOnto(nrows, ncols, k);
      assert Cell(cps, nrows, ncols, k / ncols, k % ncols);
    }
  }

  class Grid {
    var cps: seq<Vec2>
    var nrows: int
    var ncols: int
    /** Index of the selected control point, or -1. */
    var closest: int

    constructor()
      ensures nrows == 2 && ncols == 2 && closest == -1 && cps == []
    {
      nrows, ncols, closest := 2, 2, -1;
      cps := [];
    }

    function IndexAt(row: int, col: int): (k: int)
      reads this
      ensures 0 <= row < nrows && 0 <= col < ncols ==> 0 <= k < nrows * ncols && k / ncols == row && k % ncols == col
    {
      var k := row * ncols + col;
      if 0 <= row < nrows && 0 <= col < ncols then
        IndexInRange(nrows, ncols, row, col);
        IndexInverse(ncols, row, col);
        k
      else k
    }

    method SetSize(nrows: int, ncols: int)
      requires nrows >= 2 && ncols >= 2
      modifies this
      ensures this.nrows == nrows && this.ncols == ncols
      ensures cps == ResetGrid(nrows, ncols) && closest == old(closest)
    {
      this.nrows := nrows;
      this.ncols := ncols;
      cps := Resized(cps, nrows * ncols, Vec2(0.0, 0.0));
      Reset();
    }

    /** Spreads the points evenly over [-1, 1] x [-1, 1], column by column. */
    method Reset()
      requires nrows >= 2 && ncols >= 2 && |cps| == nrows * ncols
      modifies this`cps
      ensures cps == ResetGrid(nrows, ncols)
    {
      var col := 0;
      while col < ncols
        invariant 0 <= col <= ncols && |cps| == nrows * ncols
        invariant AgreeBefore(cps, ResetGrid(nrows, ncols), nrows, ncols, 0, col)
      {
        ResetColumn(col);
        col := col + 1;
      }
      AgreeAll(cps, ResetGrid(nrows, ncols), nrows, ncols);
    }

    /** The inner loop of reset: every point of column col, row by row. */
    method ResetColumn(col: int)
      requires nrows >= 2 && ncols >= 2 && |cps| == nrows * ncols && 0 <= col < ncols
      requires AgreeBefore(cps, ResetGrid(nrows, ncols), nrows, ncols, 0, col)
      modifies this`cps
      ensures |cps| == nrows * ncols
      ensures AgreeBefore(cps, ResetGrid(nrows, ncols), nrows, ncols, 0, col + 1)
    {
      var x := -1.0 + (col as real) / (ncols as real - 1.0) * 2.0;
      var row := 0;
      while row < nrows
        invariant 0 <= row <= nrows && |cps| == nrows * ncols
        invariant AgreeBefore(cps, ResetGrid(nrows, ncols), nrows, ncols, row, col)
      {
        var y := -1.0 + (row as real) / (nrows as real - 1.0) * 2.0;
        var k := IndexAt(row, col);
        ResetGridAt(nrows, ncols, row, col);
        AgreeStep(cps, ResetGrid(nrows, ncols), nrows, ncols, row, col);
        cps := cps[k := Vec2(x, y)];
        row := row + 1;
      }
    }

    /** Moves the selected point to p; nothing changes when none is selected. */
    method MoveCP(p: Vec2)
      requires closest == -1 || 0 <= closest < |cps|
      modifies this`cps
      ensures cps == if old(closest) == -1 then old(cps) else old(cps)[closest := p]
    {
      if closest != -1 {
        cps := cps[closest := p];
      }
    }

    /** Selects the point nearest to p among those closer than 0.1, the first
        in column-major order on ties; -1 when there is none. */
    method FindClosest(mt: Maths, p: Vec2)
      requires Fits(cps, nrows, ncols)
      modifies this`closest
      ensures Selected(cps, nrows, ncols, mt, p, closest)
    {
      var pts := cps;
      var sel, dmin := -1, 0.1;
      ghost var br, bc := 0, 0;
      var col := 0;
      while col < ncols
        invariant col == 0 || col <= ncols
        invariant Scanned(pts, nrows, ncols, mt, p, 0, col, sel, dmin, br, bc)
      {
        sel, dmin, br, bc := ScanColumn(pts, nrows, ncols, mt, p, col, sel, dmin, br, bc);
        col := col + 1;
      }
      ScanDone(pts, nrows, ncols, mt, p, col, sel, dmin, br, bc);
      closest := sel;
      assert cps == pts;
    }

    /** The inner loop of findClosest: the rows of column col, top to bottom. */
    static method ScanColumn(cps: seq<Vec2>, nrows: int, ncols: int, mt: Maths, p: Vec2, col: int,
                             sel: int, dmin: real, ghost br: int, ghost bc: int)
      returns (sel': int, dmin': real, ghost br': int, ghost bc': int)
      requires Fits(cps, nrows, ncols) && 0 <= col < ncols
      requires Scanned(cps, nrows, ncols, mt, p, 0, col, sel, dmin, br, bc)
      ensures Scanned(cps, nrows, ncols, mt, p, 0, col + 1, sel', dmin', br', bc')
    {
      sel', dmin', br', bc' := sel, dmin, br, bc;
      var row := 0;
      while row < nrows
        invariant row == 0 || row <= nrows
        invariant Scanned(cps, nrows, ncols, mt, p, row, col, sel', dmin', br', bc')
      {
        sel', dmin', br', bc' := ScanCell(cps, nrows, ncols, mt, p, row, col, sel', dmin', br', bc');
        row := row + 1;
      }
      ScanNextColumn(cps, nrows, ncols, mt, p, row, col, sel', dmin', br', bc');
    }

    /** One step of the inner loop: the cell (row, col) becomes the selection
        when it is strictly nearer than the best so far. */
    static method ScanCell(cps: seq<Vec2>, nrows: int, ncols: int, mt: Maths, p: Vec2, row: int, col: int,
                           sel: int, dmin: real, ghost br: int, ghost bc: int)
      returns (sel': int, dmin': real, ghost br': int, ghost bc': int)
      requires Fits(cps, nrows, ncols) && 0 <= row < nrows && 0 <= col < ncols
      requires Scanned(cps, nrows, ncols, mt, p, row, col, sel, dmin, br, bc)
      ensures Scanned(cps, nrows, ncols, mt, p, row + 1, col, sel', dmin', br', bc')
    {
      FitsCells(cps, nrows, ncols, row, col);
      var k := Index(ncols, row, col);
      var d := Dist(mt, p, cps[k]);
      if d < dmin {
        ScanCloser(cps, nrows, ncols, mt, p, row, col, sel, dmin, br, bc);
        sel', dmin', br', bc' := k, d, row, col;
      } else {
        ScanNotCloser(cps, nrows, ncols, mt, p, row, col, sel, dmin, br, bc);
        sel', dmin', br', bc' := sel, dmin, br, bc;
      }
    }

    /** getTileCPs: the corners of the tile at `index`. Its asserts bound
        the index; `0 <= ncols` stands for a well-formed grid. */
    function GetTileCPs(index: int): (t: seq<Vec2>)
      reads this
      requires 0 <= index && 0 <= ncols && index + ncols + 1 < |cps|
      ensures |t| == 4 && t[0] == cps[index] && t[3] == cps[index + ncols + 1]
    {
      TileCorners(cps, ncols, index)
    }

    /** Writes the grid through the supplied printer; None when the file
        cannot be opened. */
    method Save(fmt: Vec2 -> string, canOpen: bool) returns (r: Option<TextFile>)
      ensures r == if canOpen then Some(SavedFile(fmt, nrows, ncols, cps)) else None
    {
      if !canOpen {
        return None;
      }
      var pts := cps;
      var lines: seq<string> := [];
      var k := 0;
      while k < |pts|
        invariant 0 <= k <= |pts|
        invariant lines == seq(k, i requires 0 <= i < k => fmt(pts[i]))
      {
        lines := lines + [fmt(pts[k])];
        k := k + 1;
      }
      lines := lines + [EndLine];
      r := Some(TextFile(nrows, ncols, lines, ""));
    }

    /** Reads a grid through the supplied parser. An unreadable file (None)
        changes nothing; otherwise the header sets nrows and ncols and the
        kept lines replace cps. The selection is not cleared. The header's
        product nrows * ncols must be a non-negative int: `cps.resize`
        throws on a negative size, and an overflowing int product is
        undefined. */
    method Load(parse: string -> Vec2, file: Option<TextFile>)
      requires file.Some? ==> 0 <= file.value.nrows * file.value.ncols < IntLimit
      modifies this`cps, this`nrows, this`ncols
      ensures file.None? ==> cps == old(cps) && nrows == old(nrows) && ncols == old(ncols)
      ensures file.Some? ==>
                nrows == file.value.nrows && ncols == file.value.ncols &&
                cps == Points(parse, file.value.lines)
      ensures closest == old(closest)
    {
      if file.None? {
        return;
      }
      var f := file.value;
      nrows := f.nrows;
      ncols := f.ncols;
      cps := [];
      var i := 0;
      while i < |f.lines|
        invariant 0 <= i <= |f.lines|
        invariant cps == Points(parse, f.lines[..i])
        invariant nrows == f.nrows && ncols == f.ncols
      {
        var line := f.lines[i];
        assert f.lines[..i + 1][..i] == f.lines[..i];
        i := i + 1;
        if |line| < 2 {
          continue;
        }
        if line[0] == '#' {
          continue;
        }
        cps := cps + [parse(line)];
      }
      assert f.lines[..i] == f.lines;
    }
  }

  /** A tile's four control points are the grid neighbours of its lower-left
      cell: (row, col), (row, col+1), (row+1, col), (row+1, col+1). */
  lemma TileOfCell(g: Grid, row: int, col: int)
    requires |g.cps| == g.nrows * g.ncols && 0 <= row < g.nrows - 1 && 0 <= col < g.ncols - 1
    ensures 0 <= g.IndexAt(row, col) && g.IndexAt(row, col) + g.ncols + 1 < |g.cps|
    ensures g.GetTileCPs(g.IndexAt(row, col)) ==
      [g.cps[Index(g.ncols, row, col)], g.cps[Index(g.ncols, row, col + 1)],
       g.cps[Index(g.ncols, row + 1, col)], g.cps[Index(g.ncols, row + 1, col + 1)]]
  {
    IndexInRange(g.nrows, g.ncols, row + 1, col + 1);
  }
}

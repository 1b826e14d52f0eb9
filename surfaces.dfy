/**
  Surfaces: the surface utilities the fault code uses.  A gridded surface is
  its list of locations (row after row); a region is a membership test; the
  floating-rupture sizes, which the code rounds with Math.rint, are integer
  inputs.
 */
module Surfaces {
  import opened Common

  // ---------------------------------------------------------------- fraction in region

  /** The surface locations the region contains, in surface order. */
  function Inside(surface: seq<Location>, contains: Location -> bool): (r: seq<Location>)
    ensures |r| <= |surface|
    ensures forall l :: l in r ==> l in surface && contains(l)
    ensures forall l :: l in surface && contains(l) ==> l in r
  {
    if surface == [] then []
    else (if contains(surface[0]) then [surface[0]] else []) + Inside(surface[1..], contains)
  }

  lemma {:induction false} InsideAll(surface: seq<Location>, contains: Location -> bool)
    ensures |Inside(surface, contains)| == |surface| <==> forall i :: 0 <= i < |surface| ==> contains(surface[i])
  {
    if surface != [] {
      InsideAll(surface[1..], contains);
      assert forall i :: 1 <= i < |surface| ==> surface[i] == surface[1..][i - 1];
      if !contains(surface[0]) {
        assert |Inside(surface[1..], contains)| <= |surface[1..]|;
      }
    }
  }

  lemma {:induction false} InsideAppend(a: seq<Location>, b: seq<Location>, contains: Location -> bool)
    ensures Inside(a + b, contains) == Inside(a, contains) + Inside(b, contains)
  {
    if a == [] {
      assert a + b == b;
    } else {
      assert (a + b)[1..] == a[1..] + b;
      InsideAppend(a[1..], b, contains);
    }
  }

  /**
    getFractionOfSurfaceInRegion: count the locations inside, then divide by
    the surface size (an empty surface divides by zero).
   */
  method FractionInRegion(env: Env, surface: seq<Location>, contains: Location -> bool) returns (fraction: real)
    ensures fraction == Div(env, |Inside(surface, contains)| as real, |surface| as real)
    ensures surface != [] ==> 0.0 <= fraction <= 1.0
  {
    var numInside := 0.0;
    for i := 0 to |surface|
      invariant numInside == |Inside(surface[..i], contains)| as real
    {
      InsideAppend(surface[..i], [surface[i]], contains);
      assert surface[..i + 1] == surface[..i] + [surface[i]];
      if contains(surface[i]) {
        numInside := numInside + 1.0;
      }
    }
    assert surface[..|surface|] == surface;
    fraction := Div(env, numInside, |surface| as real);
    if surface != [] {
      FractionBound(env, numInside, |surface| as real);
    }
  }

  lemma FractionBound(env: Env, a: real, b: real)
    requires 0.0 <= a <= b && b > 0.0
    ensures 0.0 <= Div(env, a, b) <= 1.0
  {
  }

  // ---------------------------------------------------------------- minimum distance

  /** A double that may be positive infinity. */
  datatype Extended = Finite(value: real) | PosInf
  {
    predicate AtMost(x: real)
    {
      Finite? && value <= x
    }
  }

  /**
    getMinDistanceBetweenSurfaces: the least linear distance over all location
    pairs, +infinity when either surface is empty.
   */
  method MinDistance(env: Env, surface1: seq<Location>, surface2: seq<Location>) returns (d: Extended)
    ensures d.PosInf? <==> surface1 == [] || surface2 == []
    ensures forall i, j :: 0 <= i < |surface1| && 0 <= j < |surface2| ==>
      d.AtMost(env.linearDistance(surface1[i], surface2[j]))
    ensures d.Finite? ==>
      exists i, j :: 0 <= i < |surface1| && 0 <= j < |surface2| && d.value == env.linearDistance(surface1[i], surface2[j])
  {
    d := PosInf;
    var i := 0;
    while i < |surface1|
      invariant 0 <= i <= |surface1|
      invariant d.PosInf? <==> i == 0 || surface2 == []
      invariant forall a, b :: 0 <= a < i && 0 <= b < |surface2| ==> d.AtMost(env.linearDistance(surface1[a], surface2[b]))
      invariant d.Finite? ==>
        exists a, b :: 0 <= a < i && 0 <= b < |surface2| && d.value == env.linearDistance(surface1[a], surface2[b])
    {
      var j := 0;
      while j < |surface2|
        invariant 0 <= j <= |surface2|
        invariant d.PosInf? <==> (i == 0 && j == 0) || surface2 == []
        invariant forall a, b :: 0 <= a < i && 0 <= b < |surface2| ==> d.AtMost(env.linearDistance(surface1[a], surface2[b]))
        invariant forall b :: 0 <= b < j ==> d.AtMost(env.linearDistance(surface1[i], surface2[b]))
        invariant d.Finite? ==>
          exists a, b :: ((0 <= a < i && 0 <= b < |surface2|) || (a == i && 0 <= b < j)) &&
                         d.value == env.linearDistance(surface1[a], surface2[b])
      {
        var dist := env.linearDistance(surface1[i], surface2[j]);
        if d.PosInf? || dist < d.value {
          d := Finite(dist);
        }
        j := j + 1;
      }
      i := i + 1;
    }
  }

  // ---------------------------------------------------------------- floating surfaces

  /** GriddedSubsetSurface(numRows, numCols, startRow, startCol, parent). */
  datatype Subset = Subset(rowSize: int, colSize: int, startRow: int, startCol: int)

  /** The tiling: how many floaters along strike and down dip, and their size. */
  datatype Tiling = Tiling(alongCount: int, colSize: int, downCount: int, rowSize: int)

  /**
    One direction of the tiling: count = n - size + 1, and a count that is at
    most one means a single floater spanning the whole surface.
   */
  function Fit(n: int, size: int): (r: (int, int))
    ensures r.0 >= 1
    ensures r.0 - 1 + r.1 == n
    ensures r.0 == 1 ==> r.1 == n
    ensures n - size + 1 > 1 ==> r == (n - size + 1, size)
  {
    var count := n - size + 1;
    if count <= 1 then (1, n) else (count, size)
  }

  function TilingFor(numRows: int, numCols: int, floaterColSize: int, floaterRowSize: int): Tiling
  {
    var along := Fit(numCols, floaterColSize);
    var down := Fit(numRows, floaterRowSize);
    Tiling(along.0, along.1, down.0, down.1)
  }

  /** The floaters of one starting column, down dip. */
  function Column(t: Tiling, startCol: int): (c: seq<Subset>)
    requires t.downCount >= 0
    ensures |c| == t.downCount
  {
    seq(t.downCount, r requires 0 <= r < t.downCount => Subset(t.rowSize, t.colSize, r, startCol))
  }

  /** The floaters of the first n starting columns, column after column. */
  function Columns(t: Tiling, n: nat): seq<Subset>
    requires t.downCount >= 0
  {
    if n == 0 then [] else Columns(t, n - 1) + Column(t, n - 1)
  }

  lemma {:induction false} ColumnsLength(t: Tiling, n: nat)
    requires t.downCount >= 0
    ensures |Columns(t, n)| == n * t.downCount
  {
    if n > 0 {
      ColumnsLength(t, n - 1);
      assert n * t.downCount == (n - 1) * t.downCount + t.downCount;
    }
  }

  /** Entry c * downCount + r of the floater list starts at column c, row r. */
  lemma {:induction false} ColumnsAt(t: Tiling, n: nat, c: int, r: int)
    requires t.downCount >= 0 && 0 <= c < n && 0 <= r < t.downCount
    ensures c * t.downCount + r < |Columns(t, n)|
    ensures Columns(t, n)[c * t.downCount + r] == Subset(t.rowSize, t.colSize, r, c)
  {
    ColumnsLength(t, n - 1);
    ColumnsLength(t, n);
    if c < n - 1 {
      ColumnsAt(t, n - 1, c, r);
    } else {
      assert c * t.downCount == |Columns(t, n - 1)|;
    }
  }

  /** Every floater lies within the parent surface. */
  lemma {:induction false} ColumnsFit(t: Tiling, numRows: int, numCols: int, n: nat)
    requires t.downCount >= 1 && t.downCount - 1 + t.rowSize == numRows
    requires n <= t.alongCount && t.alongCount - 1 + t.colSize == numCols
    ensures forall k :: 0 <= k < |Columns(t, n)| ==>
      0 <= Columns(t, n)[k].startCol && Columns(t, n)[k].startCol + Columns(t, n)[k].colSize <= numCols &&
      0 <= Columns(t, n)[k].startRow && Columns(t, n)[k].startRow + Columns(t, n)[k].rowSize <= numRows
  {
    if n > 0 {
      ColumnsFit(t, numRows, numCols, n - 1);
    }
  }

  /**
    createFloatingSurfaceList, given the rounded floater sizes: start column
    outermost, start row innermost.
   */
  method CreateFloatingSurfaceList(numRows: int, numCols: int, floaterColSize: int, floaterRowSize: int)
    returns (floaters: seq<Subset>)
    ensures var t := TilingFor(numRows, numCols, floaterColSize, floaterRowSize);
      floaters == Columns(t, t.alongCount)
    ensures var t := TilingFor(numRows, numCols, floaterColSize, floaterRowSize);
      |floaters| == t.alongCount * t.downCount
    ensures forall k :: 0 <= k < |floaters| ==>
      0 <= floaters[k].startCol && floaters[k].startCol + floaters[k].colSize <= numCols &&
      0 <= floaters[k].startRow && floaters[k].startRow + floaters[k].rowSize <= numRows
  {
    var along := numCols - floaterColSize + 1;
    var colSize := floaterColSize;
    if along <= 1 {
      along := 1;
      colSize := numCols;
    }
    var down := numRows - floaterRowSize + 1;
    var rowSize := floaterRowSize;
    if down <= 1 {
      down := 1;
      rowSize := numRows;
    }
    ghost var t := Tiling(along, colSize, down, rowSize);
    assert t == TilingFor(numRows, numCols, floaterColSize, floaterRowSize);
    floaters := [];
    for startCol := 0 to along
      invariant floaters == Columns(t, startCol)
    {
      ghost var before := floaters;
      for startRow := 0 to down
        invariant floaters == before + Column(t, startCol)[..startRow]
      {
        floaters := floaters + [Subset(rowSize, colSize, startRow, startCol)];
      }
      assert Column(t, startCol)[..down] == Column(t, startCol);
    }
    ColumnsLength(t, along);
    ColumnsFit(t, numRows, numCols, along);
  }
}

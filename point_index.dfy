/**
  The index arithmetic of point-source rupture enumeration
  (PointSource.init / mechForIndex and PointSourceFinite.init / isOnFootwall):
  how the index range [0, rupCount) is cut into focal-mechanism blocks and
  footwall / hanging-wall twins, and which magnitude-depth bin an index
  refers to.
 */
module PointIndex {
  import opened Common
  import DepthModel

  datatype FocalMech = StrikeSlip | Reverse | Normal

  /** The dip (degrees) and rake of each focal mechanism; FocalMech itself is not part of this model. */
  datatype MechGeometry = MechGeometry(dip: FocalMech -> real, rake: FocalMech -> real)

  /** mechWtMap: the weight of each mechanism (the map holds all three keys). */
  datatype MechWeights = MechWeights(ss: real, rv: real, nr: real)

  function Weight(w: MechWeights, m: FocalMech): real
  {
    match m
    case StrikeSlip => w.ss
    case Reverse => w.rv
    case Normal => w.nr
  }

  /** The three point-source implementations; the fixed-strike one carries its strike (degrees). */
  datatype Variant = Simple | Finite | FixedStrike(strike: real)

  /** The magnitudes and rates of a source's MFD, read but never changed by a point source. */
  datatype Mfd = Mfd(xs: seq<real>, ys: seq<real>)

  /** List.lastIndexOf: the last position holding v, or -1. */
  function LastIndexOf(s: seq<nat>, v: int): (r: int)
    ensures -1 <= r < |s|
    ensures r >= 0 ==> s[r] == v
    ensures forall j :: r < j < |s| ==> s[j] != v
    ensures r == -1 <==> forall j :: 0 <= j < |s| ==> s[j] != v
  {
    if s == [] then -1
    else if s[|s| - 1] == v then |s| - 1
    else LastIndexOf(s[..|s| - 1], v)
  }

  /**
    magDepthSize: the number of leading depth-model rows a source whose MFD
    has mfdSize bins needs, i.e. up to and including the last row of its
    largest magnitude.
   */
  function MagDepthSize(indices: seq<nat>, mfdSize: int): (m: int)
    ensures 0 <= m <= |indices|
    ensures m > 0 ==> indices[m - 1] == mfdSize - 1
    ensures forall j :: m <= j < |indices| ==> indices[j] != mfdSize - 1
  {
    LastIndexOf(indices, mfdSize - 1) + 1
  }

  /** The integer fields init() assigns. */
  datatype Layout = Layout(magDepthSize: int, ssIndex: int, revIndex: int,
                           fwIndexLo: int, fwIndexHi: int, rupCount: int)

  /**
    PointSource.init: blocks SS RV NR, each ceil(weight) * magDepthSize long.
    The simple source has no footwall indices; they stay 0.
   */
  function SimpleLayout(m: int, w: MechWeights): (l: Layout)
    ensures l.magDepthSize == m
    ensures l.ssIndex == Ceil(w.ss) * m
    ensures l.revIndex - l.ssIndex == Ceil(w.rv) * m
    ensures l.rupCount == (Ceil(w.ss) + Ceil(w.rv) + Ceil(w.nr)) * m
  {
    var ssCount := Ceil(w.ss) * m;
    var revCount := Ceil(w.rv) * m;
    var norCount := Ceil(w.nr) * m;
    Layout(m, ssCount, ssCount + revCount, 0, 0, ssCount + revCount + norCount)
  }

  /**
    PointSourceFinite.init: blocks SS-FW RV-FW RV-HW NR-FW NR-HW; the reverse
    and normal blocks are doubled and split in half at fwIndexLo and fwIndexHi.
   */
  function FiniteLayout(m: int, w: MechWeights): (l: Layout)
    ensures l.magDepthSize == m
    ensures l.rupCount == (Ceil(w.ss) + 2 * Ceil(w.rv) + 2 * Ceil(w.nr)) * m
    ensures l.fwIndexLo - l.ssIndex == l.revIndex - l.fwIndexLo == Ceil(w.rv) * m
    ensures l.fwIndexHi - l.revIndex == l.rupCount - l.fwIndexHi == Ceil(w.nr) * m
  {
    var ssCount := Ceil(w.ss) * m;
    var revCount := Ceil(w.rv) * m * 2;
    var norCount := Ceil(w.nr) * m * 2;
    assert revCount / 2 == Ceil(w.rv) * m;
    assert norCount / 2 == Ceil(w.nr) * m;
    Layout(m, ssCount, ssCount + revCount, ssCount + revCount / 2,
           ssCount + revCount + norCount / 2, ssCount + revCount + norCount)
  }

  /** The layout each variant's init() produces (the fixed-strike source inherits the finite one). */
  function LayoutFor(v: Variant, m: int, w: MechWeights): Layout
  {
    if v.Simple? then SimpleLayout(m, w) else FiniteLayout(m, w)
  }

  /** mechForIndex: the iteration order is always SS, then RV, then NR. */
  function MechForIndex(l: Layout, index: int): FocalMech
  {
    if index < l.ssIndex then StrikeSlip
    else if index < l.revIndex then Reverse
    else Normal
  }

  /** isOnFootwall: the first half of each doubled block is the footwall copy. */
  function IsOnFootwall(l: Layout, index: int): bool
  {
    if index < l.fwIndexLo then true
    else if index < l.revIndex then false
    else if index < l.fwIndexHi then true
    else false
  }

  ghost predicate NonNegative(w: MechWeights)
  {
    w.ss >= 0.0 && w.rv >= 0.0 && w.nr >= 0.0
  }

  lemma CeilNonNegative(x: real)
    requires x >= 0.0
    ensures Ceil(x) >= 0
    ensures x == 0.0 ==> Ceil(x) == 0
    ensures x > 0.0 ==> Ceil(x) >= 1
  {
  }

  lemma ProductNonNegative(a: int, b: int)
    requires a >= 0 && b >= 0
    ensures a * b >= 0
  {
  }

  /**
    With non-negative weights, mechForIndex cuts [0, rupCount) of the simple
    source into contiguous SS, RV, NR blocks, in that order, each of length
    ceil(weight) * magDepthSize; a zero weight gives an empty block.
   */
  lemma {:induction false} SimplePartition(m: nat, w: MechWeights, index: int)
    requires NonNegative(w)
    requires 0 <= index < SimpleLayout(m, w).rupCount
    ensures var l := SimpleLayout(m, w);
      0 <= l.ssIndex <= l.revIndex <= l.rupCount &&
      (MechForIndex(l, index) == StrikeSlip <==> index < l.ssIndex) &&
      (MechForIndex(l, index) == Reverse <==> l.ssIndex <= index < l.revIndex) &&
      (MechForIndex(l, index) == Normal <==> l.revIndex <= index)
    ensures w.ss == 0.0 ==> MechForIndex(SimpleLayout(m, w), index) != StrikeSlip
    ensures w.rv == 0.0 ==> MechForIndex(SimpleLayout(m, w), index) != Reverse
    ensures w.nr == 0.0 ==> MechForIndex(SimpleLayout(m, w), index) != Normal
  {
    CeilNonNegative(w.ss);
    CeilNonNegative(w.rv);
    CeilNonNegative(w.nr);
    ProductNonNegative(Ceil(w.ss), m);
    ProductNonNegative(Ceil(w.rv), m);
    ProductNonNegative(Ceil(w.nr), m);
  }

  /**
    The finite blocks: every strike-slip index is on the footwall, and each
    doubled RV or NR block holds its footwall half first, then its hanging-wall
    half of the same length.
   */
  lemma {:induction false} FinitePartition(m: nat, w: MechWeights, index: int)
    requires NonNegative(w)
    requires 0 <= index < FiniteLayout(m, w).rupCount
    ensures var l := FiniteLayout(m, w);
      0 <= l.ssIndex <= l.fwIndexLo <= l.revIndex <= l.fwIndexHi <= l.rupCount &&
      (MechForIndex(l, index) == StrikeSlip <==> index < l.ssIndex) &&
      (MechForIndex(l, index) == Reverse <==> l.ssIndex <= index < l.revIndex) &&
      (MechForIndex(l, index) == Normal <==> l.revIndex <= index)
    ensures var l := FiniteLayout(m, w);
      IsOnFootwall(l, index) <==> (index < l.fwIndexLo || l.revIndex <= index < l.fwIndexHi)
    ensures MechForIndex(FiniteLayout(m, w), index) == StrikeSlip ==> IsOnFootwall(FiniteLayout(m, w), index)
  {
    CeilNonNegative(w.ss);
    CeilNonNegative(w.rv);
    CeilNonNegative(w.nr);
    ProductNonNegative(Ceil(w.ss), m);
    ProductNonNegative(Ceil(w.rv), m);
    ProductNonNegative(Ceil(w.nr), m);
  }

  /**
    The worked case of PointSourceFinite: two magnitude-depth rows and unit
    weights give fwIndexLo = 4, revIndex = 6, fwIndexHi = 8 and ten ruptures,
    of which 0-3 and 6-7 are on the footwall.
   */
  lemma WorkedFiniteCase()
    ensures var l := FiniteLayout(2, MechWeights(1.0, 1.0, 1.0));
      l.ssIndex == 2 && l.fwIndexLo == 4 && l.revIndex == 6 && l.fwIndexHi == 8 && l.rupCount == 10 &&
      (forall i :: 0 <= i < 10 ==> (IsOnFootwall(l, i) <==> (i < 4 || 6 <= i < 8)))
  {
    assert Ceil(1.0) == 1;
  }

  lemma {:induction false} ModShift(i: nat, c: nat, m: nat)
    requires m > 0
    ensures (i + c * m) % m == i % m
    decreases c
  {
    if c > 0 {
      var x := i + (c - 1) * m;
      assert i + c * m == x + m;
      ModAddPeriod(x, m);
      ModShift(i, c - 1, m);
    }
  }

  /**
    In a finite layout, the hanging-wall twin of a footwall RV or NR index lies
    exactly half a block later, has the same mechanism and refers to the same
    magnitude-depth row.
   */
  lemma {:induction false} HangingWallTwin(m: nat, w: MechWeights, index: int)
    requires NonNegative(w) && m > 0
    requires 0 <= index < FiniteLayout(m, w).rupCount
    requires MechForIndex(FiniteLayout(m, w), index) != StrikeSlip
    requires IsOnFootwall(FiniteLayout(m, w), index)
    ensures var l := FiniteLayout(m, w);
      var twin := index + Twin(l, index);
      index < twin < l.rupCount &&
      MechForIndex(l, twin) == MechForIndex(l, index) &&
      !IsOnFootwall(l, twin) &&
      twin % m == index % m
  {
    var l := FiniteLayout(m, w);
    FinitePartition(m, w, index);
    CeilNonNegative(w.rv);
    CeilNonNegative(w.nr);
    if MechForIndex(l, index) == Reverse {
      if Ceil(w.rv) == 0 { assert false; }
      ModShift(index, Ceil(w.rv), m);
    } else {
      if Ceil(w.nr) == 0 { assert false; }
      ModShift(index, Ceil(w.nr), m);
    }
  }

  /** Distance from a footwall index to its hanging-wall twin: half the doubled block it sits in. */
  function Twin(l: Layout, index: int): int
  {
    if index < l.revIndex then l.revIndex - l.fwIndexLo else l.rupCount - l.fwIndexHi
  }

  /** The magnitude-depth bin of rupture `index`: the row index % magDepthSize of the depth model. */
  datatype Bin = Bin(magIndex: nat, mag: real, rate: real, zTop: real, zTopWt: real)

  /** What init() guarantees about a layout built over this depth model and MFD. */
  ghost predicate Consistent(dm: DepthModel.DepthModel, mfd: Mfd, l: Layout)
  {
    dm.Valid() && |mfd.xs| == |mfd.ys| &&
    l.magDepthSize == MagDepthSize(dm.magDepthIndices, |mfd.xs|)
  }

  lemma {:induction false} PositiveCount(l: Layout, w: MechWeights, v: Variant)
    requires l.magDepthSize >= 0 && l == LayoutFor(v, l.magDepthSize, w)
    requires l.rupCount > 0
    ensures l.magDepthSize > 0
  {
    if l.magDepthSize == 0 {
      assert false;
    }
  }

  /**
    updateRupture's lookup: for every index below rupCount the row
    index % magDepthSize exists and refers to an MFD bin below mfd.size(),
    so none of the list or MFD accesses can fail.
   */
  function BinAt(dm: DepthModel.DepthModel, mfd: Mfd, l: Layout, w: MechWeights, v: Variant, index: int): (b: Bin)
    requires Consistent(dm, mfd, l) && l == LayoutFor(v, l.magDepthSize, w)
    requires 0 <= index < l.rupCount && l.magDepthSize > 0
    ensures b.magIndex < |mfd.xs|
    ensures b.mag == mfd.xs[b.magIndex] && b.rate == mfd.ys[b.magIndex]
    ensures var row := index % l.magDepthSize;
      row < |dm.magDepthIndices| && b.magIndex == dm.magDepthIndices[row] &&
      b.zTop == dm.magDepthDepths[row] && b.zTopWt == dm.magDepthWeights[row]
  {
    var row := index % l.magDepthSize;
    var magIndex := dm.magDepthIndices[row];
    assert magIndex <= dm.magDepthIndices[l.magDepthSize - 1];
    Bin(magIndex, mfd.xs[magIndex], mfd.ys[magIndex], dm.magDepthDepths[row], dm.magDepthWeights[row])
  }

  /** The mechanism weight a rupture carries: halved for the two copies of a finite RV or NR rupture. */
  function MechWeightUsed(v: Variant, w: MechWeights, mech: FocalMech): real
  {
    if v.Simple? || mech == StrikeSlip then Weight(w, mech) else Weight(w, mech) * 0.5
  }

  /** rupture.rate: MFD rate times depth weight times (possibly halved) mechanism weight. */
  function RateAt(dm: DepthModel.DepthModel, mfd: Mfd, l: Layout, w: MechWeights, v: Variant, index: int): real
    requires Consistent(dm, mfd, l) && l == LayoutFor(v, l.magDepthSize, w)
    requires 0 <= index < l.rupCount && l.magDepthSize > 0
  {
    RateOf(BinAt(dm, mfd, l, w, v, index), MechWeightUsed(v, w, MechForIndex(l, index)))
  }

  /** The rate of a rupture in bin b under mechanism weight mw. */
  function RateOf(b: Bin, mw: real): real
  {
    b.rate * b.zTopWt * mw
  }

  lemma HalvesSum(b: Bin, x: real)
    ensures RateOf(b, x * 0.5) + RateOf(b, x * 0.5) == RateOf(b, x)
  {
  }

  /**
    For a finite source, a footwall RV or NR rupture and its hanging-wall twin
    refer to the same magnitude-depth bin.
   */
  lemma {:induction false} TwinBin(dm: DepthModel.DepthModel, mfd: Mfd, l: Layout, w: MechWeights, v: Variant, index: int)
    requires !v.Simple? && NonNegative(w)
    requires Consistent(dm, mfd, l) && l == LayoutFor(v, l.magDepthSize, w) && l.magDepthSize > 0
    requires 0 <= index < l.rupCount
    requires MechForIndex(l, index) != StrikeSlip && IsOnFootwall(l, index)
    ensures 0 <= index + Twin(l, index) < l.rupCount
    ensures MechForIndex(l, index + Twin(l, index)) == MechForIndex(l, index)
    ensures !IsOnFootwall(l, index + Twin(l, index))
    ensures BinAt(dm, mfd, l, w, v, index + Twin(l, index)) == BinAt(dm, mfd, l, w, v, index)
  {
    HangingWallTwin(l.magDepthSize, w, index);
  }

  /**
    ... and together the two carry the full rate: mfd rate * depth weight *
    mechanism weight, which the halving in updateRupture splits evenly.
   */
  lemma {:induction false} TwinRatesSum(dm: DepthModel.DepthModel, mfd: Mfd, l: Layout, w: MechWeights, v: Variant, index: int)
    requires !v.Simple? && NonNegative(w)
    requires Consistent(dm, mfd, l) && l == LayoutFor(v, l.magDepthSize, w) && l.magDepthSize > 0
    requires 0 <= index < l.rupCount
    requires MechForIndex(l, index) != StrikeSlip && IsOnFootwall(l, index)
    ensures 0 <= index + Twin(l, index) < l.rupCount
    ensures RateAt(dm, mfd, l, w, v, index) + RateAt(dm, mfd, l, w, v, index + Twin(l, index)) ==
      RateOf(BinAt(dm, mfd, l, w, v, index), Weight(w, MechForIndex(l, index)))
  {
    TwinBin(dm, mfd, l, w, v, index);
    HalvesSum(BinAt(dm, mfd, l, w, v, index), Weight(w, MechForIndex(l, index)));
  }
}

/**
  PointSource, PointSourceFinite and PointSourceFixedStrike as one class whose
  `variant` selects the overridden init / updateRupture / distanceTo, plus the
  shared mutable Rupture and surface that the rupture iterator overwrites in
  place for every index.
 */
module PointSources {
  import opened Common
  import DepthModel
  import opened PointIndex
  import opened PointDistance

  /** The mutable fields of a point surface, in one value. */
  datatype SurfaceState = SurfaceState(mag: real, dipRad: real, zTop: real, zBot: real,
                                       widthH: real, widthDD: real, footwall: bool,
                                       corners: Option<Corners>)

  /**
    PointSurface and its subclasses FiniteSurface and FixedStrikeSurface:
    zBot, widthH, widthDD and footwall are written only by the finite
    variants, the corners only by the fixed-strike one (they are null until
    the first update).
   */
  class PointSurface {
    const variant: Variant
    const loc: Location
    const scaling: Scaling
    var mag: real
    var dipRad: real
    var zTop: real
    var zBot: real
    var widthH: real
    var widthDD: real
    var footwall: bool
    var corners: Option<Corners>

    constructor(variant: Variant, loc: Location, scaling: Scaling)
      ensures this.variant == variant && this.loc == loc && this.scaling == scaling
      ensures State() == SurfaceState(0.0, 0.0, 0.0, 0.0, 0.0, 0.0, false, None)
    {
      this.variant := variant;
      this.loc := loc;
      this.scaling := scaling;
      mag, dipRad, zTop, zBot, widthH, widthDD, footwall, corners := 0.0, 0.0, 0.0, 0.0, 0.0, 0.0, false, None;
    }

    function State(): SurfaceState
      reads this
    {
      SurfaceState(mag, dipRad, zTop, zBot, widthH, widthDD, footwall, corners)
    }

    /** The rJB the simple and finite surfaces start from: the corrected horizontal distance. */
    function CorrectedRjb(env: Env, site: Location): real
      reads this
    {
      scaling.pointSourceDistance(mag, env.horzDistance(loc, site))
    }

    /**
      distanceTo: the simple and finite surfaces measure from the point
      location (with the scaling model's correction), the fixed-strike surface
      from its top trace; a simple surface reports rX = rJB.
     */
    function DistanceTo(env: Env, site: Location): (d: Distance)
      reads this
      requires variant.FixedStrike? ==> corners.Some?
      ensures !variant.FixedStrike? ==> d.rJB == CorrectedRjb(env, site)
      ensures variant.Simple? ==> d.rX == d.rJB && d.rRup == env.hypot(d.rJB, zTop)
      ensures variant.Finite? ==> d == FiniteDistance(env, CorrectedRjb(env, site), footwall, widthH, zTop, zBot, dipRad)
      ensures variant.FixedStrike? ==> d.rX == env.distanceToLine(corners.value.p1, corners.value.p2, site)
      ensures variant.FixedStrike? ==> d == FixedStrikeDistance(env, corners.value, dipRad, zTop, zBot, widthH, site)
    {
      match variant
      case Simple => PointSurfaceDistance(env, CorrectedRjb(env, site), zTop)
      case Finite => FiniteDistance(env, CorrectedRjb(env, site), footwall, widthH, zTop, zBot, dipRad)
      case FixedStrike(_) => FixedStrikeDistance(env, corners.value, dipRad, zTop, zBot, widthH, site)
    }

    /**
      The surface half of updateRupture: every variant takes the magnitude,
      dip and top depth; the finite ones derive the rupture dimensions from
      the width allowed above maxDepth and set zBot, the widths and the
      footwall flag; the fixed-strike one also rebuilds its corners.
     */
    method Update(env: Env, maxDepth: real, mag: real, zTop: real, dipRad: real, footwall: bool, strikeSlip: bool)
      modifies this
      ensures State() == SurfaceUpdate(env, variant, loc, scaling, maxDepth, old(State()),
                                       mag, zTop, dipRad, footwall, strikeSlip)
    {
      this.mag := mag;
      this.dipRad := dipRad;
      this.zTop := zTop;
      if !variant.Simple? {
        var dims := scaling.dimensions(mag, Div(env, maxDepth - zTop, env.sin(dipRad)));
        var widthDD := dims.width;
        var widthH := HorizontalWidth(env, widthDD, dipRad);
        var zBot := BottomDepth(env, zTop, widthDD, dipRad);
        this.widthDD := widthDD;
        this.widthH := widthH;
        this.zBot := zBot;
        this.footwall := footwall;
        if variant.FixedStrike? {
          corners := Some(StrikeCorners(env, loc, variant.strike, dims.length, footwall, strikeSlip, zTop, zBot, widthH));
        }
      }
    }

    /** strike(), dipDirection(), length() and area() are not defined for a point surface. */
    function Strike(): (r: Result<real>)
      ensures r.Failure? && r.error.Unsupported?
    {
      Failure(Unsupported("No 'strike' for PointSource surface"))
    }

    function DipDirection(): (r: Result<real>)
      ensures r.Failure? && r.error.Unsupported?
    {
      Failure(Unsupported("No 'dipDirection' for PointSource surface"))
    }

    function Length(): (r: Result<real>)
      ensures r.Failure? && r.error.Unsupported?
    {
      Failure(Unsupported("No 'length' for PointSource surface"))
    }

    function Area(): (r: Result<real>)
      ensures r.Failure? && r.error.Unsupported?
    {
      Failure(Unsupported("No 'area' for PointSource surface"))
    }

    /** dip() in degrees, from the stored radians. */
    function Dip(env: Env): real
      reads this
    {
      Degrees(env, dipRad)
    }

    /** width(): a generic 10 km for the simple surface, the down-dip width for the finite ones. */
    function Width(): (w: real)
      reads this
      ensures variant.Simple? ==> w == 10.0
      ensures !variant.Simple? ==> w == widthDD
    {
      if variant.Simple? then 10.0 else widthDD
    }

    /** depth() is the depth to the top of rupture; centroid() the point location. */
    function Depth(): real
      reads this
    {
      zTop
    }

    function Centroid(): Location
    {
      loc
    }
  }

  /** The horizontal projection of a down-dip width. */
  function HorizontalWidth(env: Env, widthDD: real, dipRad: real): real
  {
    widthDD * env.cos(dipRad)
  }

  /** The depth of the bottom of a rupture of down-dip width widthDD. */
  function BottomDepth(env: Env, zTop: real, widthDD: real, dipRad: real): real
  {
    zTop + widthDD * env.sin(dipRad)
  }

  /** The fixed-strike corners: a top trace of the rupture length centred on the source, along the strike in degrees. */
  function StrikeCorners(env: Env, loc: Location, strike: real, length: real, footwall: bool, strikeSlip: bool,
                         zTop: real, zBot: real, widthH: real): Corners
  {
    var ends := TraceEnds(env, loc, zTop, Radians(env, strike), length / 2.0);
    FixedStrikeCorners(env, ends.0, ends.1, footwall, strikeSlip, zTop, zBot, widthH)
  }

  /** The state of a point surface after an update with these rupture values. */
  function SurfaceUpdate(env: Env, variant: Variant, loc: Location, scaling: Scaling, maxDepth: real,
                         prior: SurfaceState, mag: real, zTop: real, dipRad: real,
                         footwall: bool, strikeSlip: bool): (s: SurfaceState)
    ensures s.mag == mag && s.zTop == zTop && s.dipRad == dipRad
    ensures variant.Simple? ==> s == prior.(mag := mag, dipRad := dipRad, zTop := zTop)
    ensures !variant.Simple? ==>
      s.footwall == footwall && s.widthDD == scaling.dimensions(mag, Div(env, maxDepth - zTop, env.sin(dipRad))).width
    ensures variant.Finite? ==> s.corners == prior.corners
    ensures variant.FixedStrike? ==> s.corners.Some?
  {
    if variant.Simple? then
      prior.(mag := mag, dipRad := dipRad, zTop := zTop)
    else
      var dims := scaling.dimensions(mag, Div(env, maxDepth - zTop, env.sin(dipRad)));
      var widthDD := dims.width;
      var widthH := HorizontalWidth(env, widthDD, dipRad);
      var zBot := BottomDepth(env, zTop, widthDD, dipRad);
      var corners :=
        if variant.FixedStrike? then
          Some(StrikeCorners(env, loc, variant.strike, dims.length, footwall, strikeSlip, zTop, zBot, widthH))
        else prior.corners;
      SurfaceState(mag, dipRad, zTop, zBot, widthH, widthDD, footwall, corners)
  }

  /** A Rupture whose magnitude, rake and rate are overwritten for each index; its surface is fixed. */
  class Rupture {
    var mag: real
    var rake: real
    var rate: real
    const surface: PointSurface

    constructor(surface: PointSurface)
      ensures this.surface == surface && mag == 0.0 && rake == 0.0 && rate == 0.0
    {
      this.surface := surface;
      mag, rake, rate := 0.0, 0.0, 0.0;
    }
  }

  class PointSource {
    const variant: Variant
    const sourceType: SourceType
    const loc: Location
    const mfd: Mfd
    const mechWeights: MechWeights
    const geometry: MechGeometry
    const scaling: Scaling
    const depthModel: DepthModel.DepthModel

    var rupCount: int
    var magDepthSize: int
    var ssIndex: int
    var revIndex: int
    var fwIndexLo: int  // PointSourceFinite only
    var fwIndexHi: int  // PointSourceFinite only

    /** The index fields; a simple source has no footwall indices. */
    function CurrentLayout(): Layout
      reads this
    {
      Layout(magDepthSize, ssIndex, revIndex,
             if variant.Simple? then 0 else fwIndexLo,
             if variant.Simple? then 0 else fwIndexHi, rupCount)
    }

    /** What init() establishes: the index fields are the variant's layout over this depth model and MFD. */
    ghost predicate Valid()
      reads this
    {
      Consistent(depthModel, mfd, CurrentLayout()) &&
      CurrentLayout() == LayoutFor(variant, magDepthSize, mechWeights)
    }

    /**
      The constructors: PointSource's calls init(), which dispatches to the
      variant's override; PointSourceFinite's (and so PointSourceFixedStrike's)
      then calls init() a second time.
     */
    constructor(variant: Variant, sourceType: SourceType, loc: Location, mfd: Mfd,
                mechWeights: MechWeights, geometry: MechGeometry, scaling: Scaling,
                depthModel: DepthModel.DepthModel)
      requires depthModel.Valid() && |mfd.xs| == |mfd.ys|
      ensures this.variant == variant && this.sourceType == sourceType && this.loc == loc
      ensures this.mfd == mfd && this.mechWeights == mechWeights && this.geometry == geometry
      ensures this.scaling == scaling && this.depthModel == depthModel
      ensures Valid() && magDepthSize == MagDepthSize(depthModel.magDepthIndices, |mfd.xs|)
    {
      this.variant := variant;
      this.sourceType := sourceType;
      this.loc := loc;
      this.mfd := mfd;
      this.mechWeights := mechWeights;
      this.geometry := geometry;
      this.scaling := scaling;
      this.depthModel := depthModel;
      rupCount, magDepthSize, ssIndex, revIndex, fwIndexLo, fwIndexHi := 0, 0, 0, 0, 0, 0;
      new;
      Init();
      if !variant.Simple? {
        Init();
      }
    }

    /**
      init(): magDepthSize from the last depth-model row of the MFD's largest
      magnitude, then the block boundaries of the variant.  Its result does
      not depend on the previous field values, so the second call of the
      finite constructors changes nothing.
     */
    method Init()
      requires depthModel.Valid() && |mfd.xs| == |mfd.ys|
      modifies this
      ensures Valid() && magDepthSize == MagDepthSize(depthModel.magDepthIndices, |mfd.xs|)
    {
      magDepthSize := LastIndexOf(depthModel.magDepthIndices, |mfd.xs| - 1) + 1;
      var ssCount := Ceil(mechWeights.ss) * magDepthSize;
      if variant.Simple? {
        var revCount := Ceil(mechWeights.rv) * magDepthSize;
        var norCount := Ceil(mechWeights.nr) * magDepthSize;
        ssIndex := ssCount;
        revIndex := ssCount + revCount;
        rupCount := ssCount + revCount + norCount;
      } else {
        var revCount := Ceil(mechWeights.rv) * magDepthSize * 2;
        var norCount := Ceil(mechWeights.nr) * magDepthSize * 2;
        ssIndex := ssCount;
        revIndex := ssCount + revCount;
        fwIndexLo := ssCount + revCount / 2;
        fwIndexHi := ssCount + revCount + norCount / 2;
        rupCount := ssCount + revCount + norCount;
      }
    }

    /** size(): the number of ruptures the layout provides for. */
    function Size(): (n: int)
      reads this
      requires Valid()
      ensures n == LayoutFor(variant, MagDepthSize(depthModel.magDepthIndices, |mfd.xs|), mechWeights).rupCount
    {
      rupCount
    }

    /** id() is -1: point sources are retrieved by index from their source set. */
    function Id(): (id: int)
      ensures id < 0
    {
      -1
    }

    /** location(site) ignores the site; mfds() is the single MFD. */
    function LocationFor(site: Location): (l: Location)
      ensures l == loc
    {
      loc
    }

    function Mfds(): (r: seq<Mfd>)
      ensures r == [mfd]
    {
      [mfd]
    }

    /** The surface state updateRupture writes for `index`, given the state before. */
    function SurfaceAt(env: Env, index: int, prior: SurfaceState): SurfaceState
      reads this
      requires Valid() && 0 <= index < rupCount
    {
      var l := CurrentLayout();
      var b := BinAt(depthModel, mfd, l, mechWeights, variant, index);
      var mech := MechForIndex(l, index);
      SurfaceUpdate(env, variant, loc, scaling, depthModel.maxDepth, prior,
                    b.mag, b.zTop, Radians(env, geometry.dip(mech)), IsOnFootwall(l, index), mech == StrikeSlip)
    }

    /**
      The list and MFD lookups at the head of updateRupture: row
      index % magDepthSize of the depth model and the MFD bin it names.
     */
    method LookupBin(index: int) returns (b: Bin)
      requires Valid() && 0 <= index < rupCount
      ensures b == BinAt(depthModel, mfd, CurrentLayout(), mechWeights, variant, index)
    {
      PositiveCount(CurrentLayout(), mechWeights, variant);
      var magDepthIndex := index % magDepthSize;
      var magIndex := depthModel.magDepthIndices[magDepthIndex];
      assert magIndex <= depthModel.magDepthIndices[magDepthSize - 1];
      var mag := mfd.xs[magIndex];
      var rate := mfd.ys[magIndex];
      var zTop := depthModel.magDepthDepths[magDepthIndex];
      var zTopWt := depthModel.magDepthWeights[magDepthIndex];
      b := Bin(magIndex, mag, rate, zTop, zTopWt);
    }

    /**
      updateRupture(rup, index): the rupture gets the bin's magnitude, the
      mechanism's rake and the weighted rate; the surface gets the fields of
      SurfaceAt.  Every list and MFD access is in bounds.
     */
    method UpdateRupture(env: Env, rup: Rupture, index: int)
      requires Valid() && 0 <= index < rupCount
      requires rup.surface.variant == variant && rup.surface.loc == loc && rup.surface.scaling == scaling
      modifies rup, rup.surface
      ensures rup.mag == BinAt(depthModel, mfd, CurrentLayout(), mechWeights, variant, index).mag
      ensures rup.rake == geometry.rake(MechForIndex(CurrentLayout(), index))
      ensures rup.rate == RateAt(depthModel, mfd, CurrentLayout(), mechWeights, variant, index)
      ensures rup.surface.State() == SurfaceAt(env, index, old(rup.surface.State()))
    {
      var bin := LookupBin(index);

      var mech := MechForIndex(CurrentLayout(), index);
      var mechWt := Weight(mechWeights, mech);
      if !variant.Simple? && mech != StrikeSlip {
        mechWt := mechWt * 0.5;
      }
      var dipRad := Radians(env, geometry.dip(mech));

      rup.mag := bin.mag;
      rup.rake := geometry.rake(mech);
      rup.rate := RateOf(bin, mechWt);
      var footwall := IsOnFootwall(CurrentLayout(), index);
      rup.surface.Update(env, depthModel.maxDepth, bin.mag, bin.zTop, dipRad, footwall, mech == StrikeSlip);
    }

    /** iterator(): a fresh iterator over one fresh Rupture and surface of this source's variant. */
    method Iterator() returns (it: RuptureIterator)
      requires Valid()
      ensures fresh(it) && fresh(it.rupture) && fresh(it.rupture.surface)
      ensures it.source == this && it.size == rupCount && it.caret == 0
      ensures it.rupture.surface.variant == variant && it.rupture.surface.loc == loc
      ensures it.rupture.surface.scaling == scaling
    {
      var surface := new PointSurface(variant, loc, scaling);
      var rupture := new Rupture(surface);
      it := new RuptureIterator(this, rupture);
    }

    /**
      A client of the iterator: drawing until hasNext() is false yields
      exactly size() ruptures, for the indices 0 .. size-1 in order.
     */
    method Enumerate(env: Env) returns (mags: seq<real>, rates: seq<real>)
      requires Valid()
      ensures |mags| == |rates| == (if rupCount > 0 then rupCount else 0)
      ensures forall i :: 0 <= i < rupCount ==>
        mags[i] == BinAt(depthModel, mfd, CurrentLayout(), mechWeights, variant, i).mag &&
        rates[i] == RateAt(depthModel, mfd, CurrentLayout(), mechWeights, variant, i)
    {
      var it := Iterator();
      mags, rates := [], [];
      while it.HasNext()
        invariant fresh(it) && fresh(it.rupture) && fresh(it.rupture.surface)
        invariant it.source == this && it.size == rupCount && it.rupture.surface.variant == variant
        invariant it.rupture.surface.loc == loc && it.rupture.surface.scaling == scaling
        invariant 0 <= it.caret && (it.caret <= rupCount || it.caret == 0)
        invariant |mags| == it.caret && |rates| == it.caret
        invariant forall i :: 0 <= i < it.caret ==>
          mags[i] == BinAt(depthModel, mfd, CurrentLayout(), mechWeights, variant, i).mag &&
          rates[i] == RateAt(depthModel, mfd, CurrentLayout(), mechWeights, variant, i)
        decreases rupCount - it.caret
      {
        var rup := it.Next(env);
        mags := mags + [rup.mag];
        rates := rates + [rup.rate];
      }
    }
  }

  /** The anonymous Iterator<Rupture> of PointSource.iterator(). */
  class RuptureIterator {
    const source: PointSource
    const rupture: Rupture
    const size: int
    var caret: int

    constructor(source: PointSource, rupture: Rupture)
      ensures this.source == source && this.rupture == rupture
      ensures size == source.rupCount && caret == 0
    {
      this.source := source;
      this.rupture := rupture;
      size := source.rupCount;
      caret := 0;
    }

    function HasNext(): (b: bool)
      reads this
      ensures b <==> caret < size
    {
      caret < size
    }

    /** next(): updates the one shared rupture for index caret, then advances caret. */
    method Next(env: Env) returns (r: Rupture)
      requires source.Valid() && size == source.rupCount && 0 <= caret < size
      requires rupture.surface.variant == source.variant && rupture.surface.loc == source.loc
      requires rupture.surface.scaling == source.scaling
      modifies this, rupture, rupture.surface
      ensures r == rupture && caret == old(caret) + 1
      ensures r.mag == BinAt(source.depthModel, source.mfd, source.CurrentLayout(), source.mechWeights, source.variant, old(caret)).mag
      ensures r.rate == RateAt(source.depthModel, source.mfd, source.CurrentLayout(), source.mechWeights, source.variant, old(caret))
      ensures r.surface.State() == source.SurfaceAt(env, old(caret), old(rupture.surface.State()))
    {
      source.UpdateRupture(env, rupture, caret);
      caret := caret + 1;
      r := rupture;
    }

    /** remove() is not supported. */
    function Remove(): (o: Outcome)
      ensures o.Fail? && o.error.Unsupported?
    {
      Fail(Unsupported(""))
    }
  }
}

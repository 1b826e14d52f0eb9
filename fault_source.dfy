/**
  FaultSource: the rupture lists of a fault (one list per magnitude-frequency
  distribution, skipping negligible rates and either floating smaller
  ruptures over the surface or using the whole surface), and its single-use
  Builder.
 */
module FaultSources {
  import opened Common
  import opened PointDistance
  import XySequences

  /** An IncrementalMfd: magnitudes, their rates, and whether ruptures float. */
  datatype IncrementalMfd = IncrementalMfd(mags: seq<real>, rates: seq<real>, floats: bool)

  /** What an IncrementalMfd guarantees of itself: as many rates as magnitudes, increasing magnitudes. */
  ghost predicate WellFormed(m: IncrementalMfd)
  {
    |m.mags| > 0 && |m.rates| == |m.mags| && XySequences.Ordered(m.mags)
  }

  /** A gridded fault surface, known here only by identity. */
  datatype GriddedSurface = GriddedSurface(id: int)

  datatype Rupture = Rupture(mag: real, rate: real, rake: real, surface: GriddedSurface)

  /** RuptureFloating.createFloatingRuptures(surface, scaling, mag, rate, rake, variability). */
  type Floating = (GriddedSurface, Scaling, real, real, real, bool) -> seq<Rupture>

  /** The fields of a fault source that its ruptures are made from. */
  datatype RuptureContext = RuptureContext(surface: GriddedSurface, scaling: Scaling, floating: Floating,
                                           rake: real, variability: bool)

  /** Bins whose rate is below this are skipped. */
  const LowRate: real := 0.00000000000001

  /** The ruptures of bin i of an MFD. */
  function BinRuptures(ctx: RuptureContext, m: IncrementalMfd, i: int): seq<Rupture>
    requires 0 <= i < |m.mags| && |m.rates| == |m.mags|
  {
    if m.rates[i] < LowRate then []
    else if m.floats then ctx.floating(ctx.surface, ctx.scaling, m.mags[i], m.rates[i], ctx.rake, ctx.variability)
    else [Rupture(m.mags[i], m.rates[i], ctx.rake, ctx.surface)]
  }

  /** The ruptures of the first n bins, in bin order. */
  function RuptureList(ctx: RuptureContext, m: IncrementalMfd, n: nat): seq<Rupture>
    requires n <= |m.mags| && |m.rates| == |m.mags|
  {
    if n == 0 then [] else RuptureList(ctx, m, n - 1) + BinRuptures(ctx, m, n - 1)
  }

  /** The ruptures of all bins. */
  function FullList(ctx: RuptureContext, m: IncrementalMfd): seq<Rupture>
    requires |m.rates| == |m.mags|
  {
    RuptureList(ctx, m, |m.mags|)
  }

  /** The number of the first n rates that are not negligible. */
  function CountKept(rates: seq<real>, n: nat): nat
    requires n <= |rates|
  {
    if n == 0 then 0 else CountKept(rates, n - 1) + (if rates[n - 1] < LowRate then 0 else 1)
  }

  /**
    A distribution that does not float gives one rupture per kept bin, each
    with the fault's rake and whole surface and a rate at least LowRate.
   */
  lemma {:induction false} WholeSurfaceRuptures(ctx: RuptureContext, m: IncrementalMfd, n: nat)
    requires !m.floats && n <= |m.mags| && |m.rates| == |m.mags|
    ensures |RuptureList(ctx, m, n)| == CountKept(m.rates, n)
    ensures forall r :: r in RuptureList(ctx, m, n) ==>
      r.rake == ctx.rake && r.surface == ctx.surface && r.rate >= LowRate
    ensures forall r :: r in RuptureList(ctx, m, n) ==> exists i :: 0 <= i < n && r.mag == m.mags[i] && r.rate == m.rates[i]
  {
    if n > 0 {
      WholeSurfaceRuptures(ctx, m, n - 1);
      forall r | r in RuptureList(ctx, m, n)
        ensures exists i :: 0 <= i < n && r.mag == m.mags[i] && r.rate == m.rates[i]
      {
        if r in RuptureList(ctx, m, n - 1) {
          var i :| 0 <= i < n - 1 && r.mag == m.mags[i] && r.rate == m.rates[i];
          assert 0 <= i < n;
        } else {
          assert r == Rupture(m.mags[n - 1], m.rates[n - 1], ctx.rake, ctx.surface);
        }
      }
    }
  }

  /** A bin contributes exactly the floating model's list for it, unchanged and in place. */
  lemma {:induction false} FloatingBinsAppended(ctx: RuptureContext, m: IncrementalMfd, i: nat)
    requires m.floats && i < |m.mags| && |m.rates| == |m.mags| && m.rates[i] >= LowRate
    ensures RuptureList(ctx, m, i + 1)
         == RuptureList(ctx, m, i) + ctx.floating(ctx.surface, ctx.scaling, m.mags[i], m.rates[i], ctx.rake, ctx.variability)
  {
  }

  /** Earlier bins' ruptures come first: the list of n bins starts with the list of fewer. */
  lemma {:induction false} RuptureListPrefix(ctx: RuptureContext, m: IncrementalMfd, k: nat, n: nat)
    requires k <= n <= |m.mags| && |m.rates| == |m.mags|
    ensures RuptureList(ctx, m, k) <= RuptureList(ctx, m, n)
    decreases n - k
  {
    if k < n {
      RuptureListPrefix(ctx, m, k, n - 1);
    }
  }

  /** A list of a non-floating distribution is empty exactly when every rate is negligible. */
  lemma {:induction false} WholeSurfaceEmptyIff(ctx: RuptureContext, m: IncrementalMfd, n: nat)
    requires !m.floats && n <= |m.mags| && |m.rates| == |m.mags|
    ensures RuptureList(ctx, m, n) == [] <==> forall i :: 0 <= i < n ==> m.rates[i] < LowRate
  {
    if n > 0 {
      WholeSurfaceEmptyIff(ctx, m, n - 1);
    }
  }

  /** createRuptureList: visit the bins in order, appending each one's ruptures. */
  method CreateRuptureList(ctx: RuptureContext, m: IncrementalMfd) returns (list: seq<Rupture>)
    requires |m.rates| == |m.mags|
    ensures list == FullList(ctx, m)
  {
    list := [];
    for i := 0 to |m.mags|
      invariant list == RuptureList(ctx, m, i)
    {
      var mag := m.mags[i];
      var rate := m.rates[i];
      if rate < LowRate {
        continue;
      }
      if m.floats {
        var floaters := ctx.floating(ctx.surface, ctx.scaling, mag, rate, ctx.rake, ctx.variability);
        list := list + floaters;
      } else {
        list := list + [Rupture(mag, rate, ctx.rake, ctx.surface)];
      }
    }
  }

  /** Every distribution has as many rates as magnitudes. */
  ghost predicate AllShaped(mfds: seq<IncrementalMfd>)
  {
    forall j :: 0 <= j < |mfds| ==> |mfds[j].rates| == |mfds[j].mags|
  }

  /** The rupture lists, one per distribution. */
  function RuptureLists(ctx: RuptureContext, mfds: seq<IncrementalMfd>): (ls: seq<seq<Rupture>>)
    requires AllShaped(mfds)
    ensures |ls| == |mfds| && forall j :: 0 <= j < |mfds| ==> ls[j] == FullList(ctx, mfds[j])
  {
    seq(|mfds|, j requires 0 <= j < |mfds| => FullList(ctx, mfds[j]))
  }

  /**
    initRuptureLists: one list per distribution, in order; an empty list
    fails the whole construction.
   */
  method InitRuptureLists(ctx: RuptureContext, mfds: seq<IncrementalMfd>) returns (r: Result<seq<seq<Rupture>>>)
    requires AllShaped(mfds)
    ensures r.Success? <==> forall j :: 0 <= j < |mfds| ==> FullList(ctx, mfds[j]) != []
    ensures r.Success? ==> r.value == RuptureLists(ctx, mfds)
    ensures r.Failure? ==> r.error == IllegalState("Rupture list is empty")
  {
    var lists: seq<seq<Rupture>> := [];
    for j := 0 to |mfds|
      invariant |lists| == j
      invariant forall k :: 0 <= k < j ==> lists[k] == FullList(ctx, mfds[k]) && lists[k] != []
    {
      var rupList := CreateRuptureList(ctx, mfds[j]);
      if |rupList| == 0 {
        return Failure(IllegalState("Rupture list is empty"));
      }
      lists := lists + [rupList];
    }
    return Success(lists);
  }

  /** Iterables.concat: the lists joined in order. */
  function Flatten<T>(ls: seq<seq<T>>): seq<T>
  {
    if ls == [] then [] else ls[0] + Flatten(ls[1..])
  }

  function TotalLength<T>(ls: seq<seq<T>>): nat
  {
    if ls == [] then 0 else |ls[0]| + TotalLength(ls[1..])
  }

  lemma {:induction false} FlattenLength<T>(ls: seq<seq<T>>)
    ensures |Flatten(ls)| == TotalLength(ls)
  {
    if ls != [] {
      FlattenLength(ls[1..]);
    }
  }

  /** The joined lists are empty only when every list is (in particular when there are none). */
  lemma {:induction false} FlattenEmpty<T>(ls: seq<seq<T>>)
    ensures Flatten(ls) == [] <==> forall j :: 0 <= j < |ls| ==> ls[j] == []
  {
    if ls != [] {
      FlattenEmpty(ls[1..]);
      assert forall j :: 1 <= j < |ls| ==> ls[j] == ls[1..][j - 1];
    }
  }

  /** A FaultSource; ruptureLists is 1:1 with mfds. */
  datatype FaultSource = FaultSource(
    name: string, id: int, trace: seq<Location>, dip: Num, width: Num, ctx: RuptureContext,
    mfds: seq<IncrementalMfd>, spacing: real, ruptureLists: seq<seq<Rupture>>)
  {
    /** size(): the number of ruptures the iterator visits. */
    function Size(): (n: nat)
      ensures n == TotalLength(ruptureLists)
    {
      FlattenLength(ruptureLists);
      |Flatten(ruptureLists)|
    }

    /** iterator(): every list's ruptures, list after list. */
    function Ruptures(): seq<Rupture>
    {
      Flatten(ruptureLists)
    }

    function Type(): SourceType
    {
      Fault
    }

    /** location(site): the closest point of the trace. */
    function Location(env: Env, site: Location): Location
    {
      env.closestPoint(site, trace)
    }

    /** mfds(): one new mutable sequence per distribution. */
    method MfdSequences() returns (r: seq<XySequences.XySequence>)
      requires forall j :: 0 <= j < |mfds| ==> WellFormed(mfds[j])
      ensures |r| == |mfds|
      ensures forall j :: 0 <= j < |r| ==>
        fresh(r[j].ys) && r[j].mutable && r[j].Valid() && r[j].xs == mfds[j].mags && r[j].Ys() == mfds[j].rates
      ensures forall j, k :: 0 <= j < k < |r| ==> r[j].ys != r[k].ys
    {
      r := [];
      for j := 0 to |mfds|
        invariant |r| == j
        invariant forall i :: 0 <= i < j ==>
          fresh(r[i].ys) && r[i].mutable && r[i].Valid() && r[i].xs == mfds[i].mags && r[i].Ys() == mfds[i].rates
        invariant forall i, k :: 0 <= i < k < j ==> r[i].ys != r[k].ys
      {
        var s := XySequences.XySequence.CreateFromLists(mfds[j].mags, Some(mfds[j].rates), true);
        assert s.Success?;
        r := r + [s.value];
      }
    }
  }

  /**
    The FaultSource constructor: build the rupture lists, then require at
    least one rupture overall.
   */
  function NewFaultSource(name: string, id: int, trace: seq<Location>, dip: Num, width: Num, ctx: RuptureContext,
                          mfds: seq<IncrementalMfd>, spacing: real): (r: Result<FaultSource>)
    requires AllShaped(mfds)
    ensures r.Success? <==> |mfds| > 0 && forall j :: 0 <= j < |mfds| ==> FullList(ctx, mfds[j]) != []
    ensures r.Success? ==> r.value.ruptureLists == RuptureLists(ctx, mfds) && r.value.Size() > 0
    ensures r.Success? ==> r.value.mfds == mfds && r.value.ctx == ctx && r.value.trace == trace
    ensures (exists j :: 0 <= j < |mfds| && FullList(ctx, mfds[j]) == []) ==>
      r == Failure(IllegalState("Rupture list is empty"))
    ensures |mfds| == 0 ==> r == Failure(IllegalState("FaultSource has no ruptures"))
  {
    var lists := RuptureLists(ctx, mfds);
    FlattenEmpty(lists);
    FlattenLength(lists);
    if exists j :: 0 <= j < |mfds| && FullList(ctx, mfds[j]) == [] then
      Failure(IllegalState("Rupture list is empty"))
    else if |Flatten(lists)| == 0 then
      Failure(IllegalState("FaultSource has no ruptures"))
    else
      Success(FaultSource(name, id, trace, dip, width, ctx, mfds, spacing, lists))
  }

  /** The constructor, as the code runs it: initRuptureLists, then the size check. */
  method ConstructFaultSource(name: string, id: int, trace: seq<Location>, dip: Num, width: Num, ctx: RuptureContext,
                              mfds: seq<IncrementalMfd>, spacing: real) returns (r: Result<FaultSource>)
    requires AllShaped(mfds)
    ensures r == NewFaultSource(name, id, trace, dip, width, ctx, mfds, spacing)
  {
    var lists := InitRuptureLists(ctx, mfds);
    if lists.Failure? {
      return Failure(lists.error);
    }
    FlattenLength(lists.value);
    FlattenEmpty(lists.value);
    if |Flatten(lists.value)| == 0 {
      return Failure(IllegalState("FaultSource has no ruptures"));
    }
    return Success(FaultSource(name, id, trace, dip, width, ctx, mfds, spacing, lists.value));
  }

  /** The value checks of Faults and Earthquakes that the builder's setters call. */
  datatype Checks = Checks(
    name: string -> bool, trace: seq<Location> -> bool, dip: real -> bool, rake: real -> bool,
    crustalWidth: real -> bool, crustalDepth: real -> bool,
    interfaceWidth: real -> bool, interfaceDepth: real -> bool)

  /** The surface grid spacing allowed: the closed range [0.01, 20.0]. */
  predicate SpacingInRange(spacing: real)
  {
    0.01 <= spacing <= 20.0
  }

  /** DefaultGriddedSurface.builder()...build() from trace, depth, dip, width and spacing. */
  type SurfaceFactory = (seq<Location>, Num, Num, Num, real) -> GriddedSurface

  /** The fields of a FaultSource.Builder, as a value. */
  datatype BuilderState = BuilderState(
    built: bool, name: Option<string>, id: Option<int>, trace: Option<seq<Location>>,
    dip: Option<Num>, width: Option<Num>, depth: Option<Num>, rake: Option<real>,
    mfds: Option<seq<IncrementalMfd>>, spacing: Option<real>,
    rupScaling: Option<Scaling>, rupFloating: Option<Floating>, rupVariability: Option<bool>)

  /** Every required field is set and there is at least one distribution. */
  predicate Complete(s: BuilderState)
  {
    s.name.Some? && s.id.Some? && s.trace.Some? && s.dip.Some? && s.width.Some? && s.depth.Some? &&
    s.rake.Some? && s.mfds.Some? && |s.mfds.value| > 0 && s.spacing.Some? &&
    s.rupScaling.Some? && s.rupFloating.Some? && s.rupVariability.Some?
  }

  /** validateState(buildId): the first check that fails, in the order of the code. */
  function StateCheck(s: BuilderState, buildId: string): (o: Outcome)
    ensures o.Pass? <==> !s.built && Complete(s)
    ensures s.built ==> o == Fail(IllegalState("This " + buildId + " instance as already been used"))
    ensures !s.built && s.name.None? ==> o == Fail(IllegalState(buildId + " name not set"))
    ensures o.Fail? ==> o.error.IllegalState? || (o.error.NullPointer? && s.mfds.None?)
  {
    if s.built then Fail(IllegalState("This " + buildId + " instance as already been used"))
    else if s.name.None? then Fail(IllegalState(buildId + " name not set"))
    else if s.id.None? then Fail(IllegalState(buildId + " id not set"))
    else if s.trace.None? then Fail(IllegalState(buildId + " trace not set"))
    else if s.dip.None? then Fail(IllegalState(buildId + " dip not set"))
    else if s.width.None? then Fail(IllegalState(buildId + " width not set"))
    else if s.depth.None? then Fail(IllegalState(buildId + " depth not set"))
    else if s.rake.None? then Fail(IllegalState(buildId + " rake not set"))
    else if s.mfds.None? then Fail(NullPointer(""))
    else if |s.mfds.value| == 0 then Fail(IllegalState(buildId + " has no MFDs"))
    else if s.spacing.None? then Fail(IllegalState(buildId + " surface grid spacing not set"))
    else if s.rupScaling.None? then Fail(IllegalState(buildId + " rupture-scaling relation not set"))
    else if s.rupFloating.None? then Fail(IllegalState(buildId + " rupture-floating model not set"))
    else if s.rupVariability.None? then Fail(IllegalState(buildId + " rupture-area variability flag not set"))
    else Pass
  }

  /** A builder is used once: after a passing check, every further check fails. */
  lemma SingleUse(s: BuilderState, buildId: string)
    requires StateCheck(s, buildId).Pass?
    ensures StateCheck(s.(built := true), buildId).Fail?
  {
  }

  const FaultBuilderId: string := "FaultSource.Builder"

  /** FaultSource.Builder: setters that check their argument, and a one-shot build. */
  class FaultBuilder {
    var built: bool
    var name: Option<string>
    var id: Option<int>
    var trace: Option<seq<Location>>
    var dip: Option<Num>
    var width: Option<Num>
    var depth: Option<Num>
    var rake: Option<real>
    var mfdsBuilder: seq<IncrementalMfd>
    var mfds: Option<seq<IncrementalMfd>>
    var spacing: Option<real>
    var rupScaling: Option<Scaling>
    var rupFloating: Option<Floating>
    var rupVariability: Option<bool>

    function State(): BuilderState
      reads this
    {
      BuilderState(built, name, id, trace, dip, width, depth, rake, mfds, spacing,
                   rupScaling, rupFloating, rupVariability)
    }

    constructor()
      ensures State() == BuilderState(false, None, None, None, None, None, None, None, None, None, None, None, None)
      ensures mfdsBuilder == []
    {
      built := false;
      name, id, trace, dip, width, depth, rake := None, None, None, None, None, None, None;
      mfdsBuilder, mfds, spacing := [], None, None;
      rupScaling, rupFloating, rupVariability := None, None, None;
    }

    method SetName(checks: Checks, name: string) returns (o: Outcome)
      modifies this`name
      ensures o.Pass? <==> checks.name(name)
      ensures o.Fail? ==> o.error.IllegalArgument? && this.name == old(this.name)
      ensures o.Pass? ==> this.name == Some(name)
    {
      if !checks.name(name) {
        return Fail(IllegalArgument("invalid name"));
      }
      this.name := Some(name);
      return Pass;
    }

    method SetId(id: int)
      modifies this`id
      ensures this.id == Some(id)
    {
      this.id := Some(id);
    }

    method SetTrace(checks: Checks, trace: seq<Location>) returns (o: Outcome)
      modifies this`trace
      ensures o.Pass? <==> checks.trace(trace)
      ensures o.Fail? ==> o.error.IllegalArgument? && this.trace == old(this.trace)
      ensures o.Pass? ==> this.trace == Some(trace)
    {
      if !checks.trace(trace) {
        return Fail(IllegalArgument("invalid trace"));
      }
      this.trace := Some(trace);
      return Pass;
    }

    method SetDip(checks: Checks, dip: real) returns (o: Outcome)
      modifies this`dip
      ensures o.Pass? <==> checks.dip(dip)
      ensures o.Fail? ==> o.error.IllegalArgument? && this.dip == old(this.dip)
      ensures o.Pass? ==> this.dip == Some(Real(dip))
    {
      if !checks.dip(dip) {
        return Fail(IllegalArgument("invalid dip"));
      }
      this.dip := Some(Real(dip));
      return Pass;
    }

    /** width(w) of a crustal fault. */
    method SetWidth(checks: Checks, width: real) returns (o: Outcome)
      modifies this`width
      ensures o.Pass? <==> checks.crustalWidth(width)
      ensures o.Fail? ==> o.error.IllegalArgument? && this.width == old(this.width)
      ensures o.Pass? ==> this.width == Some(Real(width))
    {
      if !checks.crustalWidth(width) {
        return Fail(IllegalArgument("invalid width"));
      }
      this.width := Some(Real(width));
      return Pass;
    }

    /** depth(d) of a crustal fault. */
    method SetDepth(checks: Checks, depth: real) returns (o: Outcome)
      modifies this`depth
      ensures o.Pass? <==> checks.crustalDepth(depth)
      ensures o.Fail? ==> o.error.IllegalArgument? && this.depth == old(this.depth)
      ensures o.Pass? ==> this.depth == Some(Real(depth))
    {
      if !checks.crustalDepth(depth) {
        return Fail(IllegalArgument("invalid depth"));
      }
      this.depth := Some(Real(depth));
      return Pass;
    }

    method SetRake(checks: Checks, rake: real) returns (o: Outcome)
      modifies this`rake
      ensures o.Pass? <==> checks.rake(rake)
      ensures o.Fail? ==> o.error.IllegalArgument? && this.rake == old(this.rake)
      ensures o.Pass? ==> this.rake == Some(rake)
    {
      if !checks.rake(rake) {
        return Fail(IllegalArgument("invalid rake"));
      }
      this.rake := Some(rake);
      return Pass;
    }

    /** mfd(m): a null distribution is refused; otherwise one more distribution. */
    method AddMfd(m: Option<IncrementalMfd>) returns (o: Outcome)
      modifies this`mfdsBuilder
      ensures m.None? ==> o == Fail(NullPointer("MFD is null")) && mfdsBuilder == old(mfdsBuilder)
      ensures m.Some? ==> o == Pass && mfdsBuilder == old(mfdsBuilder) + [m.value]
    {
      if m.None? {
        return Fail(NullPointer("MFD is null"));
      }
      mfdsBuilder := mfdsBuilder + [m.value];
      return Pass;
    }

    /** mfds(list): a null list and an empty list are refused, in that order; otherwise all of it is appended. */
    method AddMfds(ms: Option<seq<IncrementalMfd>>) returns (o: Outcome)
      modifies this`mfdsBuilder
      ensures ms.None? ==> o == Fail(NullPointer("MFD list is null")) && mfdsBuilder == old(mfdsBuilder)
      ensures ms.Some? && |ms.value| == 0 ==>
        o == Fail(IllegalArgument("MFD list is empty")) && mfdsBuilder == old(mfdsBuilder)
      ensures ms.Some? && |ms.value| > 0 ==> o == Pass && mfdsBuilder == old(mfdsBuilder) + ms.value
    {
      if ms.None? {
        return Fail(NullPointer("MFD list is null"));
      }
      if |ms.value| == 0 {
        return Fail(IllegalArgument("MFD list is empty"));
      }
      mfdsBuilder := mfdsBuilder + ms.value;
      return Pass;
    }

    /** surfaceSpacing(s): only values in [0.01, 20.0]. */
    method SetSurfaceSpacing(spacing: real) returns (o: Outcome)
      modifies this`spacing
      ensures o.Pass? <==> SpacingInRange(spacing)
      ensures o.Fail? ==> o.error.IllegalArgument? && this.spacing == old(this.spacing)
      ensures o.Pass? ==> this.spacing == Some(spacing)
    {
      if !SpacingInRange(spacing) {
        return Fail(IllegalArgument("Floater Offset"));
      }
      this.spacing := Some(spacing);
      return Pass;
    }

    method SetRuptureScaling(s: Option<Scaling>) returns (o: Outcome)
      modifies this`rupScaling
      ensures s.None? ==> o == Fail(NullPointer("Rup-Scaling Relation is null")) && rupScaling == old(rupScaling)
      ensures s.Some? ==> o == Pass && rupScaling == s
    {
      if s.None? {
        return Fail(NullPointer("Rup-Scaling Relation is null"));
      }
      rupScaling := s;
      return Pass;
    }

    method SetRuptureFloating(f: Option<Floating>) returns (o: Outcome)
      modifies this`rupFloating
      ensures f.None? ==> o == Fail(NullPointer("Rup-Floating Model is null")) && rupFloating == old(rupFloating)
      ensures f.Some? ==> o == Pass && rupFloating == f
    {
      if f.None? {
        return Fail(NullPointer("Rup-Floating Model is null"));
      }
      rupFloating := f;
      return Pass;
    }

    method SetRuptureVariability(v: bool)
      modifies this`rupVariability
      ensures rupVariability == Some(v)
    {
      rupVariability := Some(v);
    }

    /** validateState(buildId): the checks of StateCheck; `built` is set only when all pass. */
    method ValidateState(buildId: string) returns (o: Outcome)
      modifies this`built
      ensures o == StateCheck(old(State()), buildId)
      ensures built == (old(built) || o.Pass?)
    {
      o := StateCheck(State(), buildId);
      if o.Pass? {
        built := true;
      }
    }

    /**
      buildFaultSource(): fix the distribution list, validate, make the
      surface, construct the source.
     */
    method Build(makeSurface: SurfaceFactory) returns (r: Result<FaultSource>)
      requires AllShaped(mfdsBuilder)
      modifies this`mfds, this`built
      ensures mfds == Some(mfdsBuilder)
      ensures StateCheck(old(State()).(mfds := Some(mfdsBuilder)), FaultBuilderId).Fail? ==>
        r == Failure(StateCheck(old(State()).(mfds := Some(mfdsBuilder)), FaultBuilderId).error) && built == old(built)
      ensures StateCheck(old(State()).(mfds := Some(mfdsBuilder)), FaultBuilderId).Pass? ==>
        built &&
        r == NewFaultSource(name.value, id.value, trace.value, dip.value, width.value,
                            RuptureContext(makeSurface(trace.value, depth.value, dip.value, width.value, spacing.value),
                                           rupScaling.value, rupFloating.value, rake.value, rupVariability.value),
                            mfdsBuilder, spacing.value)
    {
      mfds := Some(mfdsBuilder);
      var o := ValidateState(FaultBuilderId);
      if o.Fail? {
        return Failure(o.error);
      }
      var surface := makeSurface(trace.value, depth.value, dip.value, width.value, spacing.value);
      var ctx := RuptureContext(surface, rupScaling.value, rupFloating.value, rake.value, rupVariability.value);
      r := ConstructFaultSource(name.value, id.value, trace.value, dip.value, width.value, ctx, mfdsBuilder, spacing.value);
    }
  }
}

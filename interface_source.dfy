/**
  InterfaceSource: a subduction-interface fault source with an upper and a
  lower trace, and its builder, which either takes both traces or builds an
  ordinary fault surface from the upper trace, depth, dip and width.
 */
module InterfaceSources {
  import opened Common
  import opened FaultSources

  /** An InterfaceSource: the fault source it extends, plus the lower trace. */
  datatype InterfaceSource = InterfaceSource(fault: FaultSource, lowerTrace: seq<Location>)
  {
    function Type(): SourceType
    {
      Interface
    }

    /** location(site): the closest point over the upper trace followed by the lower trace. */
    function Location(env: Env, site: Location): (l: Location)
      ensures l == env.closestPoint(site, fault.trace + lowerTrace)
    {
      env.closestPoint(site, fault.trace + lowerTrace)
    }
  }

  /** GriddedSurface.getEvenlyDiscritizedLowerEdge(). */
  type LowerEdge = GriddedSurface -> seq<Location>

  /**
    The InterfaceSource constructor: the FaultSource constructor, then the
    lower trace, which falls back to the surface's lower edge when none was
    given.
   */
  function NewInterfaceSource(name: string, id: int, upperTrace: seq<Location>, lowerTrace: Option<seq<Location>>,
                              dip: Num, width: Num, ctx: RuptureContext, mfds: seq<IncrementalMfd>, spacing: real,
                              lowerEdge: LowerEdge): (r: Result<InterfaceSource>)
    requires AllShaped(mfds)
    ensures r.Success? <==> NewFaultSource(name, id, upperTrace, dip, width, ctx, mfds, spacing).Success?
    ensures r.Failure? ==> r.error == NewFaultSource(name, id, upperTrace, dip, width, ctx, mfds, spacing).error
    ensures r.Success? ==> r.value.fault == NewFaultSource(name, id, upperTrace, dip, width, ctx, mfds, spacing).value
    ensures r.Success? && lowerTrace.None? ==> r.value.lowerTrace == lowerEdge(ctx.surface)
    ensures r.Success? && lowerTrace.Some? ==> r.value.lowerTrace == lowerTrace.value
  {
    var base := NewFaultSource(name, id, upperTrace, dip, width, ctx, mfds, spacing);
    if base.Failure? then Failure(base.error)
    else Success(InterfaceSource(base.value, if lowerTrace.None? then lowerEdge(ctx.surface) else lowerTrace.value))
  }

  /** new ApproxGriddedSurface(upperTrace, lowerTrace, spacing). */
  type ApproxSurface = (seq<Location>, seq<Location>, real) -> GriddedSurface

  const InterfaceBuilderId: string := "InterfaceSource.Builder"

  /**
    InterfaceSource.Builder: the fault builder's fields and setters (reached
    through `base`), interface ranges for depth and width, and a lower trace
    that may only follow the upper one.
   */
  class InterfaceBuilder {
    const base: FaultBuilder
    var lowerTrace: Option<seq<Location>>

    constructor()
      ensures fresh(base) && lowerTrace.None?
      ensures base.State() == BuilderState(false, None, None, None, None, None, None, None, None, None, None, None, None)
      ensures base.mfdsBuilder == []
    {
      base := new FaultBuilder();
      lowerTrace := None;
    }

    /** depth(d), overridden with the interface range. */
    method SetDepth(checks: Checks, depth: real) returns (o: Outcome)
      modifies base`depth
      ensures o.Pass? <==> checks.interfaceDepth(depth)
      ensures o.Fail? ==> o.error.IllegalArgument? && base.depth == old(base.depth)
      ensures o.Pass? ==> base.depth == Some(Real(depth))
    {
      if !checks.interfaceDepth(depth) {
        return Fail(IllegalArgument("invalid interface depth"));
      }
      base.depth := Some(Real(depth));
      return Pass;
    }

    /** width(w), overridden with the interface range. */
    method SetWidth(checks: Checks, width: real) returns (o: Outcome)
      modifies base`width
      ensures o.Pass? <==> checks.interfaceWidth(width)
      ensures o.Fail? ==> o.error.IllegalArgument? && base.width == old(base.width)
      ensures o.Pass? ==> base.width == Some(Real(width))
    {
      if !checks.interfaceWidth(width) {
        return Fail(IllegalArgument("invalid interface width"));
      }
      base.width := Some(Real(width));
      return Pass;
    }

    /** lowerTrace(t): refused until the upper trace is set; then checked like a trace. */
    method SetLowerTrace(checks: Checks, trace: seq<Location>) returns (o: Outcome)
      modifies this`lowerTrace
      ensures base.trace.None? ==> o == Fail(NullPointer("Upper trace must be set first")) && lowerTrace == old(lowerTrace)
      ensures base.trace.Some? && !checks.trace(trace) ==> o.Fail? && o.error.IllegalArgument? && lowerTrace == old(lowerTrace)
      ensures base.trace.Some? && checks.trace(trace) ==> o == Pass && lowerTrace == Some(trace)
    {
      if base.trace.None? {
        return Fail(NullPointer("Upper trace must be set first"));
      }
      if !checks.trace(trace) {
        return Fail(IllegalArgument("invalid trace"));
      }
      lowerTrace := Some(trace);
      return Pass;
    }

    /**
      buildSubductionSource(): with a lower trace, depth, dip and width are
      overwritten with NaN before validation (so they need not be set) and
      the surface spans the two traces; without one, validation requires them
      and the surface is an ordinary fault surface.
     */
    method Build(makeSurface: SurfaceFactory, approx: ApproxSurface, lowerEdge: LowerEdge)
      returns (r: Result<InterfaceSource>)
      requires AllShaped(base.mfdsBuilder)
      modifies base`mfds, base`built, base`depth, base`dip, base`width
      ensures base.mfds == Some(base.mfdsBuilder)
      ensures lowerTrace.Some? ==> base.depth == Some(NaN) && base.dip == Some(NaN) && base.width == Some(NaN)
      ensures lowerTrace.None? ==> base.depth == old(base.depth) && base.dip == old(base.dip) && base.width == old(base.width)
      ensures var checked := StateCheck(base.State().(built := old(base.built)), InterfaceBuilderId);
        (checked.Fail? ==> r == Failure(checked.error) && base.built == old(base.built)) &&
        (checked.Pass? ==>
          base.built &&
          var surface := if lowerTrace.Some?
            then approx(base.trace.value, lowerTrace.value, base.spacing.value)
            else makeSurface(base.trace.value, base.depth.value, base.dip.value, base.width.value, base.spacing.value);
          r == NewInterfaceSource(base.name.value, base.id.value, base.trace.value, lowerTrace,
                                  base.dip.value, base.width.value,
                                  RuptureContext(surface, base.rupScaling.value, base.rupFloating.value,
                                                 base.rake.value, base.rupVariability.value),
                                  base.mfdsBuilder, base.spacing.value, lowerEdge))
    {
      base.mfds := Some(base.mfdsBuilder);
      var surface: GriddedSurface;
      if lowerTrace.Some? {
        base.depth := Some(NaN);
        base.dip := Some(NaN);
        base.width := Some(NaN);
        var o := base.ValidateState(InterfaceBuilderId);
        if o.Fail? {
          return Failure(o.error);
        }
        surface := approx(base.trace.value, lowerTrace.value, base.spacing.value);
      } else {
        var o := base.ValidateState(InterfaceBuilderId);
        if o.Fail? {
          return Failure(o.error);
        }
        surface := makeSurface(base.trace.value, base.depth.value, base.dip.value, base.width.value, base.spacing.value);
      }
      var ctx := RuptureContext(surface, base.rupScaling.value, base.rupFloating.value, base.rake.value,
                                base.rupVariability.value);
      var f := ConstructFaultSource(base.name.value, base.id.value, base.trace.value, base.dip.value, base.width.value,
                                    ctx, base.mfdsBuilder, base.spacing.value);
      if f.Failure? {
        return Failure(f.error);
      }
      r := Success(InterfaceSource(f.value, if lowerTrace.None? then lowerEdge(surface) else lowerTrace.value));
    }
  }

  /**
    The dual-trace route does not look at depth, dip or width: once they are
    overwritten, validation passes exactly when everything else is set.
   */
  lemma DualTraceValidation(s: BuilderState, buildId: string)
    ensures var nan := Some(NaN);
      StateCheck(s.(depth := nan, dip := nan, width := nan), buildId).Pass? <==>
        !s.built && s.name.Some? && s.id.Some? && s.trace.Some? && s.rake.Some? &&
        s.mfds.Some? && |s.mfds.value| > 0 && s.spacing.Some? && s.rupScaling.Some? &&
        s.rupFloating.Some? && s.rupVariability.Some?
  {
  }

  /** On the single-trace route an unset depth fails validation whatever else is set. */
  lemma SingleTraceNeedsDepth(s: BuilderState, buildId: string)
    requires !s.built && s.depth.None?
    ensures StateCheck(s, buildId).Fail?
  {
  }
}

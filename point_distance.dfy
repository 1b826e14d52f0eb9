/**
  The distance formulas of the three point-source surfaces
  (PointSurface, FiniteSurface and FixedStrikeSurface .distanceTo), and the
  corner construction of the fixed-strike surface.  Everything trigonometric
  or geodesic comes from `Env`; what is proved is the branch structure and the
  algebra between the branches.
 */
module PointDistance {
  import opened Common

  /** The distance metrics a surface reports for a site. */
  datatype Distance = Distance(rJB: real, rRup: real, rX: real)

  /** RuptureScaling.Dimensions. */
  datatype Dimensions = Dimensions(length: real, width: real)

  /** A rupture scaling model: the point-source rJB correction and the rupture dimensions; not part of this model. */
  datatype Scaling = Scaling(pointSourceDistance: (real, real) -> real,   // (mag, rJB) -> corrected rJB
                             dimensions: (real, real) -> Dimensions)     // (mag, maxWidth) -> length, width

  /** PointSurface.distanceTo once rJB has been corrected: rX is rJB itself. */
  function PointSurfaceDistance(env: Env, rJB: real, zTop: real): (d: Distance)
    ensures d.rX == d.rJB
  {
    Distance(rJB, env.hypot(rJB, zTop), rJB)
  }

  /** The linear rRup scaling of FiniteSurface between rJB = 0 and rJB = rCut. */
  function Interpolate(env: Env, rRup0: real, rRupC: real, rJB: real, rCut: real): real
  {
    Div(env, (rRupC - rRup0) * rJB, rCut) + rRup0
  }

  /** rCut: the rJB beyond which the bottom edge of the hanging-wall copy is closest. */
  function FiniteCut(env: Env, zBot: real, dipRad: real): real
  {
    zBot * env.tan(dipRad)
  }

  /**
    FiniteSurface.distanceTo once rJB has been corrected: the footwall copy
    sees the site at -rJB, the hanging-wall copy at rJB + widthH; beyond the
    cutoff rCut = zBot tan(dip) rRup is measured to the bottom edge, below it
    rRup is interpolated.
   */
  function FiniteDistance(env: Env, rJB: real, footwall: bool, widthH: real,
                          zTop: real, zBot: real, dipRad: real): (d: Distance)
    ensures d.rJB == rJB
  {
    var rX := if footwall then -rJB else rJB + widthH;
    if footwall then Distance(rJB, env.hypot(rJB, zTop), rX)
    else
      var rCut := FiniteCut(env, zBot, dipRad);
      if rJB > rCut then Distance(rJB, env.hypot(rJB, zBot), rX)
      else
        var rRup0 := Min(env.hypot(widthH, zTop), zBot * env.cos(dipRad));
        var rRupC := Div(env, zBot, env.cos(dipRad));
        Distance(rJB, Interpolate(env, rRup0, rRupC, rJB, rCut), rX)
  }

  lemma ScaleBetween(k: real, t: real)
    requires 0.0 <= t <= 1.0
    ensures k >= 0.0 ==> 0.0 <= k * t <= k
    ensures k <= 0.0 ==> k <= k * t <= 0.0
  {
    assert k - k * t == k * (1.0 - t);
  }

  lemma DivByProduct(env: Env, k: real, x: real, c: real, t: real)
    requires c != 0.0 && t * c == x
    ensures Div(env, k * x, c) == k * t
  {
    var q := Div(env, k * x, c);
    assert q * c == k * x;
    assert (q - k * t) * c == 0.0;
  }

  /**
    The interpolation meets its end values: rRup0 over the rupture's down-dip
    edge projection (rJB = 0) and rRupC at the cutoff (rJB = rCut), and stays
    between them in between.
   */
  lemma InterpolationEndpoints(env: Env, rRup0: real, rRupC: real, rJB: real, rCut: real)
    requires rCut > 0.0 && 0.0 <= rJB <= rCut
    ensures Interpolate(env, rRup0, rRupC, 0.0, rCut) == rRup0
    ensures Interpolate(env, rRup0, rRupC, rCut, rCut) == rRupC
    ensures Min(rRup0, rRupC) <= Interpolate(env, rRup0, rRupC, rJB, rCut) <= Max(rRup0, rRupC)
  {
    var k := rRupC - rRup0;
    var t := rJB / rCut;
    assert t * rCut == rJB;
    assert 0.0 <= t <= 1.0 by {
      assert rJB <= rCut;
    }
    DivByProduct(env, k, rJB, rCut, t);
    DivByProduct(env, k, 0.0, rCut, 0.0);
    DivByProduct(env, k, rCut, rCut, 1.0);
    ScaleBetween(k, t);
    assert Interpolate(env, rRup0, rRupC, rJB, rCut) == k * t + rRup0;
  }

  /**
    The sign of rX tells the two copies apart: for rJB >= 0 and a non-negative
    horizontal width the footwall copy has rX <= 0 and the hanging-wall copy
    rX >= rJB; with rJB > 0 exactly the footwall copy has rX < 0.
   */
  lemma FiniteRxSign(env: Env, rJB: real, footwall: bool, widthH: real, zTop: real, zBot: real, dipRad: real)
    requires rJB >= 0.0 && widthH >= 0.0
    ensures var d := FiniteDistance(env, rJB, footwall, widthH, zTop, zBot, dipRad);
      (footwall ==> d.rX == -rJB && d.rX <= 0.0) &&
      (!footwall ==> d.rX == rJB + widthH && d.rX >= rJB) &&
      (rJB > 0.0 ==> (d.rX < 0.0 <==> footwall))
  {
  }

  /**
    The rRup cases of FiniteSurface: top edge on the footwall, bottom edge
    beyond the cutoff, the interpolation below it; at the cutoff itself the
    interpolation gives rRupC = zBot / cos(dip).
   */
  lemma {:induction false} FiniteRRupCases(env: Env, rJB: real, footwall: bool, widthH: real, zTop: real, zBot: real, dipRad: real)
    ensures var d := FiniteDistance(env, rJB, footwall, widthH, zTop, zBot, dipRad);
      var rCut := FiniteCut(env, zBot, dipRad);
      (footwall ==> d.rRup == env.hypot(rJB, zTop)) &&
      (!footwall && rJB > rCut ==> d.rRup == env.hypot(rJB, zBot)) &&
      (!footwall && rJB == rCut && rCut > 0.0 ==> d.rRup == Div(env, zBot, env.cos(dipRad))) &&
      (!footwall && rJB == 0.0 && rCut > 0.0 ==>
        d.rRup == Min(env.hypot(widthH, zTop), zBot * env.cos(dipRad)))
  {
    var rCut := FiniteCut(env, zBot, dipRad);
    if !footwall && rCut > 0.0 && 0.0 <= rJB <= rCut {
      InterpolationEndpoints(env, Min(env.hypot(widthH, zTop), zBot * env.cos(dipRad)),
        Div(env, zBot, env.cos(dipRad)), rJB, rCut);
    }
  }

  /** The four corners of a fixed-strike rupture: top trace p1 -> p2, bottom trace p4 <- p3. */
  datatype Corners = Corners(p1: Location, p2: Location, p3: Location, p4: Location)

  /** A copy of a location at another depth (Location.create(lat, lon, depth)). */
  function AtDepth(p: Location, depth: real): (q: Location)
    ensures q.lat == p.lat && q.lon == p.lon && q.depth == depth
  {
    Location(p.lat, p.lon, depth)
  }

  /** The two ends of the top trace: half a rupture length either way along strike from the source. */
  function TraceEnds(env: Env, loc: Location, zTop: real, strikeRad: real, halfLength: real): (Location, Location)
  {
    var locWithDepth := Location(loc.lat, loc.lon, zTop);
    var v1 := LocationVector(strikeRad, halfLength, 0.0);
    var v2 := env.reverseOf(v1);
    (env.locationAt(locWithDepth, v1), env.locationAt(locWithDepth, v2))
  }

  /**
    The corner assignment of PointSourceFixedStrike.updateRupture: the
    footwall copy runs p1 -> p2 along strike, the hanging-wall copy runs the
    other way; a strike-slip rupture's bottom corners sit vertically below the
    top ones, a dipping rupture's are offset down-dip.
   */
  function FixedStrikeCorners(env: Env, p1: Location, p2: Location, footwall: bool, strikeSlip: bool,
                              zTop: real, zBot: real, widthH: real): Corners
  {
    if footwall then
      if strikeSlip then Corners(p1, p2, AtDepth(p2, zBot), AtDepth(p1, zBot))
      else
        var vDownDip := LocationVector(env.dipDirectionRad(p1, p2), widthH, zBot - zTop);
        Corners(p1, p2, env.locationAt(p2, vDownDip), env.locationAt(p1, vDownDip))
    else
      if strikeSlip then Corners(p2, p1, AtDepth(p1, zBot), AtDepth(p2, zBot))
      else
        var vDownDip := LocationVector(env.dipDirectionRad(p2, p1), widthH, zBot - zTop);
        Corners(p2, p1, env.locationAt(p1, vDownDip), env.locationAt(p2, vDownDip))
  }

  /**
    The hanging-wall copy is the footwall construction applied to the reversed
    trace, so the two copies are mirror images; for strike-slip the bottom
    corners keep the top corners' latitude and longitude, at depth zBot.
   */
  lemma {:induction false} CornersMirror(env: Env, p1: Location, p2: Location, strikeSlip: bool,
                                         zTop: real, zBot: real, widthH: real)
    ensures FixedStrikeCorners(env, p1, p2, false, strikeSlip, zTop, zBot, widthH)
         == FixedStrikeCorners(env, p2, p1, true, strikeSlip, zTop, zBot, widthH)
    ensures var fw := FixedStrikeCorners(env, p1, p2, true, strikeSlip, zTop, zBot, widthH);
      fw.p1 == p1 && fw.p2 == p2
    ensures var hw := FixedStrikeCorners(env, p1, p2, false, strikeSlip, zTop, zBot, widthH);
      hw.p1 == p2 && hw.p2 == p1
    ensures forall fw: bool :: var c := FixedStrikeCorners(env, p1, p2, fw, strikeSlip, zTop, zBot, widthH);
      strikeSlip ==>
        c.p3 == AtDepth(c.p2, zBot) && c.p4 == AtDepth(c.p1, zBot)
  {
  }

  /**
    FixedStrikeSurface: rRup for a site on the hanging-wall side between the
    trace ends: to the bottom edge past rCutBot, to the top edge before
    rCutTop, and across the rupture plane in between.
   */
  function HangingWallRRup(env: Env, rX: real, dipRad: real, zTop: real, zBot: real, widthH: real): real
  {
    var rCutTop := CutTop(env, dipRad, zTop);
    var rCutBot := CutBot(env, dipRad, zBot, widthH);
    if rX > rCutBot then env.hypot(rX - widthH, zBot)
    else if rX < rCutTop then env.hypot(rX, zTop)
    else env.hypot(rCutTop, zTop) + (rX - rCutTop) * env.sin(dipRad)
  }

  /** The horizontal distance at which the site is right above the top edge. */
  function CutTop(env: Env, dipRad: real, zTop: real): real
  {
    env.tan(dipRad) * zTop
  }

  /** The horizontal distance past which the bottom edge is the closest point. */
  function CutBot(env: Env, dipRad: real, zBot: real, widthH: real): real
  {
    env.tan(dipRad) * zBot + widthH
  }

  /** The rRup branches of the hanging wall, and the middle branch meets the top-edge branch at rCutTop. */
  lemma HangingWallBranches(env: Env, rX: real, dipRad: real, zTop: real, zBot: real, widthH: real)
    ensures var rCutTop := CutTop(env, dipRad, zTop);
      var rCutBot := CutBot(env, dipRad, zBot, widthH);
      var r := HangingWallRRup(env, rX, dipRad, zTop, zBot, widthH);
      (rX > rCutBot ==> r == env.hypot(rX - widthH, zBot)) &&
      (rX <= rCutBot && rX < rCutTop ==> r == env.hypot(rX, zTop)) &&
      (rCutTop <= rX <= rCutBot ==> r == env.hypot(rCutTop, zTop) + (rX - rCutTop) * env.sin(dipRad)) &&
      (rX == rCutTop && rCutTop <= rCutBot ==> r == env.hypot(rX, zTop))
  {
  }

  /** The test that the site lies beyond the trace ends (rSeg exceeds rX by more than 1e-5). */
  function OffEnd(env: Env, rSeg: real, rX: real): bool
  {
    env.fuzzyCompare(rSeg, rX, 0.00001) > 0
  }

  /** rY: the along-strike offset of a site beyond a trace end, sqrt(rSeg^2 - rX^2). */
  function AlongStrike(env: Env, rSeg: real, rX: real): real
  {
    env.sqrt(rSeg * rSeg - rX * rX)
  }

  /** FixedStrikeSurface.distanceTo: rX and rSeg are measured to the top trace p1 -> p2. */
  function FixedStrikeDistance(env: Env, c: Corners, dipRad: real, zTop: real, zBot: real, widthH: real,
                               site: Location): (d: Distance)
    ensures d.rX == env.distanceToLine(c.p1, c.p2, site)
  {
    var rX := env.distanceToLine(c.p1, c.p2, site);
    var rSeg := env.distanceToSegment(c.p1, c.p2, site);
    var isVertical := dipRad == 90.0 * env.toRad;
    if rX <= 0.0 || isVertical then Distance(rSeg, env.hypot(rSeg, zTop), rX)
    else
      var rRup := HangingWallRRup(env, rX, dipRad, zTop, zBot, widthH);
      if OffEnd(env, rSeg, rX) then
        var rJB := Min(env.distanceToSegment(c.p1, c.p4, site), env.distanceToSegment(c.p2, c.p3, site));
        Distance(rJB, env.hypot(rRup, AlongStrike(env, rSeg, rX)), rX)
      else
        Distance(if rX > widthH then rX - widthH else 0.0, rRup, rX)
  }

  /**
    The three cases of FixedStrikeSurface.distanceTo: footwall side or
    vertical dip; hanging-wall side past an end of the trace (rJB to the
    nearer end cap, rRup combined with the along-strike offset); hanging-wall
    side between the ends (rJB is how far the site lies past the surface
    projection, never negative).
   */
  lemma FixedStrikeCases(env: Env, c: Corners, dipRad: real, zTop: real, zBot: real, widthH: real, site: Location)
    ensures var d := FixedStrikeDistance(env, c, dipRad, zTop, zBot, widthH, site);
      var rX := env.distanceToLine(c.p1, c.p2, site);
      var rSeg := env.distanceToSegment(c.p1, c.p2, site);
      var rRup := HangingWallRRup(env, rX, dipRad, zTop, zBot, widthH);
      ((rX <= 0.0 || dipRad == 90.0 * env.toRad) ==> d == Distance(rSeg, env.hypot(rSeg, zTop), rX)) &&
      ((rX > 0.0 && dipRad != 90.0 * env.toRad && OffEnd(env, rSeg, rX)) ==>
        d.rJB == Min(env.distanceToSegment(c.p1, c.p4, site), env.distanceToSegment(c.p2, c.p3, site)) &&
        d.rRup == env.hypot(rRup, AlongStrike(env, rSeg, rX))) &&
      ((rX > 0.0 && dipRad != 90.0 * env.toRad && !OffEnd(env, rSeg, rX)) ==>
        d.rRup == rRup && d.rJB >= 0.0 && d.rJB == Max(rX - widthH, 0.0))
  {
  }

  /** With a non-negative segment distance, FixedStrikeSurface never reports a negative rJB. */
  lemma FixedStrikeRjbNonNegative(env: Env, c: Corners, dipRad: real, zTop: real, zBot: real, widthH: real, site: Location)
    requires env.distanceToSegment(c.p1, c.p2, site) >= 0.0
    requires env.distanceToSegment(c.p1, c.p4, site) >= 0.0
    requires env.distanceToSegment(c.p2, c.p3, site) >= 0.0
    ensures FixedStrikeDistance(env, c, dipRad, zTop, zBot, widthH, site).rJB >= 0.0
  {
  }
}

/**
  Shared vocabulary of the model: the exceptions the Java code throws, as
  values; locations; and the numeric and geodesic primitives that the core
  calls but does not define.  Those primitives are gathered in `Env`, a record
  of function values, so that every formula that uses them is stated over
  arbitrary (uninterpreted) implementations.
 */
module Common {

  /** The Java exceptions raised by the core, with their messages. */
  datatype Error =
    | IllegalArgument(msg: string)    // checkArgument, checkInRange, range checkers
    | IllegalState(msg: string)       // checkState
    | NullPointer(msg: string)        // checkNotNull, unboxing a null Double
    | Unsupported(msg: string)        // UnsupportedOperationException
    | IndexOutOfBounds                // List.get, checkElementIndex, array stores
    | Sax(cause: Error)               // GridParser wraps every failure in a SAXException

  datatype Result<T> = Success(value: T) | Failure(error: Error)

  datatype Outcome = Pass | Fail(error: Error)

  datatype Option<T> = None | Some(value: T)

  /** A Java double that is either an ordinary value or NaN (used where the code stores NaN as a marker). */
  datatype Num = Real(value: real) | NaN

  /** SourceType: the kinds of earthquake source a model is built from. */
  datatype SourceType = Area | Cluster | Fault | Grid | Interface | Slab | System

  /** A geographic location: latitude and longitude in degrees, depth in km. */
  datatype Location = Location(lat: real, lon: real, depth: real)

  /** Location.create(lat, lon): a location at the surface. */
  function SurfaceLocation(lat: real, lon: real): (l: Location)
    ensures l.depth == 0.0 && l.lat == lat && l.lon == lon
  {
    Location(lat, lon, 0.0)
  }

  /** A LocationVector: azimuth in radians, horizontal and vertical offsets in km. */
  datatype LocationVector = LocationVector(azimuth: real, horizontal: real, vertical: real)

  /**
    The floating-point and geodesic primitives the core relies on.  None of
    them is part of this model; each is an arbitrary function here.
   */
  datatype Env = Env(
    hypot: (real, real) -> real,                            // Maths.hypot
    sin: real -> real,
    cos: real -> real,
    tan: real -> real,
    sqrt: real -> real,
    toRad: real,                                            // Maths.TO_RAD (pi / 180)
    toDeg: real,                                            // Maths.TO_DEG (180 / pi)
    divByZero: real -> real,                                // IEEE a / 0 (NaN or an infinity)
    horzDistance: (Location, Location) -> real,             // Locations.horzDistanceFast
    linearDistance: (Location, Location) -> real,           // Locations.linearDistanceFast
    distanceToLine: (Location, Location, Location) -> real, // Locations.distanceToLineFast
    distanceToSegment: (Location, Location, Location) -> real, // Locations.distanceToSegmentFast
    locationAt: (Location, LocationVector) -> Location,     // Locations.location
    reverseOf: LocationVector -> LocationVector,            // LocationVector.reverseOf
    dipDirectionRad: (Location, Location) -> real,          // Faults.dipDirectionRad
    fuzzyCompare: (real, real, real) -> int,                // DoubleMath.fuzzyCompare
    closestPoint: (Location, seq<Location>) -> Location     // Locations.closestPoint
  )

  /**
    Java's double division.  A real has no NaN or infinity, so a zero divisor
    yields the environment's stand-in for the IEEE result.
   */
  function Div(env: Env, a: real, b: real): (q: real)
    ensures b != 0.0 ==> q * b == a
    ensures b == 0.0 ==> q == env.divByZero(a)
  {
    if b != 0.0 then a / b else env.divByZero(a)
  }

  /** Degrees to radians and back, by the environment's conversion factors. */
  function Radians(env: Env, deg: real): real
  {
    deg * env.toRad
  }

  function Degrees(env: Env, rad: real): real
  {
    rad * env.toDeg
  }

  /** Java's `%` on int: truncating, so the remainder takes the sign of the dividend. */
  function JavaRem(a: int, b: int): (r: int)
    requires b != 0
    ensures a >= 0 ==> 0 <= r < (if b > 0 then b else -b)
    ensures a < 0 ==> -(if b > 0 then b else -b) < r <= 0
    ensures a >= 0 ==> r == a % (if b > 0 then b else -b)
  {
    var m := if b > 0 then b else -b;
    if a >= 0 then a % m else -((-a) % m)
  }

  /** Math.min and Math.max on doubles (NaN is not modelled). */
  function Min(a: real, b: real): (r: real)
    ensures r <= a && r <= b && (r == a || r == b)
  {
    if a <= b then a else b
  }

  function Max(a: real, b: real): (r: real)
    ensures r >= a && r >= b && (r == a || r == b)
  {
    if a >= b then a else b
  }

  /** Math.ceil on a non-negative double, then the (int) cast. */
  function Ceil(w: real): (c: int)
    ensures c as real >= w && (c - 1) as real < w
  {
    if w.Floor as real == w then w.Floor else w.Floor + 1
  }

  /** Integer.toString on a non-negative int, as used in the code's messages. */
  function NatToString(n: nat): (s: string)
    ensures |s| > 0
    ensures forall i :: 0 <= i < |s| ==> '0' <= s[i] <= '9'
  {
    var digit := "0123456789"[n % 10];
    if n < 10 then [digit] else NatToString(n / 10) + [digit]
  }

  /** Sum of a sequence of naturals. */
  function SumNat(s: seq<nat>): nat
  {
    if s == [] then 0 else s[0] + SumNat(s[1..])
  }

  lemma {:induction false} SumNatAppend(a: seq<nat>, b: seq<nat>)
    ensures SumNat(a + b) == SumNat(a) + SumNat(b)
  {
    if a == [] {
      assert a + b == b;
    } else {
      assert (a + b)[1..] == a[1..] + b;
      SumNatAppend(a[1..], b);
    }
  }

  lemma MulAtLeast(k: int, m: int)
    ensures k >= 1 && m >= 0 ==> k * m >= m
    ensures k <= -1 && m >= 0 ==> k * m <= -m
  {
    if k >= 1 && m >= 0 {
      assert k * m == m + (k - 1) * m;
    }
    if k <= -1 && m >= 0 {
      assert k * m == -m + (k + 1) * m;
    }
  }

  /** Euclidean remainder is determined by any quotient-remainder decomposition. */
  lemma ModUnique(x: int, q: int, r: int, m: int)
    requires m > 0 && 0 <= r < m && x == q * m + r
    ensures x % m == r
  {
    var k := q - x / m;
    assert k * m == x % m - r;
    MulAtLeast(k, m);
  }

  lemma ModAddPeriod(x: int, m: int)
    requires m > 0
    ensures (x + m) % m == x % m
  {
    ModUnique(x + m, x / m + 1, x % m, m);
  }
}

/**
  XySequence and MutableXySequence: x-values that are fixed once a sequence
  is built (strictly increasing, never empty) and a y-value buffer that only
  the mutable variant changes in place.
 */
module XySequences {
  import opened Common

  /** Strictly increasing, stated on neighbours (the way the code checks it). */
  predicate Increasing(xs: seq<real>)
  {
    forall i :: 0 <= i < |xs| - 1 ==> xs[i] < xs[i + 1]
  }

  /** Strictly increasing, stated on every pair. */
  ghost predicate Ordered(xs: seq<real>)
  {
    forall i, j :: 0 <= i < j < |xs| ==> xs[i] < xs[j]
  }

  /** The neighbour test is the same as the all-pairs order. */
  lemma {:induction false} IncreasingIsOrdered(xs: seq<real>)
    ensures Increasing(xs) <==> Ordered(xs)
  {
    if Increasing(xs) {
      forall i, j | 0 <= i < j < |xs|
        ensures xs[i] < xs[j]
      {
        IncreasingStep(xs, i, j);
      }
    }
  }

  lemma {:induction false} IncreasingStep(xs: seq<real>, i: int, j: int)
    requires Increasing(xs) && 0 <= i < j < |xs|
    ensures xs[i] < xs[j]
    decreases j - i
  {
    if j > i + 1 {
      IncreasingStep(xs, i, j - 1);
    }
  }

  /**
    construct(): the argument checks, in order: x-values present, same number
    of y-values, x-values strictly increasing.
   */
  function ConstructCheck(xs: seq<real>, ysLength: int): (o: Outcome)
    ensures o.Pass? <==> |xs| > 0 && ysLength == |xs| && Ordered(xs)
    ensures |xs| == 0 ==> o == Fail(IllegalArgument("x-values may not be empty"))
    ensures |xs| > 0 && ysLength != |xs| ==> o == Fail(IllegalArgument("x- and y-values are different sizes"))
    ensures |xs| > 0 && ysLength == |xs| && !Ordered(xs) ==>
      o == Fail(IllegalArgument("x-values do not increase monotonically"))
  {
    IncreasingIsOrdered(xs);
    if |xs| == 0 then Fail(IllegalArgument("x-values may not be empty"))
    else if ysLength != |xs| then Fail(IllegalArgument("x- and y-values are different sizes"))
    else if |xs| > 1 && !Increasing(xs) then Fail(IllegalArgument("x-values do not increase monotonically"))
    else Pass
  }

  // The y-value transformations of Data, as functions on values.

  function Zeros(n: nat): (r: seq<real>)
    ensures |r| == n && forall i :: 0 <= i < n ==> r[i] == 0.0
  {
    seq(n, i => 0.0)
  }

  function Shifted(s: seq<real>, t: real): seq<real>
  {
    seq(|s|, i requires 0 <= i < |s| => s[i] + t)
  }

  function Scaled(s: seq<real>, k: real): seq<real>
  {
    seq(|s|, i requires 0 <= i < |s| => s[i] * k)
  }

  function Negated(s: seq<real>): seq<real>
  {
    seq(|s|, i requires 0 <= i < |s| => -s[i])
  }

  function Sum(a: seq<real>, b: seq<real>): seq<real>
    requires |a| == |b|
  {
    seq(|a|, i requires 0 <= i < |a| => a[i] + b[i])
  }

  function Product(a: seq<real>, b: seq<real>): seq<real>
    requires |a| == |b|
  {
    seq(|a|, i requires 0 <= i < |a| => a[i] * b[i])
  }

  function Mapped(s: seq<real>, f: real -> real): seq<real>
  {
    seq(|s|, i requires 0 <= i < |s| => f(s[i]))
  }

  /** complement(): flip the sign, then add one. */
  function Complemented(s: seq<real>): (r: seq<real>)
    ensures |r| == |s| && forall i :: 0 <= i < |s| ==> r[i] == 1.0 - s[i]
  {
    Shifted(Negated(s), 1.0)
  }

  predicate AllZero(s: seq<real>)
  {
    forall i :: 0 <= i < |s| ==> s[i] == 0.0
  }

  /** Complementing maps [0, 1] onto itself. */
  lemma ComplementInUnit(s: seq<real>)
    requires forall i :: 0 <= i < |s| ==> 0.0 <= s[i] <= 1.0
    ensures forall i :: 0 <= i < |s| ==> 0.0 <= Complemented(s)[i] <= 1.0
  {
  }

  // In-place array loops (the Data utilities the sequence delegates to).

  method ShiftInPlace(a: array<real>, t: real)
    modifies a
    ensures a[..] == Shifted(old(a[..]), t)
  {
    for i := 0 to a.Length
      invariant forall j :: 0 <= j < i ==> a[j] == old(a[j]) + t
      invariant forall j :: i <= j < a.Length ==> a[j] == old(a[j])
    {
      a[i] := a[i] + t;
    }
  }

  method ScaleInPlace(a: array<real>, k: real)
    modifies a
    ensures a[..] == Scaled(old(a[..]), k)
  {
    for i := 0 to a.Length
      invariant forall j :: 0 <= j < i ==> a[j] == old(a[j]) * k
      invariant forall j :: i <= j < a.Length ==> a[j] == old(a[j])
    {
      a[i] := a[i] * k;
    }
    assert forall j :: 0 <= j < a.Length ==> a[..][j] == Scaled(old(a[..]), k)[j];
  }

  method NegateInPlace(a: array<real>)
    modifies a
    ensures a[..] == Negated(old(a[..]))
  {
    for i := 0 to a.Length
      invariant forall j :: 0 <= j < i ==> a[j] == -old(a[j])
      invariant forall j :: i <= j < a.Length ==> a[j] == old(a[j])
    {
      a[i] := -a[i];
    }
  }

  /** a[i] += b[i]; b may be a itself. */
  method AddInPlace(a: array<real>, b: array<real>)
    requires a.Length == b.Length
    modifies a
    ensures a[..] == Sum(old(a[..]), old(b[..]))
    ensures b != a ==> b[..] == old(b[..])
  {
    for i := 0 to a.Length
      invariant forall j :: 0 <= j < i ==> a[j] == old(a[j]) + old(b[j])
      invariant forall j :: i <= j < a.Length ==> a[j] == old(a[j]) && b[j] == old(b[j])
      invariant b != a ==> b[..] == old(b[..])
    {
      a[i] := a[i] + b[i];
    }
  }

  /** a[i] *= b[i]; b may be a itself. */
  method MultiplyInPlace(a: array<real>, b: array<real>)
    requires a.Length == b.Length
    modifies a
    ensures a[..] == Product(old(a[..]), old(b[..]))
    ensures b != a ==> b[..] == old(b[..])
  {
    for i := 0 to a.Length
      invariant forall j :: 0 <= j < i ==> a[j] == old(a[j]) * old(b[j])
      invariant forall j :: i <= j < a.Length ==> a[j] == old(a[j]) && b[j] == old(b[j])
      invariant b != a ==> b[..] == old(b[..])
    {
      a[i] := a[i] * b[i];
    }
    assert forall j :: 0 <= j < a.Length ==> a[..][j] == Product(old(a[..]), old(b[..]))[j];
  }

  method MapInPlace(a: array<real>, f: real -> real)
    modifies a
    ensures a[..] == Mapped(old(a[..]), f)
  {
    for i := 0 to a.Length
      invariant forall j :: 0 <= j < i ==> a[j] == f(old(a[j]))
      invariant forall j :: i <= j < a.Length ==> a[j] == old(a[j])
    {
      a[i] := f(a[i]);
    }
  }

  method FillInPlace(a: array<real>, v: real)
    modifies a
    ensures forall i :: 0 <= i < a.Length ==> a[i] == v
  {
    for i := 0 to a.Length
      invariant forall j :: 0 <= j < i ==> a[j] == v
    {
      a[i] := v;
    }
  }

  /** Arrays.copyOf: a fresh array with the same contents. */
  method CopyArray(s: seq<real>) returns (a: array<real>)
    ensures fresh(a) && a[..] == s
  {
    a := new real[|s|];
    for i := 0 to |s|
      invariant forall j :: 0 <= j < i ==> a[j] == s[j]
    {
      a[i] := s[i];
    }
  }

  /** An XyPoint of a sequence: its index and whether set(y) writes through. */
  datatype XyPoint = Point(index: int, mutable: bool)

  class XySequence {
    const xs: seq<real>
    const ys: array<real>
    const mutable: bool

    ghost predicate Valid()
      reads ys
    {
      |xs| > 0 && ys.Length == |xs| && Ordered(xs)
    }

    /** The y-values, as a value. */
    function Ys(): seq<real>
      reads ys
    {
      ys[..]
    }

    constructor Of(xs: seq<real>, ys: array<real>, mutable: bool)
      ensures this.xs == xs && this.ys == ys && this.mutable == mutable
    {
      this.xs := xs;
      this.ys := ys;
      this.mutable := mutable;
    }

    /** construct(): validate, then wrap the (already copied) arrays. */
    static method Construct(xs: seq<real>, ys: seq<real>, mutable: bool) returns (r: Result<XySequence>)
      ensures r.Failure? <==> ConstructCheck(xs, |ys|).Fail?
      ensures r.Failure? ==> r.error == ConstructCheck(xs, |ys|).error
      ensures r.Success? ==> fresh(r.value) && fresh(r.value.ys) && r.value.Valid()
      ensures r.Success? ==> r.value.xs == xs && r.value.Ys() == ys && r.value.mutable == mutable
    {
      var check := ConstructCheck(xs, |ys|);
      if check.Fail? {
        return Failure(check.error);
      }
      var copy := CopyArray(ys);
      var s := new XySequence.Of(xs, copy, mutable);
      return Success(s);
    }

    /**
      create(xs, ys) (when mutable) and createImmutable(xs, ys): copy the
      arrays, a null ys meaning all zeros; the immutable factory refuses a
      null ys.  The result shares no array with the caller.
     */
    static method Create(xs: array?<real>, ys: array?<real>, mutable: bool) returns (r: Result<XySequence>)
      ensures xs == null || (!mutable && ys == null) ==> r == Failure(NullPointer(""))
      ensures xs != null && (mutable || ys != null) ==>
        var yv := if ys == null then Zeros(xs.Length) else ys[..];
        (r.Failure? <==> ConstructCheck(xs[..], |yv|).Fail?) &&
        (r.Success? ==> r.value.xs == xs[..] && r.value.Ys() == yv && r.value.mutable == mutable)
      ensures r.Success? ==> fresh(r.value) && fresh(r.value.ys) && r.value.Valid()
    {
      if xs == null || (!mutable && ys == null) {
        return Failure(NullPointer(""));
      }
      var yv := if ys == null then Zeros(xs.Length) else ys[..];
      r := Construct(xs[..], yv, mutable);
    }

    /** The Collection-valued create / createImmutable: the same, from lists of numbers. */
    static method CreateFromLists(xs: seq<real>, ys: Option<seq<real>>, mutable: bool) returns (r: Result<XySequence>)
      ensures !mutable && ys.None? ==> r == Failure(NullPointer(""))
      ensures mutable || ys.Some? ==>
        var yv := if ys.None? then Zeros(|xs|) else ys.value;
        (r.Failure? <==> ConstructCheck(xs, |yv|).Fail?) &&
        (r.Success? ==> r.value.xs == xs && r.value.Ys() == yv && r.value.mutable == mutable)
      ensures r.Success? ==> fresh(r.value) && fresh(r.value.ys) && r.value.Valid()
    {
      if !mutable && ys.None? {
        return Failure(NullPointer(""));
      }
      var yv := if ys.None? then Zeros(|xs|) else ys.value;
      r := Construct(xs, yv, mutable);
    }

    /**
      copyOf (mutable, same y-values) and emptyCopyOf (mutable, all y-values
      zero); the x-values are shared, the y buffer is new.
     */
    static method CopyOf(s: XySequence?, clear: bool) returns (r: Result<XySequence>)
      requires s != null ==> s.Valid()
      ensures s == null ==> r == Failure(NullPointer(""))
      ensures s != null ==> r.Success? && fresh(r.value) && fresh(r.value.ys) && r.value.Valid()
      ensures s != null ==> r.value.xs == s.xs && r.value.mutable
      ensures s != null ==> r.value.Ys() == if clear then Zeros(|s.xs|) else s.Ys()
    {
      if s == null {
        return Failure(NullPointer(""));
      }
      var copy := CopyArray(if clear then Zeros(|s.xs|) else s.ys[..]);
      var c := new XySequence.Of(s.xs, copy, true);
      return Success(c);
    }

    /** immutableCopyOf: an immutable sequence is returned as it is; a mutable one is copied. */
    static method ImmutableCopyOf(s: XySequence) returns (r: XySequence)
      requires s.Valid()
      ensures !s.mutable ==> r == s
      ensures s.mutable ==> fresh(r) && fresh(r.ys)
      ensures !r.mutable && r.xs == s.xs && r.Ys() == s.Ys() && r.Valid()
    {
      if !s.mutable {
        return s;
      }
      var copy := CopyArray(s.ys[..]);
      r := new XySequence.Of(s.xs, copy, false);
    }

    function Size(): (n: int)
      reads ys
      requires Valid()
      ensures n > 0 && n == |xs|
    {
      |xs|
    }

    /** x(index) and y(index): out-of-range indices fail. */
    function X(index: int): (r: Result<real>)
      ensures r.Success? <==> 0 <= index < |xs|
      ensures r.Success? ==> r.value == xs[index]
      ensures r.Failure? ==> r.error == IndexOutOfBounds
    {
      if 0 <= index < |xs| then Success(xs[index]) else Failure(IndexOutOfBounds)
    }

    function Y(index: int): (r: Result<real>)
      reads ys
      ensures r.Success? <==> 0 <= index < ys.Length
      ensures r.Success? ==> r.value == ys[index]
      ensures r.Failure? ==> r.error == IndexOutOfBounds
    {
      if 0 <= index < ys.Length then Success(ys[index]) else Failure(IndexOutOfBounds)
    }

    /** min() and max(): the first and the last point; writable only on a mutable sequence. */
    function Min(): (p: XyPoint)
      ensures p.index == 0 && p.mutable == mutable
    {
      Point(0, mutable)
    }

    function Max(): (p: XyPoint)
      ensures p.index == |xs| - 1 && p.mutable == mutable
    {
      Point(|xs| - 1, mutable)
    }

    /** The points the iterator hands out, in order. */
    function Points(): (ps: seq<XyPoint>)
      ensures |ps| == |xs|
      ensures forall i :: 0 <= i < |ps| ==> ps[i].index == i && ps[i].mutable == mutable
    {
      seq(|xs|, i => Point(i, mutable))
    }

    /** Because the x-values increase, min() has the least x-value and max() the greatest. */
    lemma MinMaxBound(i: int)
      requires Valid() && 0 <= i < |xs|
      ensures X(Min().index).value <= xs[i] <= X(Max().index).value
    {
      assert Ordered(xs);
    }

    /** isClear(): every y-value is zero. */
    function IsClear(): (b: bool)
      reads ys
      ensures b <==> forall i :: 0 <= i < ys.Length ==> ys[i] == 0.0
    {
      AllZero(ys[..])
    }

    /** set(index, value): only on a mutable sequence, only inside it, and only ys[index] changes. */
    method Set(index: int, value: real) returns (o: Outcome)
      modifies ys
      ensures !mutable ==> o == Fail(Unsupported("")) && Ys() == old(Ys())
      ensures mutable && !(0 <= index < ys.Length) ==> o == Fail(IndexOutOfBounds) && Ys() == old(Ys())
      ensures mutable && 0 <= index < ys.Length ==> o == Pass && Ys() == old(Ys())[index := value]
    {
      if !mutable {
        return Fail(Unsupported(""));
      }
      if !(0 <= index < ys.Length) {
        return Fail(IndexOutOfBounds);
      }
      ys[index] := value;
      return Pass;
    }

    /** XyPoint.set(y): writes through for a point of a mutable sequence, fails otherwise. */
    method SetPoint(p: XyPoint, value: real) returns (o: Outcome)
      modifies ys
      ensures !p.mutable ==> o == Fail(Unsupported("")) && Ys() == old(Ys())
      ensures p.mutable && !mutable ==> o == Fail(Unsupported("")) && Ys() == old(Ys())
      ensures p.mutable && mutable && !(0 <= p.index < ys.Length) ==> o == Fail(IndexOutOfBounds) && Ys() == old(Ys())
      ensures p.mutable && mutable && 0 <= p.index < ys.Length ==> o == Pass && Ys() == old(Ys())[p.index := value]
    {
      if !p.mutable {
        return Fail(Unsupported(""));
      }
      o := Set(p.index, value);
    }

    /** add(term) */
    method AddTerm(term: real) returns (o: Outcome)
      modifies ys
      ensures !mutable ==> o == Fail(Unsupported("")) && Ys() == old(Ys())
      ensures mutable ==> o == Pass && Ys() == Shifted(old(Ys()), term)
    {
      if !mutable {
        return Fail(Unsupported(""));
      }
      ShiftInPlace(ys, term);
      return Pass;
    }

    /** add(double[] ys): the array must have one value per point. */
    method AddValues(values: array<real>) returns (o: Outcome)
      modifies ys
      ensures !mutable ==> o == Fail(Unsupported("")) && Ys() == old(Ys())
      ensures mutable && values.Length != ys.Length ==> o.Fail? && o.error.IllegalArgument? && Ys() == old(Ys())
      ensures mutable && values.Length == ys.Length ==> o == Pass && Ys() == Sum(old(Ys()), old(values[..]))
    {
      if !mutable {
        return Fail(Unsupported(""));
      }
      if values.Length != ys.Length {
        return Fail(IllegalArgument("arrays are different sizes"));
      }
      AddInPlace(ys, values);
      return Pass;
    }

    /** validateSequence: the other sequence must have the same x-values. */
    function SameXs(other: XySequence): (o: Outcome)
      ensures o.Pass? <==> other.xs == xs
      ensures o.Fail? ==> o.error.IllegalArgument?
    {
      if other.xs == xs then Pass else Fail(IllegalArgument("x-values do not match"))
    }

    /** add(sequence): elementwise sum with a sequence over the same x-values (possibly this one). */
    method AddSequence(other: XySequence) returns (o: Outcome)
      requires Valid() && other.Valid()
      modifies ys
      ensures !mutable ==> o == Fail(Unsupported("")) && Ys() == old(Ys())
      ensures mutable ==> o == SameXs(other)
      ensures mutable && o.Fail? ==> Ys() == old(Ys())
      ensures mutable && o.Pass? ==> Ys() == Sum(old(Ys()), old(other.Ys()))
      ensures other.ys != ys ==> other.Ys() == old(other.Ys())
    {
      if !mutable {
        return Fail(Unsupported(""));
      }
      o := SameXs(other);
      if o.Pass? {
        AddInPlace(ys, other.ys);
      }
    }

    /** multiply(scale) */
    method MultiplyBy(scale: real) returns (o: Outcome)
      modifies ys
      ensures !mutable ==> o == Fail(Unsupported("")) && Ys() == old(Ys())
      ensures mutable ==> o == Pass && Ys() == Scaled(old(Ys()), scale)
    {
      if !mutable {
        return Fail(Unsupported(""));
      }
      ScaleInPlace(ys, scale);
      return Pass;
    }

    /** multiply(sequence): elementwise product with a sequence over the same x-values. */
    method MultiplySequence(other: XySequence) returns (o: Outcome)
      requires Valid() && other.Valid()
      modifies ys
      ensures !mutable ==> o == Fail(Unsupported("")) && Ys() == old(Ys())
      ensures mutable ==> o == SameXs(other)
      ensures mutable && o.Fail? ==> Ys() == old(Ys())
      ensures mutable && o.Pass? ==> Ys() == Product(old(Ys()), old(other.Ys()))
      ensures other.ys != ys ==> other.Ys() == old(other.Ys())
    {
      if !mutable {
        return Fail(Unsupported(""));
      }
      o := SameXs(other);
      if o.Pass? {
        MultiplyInPlace(ys, other.ys);
      }
    }

    /** complement(): y := 1 - y, by a sign flip followed by adding one. */
    method Complement() returns (o: Outcome)
      modifies ys
      ensures !mutable ==> o == Fail(Unsupported("")) && Ys() == old(Ys())
      ensures mutable ==> o == Pass && Ys() == Complemented(old(Ys()))
    {
      if !mutable {
        return Fail(Unsupported(""));
      }
      NegateInPlace(ys);
      ShiftInPlace(ys, 1.0);
      return Pass;
    }

    /** clear(): every y-value becomes zero. */
    method Clear() returns (o: Outcome)
      modifies ys
      ensures !mutable ==> o == Fail(Unsupported("")) && Ys() == old(Ys())
      ensures mutable ==> o == Pass && IsClear() && Ys() == Zeros(ys.Length)
    {
      if !mutable {
        return Fail(Unsupported(""));
      }
      FillInPlace(ys, 0.0);
      return Pass;
    }

    /** transform(function): every y-value is replaced by its image. */
    method Transform(f: real -> real) returns (o: Outcome)
      modifies ys
      ensures !mutable ==> o == Fail(Unsupported("")) && Ys() == old(Ys())
      ensures mutable ==> o == Pass && Ys() == Mapped(old(Ys()), f)
    {
      if !mutable {
        return Fail(Unsupported(""));
      }
      MapInPlace(ys, f);
      return Pass;
    }

    /**
      addToMap(key, map): a sequence already under `key` has this one added
      to it in place; otherwise a mutable copy of this one is put under
      `key`.  No other entry changes.
     */
    method AddToMap<K>(key: K, table: map<K, XySequence>) returns (r: map<K, XySequence>, o: Outcome)
      requires Valid() && forall k :: k in table ==> table[k].Valid()
      modifies if key in table then {table[key].ys} else {}
      ensures key in table ==> r == table
      ensures key in table && table[key].mutable ==> o == table[key].SameXs(this)
      ensures key in table && table[key].mutable && o.Pass? ==>
        |old(table[key].Ys())| == |old(Ys())| && table[key].Ys() == Sum(old(table[key].Ys()), old(Ys()))
      ensures key in table && !table[key].mutable ==> o == Fail(Unsupported(""))
      ensures key in table && o.Fail? ==> table[key].Ys() == old(table[key].Ys())
      ensures key in table && table[key].ys != ys ==> Ys() == old(Ys())
      ensures key !in table ==> o == Pass && key in r && r == table[key := r[key]]
      ensures key !in table ==>
        fresh(r[key]) && fresh(r[key].ys) && r[key].mutable && r[key].xs == xs && r[key].Ys() == Ys()
    {
      if key in table {
        r := table;
        o := table[key].AddSequence(this);
      } else {
        var c := CopyOf(this, false);
        r := table[key := c.value];
        o := Pass;
      }
    }
  }
}

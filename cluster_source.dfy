/**
  ClusterSource: a set of fault sources that rupture as independent events at
  one shared rate.  Its distributions are those of its faults, scaled by that
  rate; it has no rupture iterator of its own.
 */
module ClusterSources {
  import opened Common
  import opened FaultSources
  import opened XySequences

  /** A FaultSourceSet: a named, weighted list of fault sources. */
  datatype FaultSourceSet = FaultSourceSet(name: string, id: int, weight: real, faults: seq<FaultSource>)
  {
    function Size(): nat
    {
      |faults|
    }
  }

  /** Every distribution of the faults, fault after fault, in each fault's own order. */
  function MfdsOf(faults: seq<FaultSource>): seq<IncrementalMfd>
  {
    if faults == [] then [] else MfdsOf(faults[..|faults| - 1]) + faults[|faults| - 1].mfds
  }

  lemma {:induction false} MfdsOfLength(faults: seq<FaultSource>)
    ensures |MfdsOf(faults)| == SumNat(seq(|faults|, i requires 0 <= i < |faults| => |faults[i].mfds|))
  {
    if faults != [] {
      var init := faults[..|faults| - 1];
      MfdsOfLength(init);
      var counts := seq(|faults|, i requires 0 <= i < |faults| => |faults[i].mfds|);
      var initCounts := seq(|init|, i requires 0 <= i < |init| => |init[i].mfds|);
      assert counts == initCounts + [|faults[|faults| - 1].mfds|];
      SumNatAppend(initCounts, [|faults[|faults| - 1].mfds|]);
      assert SumNat([|faults[|faults| - 1].mfds|]) == |faults[|faults| - 1].mfds| by {
        assert [|faults[|faults| - 1].mfds|][1..] == [];
      }
    }
  }

  /** The distributions of a fault set are those of its first part followed by those of the rest. */
  lemma {:induction false} MfdsOfAppend(a: seq<FaultSource>, b: seq<FaultSource>)
    ensures MfdsOf(a + b) == MfdsOf(a) + MfdsOf(b)
    decreases |b|
  {
    if b == [] {
      assert a + b == a;
    } else {
      var ab := a + b;
      var init := b[..|b| - 1];
      assert ab[..|ab| - 1] == a + init;
      assert ab[|ab| - 1] == b[|b| - 1];
      MfdsOfAppend(a, init);
    }
  }

  datatype ClusterSource = ClusterSource(rate: real, faults: FaultSourceSet)
  {
    function Name(): string
    {
      faults.name
    }

    /** size(): the number of fault sources, not ruptures. */
    function Size(): nat
    {
      faults.Size()
    }

    function Id(): int
    {
      faults.id
    }

    function Weight(): real
    {
      faults.weight
    }

    function Type(): SourceType
    {
      Cluster
    }

    /** location(site): the closest of the faults' own closest points. */
    function Location(env: Env, site: Location): (l: Location)
      ensures l == env.closestPoint(site, seq(|faults.faults|, i requires 0 <= i < |faults.faults| =>
                                                 faults.faults[i].Location(env, site)))
    {
      env.closestPoint(site, seq(|faults.faults|, i requires 0 <= i < |faults.faults| =>
                                   faults.faults[i].Location(env, site)))
    }

    /** iterator(): cluster sources are not iterated rupture by rupture. */
    function Iterator(): (r: Result<seq<Rupture>>)
      ensures r.Failure? && r.error.Unsupported?
    {
      Failure(Unsupported(""))
    }

    /**
      mfds(): a new sequence per distribution of every fault, each scaled by
      the cluster rate, in fault order.
     */
    method Mfds() returns (r: seq<XySequence>)
      requires forall f :: 0 <= f < |faults.faults| ==>
        forall j :: 0 <= j < |faults.faults[f].mfds| ==> WellFormed(faults.faults[f].mfds[j])
      ensures ScaledCopies(r, MfdsOf(faults.faults), rate)
      ensures forall k :: 0 <= k < |r| ==> fresh(r[k].ys)
      ensures forall k, l :: 0 <= k < l < |r| ==> r[k].ys != r[l].ys
    {
      var fs := faults.faults;
      r := [];
      for i := 0 to |fs|
        invariant ScaledCopies(r, MfdsOf(fs[..i]), rate)
        invariant forall k :: 0 <= k < |r| ==> fresh(r[k].ys)
        invariant forall k, l :: 0 <= k < l < |r| ==> r[k].ys != r[l].ys
      {
        assert fs[..i + 1][..i] == fs[..i];
        var ms := fs[i].MfdSequences();
        ScaleAll(ms, rate);
        assert ScaledCopies(ms, fs[i].mfds, rate);
        ScaledCopiesAppend(r, MfdsOf(fs[..i]), ms, fs[i].mfds, rate);
        r := r + ms;
      }
      assert fs[..|fs|] == fs;
    }
  }

  /**
    The sequences in `r` are mutable copies of the distributions in `spec`,
    one for one, with every rate scaled by `rate`.
   */
  ghost predicate ScaledCopies(r: seq<XySequence>, spec: seq<IncrementalMfd>, rate: real)
    reads set k | 0 <= k < |r| :: r[k].ys
  {
    |r| == |spec| &&
    forall k :: 0 <= k < |r| ==>
      r[k].mutable && r[k].Valid() && r[k].xs == spec[k].mags && r[k].Ys() == Scaled(spec[k].rates, rate)
  }

  lemma ScaledCopiesAppend(r: seq<XySequence>, spec: seq<IncrementalMfd>, s: seq<XySequence>, t: seq<IncrementalMfd>,
                           rate: real)
    requires ScaledCopies(r, spec, rate) && ScaledCopies(s, t, rate)
    ensures ScaledCopies(r + s, spec + t, rate)
  {
    assert forall k :: |r| <= k < |r + s| ==> (r + s)[k] == s[k - |r|] && (spec + t)[k] == t[k - |r|];
  }

  /** multiply(rate) on each of a list of distinct mutable sequences. */
  method ScaleAll(ms: seq<XySequence>, rate: real)
    requires forall l :: 0 <= l < |ms| ==> ms[l].mutable && ms[l].Valid()
    requires forall k, l :: 0 <= k < l < |ms| ==> ms[k].ys != ms[l].ys
    modifies set l | 0 <= l < |ms| :: ms[l].ys
    ensures forall l :: 0 <= l < |ms| ==> ms[l].Valid() && ms[l].Ys() == Scaled(old(ms[l].Ys()), rate)
  {
    for j := 0 to |ms|
      invariant forall l :: 0 <= l < j ==> ms[l].Valid() && ms[l].Ys() == Scaled(old(ms[l].Ys()), rate)
      invariant forall l :: j <= l < |ms| ==> ms[l].Ys() == old(ms[l].Ys())
    {
      var o := ms[j].MultiplyBy(rate);
    }
  }

  const ClusterBuilderId: string := "ClusterSource.Builder"

  /** The checks of validateState, in the code's order. */
  function ClusterStateCheck(built: bool, rate: Option<real>, faults: Option<FaultSourceSet>): (o: Outcome)
    ensures o.Pass? <==> !built && rate.Some? && faults.Some?
    ensures o.Fail? ==> o.error.IllegalState?
  {
    if built then Fail(IllegalState("This " + ClusterBuilderId + " instance as already been used"))
    else if rate.None? then Fail(IllegalState(ClusterBuilderId + " rate not set"))
    else if faults.None? then Fail(IllegalState(ClusterBuilderId + " has no fault sources"))
    else Pass
  }

  /** ClusterSource.Builder: single use. */
  class ClusterBuilder {
    var built: bool
    var rate: Option<real>
    var faults: Option<FaultSourceSet>

    constructor()
      ensures !built && rate.None? && faults.None?
    {
      built := false;
      rate := None;
      faults := None;
    }

    /** rate(r): any value is accepted. */
    method SetRate(rate: real)
      modifies this`rate
      ensures this.rate == Some(rate)
    {
      this.rate := Some(rate);
    }

    /** faults(set): a null or empty set is refused. */
    method SetFaults(faults: Option<FaultSourceSet>) returns (o: Outcome)
      modifies this`faults
      ensures faults.None? ==> o == Fail(NullPointer("Fault source set is null")) && this.faults == old(this.faults)
      ensures faults.Some? && faults.value.Size() == 0 ==>
        o == Fail(IllegalState("Fault source set is empty")) && this.faults == old(this.faults)
      ensures faults.Some? && faults.value.Size() > 0 ==> o == Pass && this.faults == faults
    {
      if faults.None? {
        return Fail(NullPointer("Fault source set is null"));
      }
      if faults.value.Size() == 0 {
        return Fail(IllegalState("Fault source set is empty"));
      }
      this.faults := faults;
      return Pass;
    }

    /** buildClusterSource(): validate once, then wrap the rate and the fault set. */
    method Build() returns (r: Result<ClusterSource>)
      modifies this`built
      ensures var checked := ClusterStateCheck(old(built), rate, faults);
        (checked.Fail? ==> r == Failure(checked.error) && built == old(built)) &&
        (checked.Pass? ==> built && r == Success(ClusterSource(rate.value, faults.value)))
    {
      var checked := ClusterStateCheck(built, rate, faults);
      if checked.Fail? {
        return Failure(checked.error);
      }
      built := true;
      return Success(ClusterSource(rate.value, faults.value));
    }
  }
}

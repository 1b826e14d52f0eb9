/**
  PointSource.DepthModel: the magnitude-cutoff -> (depth -> weight) map of a
  grid or area source, flattened once into three parallel lists (magnitude
  index, depth, depth weight) so that point-source iteration never has to walk
  the map.
 */
module DepthModel {
  import opened Common

  /** One (depth, weight) pair of a cutoff bucket, in the bucket's iteration order. */
  datatype DepthWeight = DepthWeight(depth: real, weight: real)

  /** One entry of the NavigableMap magDepthMap: a magnitude cutoff and its depth-weight pairs. */
  datatype Bucket = Bucket(cutoff: real, entries: seq<DepthWeight>)

  /** A NavigableMap iterates its keys in strictly increasing order. */
  ghost predicate SortedCutoffs(m: seq<Bucket>)
  {
    forall i, j :: 0 <= i < j < |m| ==> m[i].cutoff < m[j].cutoff
  }

  /**
    NavigableMap.higherEntry(mag): the entry with the least cutoff strictly
    greater than mag (cutoffs are exclusive upper bounds, m < cutoff), or none.
   */
  function HigherEntry(m: seq<Bucket>, mag: real): (r: Option<nat>)
    requires SortedCutoffs(m)
    ensures r.Some? ==> r.value < |m| && m[r.value].cutoff > mag
    ensures r.Some? ==> forall j :: 0 <= j < |m| && m[j].cutoff > mag ==> m[r.value].cutoff <= m[j].cutoff
    ensures r.None? <==> forall j :: 0 <= j < |m| ==> m[j].cutoff <= mag
  {
    HigherFrom(m, mag, 0)
  }

  function HigherFrom(m: seq<Bucket>, mag: real, k: nat): (r: Option<nat>)
    requires SortedCutoffs(m) && k <= |m|
    requires forall j :: 0 <= j < k ==> m[j].cutoff <= mag
    ensures r.Some? ==> k <= r.value < |m| && m[r.value].cutoff > mag
    ensures r.Some? ==> forall j :: 0 <= j < r.value ==> m[j].cutoff <= mag
    ensures r.None? <==> forall j :: 0 <= j < |m| ==> m[j].cutoff <= mag
    decreases |m| - k
  {
    if k == |m| then None
    else if m[k].cutoff > mag then Some(k)
    else HigherFrom(m, mag, k + 1)
  }

  /** One flattened row: the master magnitude index with one depth and its weight. */
  datatype MagDepth = MagDepth(magIndex: nat, depth: real, weight: real)

  /** The rows contributed by master magnitude i: its bucket's pairs, in order, tagged i. */
  function BucketRun(i: nat, b: Bucket): (run: seq<MagDepth>)
    ensures |run| == |b.entries|
    ensures forall k :: 0 <= k < |run| ==> run[k] == MagDepth(i, b.entries[k].depth, b.entries[k].weight)
  {
    seq(|b.entries|, k requires 0 <= k < |b.entries| => MagDepth(i, b.entries[k].depth, b.entries[k].weight))
  }

  /**
    Reference definition of the flattening of the first n master magnitudes:
    the runs of magnitudes 0..n-1 concatenated; a magnitude with no cutoff
    above it makes `higherEntry` return null, and the constructor fails.
   */
  ghost function Flattened(m: seq<Bucket>, mags: seq<real>, n: nat): Result<seq<MagDepth>>
    requires SortedCutoffs(m) && n <= |mags|
  {
    if n == 0 then Success([])
    else match Flattened(m, mags, n - 1)
      case Failure(e) => Failure(e)
      case Success(prefix) =>
        match HigherEntry(m, mags[n - 1])
        case None => Failure(NullPointer(""))
        case Some(k) => Success(prefix + BucketRun(n - 1, m[k]))
  }

  /** Number of depth pairs that apply to magnitude mag (zero when no bucket applies). */
  function BucketSize(m: seq<Bucket>, mag: real): nat
    requires SortedCutoffs(m)
  {
    match HigherEntry(m, mag)
    case None => 0
    case Some(k) => |m[k].entries|
  }

  /** Sum over the first n master magnitudes of the applicable bucket's entry count. */
  function EntryCount(m: seq<Bucket>, mags: seq<real>, n: nat): nat
    requires SortedCutoffs(m) && n <= |mags|
  {
    if n == 0 then 0 else EntryCount(m, mags, n - 1) + BucketSize(m, mags[n - 1])
  }

  /** The three parallel lists hold, row by row, the fields of the flattened rows. */
  ghost predicate Parallel(flat: seq<MagDepth>, indices: seq<nat>, depths: seq<real>, weights: seq<real>)
  {
    |indices| == |flat| && |depths| == |flat| && |weights| == |flat| &&
    forall j :: 0 <= j < |flat| ==>
      indices[j] == flat[j].magIndex && depths[j] == flat[j].depth && weights[j] == flat[j].weight
  }

  datatype Columns = Columns(indices: seq<nat>, depths: seq<real>, weights: seq<real>)

  lemma {:induction false} FailurePersists(m: seq<Bucket>, mags: seq<real>, i: nat, n: nat)
    requires SortedCutoffs(m) && i <= n <= |mags|
    requires Flattened(m, mags, i).Failure?
    ensures Flattened(m, mags, n).Failure?
    decreases n - i
  {
    if i < n {
      FailurePersists(m, mags, i + 1, n) by { assert Flattened(m, mags, i + 1).Failure?; }
    }
  }

  /**
    The loop of the DepthModel constructor (PointSource.java:384-400): the
    three lists it builds are exactly the columns of the reference flattening,
    and it fails exactly when the reference flattening fails.
   */
  method FlattenDepths(m: seq<Bucket>, mags: seq<real>) returns (r: Result<Columns>)
    requires SortedCutoffs(m)
    ensures r.Failure? <==> Flattened(m, mags, |mags|).Failure?
    ensures r.Failure? ==> r.error == NullPointer("")
    ensures r.Success? ==> Parallel(Flattened(m, mags, |mags|).value, r.value.indices, r.value.depths, r.value.weights)
  {
    var indices: seq<nat> := [];
    var depths: seq<real> := [];
    var weights: seq<real> := [];
    ghost var flat: seq<MagDepth> := [];
    for i := 0 to |mags|
      invariant Flattened(m, mags, i) == Success(flat)
      invariant Parallel(flat, indices, depths, weights)
    {
      var entry := HigherEntry(m, mags[i]);
      if entry.None? {
        assert Flattened(m, mags, i + 1).Failure?;
        FailurePersists(m, mags, i + 1, |mags|);
        return Failure(NullPointer(""));
      }
      var entries := m[entry.value].entries;
      ghost var run := BucketRun(i, m[entry.value]);
      for k := 0 to |entries|
        invariant Parallel(flat + run[..k], indices, depths, weights)
      {
        indices := indices + [i];
        depths := depths + [entries[k].depth];
        weights := weights + [entries[k].weight];
        assert run[..k + 1] == run[..k] + [run[k]];
      }
      assert run[..|entries|] == run;
      flat := flat + run;
    }
    return Success(Columns(indices, depths, weights));
  }

  /** The flattening succeeds exactly when every master magnitude has a cutoff strictly above it. */
  lemma {:induction false} FlattenedSucceedsIff(m: seq<Bucket>, mags: seq<real>, n: nat)
    requires SortedCutoffs(m) && n <= |mags|
    ensures Flattened(m, mags, n).Success? <==> forall i :: 0 <= i < n ==> HigherEntry(m, mags[i]).Some?
  {
    if n > 0 {
      FlattenedSucceedsIff(m, mags, n - 1);
    }
  }

  /** The flattened length is the sum over master magnitudes of the applicable bucket's entry count. */
  lemma {:induction false} FlattenedLength(m: seq<Bucket>, mags: seq<real>, n: nat)
    requires SortedCutoffs(m) && n <= |mags|
    requires Flattened(m, mags, n).Success?
    ensures |Flattened(m, mags, n).value| == EntryCount(m, mags, n)
  {
    if n > 0 {
      FlattenedLength(m, mags, n - 1);
    }
  }

  /**
    The run of master magnitude i sits contiguously at offset
    EntryCount(.., i): its bucket's pairs, in bucket order, all tagged i.
   */
  lemma {:induction false} FlattenedRunAt(m: seq<Bucket>, mags: seq<real>, n: nat, i: nat)
    requires SortedCutoffs(m) && i < n <= |mags|
    requires Flattened(m, mags, n).Success?
    ensures HigherEntry(m, mags[i]).Some?
    ensures EntryCount(m, mags, i + 1) <= |Flattened(m, mags, n).value|
    ensures Flattened(m, mags, n).value[EntryCount(m, mags, i)..EntryCount(m, mags, i + 1)]
         == BucketRun(i, m[HigherEntry(m, mags[i]).value])
  {
    FlattenedLength(m, mags, n);
    if i == n - 1 {
      FlattenedLength(m, mags, n - 1);
    } else {
      FlattenedRunAt(m, mags, n - 1, i);
      FlattenedLength(m, mags, n - 1);
      var prefix := Flattened(m, mags, n - 1).value;
      var whole := Flattened(m, mags, n).value;
      assert whole[..|prefix|] == prefix;
      assert whole[EntryCount(m, mags, i)..EntryCount(m, mags, i + 1)]
          == prefix[EntryCount(m, mags, i)..EntryCount(m, mags, i + 1)];
    }
  }

  /** Every row's magnitude index is a master magnitude, and the index column never decreases. */
  lemma {:induction false} FlattenedOrdered(m: seq<Bucket>, mags: seq<real>, n: nat)
    requires SortedCutoffs(m) && n <= |mags|
    requires Flattened(m, mags, n).Success?
    ensures forall j :: 0 <= j < |Flattened(m, mags, n).value| ==> Flattened(m, mags, n).value[j].magIndex < n
    ensures forall a, b :: 0 <= a <= b < |Flattened(m, mags, n).value| ==>
      Flattened(m, mags, n).value[a].magIndex <= Flattened(m, mags, n).value[b].magIndex
  {
    if n > 0 {
      FlattenedOrdered(m, mags, n - 1);
      var prefix := Flattened(m, mags, n - 1).value;
      var whole := Flattened(m, mags, n).value;
      assert forall j :: |prefix| <= j < |whole| ==> whole[j].magIndex == n - 1;
      assert forall j :: 0 <= j < |prefix| ==> whole[j] == prefix[j];
    }
  }

  /**
    The depth model built once per source set (PointSource.java:341-402).
    Its fields are final; the constructor is reached only through Create.
   */
  class DepthModel {
    const maxDepth: real
    const magMaster: seq<real>
    const magDepthIndices: seq<nat>
    const magDepthDepths: seq<real>
    const magDepthWeights: seq<real>

    /** The invariant that the point-source index arithmetic relies on. */
    ghost predicate Valid()
    {
      |magDepthIndices| == |magDepthDepths| == |magDepthWeights| &&
      (forall j :: 0 <= j < |magDepthIndices| ==> magDepthIndices[j] < |magMaster|) &&
      (forall a, b :: 0 <= a <= b < |magDepthIndices| ==> magDepthIndices[a] <= magDepthIndices[b])
    }

    constructor Of(c: Columns, magMaster: seq<real>, maxDepth: real)
      ensures this.magMaster == magMaster && this.maxDepth == maxDepth
      ensures magDepthIndices == c.indices && magDepthDepths == c.depths && magDepthWeights == c.weights
    {
      this.magMaster := magMaster;
      this.maxDepth := maxDepth;
      magDepthIndices := c.indices;
      magDepthDepths := c.depths;
      magDepthWeights := c.weights;
    }

    /**
      DepthModel.create: flattens magDepthMap over magMaster.  Fails (the
      NullPointerException of a null higherEntry) exactly when some master
      magnitude has no cutoff strictly above it.
     */
    static method Create(magDepthMap: seq<Bucket>, magMaster: seq<real>, maxDepth: real)
      returns (r: Result<DepthModel>)
      requires SortedCutoffs(magDepthMap)
      ensures r.Failure? <==> exists i :: 0 <= i < |magMaster| && HigherEntry(magDepthMap, magMaster[i]).None?
      ensures r.Success? ==> fresh(r.value) && r.value.Valid()
      ensures r.Success? ==> r.value.magMaster == magMaster && r.value.maxDepth == maxDepth
      ensures r.Success? ==> Flattened(magDepthMap, magMaster, |magMaster|).Success?
      ensures r.Success? ==> Parallel(Flattened(magDepthMap, magMaster, |magMaster|).value,
        r.value.magDepthIndices, r.value.magDepthDepths, r.value.magDepthWeights)
      ensures r.Success? ==> |r.value.magDepthIndices| == EntryCount(magDepthMap, magMaster, |magMaster|)
    {
      FlattenedSucceedsIff(magDepthMap, magMaster, |magMaster|);
      var cols := FlattenDepths(magDepthMap, magMaster);
      if cols.Failure? {
        return Failure(cols.error);
      }
      FlattenedLength(magDepthMap, magMaster, |magMaster|);
      FlattenedOrdered(magDepthMap, magMaster, |magMaster|);
      var dm := new DepthModel.Of(cols.value, magMaster, maxDepth);
      return Success(dm);
    }
  }

  function ExampleMags(): seq<real>
  {
    [5.0, 5.5, 6.0, 6.5, 7.0]
  }

  function ExampleRows(): seq<MagDepth>
  {
    [MagDepth(0, 1.0, 0.4), MagDepth(0, 3.0, 0.5), MagDepth(0, 5.0, 0.1),
     MagDepth(1, 1.0, 0.4), MagDepth(1, 3.0, 0.5), MagDepth(1, 5.0, 0.1),
     MagDepth(2, 1.0, 0.4), MagDepth(2, 3.0, 0.5), MagDepth(2, 5.0, 0.1),
     MagDepth(3, 1.0, 0.1), MagDepth(3, 5.0, 0.9),
     MagDepth(4, 1.0, 0.1), MagDepth(4, 5.0, 0.9)]
  }

  lemma ExampleByRuns()
    ensures SortedCutoffs(ExampleMap())
    ensures Flattened(ExampleMap(), ExampleMags(), 5) == Success(
      BucketRun(0, ExampleMap()[0]) + BucketRun(1, ExampleMap()[0]) + BucketRun(2, ExampleMap()[0])
      + BucketRun(3, ExampleMap()[1]) + BucketRun(4, ExampleMap()[1]))
  {
    var m := ExampleMap();
    var mags := ExampleMags();
    assert HigherEntry(m, mags[0]) == Some(0);
    assert HigherEntry(m, mags[1]) == Some(0);
    assert HigherEntry(m, mags[2]) == Some(0);
    assert HigherEntry(m, mags[3]) == Some(1);
    assert HigherEntry(m, mags[4]) == Some(1);
    assert Flattened(m, mags, 0) == Success([]);
    assert [] + BucketRun(0, m[0]) == BucketRun(0, m[0]);
  }

  lemma ExampleRunsAreRows()
    ensures BucketRun(0, ExampleMap()[0]) + BucketRun(1, ExampleMap()[0]) + BucketRun(2, ExampleMap()[0])
      + BucketRun(3, ExampleMap()[1]) + BucketRun(4, ExampleMap()[1]) == ExampleRows()
  {
    var m := ExampleMap();
    var all := BucketRun(0, m[0]) + BucketRun(1, m[0]) + BucketRun(2, m[0]) + BucketRun(3, m[1]) + BucketRun(4, m[1]);
    assert |all| == 13;
    assert forall k :: 0 <= k < 13 ==> all[k] == ExampleRows()[k];
  }

  /**
    The worked example of PointSource.java:310-333: cutoffs 6.5 and 10.0 and
    the master magnitudes 5.0 .. 7.0 give 13 rows with the listed indices,
    depths and weights.
   */
  lemma WorkedExample()
    ensures SortedCutoffs(ExampleMap())
    ensures Flattened(ExampleMap(), ExampleMags(), 5) == Success(ExampleRows())
  {
    ExampleByRuns();
    ExampleRunsAreRows();
  }

  function ExampleMap(): seq<Bucket>
  {
    [Bucket(6.5, [DepthWeight(1.0, 0.4), DepthWeight(3.0, 0.5), DepthWeight(5.0, 0.1)]),
     Bucket(10.0, [DepthWeight(1.0, 0.1), DepthWeight(5.0, 0.9)])]
  }
}

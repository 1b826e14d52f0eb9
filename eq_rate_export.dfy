/**
  EqRateExport: a buffered exporter of earthquake rates.  Results are added
  to a buffer that is written out whenever it reaches the flush limit and
  once more when the exporter expires; the first batch writes the file with
  a header, later batches append to it.

  The exporter writes the total-rate file as a list of lines.  Formatting
  (Parsing.join, the %.8g/%.2f and %.5f formats) is a parameter; the Files
  API is modelled by `Written`.
 */
module EqRateExports {
  import opened Common

  /** An EqRate: a site and its rate distributions; only the formatter looks inside. */
  datatype EqRate = EqRate(siteName: string, location: Location, totalMfd: seq<real>)

  /** The header of a first batch (built from its first result) and the line of one result. */
  datatype Format = Format(header: EqRate -> string, line: EqRate -> string)

  /** HazardExport.WRITE replaces the file's lines; HazardExport.APPEND adds to them. */
  datatype OpenMode = Write | Append

  /** Files.write(path, lines, options), on the file's lines. */
  function Written(file: seq<string>, lines: seq<string>, mode: OpenMode): (r: seq<string>)
    ensures mode == Write ==> r == lines
    ensures mode == Append ==> r == file + lines
  {
    if mode == Write then lines else file + lines
  }

  function ModeFor(firstBatch: bool): OpenMode
  {
    if firstBatch then Write else Append
  }

  /** One line per result, in order. */
  function Lines(fmt: Format, rates: seq<EqRate>): (ls: seq<string>)
    ensures |ls| == |rates| && forall i :: 0 <= i < |rates| ==> ls[i] == fmt.line(rates[i])
  {
    seq(|rates|, i requires 0 <= i < |rates| => fmt.line(rates[i]))
  }

  lemma LinesAppend(fmt: Format, a: seq<EqRate>, b: seq<EqRate>)
    ensures Lines(fmt, a + b) == Lines(fmt, a) + Lines(fmt, b)
  {
  }

  /** The lines one batch contributes: the header first if it is the first batch, then a line per result. */
  function BatchLines(fmt: Format, batch: seq<EqRate>, firstBatch: bool): seq<string>
    requires |batch| > 0
  {
    (if firstBatch then [fmt.header(batch[0])] else []) + Lines(fmt, batch)
  }

  // ---------------------------------------------------------------- writeRates as written

  /**
    writeRates as the code is written: the growing list of lines is written
    inside the loop over the batch, once per result.  The state after the
    first k results: the list so far and the file.
   */
  function WriteRatesAsWritten(file: seq<string>, fmt: Format, batch: seq<EqRate>, firstBatch: bool, k: nat)
    : (r: (seq<string>, seq<string>))
    requires 0 < |batch| && k <= |batch|
    ensures r.0 == (if firstBatch then [fmt.header(batch[0])] else []) + Lines(fmt, batch[..k])
  {
    if k == 0 then ((if firstBatch then [fmt.header(batch[0])] else []), file)
    else
      var prev := WriteRatesAsWritten(file, fmt, batch, firstBatch, k - 1);
      assert batch[..k] == batch[..k - 1] + [batch[k - 1]];
      var totalLines := prev.0 + [fmt.line(batch[k - 1])];
      (totalLines, Written(prev.1, totalLines, ModeFor(firstBatch)))
  }

  /** For a first batch the repeated writes do no harm: the last one replaces the file with every line. */
  lemma {:induction false} AsWrittenFirstBatch(file: seq<string>, fmt: Format, batch: seq<EqRate>)
    requires |batch| > 0
    ensures WriteRatesAsWritten(file, fmt, batch, true, |batch|).1 == BatchLines(fmt, batch, true)
  {
    assert batch[..|batch|] == batch;
  }

  /**
    For a later batch every write appends the whole list so far: a batch of
    two results appends the first result's line twice.
   */
  lemma AsWrittenDuplicates(file: seq<string>, fmt: Format, r1: EqRate, r2: EqRate)
    ensures WriteRatesAsWritten(file, fmt, [r1, r2], false, 2).1 ==
            file + [fmt.line(r1)] + [fmt.line(r1), fmt.line(r2)]
    ensures Written(file, BatchLines(fmt, [r1, r2], false), Append) == file + [fmt.line(r1), fmt.line(r2)]
  {
    var batch := [r1, r2];
    assert batch[..1] == [r1];
    assert batch[..2] == batch;
    var one := WriteRatesAsWritten(file, fmt, batch, false, 1);
    assert one.1 == file + [fmt.line(r1)] by {
      var zero := WriteRatesAsWritten(file, fmt, batch, false, 0);
      assert zero == ([], file);
    }
  }

  // ---------------------------------------------------------------- the exporter

  class EqRateExport {
    const flushLimit: int
    const fmt: Format
    var batchCount: int
    var resultCount: int
    var firstBatch: bool
    var used: bool
    var rates: seq<EqRate>
    /** The lines of the total-rate file. */
    var totalFile: seq<string>
    /** Every result written so far, in order. */
    ghost var flushed: seq<EqRate>

    /**
      The exporter's invariant: the file holds the header of the first batch
      and one line per written result, in order; every result added is
      either written or buffered; while the exporter is live, the buffer is
      below the flush limit and every batch written was a full one.
     */
    ghost predicate Valid()
      reads this
    {
      FileValid() &&
      resultCount == |flushed| + |rates| &&
      (used ==> rates == []) &&
      (!used && flushLimit > 0 ==> |rates| < flushLimit) &&
      (!used ==> |flushed| == batchCount * flushLimit) &&
      (flushLimit <= 0 ==> batchCount == 0)
    }

    /** The file part of the invariant: a header and one line per written result, in order. */
    ghost predicate FileValid()
      reads this
    {
      (firstBatch <==> flushed == []) &&
      (flushed != [] ==> totalFile == [fmt.header(flushed[0])] + Lines(fmt, flushed))
    }

    /** create(config, sites, log), given the flush limit, the formatter and the file as it is beforehand. */
    constructor(flushLimit: int, fmt: Format, existing: seq<string>)
      ensures Valid()
      ensures this.flushLimit == flushLimit && this.fmt == fmt
      ensures batchCount == 0 && resultCount == 0 && firstBatch && !used && rates == [] && totalFile == existing
    {
      this.flushLimit := flushLimit;
      this.fmt := fmt;
      batchCount := 0;
      resultCount := 0;
      firstBatch := true;
      used := false;
      rates := [];
      totalFile := existing;
      flushed := [];
    }

    /** size(): the results buffered. */
    function Size(): (n: nat)
      reads this
      ensures Valid() ==> n + |flushed| == resultCount
    {
      |rates|
    }

    /** resultsProcessed(): every result added. */
    function ResultsProcessed(): (n: int)
      reads this
      ensures Valid() ==> n == |flushed| + Size()
    {
      resultCount
    }

    /**
      writeRates, written once per batch: the header if this is the first
      batch, then one line per result, written or appended in one go.
     */
    method WriteRates()
      requires |rates| > 0
      modifies this`totalFile
      ensures totalFile == Written(old(totalFile), BatchLines(fmt, rates, firstBatch), ModeFor(firstBatch))
    {
      var demo := rates[0];
      var totalLines: seq<string> := if firstBatch then [fmt.header(demo)] else [];
      for i := 0 to |rates|
        invariant totalLines == (if firstBatch then [fmt.header(demo)] else []) + Lines(fmt, rates[..i])
      {
        assert rates[..i + 1] == rates[..i] + [rates[i]];
        totalLines := totalLines + [fmt.line(rates[i])];
      }
      assert rates[..|rates|] == rates;
      totalFile := Written(totalFile, totalLines, ModeFor(firstBatch));
    }

    /** flush(): an empty buffer is left alone; otherwise write it, clear it, and leave the first batch behind. */
    method Flush()
      requires FileValid()
      modifies this`totalFile, this`rates, this`firstBatch, this`flushed
      ensures FileValid()
      ensures rates == [] && flushed == old(flushed) + old(rates)
      ensures old(rates) == [] ==> totalFile == old(totalFile) && firstBatch == old(firstBatch)
      ensures old(rates) != [] ==>
        !firstBatch &&
        totalFile == Written(old(totalFile), BatchLines(fmt, old(rates), old(firstBatch)), ModeFor(old(firstBatch)))
    {
      if rates != [] {
        FlushedFile(fmt, flushed, rates, totalFile, firstBatch);
        WriteRates();
        flushed := flushed + rates;
        rates := [];
        firstBatch := false;
      } else {
        assert flushed + rates == flushed;
      }
    }

    /** add(rate): refused once expired; a buffer that reaches the flush limit is flushed and counted as a batch. */
    method Add(rate: EqRate) returns (o: Outcome)
      requires Valid()
      modifies this
      ensures Valid()
      ensures old(used) ==> o == Fail(IllegalState("This result handler is expired")) && unchanged(this)
      ensures !old(used) ==> o == Pass && resultCount == old(resultCount) + 1 && !used
      ensures !old(used) && |old(rates)| + 1 != flushLimit ==>
        rates == old(rates) + [rate] && flushed == old(flushed) && batchCount == old(batchCount) &&
        totalFile == old(totalFile)
      ensures !old(used) && |old(rates)| + 1 == flushLimit ==>
        rates == [] && flushed == old(flushed) + old(rates) + [rate] && batchCount == old(batchCount) + 1
    {
      if used {
        return Fail(IllegalState("This result handler is expired"));
      }
      resultCount := resultCount + 1;
      rates := rates + [rate];
      if |rates| == flushLimit {
        ghost var before := flushed;
        Flush();
        batchCount := batchCount + 1;
        assert |flushed| == |before| + flushLimit;
      }
      return Pass;
    }

    /**
      addAll(rates): add each in turn, stopping at the first refusal; an empty
      collection never reaches add, so it passes even once expired.
     */
    method AddAll(rs: seq<EqRate>) returns (o: Outcome)
      requires Valid()
      modifies this
      ensures Valid()
      ensures old(used) ==> (o.Fail? <==> rs != []) && unchanged(this)
      ensures old(used) && rs != [] ==> o == Fail(IllegalState("This result handler is expired"))
      ensures !old(used) ==>
        o == Pass && resultCount == old(resultCount) + |rs| && !used &&
        flushed + rates == old(flushed) + old(rates) + rs
    {
      for i := 0 to |rs|
        invariant Valid() && used == old(used)
        invariant old(used) ==> i == 0 && unchanged(this)
        invariant !old(used) ==> resultCount == old(resultCount) + i
        invariant !old(used) ==> flushed + rates == old(flushed) + old(rates) + rs[..i]
      {
        ghost var before := flushed + rates;
        var r := Add(rs[i]);
        if r.Fail? {
          return r;
        }
        assert flushed + rates == before + [rs[i]];
        assert rs[..i + 1] == rs[..i] + [rs[i]];
      }
      assert rs[..|rs|] == rs;
      return Pass;
    }

    /** expire(): flush what remains, then refuse further results. */
    method Expire()
      requires Valid()
      modifies this
      ensures Valid()
      ensures used && rates == [] && flushed == old(flushed) + old(rates)
      ensures resultCount == old(resultCount) && batchCount == old(batchCount)
    {
      Flush();
      used := true;
    }
  }

  /** Writing a batch after the written results keeps the file a header plus one line per result. */
  lemma FlushedFile(fmt: Format, flushed: seq<EqRate>, batch: seq<EqRate>, file: seq<string>, firstBatch: bool)
    requires |batch| > 0
    requires firstBatch <==> flushed == []
    requires flushed != [] ==> file == [fmt.header(flushed[0])] + Lines(fmt, flushed)
    ensures var all := flushed + batch;
      Written(file, BatchLines(fmt, batch, firstBatch), ModeFor(firstBatch)) == [fmt.header(all[0])] + Lines(fmt, all)
  {
    LinesAppend(fmt, flushed, batch);
    if flushed != [] {
      assert (flushed + batch)[0] == flushed[0];
    } else {
      assert flushed + batch == batch;
    }
  }

  /**
    After expiry the file holds the header of the first result and one line
    per result, in the order they were added, with nothing repeated.
   */
  lemma ExpiredFile(e: EqRateExport)
    requires e.Valid() && e.used && e.flushed != []
    ensures e.totalFile == [e.fmt.header(e.flushed[0])] + Lines(e.fmt, e.flushed)
    ensures |e.totalFile| == e.resultCount + 1
  {
  }
}

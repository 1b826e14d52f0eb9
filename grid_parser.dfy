/**
  GridParser: the parts of the grid-source parser that are not SAX event
  plumbing.  The parser is single use; it reads node rates from a CSV file
  whose header names the columns, builds one collapsed MFD per node, and
  tracks the smallest first magnitude and the largest last magnitude over
  all node MFDs.

  Splitting text, parsing numbers and building the MFDs of one node (through
  MfdHelper and Mfds) are parameters: they are not part of this model.
 */
module GridParsers {
  import opened Common
  import XySequences

  /** A CSV column turned into an attribute: (key, value). */
  type Attribute = (string, string)

  const LonKey: string := "lon"
  const LatKey: string := "lat"

  type NonEmpty = s: seq<real> | |s| > 0 witness [0.0]

  /** A node MFD as an XySequence (never empty), with the magnitude spacing its builder recorded. */
  datatype NodeMfd = NodeMfd(xs: NonEmpty, ys: seq<real>, deltaMag: Num)
  {
    function First(): real
    {
      xs[0]
    }

    function Last(): real
    {
      xs[|xs| - 1]
    }
  }

  /** sourceSetBuilder.location(loc, mfd). */
  datatype GridNode = GridNode(loc: Location, mfd: NodeMfd)

  /** The parser fields the CSV route changes, and the nodes handed to the source-set builder. */
  datatype GridState = GridState(minMag: real, maxMag: real, deltaMag: Num, nodes: seq<GridNode>)

  /** Text and MFD services the parser calls; none is part of this model. */
  datatype CsvEnv = CsvEnv(
    split: string -> seq<string>,                   // Parsing.splitToList(_, COMMA)
    parseDouble: string -> Result<real>,            // Double.parseDouble
    processNode: seq<Attribute> -> Result<NodeMfd>) // processNode (MfdHelper, Mfds)

  // ---------------------------------------------------------------- header keys

  /** The first key that is not allowed. */
  function InvalidKey(keys: seq<string>, allowed: set<string>): (r: Option<string>)
    ensures r.None? <==> forall i :: 0 <= i < |keys| ==> keys[i] in allowed
    ensures r.Some? ==> r.value in keys && r.value !in allowed
  {
    if keys == [] then None
    else if keys[0] !in allowed then Some(keys[0])
    else InvalidKey(keys[1..], allowed)
  }

  /**
    validateKeys: every header key must be a node attribute name, lon or lat,
    and lon and lat must both be present.  `attributeKeys` is the range of
    source attributes TYPE .. C_MAG.
   */
  function ValidateKeys(keys: seq<string>, attributeKeys: set<string>, fileName: string): (o: Outcome)
    ensures o.Pass? <==>
      (forall i :: 0 <= i < |keys| ==> keys[i] in attributeKeys || keys[i] == LonKey || keys[i] == LatKey) &&
      LonKey in keys && LatKey in keys
    ensures o.Fail? ==> o.error.IllegalState?
  {
    var bad := InvalidKey(keys, attributeKeys + {LonKey, LatKey});
    if bad.Some? then Fail(IllegalState("Grid source file [" + fileName + "] contains invalid header key: " + bad.value))
    else if LonKey !in keys then Fail(IllegalState("Grid source file [" + fileName + "] is missing key: " + LonKey))
    else if LatKey !in keys then Fail(IllegalState("Grid source file [" + fileName + "] is missing key: " + LatKey))
    else Pass
  }

  // ---------------------------------------------------------------- one CSV row

  /** A parsed row: its location and the attributes of every other column. */
  datatype Row = Row(lon: real, lat: real, atts: seq<Attribute>)

  /** The first k columns of a row: lon and lat parsed (a later column wins), the rest kept as attributes. */
  function RowOf(keys: seq<string>, values: seq<string>, parse: string -> Result<real>, k: nat): Result<Row>
    requires k <= |keys| && k <= |values|
  {
    if k == 0 then Success(Row(0.0, 0.0, []))
    else
      var prev := RowOf(keys, values, parse, k - 1);
      if prev.Failure? then prev
      else if keys[k - 1] == LonKey then
        var v := parse(values[k - 1]);
        if v.Failure? then Failure(v.error) else Success(prev.value.(lon := v.value))
      else if keys[k - 1] == LatKey then
        var v := parse(values[k - 1]);
        if v.Failure? then Failure(v.error) else Success(prev.value.(lat := v.value))
      else Success(prev.value.(atts := prev.value.atts + [(keys[k - 1], values[k - 1])]))
  }

  /** The (key, value) pairs of the first k columns other than lon and lat, in column order. */
  function AttsOf(keys: seq<string>, values: seq<string>, k: nat): seq<Attribute>
    requires k <= |keys| && k <= |values|
  {
    if k == 0 then []
    else AttsOf(keys, values, k - 1) +
         (if keys[k - 1] == LonKey || keys[k - 1] == LatKey then [] else [(keys[k - 1], values[k - 1])])
  }

  /** Every column other than lon and lat becomes an attribute, in order. */
  lemma {:induction false} RowAttributes(keys: seq<string>, values: seq<string>, parse: string -> Result<real>, k: nat)
    requires k <= |keys| && k <= |values|
    ensures RowOf(keys, values, parse, k).Success? ==> RowOf(keys, values, parse, k).value.atts == AttsOf(keys, values, k)
  {
    if k > 0 {
      RowAttributes(keys, values, parse, k - 1);
    }
  }

  /** A row fails exactly when one of its lon or lat values does not parse. */
  lemma {:induction false} RowFailure(keys: seq<string>, values: seq<string>, parse: string -> Result<real>, k: nat)
    requires k <= |keys| && k <= |values|
    ensures RowOf(keys, values, parse, k).Failure? <==>
      exists i :: 0 <= i < k && (keys[i] == LonKey || keys[i] == LatKey) && parse(values[i]).Failure?
  {
    if k > 0 {
      RowFailure(keys, values, parse, k - 1);
    }
  }

  lemma {:induction false} RowFailureSticks(keys: seq<string>, values: seq<string>, parse: string -> Result<real>,
                                            k: nat, n: nat)
    requires k <= n <= |keys| && n <= |values|
    requires RowOf(keys, values, parse, k).Failure?
    ensures RowOf(keys, values, parse, n) == RowOf(keys, values, parse, k)
    decreases n - k
  {
    if k < n {
      RowFailureSticks(keys, values, parse, k, n - 1);
    }
  }

  /** The column loop of processRateCsv. */
  method ParseRow(keys: seq<string>, values: seq<string>, parse: string -> Result<real>) returns (r: Result<Row>)
    requires |values| == |keys|
    ensures r == RowOf(keys, values, parse, |keys|)
  {
    var lon := 0.0;
    var lat := 0.0;
    var atts: seq<Attribute> := [];
    var keyIndex := 0;
    while keyIndex < |keys|
      invariant 0 <= keyIndex <= |keys|
      invariant RowOf(keys, values, parse, keyIndex) == Success(Row(lon, lat, atts))
    {
      var key := keys[keyIndex];
      var value := values[keyIndex];
      if key == LonKey {
        var v := parse(value);
        if v.Failure? {
          RowFailureSticks(keys, values, parse, keyIndex + 1, |keys|);
          return Failure(v.error);
        }
        lon := v.value;
      } else if key == LatKey {
        var v := parse(value);
        if v.Failure? {
          RowFailureSticks(keys, values, parse, keyIndex + 1, |keys|);
          return Failure(v.error);
        }
        lat := v.value;
      } else {
        atts := atts + [(key, value)];
      }
      keyIndex := keyIndex + 1;
    }
    return Success(Row(lon, lat, atts));
  }

  // ---------------------------------------------------------------- the line loop

  /** String.trim().isEmpty(): every character is at most a space. */
  predicate Blank(line: string)
  {
    forall i :: 0 <= i < |line| ==> line[i] <= ' '
  }

  /** Comment lines and blank lines are skipped. */
  predicate Skipped(line: string)
  {
    (|line| > 0 && line[0] == '#') || Blank(line)
  }

  function CountMessage(lineIndex: nat, fileName: string): string
  {
    "Incorrect number of values on line " + NatToString(lineIndex) + " in " + fileName
  }

  /** setNodeMfd followed by sourceSetBuilder.location: track the magnitude range and record the node. */
  function AddNode(s: GridState, loc: Location, mfd: NodeMfd): GridState
  {
    GridState(Min(s.minMag, mfd.First()), Max(s.maxMag, mfd.Last()), mfd.deltaMag, s.nodes + [GridNode(loc, mfd)])
  }

  /** One data line: the value count must match the key count; then the row, the node MFD and the node. */
  function LineStep(s: GridState, keys: seq<string>, line: string, lineIndex: nat, fileName: string, csv: CsvEnv)
    : Result<GridState>
  {
    var values := csv.split(line);
    if |values| != |keys| then Failure(IllegalState(CountMessage(lineIndex, fileName)))
    else
      var row := RowOf(keys, values, csv.parseDouble, |keys|);
      if row.Failure? then Failure(row.error)
      else
        var mfd := csv.processNode(row.value.atts);
        if mfd.Failure? then Failure(mfd.error)
        else Success(AddNode(s, SurfaceLocation(row.value.lat, row.value.lon), mfd.value))
  }

  /** The state reached, and the error raised if any. */
  datatype Run = Run(state: GridState, error: Option<Error>)

  /**
    The first n lines after the header; line n is numbered n whether or not
    earlier lines were skipped.  Processing stops at the first error, with
    the nodes added so far still recorded.
   */
  function ProcessLines(s: GridState, keys: seq<string>, body: seq<string>, n: nat, fileName: string, csv: CsvEnv): Run
    requires n <= |body|
  {
    if n == 0 then Run(s, None)
    else
      var prev := ProcessLines(s, keys, body, n - 1, fileName, csv);
      if prev.error.Some? || Skipped(body[n - 1]) then prev
      else
        var next := LineStep(prev.state, keys, body[n - 1], n, fileName, csv);
        if next.Failure? then Run(prev.state, Some(next.error)) else Run(next.value, None)
  }

  lemma {:induction false} ErrorSticks(s: GridState, keys: seq<string>, body: seq<string>, k: nat, n: nat,
                                       fileName: string, csv: CsvEnv)
    requires k <= n <= |body|
    requires ProcessLines(s, keys, body, k, fileName, csv).error.Some?
    ensures ProcessLines(s, keys, body, n, fileName, csv) == ProcessLines(s, keys, body, k, fileName, csv)
    decreases n - k
  {
    if k < n {
      ErrorSticks(s, keys, body, k, n - 1, fileName, csv);
    }
  }

  /** The number of lines that are not skipped. */
  function KeptCount(lines: seq<string>): nat
  {
    if lines == [] then 0
    else KeptCount(lines[..|lines| - 1]) + (if Skipped(lines[|lines| - 1]) then 0 else 1)
  }

  /** Without an error, every data line adds one node, in order, after the existing ones. */
  lemma {:induction false} NodesAdded(s: GridState, keys: seq<string>, body: seq<string>, n: nat,
                                      fileName: string, csv: CsvEnv)
    requires n <= |body|
    ensures var run := ProcessLines(s, keys, body, n, fileName, csv);
      run.error.None? ==>
        |run.state.nodes| == |s.nodes| + KeptCount(body[..n]) && run.state.nodes[..|s.nodes|] == s.nodes
  {
    if n > 0 {
      NodesAdded(s, keys, body, n - 1, fileName, csv);
      assert body[..n][..n - 1] == body[..n - 1];
      var prev := ProcessLines(s, keys, body, n - 1, fileName, csv);
      if prev.error.None? && !Skipped(body[n - 1]) {
        var next := LineStep(prev.state, keys, body[n - 1], n, fileName, csv);
        if next.Success? {
          assert next.value.nodes[..|s.nodes|] == prev.state.nodes[..|s.nodes|];
        }
      }
    }
  }

  /** A line whose value count is wrong reports its own position among all lines after the header. */
  lemma CountMismatchLine(s: GridState, keys: seq<string>, body: seq<string>, n: nat, fileName: string, csv: CsvEnv)
    requires 0 < n <= |body|
    requires ProcessLines(s, keys, body, n - 1, fileName, csv).error.None?
    requires !Skipped(body[n - 1]) && |csv.split(body[n - 1])| != |keys|
    ensures ProcessLines(s, keys, body, n, fileName, csv).error == Some(IllegalState(CountMessage(n, fileName)))
  {
  }

  // ---------------------------------------------------------------- magnitude tracking

  /** The running minimum of the first magnitudes, starting from init. */
  function MinFirst(init: real, nodes: seq<GridNode>): real
  {
    if nodes == [] then init else Min(MinFirst(init, nodes[..|nodes| - 1]), nodes[|nodes| - 1].mfd.First())
  }

  /** The running maximum of the last magnitudes, starting from init. */
  function MaxLast(init: real, nodes: seq<GridNode>): real
  {
    if nodes == [] then init else Max(MaxLast(init, nodes[..|nodes| - 1]), nodes[|nodes| - 1].mfd.Last())
  }

  /** The running minimum is at most init and every first magnitude, and is one of them. */
  lemma {:induction false} MinFirstBounds(init: real, nodes: seq<GridNode>)
    ensures MinFirst(init, nodes) <= init
    ensures forall i :: 0 <= i < |nodes| ==> MinFirst(init, nodes) <= nodes[i].mfd.First()
    ensures MinFirst(init, nodes) == init || exists i :: 0 <= i < |nodes| && MinFirst(init, nodes) == nodes[i].mfd.First()
  {
    if nodes != [] {
      var init' := nodes[..|nodes| - 1];
      MinFirstBounds(init, init');
      assert forall i :: 0 <= i < |init'| ==> init'[i] == nodes[i];
    }
  }

  /** The running maximum is at least init and every last magnitude, and is one of them. */
  lemma {:induction false} MaxLastBounds(init: real, nodes: seq<GridNode>)
    ensures MaxLast(init, nodes) >= init
    ensures forall i :: 0 <= i < |nodes| ==> MaxLast(init, nodes) >= nodes[i].mfd.Last()
    ensures MaxLast(init, nodes) == init || exists i :: 0 <= i < |nodes| && MaxLast(init, nodes) == nodes[i].mfd.Last()
  {
    if nodes != [] {
      var init' := nodes[..|nodes| - 1];
      MaxLastBounds(init, init');
      assert forall i :: 0 <= i < |init'| ==> init'[i] == nodes[i];
    }
  }

  /** s extends s0 by some nodes, and its magnitude range is the running range over them. */
  predicate Tracks(s0: GridState, s: GridState)
  {
    |s0.nodes| <= |s.nodes| && s.nodes[..|s0.nodes|] == s0.nodes &&
    s.minMag == MinFirst(s0.minMag, s.nodes[|s0.nodes|..]) &&
    s.maxMag == MaxLast(s0.maxMag, s.nodes[|s0.nodes|..])
  }

  lemma AddNodeTracks(s0: GridState, s: GridState, loc: Location, mfd: NodeMfd)
    requires Tracks(s0, s)
    ensures Tracks(s0, AddNode(s, loc, mfd))
  {
    var t := AddNode(s, loc, mfd);
    var k := |s0.nodes|;
    assert t.nodes[k..] == s.nodes[k..] + [GridNode(loc, mfd)];
    assert t.nodes[k..][..|t.nodes[k..]| - 1] == s.nodes[k..];
    assert t.nodes[..k] == s.nodes[..k];
  }

  /** Whatever lines are read, minMag and maxMag are the running range over the nodes added. */
  lemma {:induction false} ProcessLinesTracks(s: GridState, keys: seq<string>, body: seq<string>, n: nat,
                                              fileName: string, csv: CsvEnv)
    requires n <= |body|
    ensures Tracks(s, ProcessLines(s, keys, body, n, fileName, csv).state)
  {
    if n == 0 {
      assert s.nodes[|s.nodes|..] == [];
    } else {
      ProcessLinesTracks(s, keys, body, n - 1, fileName, csv);
      var prev := ProcessLines(s, keys, body, n - 1, fileName, csv);
      if prev.error.None? && !Skipped(body[n - 1]) {
        var values := csv.split(body[n - 1]);
        if |values| == |keys| {
          var row := RowOf(keys, values, csv.parseDouble, |keys|);
          if row.Success? {
            var mfd := csv.processNode(row.value.atts);
            if mfd.Success? {
              AddNodeTracks(s, prev.state, SurfaceLocation(row.value.lat, row.value.lon), mfd.value);
            }
          }
        }
      }
    }
  }

  /** processRateCsv, start to end: the header, its keys, then the lines after it. */
  function CsvRun(s: GridState, lines: seq<string>, attributeKeys: set<string>, fileName: string, csv: CsvEnv): Run
  {
    if |lines| == 0 then Run(s, Some(IndexOutOfBounds))
    else
      var keys := csv.split(lines[0]);
      var v := ValidateKeys(keys, attributeKeys, fileName);
      if v.Fail? then Run(s, Some(v.error))
      else ProcessLines(s, keys, lines[1..], |lines| - 1, fileName, csv)
  }

  // ---------------------------------------------------------------- collapsed MFDs

  /** Gutenberg-Richter parameters of one default MFD. */
  datatype GrData = GrData(mMin: real, mMax: real, dMag: real, a: real, b: real, weight: real)

  /** Single-magnitude parameters of one default MFD. */
  datatype SingleData = SingleData(m: real, rate: real, weight: real, floats: bool)

  /** The collapsibility checks over entries 1 .. n-1: each must share the first entry's mMin, then its dMag. */
  function GrCheck(ds: seq<GrData>, n: nat): (o: Outcome)
    requires 0 < n <= |ds|
    ensures o.Fail? ==> o.error.IllegalState?
  {
    if n == 1 then Pass
    else
      var prev := GrCheck(ds, n - 1);
      if prev.Fail? then prev
      else if ds[n - 1].mMin != ds[0].mMin then Fail(IllegalState("All mMin must be equal"))
      else if ds[n - 1].dMag != ds[0].dMag then Fail(IllegalState("All dMag must be equal"))
      else Pass
  }

  lemma {:induction false} GrCheckPass(ds: seq<GrData>, n: nat)
    requires 0 < n <= |ds|
    ensures GrCheck(ds, n).Pass? <==> forall i :: 0 <= i < n ==> ds[i].mMin == ds[0].mMin && ds[i].dMag == ds[0].dMag
  {
    if n > 1 {
      GrCheckPass(ds, n - 1);
    }
  }

  /** The largest mMax of the first n entries. */
  function MaxMMax(ds: seq<GrData>, n: nat): (m: real)
    requires 0 < n <= |ds|
    ensures forall i :: 0 <= i < n ==> m >= ds[i].mMax
    ensures exists i :: 0 <= i < n && m == ds[i].mMax
  {
    if n == 1 then ds[0].mMax else Max(ds[n - 1].mMax, MaxMMax(ds, n - 1))
  }

  /** acc with l added to its leading entries. */
  function AddPrefix(acc: seq<real>, l: seq<real>): (r: seq<real>)
    requires |l| <= |acc|
    ensures |r| == |acc|
  {
    seq(|acc|, i requires 0 <= i < |acc| => if i < |l| then acc[i] + l[i] else acc[i])
  }

  /** n zeros with the first k rate lists added in. */
  function SummedRates(n: nat, lists: seq<seq<real>>, k: nat): (r: seq<real>)
    requires k <= |lists| && forall j :: 0 <= j < k ==> |lists[j]| <= n
    ensures |r| == n
  {
    if k == 0 then XySequences.Zeros(n) else AddPrefix(SummedRates(n, lists, k - 1), lists[k - 1])
  }

  /** Entry i of the first k lists, each list contributing 0 where it is too short. */
  function SumAt(lists: seq<seq<real>>, k: nat, i: int): real
    requires k <= |lists|
  {
    if k == 0 then 0.0 else SumAt(lists, k - 1, i) + (if 0 <= i < |lists[k - 1]| then lists[k - 1][i] else 0.0)
  }

  lemma {:induction false} SummedRatesAt(n: nat, lists: seq<seq<real>>, k: nat, i: int)
    requires k <= |lists| && forall j :: 0 <= j < k ==> |lists[j]| <= n
    requires 0 <= i < n
    ensures SummedRates(n, lists, k)[i] == SumAt(lists, k, i)
  {
    if k > 0 {
      SummedRatesAt(n, lists, k - 1, i);
    }
  }

  /** Every entry shares the first entry's mMin and dMag. */
  predicate Collapsible(ds: seq<GrData>)
  {
    forall i :: 0 <= i < |ds| ==> ds[i].mMin == ds[0].mMin && ds[i].dMag == ds[0].dMag
  }

  /** The cleaned magnitude sequence of a collapsible list: mMin to the largest mMax in steps of dMag. */
  function GrMags(ds: seq<GrData>, cleanSequence: (real, real, real) -> seq<real>): seq<real>
    requires |ds| > 0
  {
    cleanSequence(ds[0].mMin, MaxMMax(ds, |ds|), ds[0].dMag)
  }

  /** No entry has more rates than there are magnitudes to add them into. */
  predicate RatesFit(ds: seq<GrData>, grRates: GrData -> seq<real>, mags: seq<real>)
  {
    forall j :: 0 <= j < |ds| ==> |grRates(ds[j])| <= |mags|
  }

  /**
    buildCollapsedGR: the entries must agree on mMin and dMag; the magnitudes
    run from mMin to the largest mMax; each entry's Gutenberg-Richter rates are
    added into one rate array, which fails if an entry has more rates than
    there are magnitudes; the result must be a valid XySequence.
    `grRates` is buildGR(...).yValues() and `cleanSequence` is
    Data.buildCleanSequence(mMin, mMax, dMag, true, 2).
   */
  function CollapsedGR(ds: seq<GrData>, grRates: GrData -> seq<real>, cleanSequence: (real, real, real) -> seq<real>)
    : (r: Result<NodeMfd>)
    ensures r.Success? <==>
      |ds| > 0 && Collapsible(ds) && RatesFit(ds, grRates, GrMags(ds, cleanSequence)) &&
      XySequences.ConstructCheck(GrMags(ds, cleanSequence), |GrMags(ds, cleanSequence)|).Pass?
    ensures r.Success? ==>
      r.value.xs == GrMags(ds, cleanSequence) &&
      r.value.deltaMag == Real(ds[0].dMag) && |r.value.ys| == |r.value.xs| &&
      forall i :: 0 <= i < |r.value.ys| ==>
        r.value.ys[i] == SumAt(seq(|ds|, j requires 0 <= j < |ds| => grRates(ds[j])), |ds|, i)
    ensures |ds| == 0 ==> r == Failure(IndexOutOfBounds)
    ensures |ds| > 0 && !Collapsible(ds) ==>
      GrCheck(ds, |ds|).Fail? && r == Failure(GrCheck(ds, |ds|).error) && r.error.IllegalState?
    ensures |ds| > 0 && Collapsible(ds) && !RatesFit(ds, grRates, GrMags(ds, cleanSequence)) ==>
      r == Failure(IndexOutOfBounds)
    ensures |ds| > 0 && Collapsible(ds) && RatesFit(ds, grRates, GrMags(ds, cleanSequence)) &&
            XySequences.ConstructCheck(GrMags(ds, cleanSequence), |GrMags(ds, cleanSequence)|).Fail? ==>
      r == Failure(XySequences.ConstructCheck(GrMags(ds, cleanSequence), |GrMags(ds, cleanSequence)|).error) &&
      r.error.IllegalArgument?
  {
    if |ds| == 0 then Failure(IndexOutOfBounds)
    else
      var check := GrCheck(ds, |ds|);
      GrCheckPass(ds, |ds|);
      if check.Fail? then Failure(check.error)
      else
        var mags := GrMags(ds, cleanSequence);
        var lists := seq(|ds|, j requires 0 <= j < |ds| => grRates(ds[j]));
        if !RatesFit(ds, grRates, mags) then Failure(IndexOutOfBounds)
        else
          var valid := XySequences.ConstructCheck(mags, |mags|);
          if valid.Fail? then Failure(valid.error)
          else
            var rates := SummedRates(|mags|, lists, |lists|);
            assert forall i :: 0 <= i < |rates| ==> rates[i] == SumAt(lists, |lists|, i) by {
              forall i | 0 <= i < |rates| {
                SummedRatesAt(|mags|, lists, |lists|, i);
              }
            }
            Success(NodeMfd(mags, rates, Real(ds[0].dMag)))
  }

  /** A failed collapsibility check is the outcome of buildCollapsedGR. */
  lemma CollapsedRefused(ds: seq<GrData>, grRates: GrData -> seq<real>, cleanSequence: (real, real, real) -> seq<real>)
    requires |ds| > 0 && GrCheck(ds, |ds|).Fail?
    ensures CollapsedGR(ds, grRates, cleanSequence) == Failure(GrCheck(ds, |ds|).error)
  {
  }

  /** Past a passing collapsibility check, buildCollapsedGR fails on a long rate list, then on construction. */
  lemma CollapsedChecked(ds: seq<GrData>, grRates: GrData -> seq<real>, cleanSequence: (real, real, real) -> seq<real>)
    requires |ds| > 0 && GrCheck(ds, |ds|).Pass?
    ensures var mags := GrMags(ds, cleanSequence);
      var r := CollapsedGR(ds, grRates, cleanSequence);
      && (!RatesFit(ds, grRates, mags) ==> r == Failure(IndexOutOfBounds))
      && (RatesFit(ds, grRates, mags) && XySequences.ConstructCheck(mags, |mags|).Fail? ==>
            r == Failure(XySequences.ConstructCheck(mags, |mags|).error))
      && (RatesFit(ds, grRates, mags) && XySequences.ConstructCheck(mags, |mags|).Pass? ==>
            r == Success(NodeMfd(mags, SummedRates(|mags|, seq(|ds|, j requires 0 <= j < |ds| => grRates(ds[j])), |ds|),
                                 Real(ds[0].dMag))))
  {
  }

  /** buildCollapsedGR as the code runs it: a check loop, then an accumulation into a rate array. */
  method BuildCollapsedGR(ds: seq<GrData>, grRates: GrData -> seq<real>, cleanSequence: (real, real, real) -> seq<real>)
    returns (r: Result<NodeMfd>)
    ensures r == CollapsedGR(ds, grRates, cleanSequence)
  {
    if |ds| == 0 {
      return Failure(IndexOutOfBounds);
    }
    var mMin := ds[0].mMin;
    var dMag := ds[0].dMag;
    var mMax := ds[0].mMax;
    for i := 1 to |ds|
      invariant GrCheck(ds, i) == Pass && mMax == MaxMMax(ds, i)
    {
      if ds[i].mMin != mMin {
        GrFailureSticks(ds, i + 1, |ds|);
        CollapsedRefused(ds, grRates, cleanSequence);
        return Failure(IllegalState("All mMin must be equal"));
      }
      if ds[i].dMag != dMag {
        GrFailureSticks(ds, i + 1, |ds|);
        CollapsedRefused(ds, grRates, cleanSequence);
        return Failure(IllegalState("All dMag must be equal"));
      }
      mMax := Max(ds[i].mMax, mMax);
    }
    var mags := cleanSequence(mMin, mMax, dMag);
    assert mags == GrMags(ds, cleanSequence);
    GrCheckPass(ds, |ds|);
    ghost var lists := seq(|ds|, j requires 0 <= j < |ds| => grRates(ds[j]));
    var rates := new real[|mags|](_ => 0.0);
    assert rates[..] == XySequences.Zeros(|mags|);
    for j := 0 to |ds|
      invariant forall k :: 0 <= k < j ==> |grRates(ds[k])| <= |mags|
      invariant rates[..] == SummedRates(|mags|, lists, j)
    {
      var mfdRates := grRates(ds[j]);
      if |mfdRates| > rates.Length {
        assert !RatesFit(ds, grRates, mags);
        CollapsedChecked(ds, grRates, cleanSequence);
        return Failure(IndexOutOfBounds);
      }
      AccumulateInPlace(rates, mfdRates);
    }
    assert RatesFit(ds, grRates, mags);
    CollapsedChecked(ds, grRates, cleanSequence);
    var valid := XySequences.ConstructCheck(mags, rates.Length);
    if valid.Fail? {
      return Failure(valid.error);
    }
    return Success(NodeMfd(mags, rates[..], Real(dMag)));
  }

  /** rates[i] += l[i] for every index of l. */
  method AccumulateInPlace(rates: array<real>, l: seq<real>)
    requires |l| <= rates.Length
    modifies rates
    ensures rates[..] == AddPrefix(old(rates[..]), l)
  {
    for i := 0 to |l|
      invariant forall k :: 0 <= k < rates.Length ==> rates[k] == (if k < i then old(rates[k]) + l[k] else old(rates[k]))
    {
      rates[i] := rates[i] + l[i];
    }
  }

  lemma {:induction false} GrFailureSticks(ds: seq<GrData>, k: nat, n: nat)
    requires 0 < k <= n <= |ds| && GrCheck(ds, k).Fail?
    ensures GrCheck(ds, n) == GrCheck(ds, k)
    decreases n - k
  {
    if k < n {
      GrFailureSticks(ds, k, n - 1);
    }
  }

  /** The magnitudes of a list of single-magnitude entries. */
  function SingleMags(ds: seq<SingleData>): (mags: seq<real>)
    ensures |mags| == |ds| && forall i :: 0 <= i < |ds| ==> mags[i] == ds[i].m
  {
    seq(|ds|, i requires 0 <= i < |ds| => ds[i].m)
  }

  /**
    buildCollapsedSingle: one point per entry, at its magnitude, with rate
    times weight; no magnitude spacing (NaN); the magnitudes must form a valid
    XySequence, so an empty list or a repeated magnitude fails.
   */
  method BuildCollapsedSingle(ds: seq<SingleData>) returns (r: Result<NodeMfd>)
    ensures r.Success? <==> XySequences.ConstructCheck(SingleMags(ds), |ds|).Pass?
    ensures r.Failure? ==> r.error == XySequences.ConstructCheck(SingleMags(ds), |ds|).error
    ensures r.Success? ==>
      r.value.xs == SingleMags(ds) && r.value.deltaMag == NaN && |r.value.ys| == |ds| &&
      forall i :: 0 <= i < |ds| ==> r.value.ys[i] == ds[i].rate * ds[i].weight
  {
    var mags := new real[|ds|];
    var rates := new real[|ds|];
    for i := 0 to |ds|
      invariant forall k :: 0 <= k < i ==> mags[k] == ds[k].m && rates[k] == ds[k].rate * ds[k].weight
    {
      mags[i] := ds[i].m;
      rates[i] := ds[i].rate * ds[i].weight;
    }
    assert mags[..] == SingleMags(ds);
    var valid := XySequences.ConstructCheck(mags[..], rates.Length);
    if valid.Fail? {
      return Failure(valid.error);
    }
    return Success(NodeMfd(mags[..], rates[..], NaN));
  }

  // ---------------------------------------------------------------- the parser object

  class GridParser {
    var used: bool
    var minMag: real
    var maxMag: real
    var deltaMag: Num
    var nodes: seq<GridNode>

    /** The magnitude range starts inverted: minMag at the upper end of the valid range, maxMag at the lower. */
    constructor(magRangeLower: real, magRangeUpper: real)
      ensures !used && State() == GridState(magRangeUpper, magRangeLower, Real(0.0), [])
    {
      used := false;
      minMag := magRangeUpper;
      maxMag := magRangeLower;
      deltaMag := Real(0.0);
      nodes := [];
    }

    function State(): GridState
      reads this
    {
      GridState(minMag, maxMag, deltaMag, nodes)
    }

    /**
      parse: refused once the parser has been used.  The document itself is
      read by SAX, outside this model; `sax` is the outcome of that read, and
      only a read that completes marks the parser used.
     */
    method Parse(sax: Outcome) returns (o: Outcome)
      modifies this`used
      ensures old(used) ==> o == Fail(IllegalState("This parser has expired")) && used
      ensures !old(used) ==> o == sax
      ensures !old(used) && sax.Fail? ==> !used
      ensures !old(used) && sax.Pass? ==> used
    {
      if used {
        return Fail(IllegalState("This parser has expired"));
      }
      if sax.Fail? {
        return sax;
      }
      used := true;
      return Pass;
    }

    /** setNodeMfd, then the node handed to the source-set builder. */
    method SetNodeMfd(loc: Location, mfd: NodeMfd)
      modifies this
      ensures State() == AddNode(old(State()), loc, mfd)
      ensures used == old(used)
    {
      minMag := Min(minMag, mfd.First());
      maxMag := Max(maxMag, mfd.Last());
      deltaMag := mfd.deltaMag;
      nodes := nodes + [GridNode(loc, mfd)];
    }

    /** The body of the line loop for a line that is not skipped. */
    method ProcessLine(keys: seq<string>, line: string, lineIndex: nat, fileName: string, csv: CsvEnv)
      returns (o: Outcome)
      modifies this
      ensures var step := LineStep(old(State()), keys, line, lineIndex, fileName, csv);
        (step.Failure? ==> o == Fail(step.error) && State() == old(State())) &&
        (step.Success? ==> o == Pass && State() == step.value)
      ensures used == old(used)
    {
      var values := csv.split(line);
      if |values| != |keys| {
        return Fail(IllegalState(CountMessage(lineIndex, fileName)));
      }
      var row := ParseRow(keys, values, csv.parseDouble);
      if row.Failure? {
        return Fail(row.error);
      }
      var mfd := csv.processNode(row.value.atts);
      if mfd.Failure? {
        return Fail(mfd.error);
      }
      SetNodeMfd(SurfaceLocation(row.value.lat, row.value.lon), mfd.value);
      return Pass;
    }

    /**
      processRateCsv over the lines of a file that exists: every failure is
      wrapped in a SAXException.
     */
    method ProcessRateCsv(lines: seq<string>, attributeKeys: set<string>, fileName: string, csv: CsvEnv)
      returns (o: Outcome)
      modifies this
      ensures var run := CsvRun(old(State()), lines, attributeKeys, fileName, csv);
        State() == run.state &&
        (run.error.None? ==> o == Pass) &&
        (run.error.Some? ==> o == Fail(Sax(run.error.value)))
      ensures used == old(used)
    {
      if |lines| == 0 {
        return Fail(Sax(IndexOutOfBounds));
      }
      var keys := csv.split(lines[0]);
      var v := ValidateKeys(keys, attributeKeys, fileName);
      if v.Fail? {
        return Fail(Sax(v.error));
      }
      ghost var s0 := State();
      var body := lines[1..];
      var lineIndex := 0;
      while lineIndex < |body|
        invariant 0 <= lineIndex <= |body|
        invariant ProcessLines(s0, keys, body, lineIndex, fileName, csv) == Run(State(), None)
        invariant used == old(used)
      {
        var line := body[lineIndex];
        lineIndex := lineIndex + 1;
        if Skipped(line) {
          continue;
        }
        var step := ProcessLine(keys, line, lineIndex, fileName, csv);
        if step.Fail? {
          ErrorSticks(s0, keys, body, lineIndex, |body|, fileName, csv);
          return Fail(Sax(step.error));
        }
      }
      return Pass;
    }
  }
}

# nshmp-haz earthquake sources, in Dafny

A verified model of the discrete core of the USGS National Seismic Hazard
Model Project calculator (nshmp-haz): how earthquake sources enumerate their
ruptures, and the small state machines and data structures around them.

- **Point sources** (`depth_model.dfy`, `point_index.dfy`, `point_distance.dfy`,
  `point_source.dfy`). A depth model flattens the magnitude-cutoff to
  (depth to weight) map into three parallel lists. `init` lays the index
  range out in mechanism blocks: strike-slip, reverse and normal, with the
  reverse and normal blocks doubled into footwall and hanging-wall halves for
  the finite and fixed-strike variants. `updateRupture` maps an index to a
  magnitude/depth bin, a mechanism, a weighted rate and a footwall flag. The
  rupture iterator rewrites one shared rupture per index. The three surface
  kinds compute rJB, rRup and rX by their piecewise case splits. The Java
  class hierarchy (PointSource, PointSourceFinite, PointSourceFixedStrike)
  becomes one class with a kind tag, so the virtual `init` called from the
  superclass constructor, and then called again, is modelled as it runs.
- **Fault, interface and cluster sources** (`fault_source.dfy`,
  `interface_source.dfy`, `cluster_source.dfy`):
  - rupture-list assembly with the low-rate filter;
  - floating ruptures from a delegate versus one whole-surface rupture;
  - the construction checks;
  - the single-use builders, as classes with their fields and `built` flag;
  - the interface source's dual-trace and single-trace routes;
  - cluster-rate scaling of the fault MFDs.
- **Surfaces** (`surfaces.dfy`): the floating-surface tiling, the minimum
  distance between two surfaces and the fraction of a surface inside a region.
- **XySequence** (`xy_sequence.dfy`): a class over `array<real>` x and y
  buffers. It covers construction checks (non-empty, equal lengths, strictly
  increasing x), the copying factories, immutable rejections and the in-place
  y operations of the mutable sequence.
- **MagUncertainty** (`mag_uncertainty.dfy`), **DeaggConfig**
  (`deagg_config.dfy`), **GridParser** (`grid_parser.dfy`) and
  **EqRateExport** (`eq_rate_export.dfy`):
  - the two validating factories;
  - epsilon bins and the reusable builder;
  - header-key validation, the CSV line loop, min/max magnitude tracking and
    MFD collapsing;
  - the rate exporter's buffer, flush and expire state machine, with the
    total-rate file's lines as state.

`common.dfy` holds the shared types: Java's exceptions as an `Error`
datatype, `Result`/`Outcome`/`Option`, and `Env`. `Env` is a record of
function values. It stands for the numeric and geodesic helpers the code
calls (hypot, trigonometry, `Locations`, the rupture-scaling model), which are
not part of this model. Java's truncating `%` is written out as `JavaRem`.
Simple accessors with no logic of their own are plain functions without
contracts:
- `type()`;
- the cluster source's delegating `name`, `size`, `id` and `weight`;
- the fault source's `type` and `location`;
- `dip()` and `depth()` of a point surface.

Where the code and its documentation differ, the model follows the code:
- A fault source whose bins all fall below the 1e-14 rate floor fails with
  "Rupture list is empty" from `initRuptureLists`. "FaultSource has no
  ruptures" is reached only when there are no MFDs at all.
- `DeaggConfig.Builder.build()` performs no validation of its own, but it
  unboxes the `Double` fields. An unset contributor limit, iml, rate, return
  period or truncation therefore fails on unboxing a null.
- `MagUncertainty.create(Map, Map)` tests `aleaCount % 2 == 1` with Java's
  remainder, so negative odd counts are refused as well as even ones.
- `EqRateExport.writeRates` writes the file inside its per-rate loop; see
  Findings.

## Model

| member | source | states |
|---|---|---|
| DepthModel.HigherEntry | src/gov/usgs/earthquake/nshmp/eq/model/PointSource.java:389-390 | the bucket chosen for a magnitude has the least cutoff strictly above it; none exists exactly when every cutoff is at or below it |
| DepthModel.FlattenDepths | src/gov/usgs/earthquake/nshmp/eq/model/PointSource.java:384-400 | the constructor loop fails (null entry) exactly when the flattening fails, and otherwise fills three parallel lists holding the flattened rows |
| DepthModel.FailurePersists | src/gov/usgs/earthquake/nshmp/eq/model/PointSource.java:388-391 | once a master magnitude has no bucket, every longer prefix of the loop fails too |
| DepthModel.FlattenedSucceedsIff | src/gov/usgs/earthquake/nshmp/eq/model/PointSource.java:389-391 | the flattening succeeds exactly when every master magnitude has a cutoff strictly above it |
| DepthModel.FlattenedLength | src/gov/usgs/earthquake/nshmp/eq/model/PointSource.java:384-396 | the flattened length is the sum over master magnitudes of the chosen bucket's entry count |
| DepthModel.FlattenedRunAt | src/gov/usgs/earthquake/nshmp/eq/model/PointSource.java:388-396 | the rows of master magnitude i are contiguous, in bucket order, all tagged i, at the offset given by the earlier counts |
| DepthModel.FlattenedOrdered | src/gov/usgs/earthquake/nshmp/eq/model/PointSource.java:388-396 | every row index is a master-magnitude index and the index column never decreases |
| DepthModel.DepthModel.Create | src/gov/usgs/earthquake/nshmp/eq/model/PointSource.java:368-401 | creation fails exactly when some master magnitude has no higher cutoff; otherwise the three lists are parallel, hold the flattened rows and have the summed length |
| DepthModel.DepthModel.Of | src/gov/usgs/earthquake/nshmp/eq/model/PointSource.java:376-383 | the private constructor stores the master magnitudes, the maximum depth and the three flattened columns |
| DepthModel.WorkedExample | src/gov/usgs/earthquake/nshmp/eq/model/PointSource.java:310-333 | the documented example (cutoffs 6.5 and 10.0, five master magnitudes) flattens to the 13 listed rows |
| PointIndex.LastIndexOf | src/gov/usgs/earthquake/nshmp/eq/model/PointSource.java:199 | List.lastIndexOf: the last position holding the value, or -1 exactly when it is absent |
| PointIndex.MagDepthSize | src/gov/usgs/earthquake/nshmp/eq/model/PointSource.java:199 | magDepthSize is one past the last row of the largest MFD index, and no later row has that index |
| PointIndex.SimpleLayout | src/gov/usgs/earthquake/nshmp/eq/model/PointSource.java:205-211 | block sizes ceil(w) * magDepthSize for SS, RV, NR; ssIndex and revIndex are the block ends; rupCount is their sum |
| PointIndex.FiniteLayout | src/gov/usgs/earthquake/nshmp/eq/model/PointSourceFinite.java:162-170 | the RV and NR blocks are doubled; fwIndexLo and fwIndexHi split each doubled block in halves |
| PointIndex.SimplePartition | src/gov/usgs/earthquake/nshmp/eq/model/PointSource.java:217-220 | mechForIndex splits [0, rupCount) into contiguous SS, RV, NR blocks in that order, and a zero weight leaves its mechanism out |
| PointIndex.FinitePartition | src/gov/usgs/earthquake/nshmp/eq/model/PointSourceFinite.java:162-184 | for the finite layout the same three blocks, isOnFootwall holds exactly on [0, fwIndexLo) and [revIndex, fwIndexHi), and every SS index is footwall |
| PointIndex.WorkedFiniteCase | src/gov/usgs/earthquake/nshmp/eq/model/PointSourceFinite.java:162-184 | with magDepthSize 2 and unit weights: fwIndexLo 4, revIndex 6, fwIndexHi 8, rupCount 10; indices 0-3 and 6-7 are footwall |
| PointIndex.HangingWallTwin | src/gov/usgs/earthquake/nshmp/eq/model/PointSourceFinite.java:162-184 | each footwall RV or NR index has a hanging-wall twin in the same block with the same index modulo magDepthSize |
| PointIndex.PositiveCount | src/gov/usgs/earthquake/nshmp/eq/model/PointSource.java:205-211 | a non-empty layout has a positive magDepthSize, so index % magDepthSize is defined |
| PointIndex.BinAt | src/gov/usgs/earthquake/nshmp/eq/model/PointSource.java:141-149 | for index < rupCount, row index % magDepthSize is inside the depth model and names an MFD bin below mfd.size(); the bin carries that row's magnitude, rate, depth and weight |
| PointIndex.TwinBin | src/gov/usgs/earthquake/nshmp/eq/model/PointSourceFinite.java:87-118 | a footwall rupture and its hanging-wall twin share mechanism and depth/magnitude bin, and only the footwall flag differs |
| PointIndex.TwinRatesSum | src/gov/usgs/earthquake/nshmp/eq/model/PointSourceFinite.java:97-109 | with the halved weight, the rates of the two twins sum to mfd rate * depth weight * full mechanism weight |
| PointDistance.PointSurfaceDistance | src/gov/usgs/earthquake/nshmp/eq/model/PointSource.java:236-241 | a point surface reports rX equal to rJB |
| PointDistance.FiniteDistance | src/gov/usgs/earthquake/nshmp/eq/model/PointSourceFinite.java:198-223 | a finite surface keeps the corrected rJB as its rJB |
| PointDistance.InterpolationEndpoints | src/gov/usgs/earthquake/nshmp/eq/model/PointSourceFinite.java:216-220 | the interpolated rRup is rRup0 at rJB = 0, rRupC at rJB = rCut, and between the two in between |
| PointDistance.FiniteRxSign | src/gov/usgs/earthquake/nshmp/eq/model/PointSourceFinite.java:201 | footwall rX is -rJB (never positive); hanging-wall rX is rJB + widthH; for rJB > 0, rX < 0 exactly on the footwall |
| PointDistance.FiniteRRupCases | src/gov/usgs/earthquake/nshmp/eq/model/PointSourceFinite.java:203-220 | footwall rRup = hypot(rJB, zTop); beyond rCut hypot(rJB, zBot); at rCut zBot / cos(dip); at rJB = 0 min(hypot(widthH, zTop), zBot cos(dip)) |
| PointDistance.AtDepth | src/gov/usgs/earthquake/nshmp/eq/model/PointSourceFixedStrike.java:129 | a copy of a location at a new depth keeps its latitude and longitude |
| PointDistance.CornersMirror | src/gov/usgs/earthquake/nshmp/eq/model/PointSourceFixedStrike.java:136-162 | the footwall keeps (p1, p2) in trace order and the hanging wall swaps them; strike-slip bottom corners sit under the top ones at zBot |
| PointDistance.HangingWallBranches | src/gov/usgs/earthquake/nshmp/eq/model/PointSourceFixedStrike.java:236-239 | hanging-wall rRup is hypot(rX - widthH, zBot) beyond rCutBot, hypot(rX, zTop) before rCutTop, otherwise the linear term, which meets the near branch at rCutTop |
| PointDistance.FixedStrikeDistance | src/gov/usgs/earthquake/nshmp/eq/model/PointSourceFixedStrike.java:221-255 | rX is the distance to the line of the top trace |
| PointDistance.FixedStrikeCases | src/gov/usgs/earthquake/nshmp/eq/model/PointSourceFixedStrike.java:228-254 | for rX <= 0 or a vertical dip the result is (rSeg, hypot(rSeg, zTop), rX); off the trace ends rJB is the nearer end-cap distance and rRup adds the along-strike offset; otherwise rJB = max(rX - widthH, 0) |
| PointDistance.FixedStrikeRjbNonNegative | src/gov/usgs/earthquake/nshmp/eq/model/PointSourceFixedStrike.java:242-254 | rJB is never negative when the segment distances are not |
| PointSources.PointSurface.constructor | src/gov/usgs/earthquake/nshmp/eq/model/PointSource.java:230-233 | a new surface has its location and scaling and zero mutable fields |
| PointSources.PointSurface.DistanceTo | src/gov/usgs/earthquake/nshmp/eq/model/PointSource.java:236-241 | simple: rX = rJB and rRup = hypot(rJB, zTop); finite: the FiniteSurface formulas; fixed strike: exactly FixedStrikeDistance, rX from the top trace |
| PointSources.PointSurface.Update | src/gov/usgs/earthquake/nshmp/eq/model/PointSourceFinite.java:102-118 | the surface fields after updateRupture are exactly SurfaceUpdate of the old ones |
| PointSources.PointSurface.Strike | src/gov/usgs/earthquake/nshmp/eq/model/PointSource.java:250-252 | strike() is unsupported |
| PointSources.PointSurface.DipDirection | src/gov/usgs/earthquake/nshmp/eq/model/PointSource.java:265-267 | dipDirection() is unsupported |
| PointSources.PointSurface.Length | src/gov/usgs/earthquake/nshmp/eq/model/PointSource.java:270-272 | length() is unsupported |
| PointSources.PointSurface.Area | src/gov/usgs/earthquake/nshmp/eq/model/PointSource.java:280-282 | area() is unsupported |
| PointSources.PointSurface.Width | src/gov/usgs/earthquake/nshmp/eq/model/PointSourceFinite.java:226-228 | width() is 10 km for a simple surface and the down-dip width for the finite ones |
| PointSources.SurfaceUpdate | src/gov/usgs/earthquake/nshmp/eq/model/PointSourceFixedStrike.java:106-162 | every variant takes mag, dip and zTop; a simple surface keeps the rest; finite ones take the footwall flag and the scaled width; only fixed strike sets corners |
| PointSources.Rupture.constructor | src/gov/usgs/earthquake/nshmp/eq/model/PointSource.java:168 | a fresh rupture on the given surface |
| PointSources.PointSource.constructor | src/gov/usgs/earthquake/nshmp/eq/model/PointSourceFinite.java:61-71 | the constructors store their fields and run init (twice for the finite variants); afterwards the layout is the variant's layout |
| PointSources.PointSource.Init | src/gov/usgs/earthquake/nshmp/eq/model/PointSourceFinite.java:149-171 | init sets magDepthSize and the block indices of the variant, independent of the prior field values, so the second call is idempotent |
| PointSources.PointSource.Size | src/gov/usgs/earthquake/nshmp/eq/model/PointSource.java:108-110 | size() is the rupture count of the variant's layout |
| PointSources.PointSource.Id | src/gov/usgs/earthquake/nshmp/eq/model/PointSource.java:117-119 | id() is negative (-1) |
| PointSources.PointSource.LocationFor | src/gov/usgs/earthquake/nshmp/eq/model/PointSource.java:132-134 | location(site) is the source location whatever the site |
| PointSources.PointSource.Mfds | src/gov/usgs/earthquake/nshmp/eq/model/PointSource.java:137-139 | mfds() is the single MFD |
| PointSources.PointSource.LookupBin | src/gov/usgs/earthquake/nshmp/eq/model/PointSource.java:141-149 | the list and MFD lookups at the head of updateRupture are in bounds and return BinAt |
| PointSources.PointSource.UpdateRupture | src/gov/usgs/earthquake/nshmp/eq/model/PointSourceFixedStrike.java:91-163 | the rupture gets the bin magnitude, the mechanism rake and the (halved for finite RV/NR) weighted rate; the surface gets SurfaceAt |
| PointSources.PointSource.Iterator | src/gov/usgs/earthquake/nshmp/eq/model/PointSource.java:166-173 | a fresh iterator over one fresh rupture and surface, with caret 0 and size rupCount |
| PointSources.PointSource.Enumerate | src/gov/usgs/earthquake/nshmp/eq/model/PointSource.java:165-191 | drawing until hasNext() fails yields exactly size() ruptures, for indices 0 .. size-1 in order |
| PointSources.RuptureIterator.constructor | src/gov/usgs/earthquake/nshmp/eq/model/PointSource.java:167-173 | caret starts at 0 and size is the source size |
| PointSources.RuptureIterator.HasNext | src/gov/usgs/earthquake/nshmp/eq/model/PointSource.java:176-178 | hasNext() holds exactly while caret < size |
| PointSources.RuptureIterator.Next | src/gov/usgs/earthquake/nshmp/eq/model/PointSource.java:181-184 | next() rewrites the one shared rupture for index caret and advances caret by one |
| PointSources.RuptureIterator.Remove | src/gov/usgs/earthquake/nshmp/eq/model/PointSource.java:187-189 | remove() is unsupported |
| FaultSources.WholeSurfaceRuptures | src/gov/usgs/earthquake/nshmp/eq/model/FaultSource.java:170-196 | a non-floating MFD gives one rupture per bin with rate >= 1e-14, each with the fault rake, the whole surface and its bin's magnitude and rate |
| FaultSources.FloatingBinsAppended | src/gov/usgs/earthquake/nshmp/eq/model/FaultSource.java:184-191 | a floating bin appends the delegate's list unchanged, after the earlier bins |
| FaultSources.RuptureListPrefix | src/gov/usgs/earthquake/nshmp/eq/model/FaultSource.java:170-197 | ruptures are in bin order: the list of fewer bins is a prefix |
| FaultSources.WholeSurfaceEmptyIff | src/gov/usgs/earthquake/nshmp/eq/model/FaultSource.java:177-179 | a non-floating list is empty exactly when every rate is below 1e-14 |
| FaultSources.CreateRuptureList | src/gov/usgs/earthquake/nshmp/eq/model/FaultSource.java:167-199 | createRuptureList builds exactly the bin-by-bin list |
| FaultSources.RuptureLists | src/gov/usgs/earthquake/nshmp/eq/model/FaultSource.java:157-165 | one list per MFD, in MFD order |
| FaultSources.InitRuptureLists | src/gov/usgs/earthquake/nshmp/eq/model/FaultSource.java:157-165 | succeeds exactly when no list is empty, else fails with "Rupture list is empty" |
| FaultSources.FlattenEmpty | src/gov/usgs/earthquake/nshmp/eq/model/FaultSource.java:93-94 | the concatenated lists are empty exactly when every list is (including no lists) |
| FaultSources.FaultSource.Size | src/gov/usgs/earthquake/nshmp/eq/model/FaultSource.java:103-105 | size() is the total length of the rupture lists |
| FaultSources.FaultSource.MfdSequences | src/gov/usgs/earthquake/nshmp/eq/model/FaultSource.java:127-137 | mfds() gives one new, distinct, mutable sequence per MFD with its magnitudes and rates |
| FaultSources.NewFaultSource | src/gov/usgs/earthquake/nshmp/eq/model/FaultSource.java:65-95 | construction succeeds exactly when there is an MFD and no empty list; the failures are "Rupture list is empty" and "FaultSource has no ruptures"; a success has a positive size |
| FaultSources.ConstructFaultSource | src/gov/usgs/earthquake/nshmp/eq/model/FaultSource.java:92-94 | the constructor as run (initRuptureLists, then the size check) equals NewFaultSource |
| FaultSources.StateCheck | src/gov/usgs/earthquake/nshmp/eq/model/FaultSource.java:291-304 | validation passes exactly when unused and complete; the used and missing-name messages; every failure is an IllegalState (or the null mfds) |
| FaultSources.SingleUse | src/gov/usgs/earthquake/nshmp/eq/model/FaultSource.java:292-305 | after a passing validation the builder can never validate again |
| FaultSources.FaultBuilder.constructor | src/gov/usgs/earthquake/nshmp/eq/model/FaultSource.java:205-222 | every field unset and no MFDs |
| FaultSources.FaultBuilder.SetName | src/gov/usgs/earthquake/nshmp/eq/model/FaultSource.java:224-227 | the name is stored exactly when it passes the name check |
| FaultSources.FaultBuilder.SetId | src/gov/usgs/earthquake/nshmp/eq/model/FaultSource.java:229-232 | the id is stored |
| FaultSources.FaultBuilder.SetTrace | src/gov/usgs/earthquake/nshmp/eq/model/FaultSource.java:234-237 | the trace is stored exactly when it passes the trace check |
| FaultSources.FaultBuilder.SetDip | src/gov/usgs/earthquake/nshmp/eq/model/FaultSource.java:239-242 | the dip is stored exactly when it passes the dip check |
| FaultSources.FaultBuilder.SetWidth | src/gov/usgs/earthquake/nshmp/eq/model/FaultSource.java:244-247 | the width is stored exactly when it passes the crustal width check |
| FaultSources.FaultBuilder.SetDepth | src/gov/usgs/earthquake/nshmp/eq/model/FaultSource.java:249-252 | the depth is stored exactly when it passes the crustal depth check |
| FaultSources.FaultBuilder.SetRake | src/gov/usgs/earthquake/nshmp/eq/model/FaultSource.java:254-257 | the rake is stored exactly when it passes the rake check |
| FaultSources.FaultBuilder.AddMfd | src/gov/usgs/earthquake/nshmp/eq/model/FaultSource.java:259-262 | a null MFD is refused with "MFD is null"; otherwise one MFD appended |
| FaultSources.FaultBuilder.AddMfds | src/gov/usgs/earthquake/nshmp/eq/model/FaultSource.java:264-269 | a null list is refused ("MFD list is null"), then an empty one ("MFD list is empty"); otherwise all of it is appended |
| FaultSources.FaultBuilder.SetSurfaceSpacing | src/gov/usgs/earthquake/nshmp/eq/model/FaultSource.java:271-274 | the spacing is stored exactly when it lies in SURFACE_GRID_SPACING_RANGE, [0.01, 20.0] |
| FaultSources.FaultBuilder.SetRuptureScaling | src/gov/usgs/earthquake/nshmp/eq/model/FaultSource.java:276-279 | a null scaling is refused with its message |
| FaultSources.FaultBuilder.SetRuptureFloating | src/gov/usgs/earthquake/nshmp/eq/model/FaultSource.java:281-284 | a null floating model is refused with its message |
| FaultSources.FaultBuilder.SetRuptureVariability | src/gov/usgs/earthquake/nshmp/eq/model/FaultSource.java:286-289 | the flag is stored |
| FaultSources.FaultBuilder.ValidateState | src/gov/usgs/earthquake/nshmp/eq/model/FaultSource.java:291-306 | the outcome is StateCheck of the fields, and built becomes true only when every check passes |
| FaultSources.FaultBuilder.Build | src/gov/usgs/earthquake/nshmp/eq/model/FaultSource.java:308-320 | mfds is fixed from the builder; a failing validation is returned and leaves built; a pass builds the surface and returns NewFaultSource |
| InterfaceSources.InterfaceSource.Location | src/gov/usgs/earthquake/nshmp/eq/model/InterfaceSource.java:85-92 | the closest point over the upper trace followed by the lower trace |
| InterfaceSources.NewInterfaceSource | src/gov/usgs/earthquake/nshmp/eq/model/InterfaceSource.java:41-74 | succeeds or fails as the fault constructor does; the lower trace falls back to the surface lower edge when none is given |
| InterfaceSources.InterfaceBuilder.constructor | src/gov/usgs/earthquake/nshmp/eq/model/InterfaceSource.java:115-120 | a fresh base builder with every field unset and no lower trace |
| InterfaceSources.InterfaceBuilder.SetDepth | src/gov/usgs/earthquake/nshmp/eq/model/InterfaceSource.java:122-126 | the depth is stored exactly when it passes the interface depth check |
| InterfaceSources.InterfaceBuilder.SetWidth | src/gov/usgs/earthquake/nshmp/eq/model/InterfaceSource.java:128-132 | the width is stored exactly when it passes the interface width check |
| InterfaceSources.InterfaceBuilder.SetLowerTrace | src/gov/usgs/earthquake/nshmp/eq/model/InterfaceSource.java:134-138 | refused with "Upper trace must be set first" until the upper trace is set, then stored exactly when it passes the trace check |
| InterfaceSources.InterfaceBuilder.Build | src/gov/usgs/earthquake/nshmp/eq/model/InterfaceSource.java:140-178 | with a lower trace depth, dip and width become NaN before validation and the surface spans both traces; without one they are kept and an ordinary surface is built; the result follows validation |
| InterfaceSources.DualTraceValidation | src/gov/usgs/earthquake/nshmp/eq/model/InterfaceSource.java:154-161 | after the NaN overwrite, validation passes exactly when every other required field is set |
| InterfaceSources.SingleTraceNeedsDepth | src/gov/usgs/earthquake/nshmp/eq/model/InterfaceSource.java:163-166 | on the single-trace route an unset depth always fails validation |
| ClusterSources.MfdsOfAppend | src/gov/usgs/earthquake/nshmp/eq/model/ClusterSource.java:89-98 | the distributions of a fault list are those of its parts, in order |
| ClusterSources.MfdsOfLength | src/gov/usgs/earthquake/nshmp/eq/model/ClusterSource.java:89-98 | there is one distribution per MFD of every fault |
| ClusterSources.ClusterSource.Location | src/gov/usgs/earthquake/nshmp/eq/model/ClusterSource.java:80-86 | the closest point over the faults' own closest points |
| ClusterSources.ClusterSource.Iterator | src/gov/usgs/earthquake/nshmp/eq/model/ClusterSource.java:127-130 | iterator() is unsupported |
| ClusterSources.ClusterSource.Mfds | src/gov/usgs/earthquake/nshmp/eq/model/ClusterSource.java:89-98 | one new distinct mutable sequence per fault MFD, in fault order, with every rate scaled by the cluster rate |
| ClusterSources.ScaleAll | src/gov/usgs/earthquake/nshmp/eq/model/ClusterSource.java:92-95 | multiply(rate) on each of the sequences, none affecting another |
| ClusterSources.ScaledCopiesAppend | src/gov/usgs/earthquake/nshmp/eq/model/ClusterSource.java:90-97 | scaled copies of two lists join into scaled copies of their concatenation |
| ClusterSources.ClusterStateCheck | src/gov/usgs/earthquake/nshmp/eq/model/ClusterSource.java:174-179 | validation passes exactly when unused with rate and faults set; failures are IllegalState |
| ClusterSources.ClusterBuilder.constructor | src/gov/usgs/earthquake/nshmp/eq/model/ClusterSource.java:155-159 | unused, nothing set |
| ClusterSources.ClusterBuilder.SetRate | src/gov/usgs/earthquake/nshmp/eq/model/ClusterSource.java:161-165 | any rate is stored |
| ClusterSources.ClusterBuilder.SetFaults | src/gov/usgs/earthquake/nshmp/eq/model/ClusterSource.java:167-172 | a null set and an empty set are refused with their messages; otherwise the set is stored |
| ClusterSources.ClusterBuilder.Build | src/gov/usgs/earthquake/nshmp/eq/model/ClusterSource.java:174-184 | a failing validation is returned and leaves built; a pass sets built and wraps rate and faults |
| Surfaces.Inside | src/org/opensha/eq/fault/surface/Surfaces.java:39-45 | the contained locations: no more than the surface, all in it and in the region, and every such location |
| Surfaces.InsideAll | src/org/opensha/eq/fault/surface/Surfaces.java:39-45 | every location is counted exactly when the region contains them all |
| Surfaces.InsideAppend | src/org/opensha/eq/fault/surface/Surfaces.java:41-45 | counting is additive over a split of the surface |
| Surfaces.FractionInRegion | src/org/opensha/eq/fault/surface/Surfaces.java:39-45 | the fraction is the inside count over the size, within [0, 1] for a non-empty surface |
| Surfaces.MinDistance | src/org/opensha/eq/fault/surface/Surfaces.java:58-77 | +infinity exactly when a surface is empty; otherwise at most every pair distance and equal to one of them |
| Surfaces.Fit | src/org/opensha/eq/fault/surface/Surfaces.java:93-106 | count = n - size + 1, or one floater spanning the whole surface when that count is at most 1 |
| Surfaces.ColumnsLength | src/org/opensha/eq/fault/surface/Surfaces.java:108-114 | the floater list has alongCount * downCount entries |
| Surfaces.ColumnsAt | src/org/opensha/eq/fault/surface/Surfaces.java:108-114 | entry c * downCount + r starts at column c and row r: start column outer, start row inner |
| Surfaces.ColumnsFit | src/org/opensha/eq/fault/surface/Surfaces.java:93-114 | every floater lies within the parent surface |
| Surfaces.CreateFloatingSurfaceList | src/org/opensha/eq/fault/surface/Surfaces.java:87-117 | the nested loops build exactly the column-major tiling, of length alongCount * downCount, every floater inside the parent |
| XySequences.IncreasingIsOrdered | src/gov/usgs/earthquake/nshmp/data/XySequence.java:132-134 | the neighbour test the code uses is the same as strict order on every pair |
| XySequences.ConstructCheck | src/gov/usgs/earthquake/nshmp/data/XySequence.java:129-134 | construction passes exactly for non-empty, same-length, strictly increasing x-values, with each failure's message in order |
| XySequences.Zeros | src/gov/usgs/earthquake/nshmp/data/XySequence.java:74 | new double[n]: n zeros |
| XySequences.Complemented | src/gov/usgs/earthquake/nshmp/data/MutableXySequence.java:78-81 | complement is 1 - y elementwise |
| XySequences.ComplementInUnit | src/gov/usgs/earthquake/nshmp/data/MutableXySequence.java:78-81 | the complement maps probabilities in [0, 1] onto [0, 1] |
| XySequences.ShiftInPlace | src/gov/usgs/earthquake/nshmp/data/MutableXySequence.java:46-49 | Data.add(term, ys) in place |
| XySequences.ScaleInPlace | src/gov/usgs/earthquake/nshmp/data/MutableXySequence.java:65-68 | Data.multiply(scale, ys) in place |
| XySequences.NegateInPlace | src/gov/usgs/earthquake/nshmp/data/MutableXySequence.java:78-81 | Data.flip in place |
| XySequences.AddInPlace | src/gov/usgs/earthquake/nshmp/data/MutableXySequence.java:52-62 | elementwise sum in place, correct when the two arrays are the same |
| XySequences.MultiplyInPlace | src/gov/usgs/earthquake/nshmp/data/MutableXySequence.java:71-75 | elementwise product in place, correct when the two arrays are the same |
| XySequences.MapInPlace | src/gov/usgs/earthquake/nshmp/data/MutableXySequence.java:90-93 | Data.transform in place |
| XySequences.FillInPlace | src/gov/usgs/earthquake/nshmp/data/MutableXySequence.java:84-87 | Arrays.fill(ys, v) |
| XySequences.CopyArray | src/gov/usgs/earthquake/nshmp/data/XySequence.java:73-74 | Arrays.copyOf: a fresh array with the same contents |
| XySequences.XySequence.Of | src/gov/usgs/earthquake/nshmp/data/MutableXySequence.java:16-18 | the wrapper keeps the arrays it is given |
| XySequences.XySequence.Construct | src/gov/usgs/earthquake/nshmp/data/XySequence.java:129-136 | fails exactly as ConstructCheck does, otherwise a fresh valid sequence with these values and mutability |
| XySequences.XySequence.Create | src/gov/usgs/earthquake/nshmp/data/XySequence.java:49-76 | a null ys means zeros (refused by createImmutable), the arrays are copied into fresh ones, then construct validates |
| XySequences.XySequence.CreateFromLists | src/gov/usgs/earthquake/nshmp/data/XySequence.java:92-127 | the collection factories: the same rules from lists of numbers |
| XySequences.XySequence.CopyOf | src/gov/usgs/earthquake/nshmp/data/XySequence.java:145-159 | copyOf keeps xs and ys, emptyCopyOf zeroes ys; both mutable with a fresh y buffer; null refused |
| XySequences.XySequence.ImmutableCopyOf | src/gov/usgs/earthquake/nshmp/data/XySequence.java:168-171 | an immutable sequence is returned as is; a mutable one gets an immutable copy |
| XySequences.XySequence.Size | src/gov/usgs/earthquake/nshmp/data/XySequence.java:235 | size() is the (positive) number of x-values |
| XySequences.XySequence.X | src/gov/usgs/earthquake/nshmp/data/XySequence.java:205 | x(index) fails outside the sequence |
| XySequences.XySequence.Y | src/gov/usgs/earthquake/nshmp/data/XySequence.java:216 | y(index) fails outside the sequence |
| XySequences.XySequence.Min | src/gov/usgs/earthquake/nshmp/data/MutableXySequence.java:29-32 | min() is point 0, writable exactly on a mutable sequence |
| XySequences.XySequence.Max | src/gov/usgs/earthquake/nshmp/data/MutableXySequence.java:34-37 | max() is point size - 1, writable exactly on a mutable sequence |
| XySequences.XySequence.Points | src/gov/usgs/earthquake/nshmp/data/MutableXySequence.java:24-27 | the iterator hands out points 0 .. size - 1, writable exactly on a mutable sequence |
| XySequences.XySequence.MinMaxBound | src/gov/usgs/earthquake/nshmp/data/XySequence.java:363-372 | min() has the least x-value and max() the greatest |
| XySequences.XySequence.IsClear | src/gov/usgs/earthquake/nshmp/data/XySequence.java:500 | isClear() holds exactly when every y is zero |
| XySequences.XySequence.Set | src/gov/usgs/earthquake/nshmp/data/MutableXySequence.java:39-43 | refused on an immutable sequence and outside it; otherwise only ys[index] changes |
| XySequences.XySequence.SetPoint | src/gov/usgs/earthquake/nshmp/data/XySequence.java:394-401 | a non-mutable point refuses set; a mutable one writes through to set(index, y), with its refusals on an immutable sequence or an index outside it |
| XySequences.XySequence.AddTerm | src/gov/usgs/earthquake/nshmp/data/MutableXySequence.java:45-49 | refused when immutable; otherwise every y gains the term |
| XySequences.XySequence.AddValues | src/gov/usgs/earthquake/nshmp/data/MutableXySequence.java:51-55 | refused when immutable or of the wrong length; otherwise elementwise sum |
| XySequences.XySequence.SameXs | src/gov/usgs/earthquake/nshmp/data/MutableXySequence.java:60 | validateSequence: passes exactly for the same x-values |
| XySequences.XySequence.AddSequence | src/gov/usgs/earthquake/nshmp/data/MutableXySequence.java:57-62 | refused when immutable or on other x-values; otherwise elementwise sum, the argument unchanged unless aliased |
| XySequences.XySequence.MultiplyBy | src/gov/usgs/earthquake/nshmp/data/MutableXySequence.java:64-68 | refused when immutable; otherwise every y is scaled |
| XySequences.XySequence.MultiplySequence | src/gov/usgs/earthquake/nshmp/data/MutableXySequence.java:70-75 | refused when immutable or on other x-values; otherwise elementwise product |
| XySequences.XySequence.Complement | src/gov/usgs/earthquake/nshmp/data/MutableXySequence.java:77-81 | refused when immutable; otherwise y := 1 - y |
| XySequences.XySequence.Clear | src/gov/usgs/earthquake/nshmp/data/MutableXySequence.java:83-87 | refused when immutable; otherwise all zero, and isClear holds |
| XySequences.XySequence.Transform | src/gov/usgs/earthquake/nshmp/data/MutableXySequence.java:89-93 | refused when immutable; otherwise every y is mapped |
| XySequences.XySequence.AddToMap | src/gov/usgs/earthquake/nshmp/data/XySequence.java:532-538 | a present key has this sequence added in place, and a refusal (immutable entry, other x-values) leaves that entry unchanged; an absent key gets a fresh mutable copy; no other entry changes |
| Common.JavaRem | src/gov/usgs/earthquake/nshmp/eq/model/MagUncertainty.java:111-112 | Java's remainder: it takes the sign of the dividend, and agrees with Dafny's % on non-negative dividends |
| MagUncertainties.OddCountPositive | src/gov/usgs/earthquake/nshmp/eq/model/MagUncertainty.java:111-112 | Java's count % 2 == 1 accepts exactly the positive odd counts |
| MagUncertainties.MagUncertainty.constructor | src/gov/usgs/earthquake/nshmp/eq/model/MagUncertainty.java:31-62 | Java's default field values |
| MagUncertainties.MagUncertainty.Create | src/gov/usgs/earthquake/nshmp/eq/model/MagUncertainty.java:64-87 | succeeds exactly for non-empty equal-length deltas and weights, valid cutoffs, sigma >= 0 and fewer than 40 bins; epiCount is the length and the flags follow the counts |
| MagUncertainties.MagUncertainty.CreateFromAtts | src/gov/usgs/earthquake/nshmp/eq/model/MagUncertainty.java:90-119 | an absent map leaves its half at the defaults, cutoffs 0.0 included; deltas and weights must match in length and the aleatory count must be odd; the flags follow the counts |
| DeaggConfigs.CreateEpsilonBins | src/gov/usgs/earthquake/nshmp/calc/DeaggConfig.java:163-172 | one bin per level with index i; the first has no min, the last no max; otherwise level -/+ delta / 2 |
| DeaggConfigs.EpsilonBinsMeet | src/gov/usgs/earthquake/nshmp/calc/DeaggConfig.java:164-168 | neighbouring bins meet exactly when the level spacing equals delta |
| DeaggConfigs.DeaggBuilder.constructor | src/gov/usgs/earthquake/nshmp/calc/DeaggConfig.java:92-104 | every field unset |
| DeaggConfigs.DeaggBuilder.SetImt | src/gov/usgs/earthquake/nshmp/calc/DeaggConfig.java:106-109 | imt overwritten |
| DeaggConfigs.DeaggBuilder.SetSettings | src/gov/usgs/earthquake/nshmp/calc/DeaggConfig.java:111-115 | bins and contributor limit overwritten |
| DeaggConfigs.DeaggBuilder.SetDataModel | src/gov/usgs/earthquake/nshmp/calc/DeaggConfig.java:117-121 | the model and the epsilon bins derived from its levels |
| DeaggConfigs.DeaggBuilder.SetIml | src/gov/usgs/earthquake/nshmp/calc/DeaggConfig.java:127-132 | iml, rate and return period overwritten together |
| DeaggConfigs.DeaggBuilder.SetProbabilityModel | src/gov/usgs/earthquake/nshmp/calc/DeaggConfig.java:134-141 | probability model and truncation overwritten |
| DeaggConfigs.DeaggBuilder.SetContributorLimit | src/gov/usgs/earthquake/nshmp/calc/DeaggConfig.java:143-146 | contributor limit overwritten |
| DeaggConfigs.DeaggBuilder.Build | src/gov/usgs/earthquake/nshmp/calc/DeaggConfig.java:148-160 | the configuration carries the builder's fields and leaves the builder unchanged; an unset boxed double fails on unboxing |
| DeaggConfigs.BuilderFor | src/gov/usgs/earthquake/nshmp/calc/DeaggConfig.java:81-89 | builder(hazard) presets the data model, exceedance model, truncation and settings, and nothing else |
| GridParsers.InvalidKey | src/gov/usgs/earthquake/nshmp/eq/model/GridParser.java:415-423 | the first header key outside the allowed set, none exactly when all are allowed |
| GridParsers.ValidateKeys | src/gov/usgs/earthquake/nshmp/eq/model/GridParser.java:414-436 | passes exactly when every key is an attribute name, lon or lat and both lon and lat are present |
| GridParsers.RowAttributes | src/gov/usgs/earthquake/nshmp/eq/model/GridParser.java:372-385 | every column other than lon and lat becomes an attribute, in column order |
| GridParsers.RowFailure | src/gov/usgs/earthquake/nshmp/eq/model/GridParser.java:375-380 | a row fails exactly when a lon or lat value does not parse |
| GridParsers.RowFailureSticks | src/gov/usgs/earthquake/nshmp/eq/model/GridParser.java:372-385 | a parse failure ends the row |
| GridParsers.ParseRow | src/gov/usgs/earthquake/nshmp/eq/model/GridParser.java:368-386 | the column loop computes RowOf over all columns |
| GridParsers.ErrorSticks | src/gov/usgs/earthquake/nshmp/eq/model/GridParser.java:350-398 | processing stops at the first error |
| GridParsers.NodesAdded | src/gov/usgs/earthquake/nshmp/eq/model/GridParser.java:350-398 | without an error every kept line adds one node, after the existing nodes |
| GridParsers.CountMismatchLine | src/gov/usgs/earthquake/nshmp/eq/model/GridParser.java:349-366 | a wrong value count reports "Incorrect number of values on line n", n counting every line after the header |
| GridParsers.MinFirstBounds | src/gov/usgs/earthquake/nshmp/eq/model/GridParser.java:332 | minMag is at most every first magnitude and is the initial value or one of them |
| GridParsers.MaxLastBounds | src/gov/usgs/earthquake/nshmp/eq/model/GridParser.java:333 | maxMag is at least every last magnitude and is the initial value or one of them |
| GridParsers.AddNodeTracks | src/gov/usgs/earthquake/nshmp/eq/model/GridParser.java:330-334 | setNodeMfd keeps the magnitude range the running range over the nodes |
| GridParsers.ProcessLinesTracks | src/gov/usgs/earthquake/nshmp/eq/model/GridParser.java:330-334 | however many lines are read, minMag and maxMag are the running range over the nodes added |
| GridParsers.GrCheck | src/gov/usgs/earthquake/nshmp/eq/model/GridParser.java:501-505 | collapsibility failures are IllegalState |
| GridParsers.GrCheckPass | src/gov/usgs/earthquake/nshmp/eq/model/GridParser.java:501-505 | the checks pass exactly when every entry shares the first entry's mMin and dMag |
| GridParsers.MaxMMax | src/gov/usgs/earthquake/nshmp/eq/model/GridParser.java:500-504 | mMax is the largest entry mMax and is one of them |
| GridParsers.SummedRates | src/gov/usgs/earthquake/nshmp/eq/model/GridParser.java:510-518 | the rate array keeps the magnitude count |
| GridParsers.CollapsedGR | src/gov/usgs/earthquake/nshmp/eq/model/GridParser.java:494-521 | succeeds exactly for a non-empty, collapsible list whose rate lists fit the cleaned magnitudes and which forms a valid sequence; the empty list, the mMin/dMag mismatch (IllegalState), a long rate list (index out of bounds) and an invalid sequence each fail; a result runs from mMin to the largest mMax with each rate the sum of the entries' rates at that index |
| GridParsers.CollapsedRefused | src/gov/usgs/earthquake/nshmp/eq/model/GridParser.java:501-505 | a failed mMin or dMag check is the outcome of buildCollapsedGR |
| GridParsers.CollapsedChecked | src/gov/usgs/earthquake/nshmp/eq/model/GridParser.java:507-520 | past the checks, a long rate list fails, then an invalid sequence; otherwise the summed rates over the cleaned magnitudes |
| GridParsers.BuildCollapsedGR | src/gov/usgs/earthquake/nshmp/eq/model/GridParser.java:494-521 | the check and accumulation loops compute CollapsedGR |
| GridParsers.AccumulateInPlace | src/gov/usgs/earthquake/nshmp/eq/model/GridParser.java:515-517 | rates[i] += l[i] for every index of l |
| GridParsers.GrFailureSticks | src/gov/usgs/earthquake/nshmp/eq/model/GridParser.java:501-505 | the first failed check decides the outcome |
| GridParsers.SingleMags | src/gov/usgs/earthquake/nshmp/eq/model/GridParser.java:561-563 | one magnitude per entry |
| GridParsers.BuildCollapsedSingle | src/gov/usgs/earthquake/nshmp/eq/model/GridParser.java:554-568 | mags[i] = m_i and rates[i] = rate_i * weight_i, no magnitude spacing; fails exactly when the magnitudes do not form a valid sequence |
| GridParsers.GridParser.constructor | src/gov/usgs/earthquake/nshmp/eq/model/GridParser.java:101-102 | unused, and the range starts inverted: minMag at the upper end and maxMag at the lower |
| GridParsers.GridParser.Parse | src/gov/usgs/earthquake/nshmp/eq/model/GridParser.java:124-135 | refused with "This parser has expired" once used; otherwise the outcome of reading the document, and only a completed read marks the parser used |
| GridParsers.GridParser.SetNodeMfd | src/gov/usgs/earthquake/nshmp/eq/model/GridParser.java:330-334 | minMag, maxMag and the node list after one node are AddNode of the old state |
| GridParsers.GridParser.ProcessLine | src/gov/usgs/earthquake/nshmp/eq/model/GridParser.java:361-388 | one data line: the LineStep outcome, with the state unchanged on failure |
| GridParsers.GridParser.ProcessRateCsv | src/gov/usgs/earthquake/nshmp/eq/model/GridParser.java:336-402 | the state after the file is CsvRun's, and any failure comes out wrapped in a SAXException |
| EqRateExports.Written | src/gov/usgs/earthquake/nshmp/calc/EqRateExport.java:189 | WRITE replaces the file's lines; APPEND adds them after |
| EqRateExports.Lines | src/gov/usgs/earthquake/nshmp/calc/EqRateExport.java:212-223 | one line per rate, in order |
| EqRateExports.WriteRatesAsWritten | src/gov/usgs/earthquake/nshmp/calc/EqRateExport.java:194-241 | the line list after k rates is the optional header then the first k lines |
| EqRateExports.AsWrittenFirstBatch | src/gov/usgs/earthquake/nshmp/calc/EqRateExport.java:189-241 | for the first batch the repeated writes end with the file holding the header and every line once |
| EqRateExports.AsWrittenDuplicates | src/gov/usgs/earthquake/nshmp/calc/EqRateExport.java:212-241 | for a later batch of two rates the code appends the first line twice; the corrected write appends each line once |
| EqRateExports.EqRateExport.constructor | src/gov/usgs/earthquake/nshmp/calc/EqRateExport.java:61-79 | first batch, unused, nothing counted or buffered |
| EqRateExports.EqRateExport.Size | src/gov/usgs/earthquake/nshmp/calc/EqRateExport.java:161-163 | size() is the buffer length, which with the written results makes up every result added |
| EqRateExports.EqRateExport.ResultsProcessed | src/gov/usgs/earthquake/nshmp/calc/EqRateExport.java:154-156 | resultsProcessed() is every result added: written plus buffered |
| EqRateExports.EqRateExport.WriteRates | src/gov/usgs/earthquake/nshmp/calc/EqRateExport.java:183-253 | the file gains the header (first batch only, replacing the file) and one line per buffered rate |
| EqRateExports.EqRateExport.Flush | src/gov/usgs/earthquake/nshmp/calc/EqRateExport.java:143-149 | an empty buffer is left alone; otherwise written, cleared and firstBatch false; the file stays a header plus one line per written result |
| EqRateExports.EqRateExport.Add | src/gov/usgs/earthquake/nshmp/calc/EqRateExport.java:115-127 | refused once expired; otherwise counted and buffered, and a buffer reaching the limit is written in full and counted as a batch |
| EqRateExports.EqRateExport.AddAll | src/gov/usgs/earthquake/nshmp/calc/EqRateExport.java:104-108 | every rate added in order; an expired exporter refuses a non-empty collection on its first rate, unchanged, and passes an empty one |
| EqRateExports.EqRateExport.Expire | src/gov/usgs/earthquake/nshmp/calc/EqRateExport.java:133-138 | the remainder is written and further results are refused |
| EqRateExports.FlushedFile | src/gov/usgs/earthquake/nshmp/calc/EqRateExport.java:143-149 | writing a batch after the written results keeps the file the first header then one line per result |
| EqRateExports.ExpiredFile | src/gov/usgs/earthquake/nshmp/calc/EqRateExport.java:133-149 | after expiry the file holds the header and exactly one line per result added, in order |

## Left out

- Floating-point behaviour: doubles are `real`. NaN appears only where the interface builder stores it, as a distinct value. Rounding, infinities other than the minimum distance's start value, and `DoubleMath.fuzzyCompare` tolerance are not modelled; `fuzzyCompare` is a parameter.
- `hypot`, `sin`/`cos`/`tan`/`sqrt`, `Locations.*`, `LocationVector`, `Faults.dipDirectionRad` and the rupture-scaling `dimensions`/`pointSourceDistance` are function-valued parameters. Only the branch structure and the algebra around them are verified.
- `RuptureFloating.createFloatingRuptures`, `DefaultGriddedSurface`, `ApproxGriddedSurface` and `GriddedSubsetSurface` are foreign collaborators, given as parameters or plain values. `Surfaces.createFloatingSurfaceList` takes the `Math.rint`-rounded floater sizes as integer inputs.
- SAX events in `GridParser` (`startElement`/`endElement`/`characters`), file existence and reading, and `Parsing.*` string splitting are left out, because they are I/O and library wrappers. The CSV lines arrive as already split values, and number parsing is a parameter. `GridParser.Parse` receives the outcome of `sax.parse` as a parameter.
- `MfdHelper`/`Mfds` MFD construction and the `Earthquakes`/`Faults` range checkers are library code; they are parameters (for example `validMag`, the name and trace checks).
- EqRateExport: file paths, `%.8g`/`%.2f`/`%.5f` formatting, `Parsing.join`, Stopwatch and logging are left out. The formatter is a parameter, and `HazardExport.WRITE`/`APPEND` are taken to replace and to append the file's lines. The per-source-type rate files that `writeRates` writes beside the total file follow the same pattern and are not modelled.
- EqRateExports.EqRateExport.ResultsProcessed: the Java int overflow of `resultCount` is not modelled, because the counts are unbounded `int`s.
- MagUncertainty: the failure messages of the array factory leave out their number formatting, and `appendTo` (XML output) is left out. The array factory's aliasing of the caller's `epiDeltas` array is modelled as a value copy.
- The `toString` methods, `Surfaces.getSurfaceInfo`, `XySequence.resampleTo` and `XySequence.trim` are left out. The first two are output-only; `resampleTo` is deprecated and always throws; `trim`'s implementation is not part of this model.
- `CalcFactory.java` (futures and executors), `PointSources.java` (glue and a demo `main`), `PEER_testsMagAreaRelationship.java` (deprecated float numerics), `etc/python/gmmExample.py` and `RuptureFloatingTest.java` (no assertions) are not part of this model.
- Source type and kind enumerations are carried only as far as the modelled code looks at them.

## Findings

| source | as written | input that shows it | evidently intended | confidence | as-written member | corrected member |
|---|---|---|---|---|---|---|
| src/gov/usgs/earthquake/nshmp/calc/EqRateExport.java:212-241 | `Files.write(totalFile, totalLines, options)` sits inside the loop over the buffered rates, so the growing list of lines is written once per rate | a batch after the first (APPEND) holding two rates r1, r2: the file gains line(r1), line(r1), line(r2) | one write per batch, after the loop, so each rate appears once in the total-rate file | not executed | EqRateExports.WriteRatesAsWritten, EqRateExports.AsWrittenDuplicates | EqRateExports.EqRateExport.WriteRates, EqRateExports.FlushedFile, EqRateExports.ExpiredFile |

/**
  DeaggConfig: the settings of one deaggregation, and the reusable builder
  that produces them.  The epsilon bins are derived from the dataset's
  epsilon levels.
 */
module DeaggConfigs {
  import opened Common

  /** An epsilon bin: its position and its bounds, unbounded below for the first bin and above for the last. */
  datatype EpsilonBin = EpsilonBin(index: int, min: Option<real>, max: Option<real>)

  /**
    createEpsilonBins: one bin per level, where bin i spans the level plus or
    minus half the level spacing, except that the first bin has no lower
    bound and the last no upper bound.
   */
  function CreateEpsilonBins(levels: seq<real>, delta: real): (bins: seq<EpsilonBin>)
    ensures |bins| == |levels|
    ensures forall i :: 0 <= i < |bins| ==> bins[i].index == i
    ensures forall i :: 0 <= i < |bins| ==> (bins[i].min.None? <==> i == 0)
    ensures forall i :: 0 <= i < |bins| ==> (bins[i].max.None? <==> i == |bins| - 1)
    ensures forall i :: 0 < i < |bins| ==> bins[i].min.value + delta / 2.0 == levels[i]
    ensures forall i :: 0 <= i < |bins| - 1 ==> bins[i].max.value - delta / 2.0 == levels[i]
  {
    var half := delta / 2.0;
    seq(|levels|, i requires 0 <= i < |levels| =>
      EpsilonBin(i, if i == 0 then None else Some(levels[i] - half),
                    if i == |levels| - 1 then None else Some(levels[i] + half)))
  }

  /**
    Neighbouring bins meet exactly when the levels are evenly spaced by the
    given delta: then the bins tile the epsilon axis with no gap and no overlap.
   */
  lemma EpsilonBinsMeet(levels: seq<real>, delta: real, i: int)
    requires 0 <= i < |levels| - 1
    ensures var bins := CreateEpsilonBins(levels, delta);
      bins[i].max.value == bins[i + 1].min.value <==> levels[i + 1] - levels[i] == delta
  {
    var bins := CreateEpsilonBins(levels, delta);
    assert bins[i].max.value == levels[i] + delta / 2.0;
    assert bins[i + 1].min.value == levels[i + 1] - delta / 2.0;
  }

  /** Collaborators whose contents are not part of this model, identified by value. */
  datatype Bins = Bins(id: int)
  datatype Imt = Imt(name: string)
  datatype ExceedanceModel = ExceedanceModel(name: string)

  /** A deaggregation dataset: the epsilon levels and their spacing (model.rmε). */
  datatype DeaggDataset = DeaggDataset(epsilonLevels: seq<real>, epsilonDelta: real)

  /** CalcConfig.Deagg: the bins and the contributor limit. */
  datatype Settings = Settings(bins: Bins, contributorLimit: real)

  /** A built configuration; references may be null (None), doubles may not. */
  datatype DeaggConfig = DeaggConfig(
    bins: Option<Bins>,
    epsilonBins: Option<seq<EpsilonBin>>,
    contributorLimit: real,
    imt: Option<Imt>,
    model: Option<DeaggDataset>,
    iml: real,
    rate: real,
    returnPeriod: real,
    probabilityModel: Option<ExceedanceModel>,
    truncation: real)

  /**
    DeaggConfig.Builder: every setter overwrites, and build() leaves the
    builder as it was, so one builder serves many configurations.  The boxed
    doubles are unboxed by build(), which fails if any is still null.
   */
  class DeaggBuilder {
    var bins: Option<Bins>
    var epsilonBins: Option<seq<EpsilonBin>>
    var contributorLimit: Option<real>
    var imt: Option<Imt>
    var model: Option<DeaggDataset>
    var iml: Option<real>
    var rate: Option<real>
    var returnPeriod: Option<real>
    var probabilityModel: Option<ExceedanceModel>
    var truncation: Option<real>

    constructor()
      ensures bins.None? && epsilonBins.None? && contributorLimit.None? && imt.None? && model.None?
      ensures iml.None? && rate.None? && returnPeriod.None? && probabilityModel.None? && truncation.None?
    {
      bins, epsilonBins, contributorLimit := None, None, None;
      imt, model := None, None;
      iml, rate, returnPeriod := None, None, None;
      probabilityModel, truncation := None, None;
    }

    method SetImt(imt: Imt)
      modifies this`imt
      ensures this.imt == Some(imt)
    {
      this.imt := Some(imt);
    }

    /** settings(s): the bins and the contributor limit. */
    method SetSettings(settings: Settings)
      modifies this`bins, this`contributorLimit
      ensures bins == Some(settings.bins) && contributorLimit == Some(settings.contributorLimit)
    {
      bins := Some(settings.bins);
      contributorLimit := Some(settings.contributorLimit);
    }

    /** dataModel(m): the dataset, and the epsilon bins derived from its levels. */
    method SetDataModel(model: DeaggDataset)
      modifies this`model, this`epsilonBins
      ensures this.model == Some(model)
      ensures epsilonBins == Some(CreateEpsilonBins(model.epsilonLevels, model.epsilonDelta))
    {
      this.model := Some(model);
      epsilonBins := Some(CreateEpsilonBins(model.epsilonLevels, model.epsilonDelta));
    }

    /** iml(iml, rate, returnPeriod): the three target values, always together. */
    method SetIml(iml: real, rate: real, returnPeriod: real)
      modifies this`iml, this`rate, this`returnPeriod
      ensures this.iml == Some(iml) && this.rate == Some(rate) && this.returnPeriod == Some(returnPeriod)
    {
      this.iml := Some(iml);
      this.rate := Some(rate);
      this.returnPeriod := Some(returnPeriod);
    }

    method SetProbabilityModel(probabilityModel: ExceedanceModel, truncation: real)
      modifies this`probabilityModel, this`truncation
      ensures this.probabilityModel == Some(probabilityModel) && this.truncation == Some(truncation)
    {
      this.probabilityModel := Some(probabilityModel);
      this.truncation := Some(truncation);
    }

    method SetContributorLimit(contributorLimit: real)
      modifies this`contributorLimit
      ensures this.contributorLimit == Some(contributorLimit)
    {
      this.contributorLimit := Some(contributorLimit);
    }

    /**
      build(): no validation of its own; a null boxed double (contributor
      limit, iml, rate, return period, truncation) fails on unboxing.  The
      builder itself is not changed.
     */
    method Build() returns (r: Result<DeaggConfig>)
      ensures r.Success? <==>
        contributorLimit.Some? && iml.Some? && rate.Some? && returnPeriod.Some? && truncation.Some?
      ensures r.Failure? ==> r.error.NullPointer?
      ensures r.Success? ==>
        r.value.bins == bins && r.value.epsilonBins == epsilonBins &&
        r.value.contributorLimit == contributorLimit.value && r.value.imt == imt && r.value.model == model &&
        r.value.iml == iml.value && r.value.rate == rate.value && r.value.returnPeriod == returnPeriod.value &&
        r.value.probabilityModel == probabilityModel && r.value.truncation == truncation.value
    {
      if contributorLimit.None? || iml.None? || rate.None? || returnPeriod.None? || truncation.None? {
        return Failure(NullPointer(""));
      }
      return Success(DeaggConfig(bins, epsilonBins, contributorLimit.value, imt, model, iml.value, rate.value,
                                 returnPeriod.value, probabilityModel, truncation.value));
    }
  }

  /** builder(hazard): a builder preset with the dataset, the exceedance model and the settings of a hazard result. */
  method BuilderFor(model: DeaggDataset, exceedance: ExceedanceModel, truncation: real, settings: Settings)
    returns (b: DeaggBuilder)
    ensures fresh(b)
    ensures b.model == Some(model) && b.epsilonBins == Some(CreateEpsilonBins(model.epsilonLevels, model.epsilonDelta))
    ensures b.probabilityModel == Some(exceedance) && b.truncation == Some(truncation)
    ensures b.bins == Some(settings.bins) && b.contributorLimit == Some(settings.contributorLimit)
    ensures b.imt.None? && b.iml.None? && b.rate.None? && b.returnPeriod.None?
  {
    b := new DeaggBuilder();
    b.SetDataModel(model);
    b.SetProbabilityModel(exceedance, truncation);
    b.SetSettings(settings);
  }
}

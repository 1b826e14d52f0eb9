/**
  MagUncertainty: the epistemic and aleatory magnitude-uncertainty settings
  of a source, built by one of two factories that check their inputs and then
  fill in a fresh object field by field.
 */
module MagUncertainties {
  import opened Common

  /** The attributes of an <Epistemic> element, already converted from text. */
  datatype EpistemicAtts = EpistemicAtts(deltas: seq<real>, weights: seq<real>, cutoff: real)

  /** The attributes of an <Aleatory> element, already converted from text. */
  datatype AleatoryAtts = AleatoryAtts(sigma: real, count: int, cutoff: real, moBalance: bool)

  /** The smallest aleatory bin count the array factory refuses. */
  const MaxAleaCount: int := 40

  /** An aleatory count the attribute factory accepts: odd under Java's remainder. */
  predicate OddCount(count: int)
  {
    JavaRem(count, 2) == 1
  }

  /** Java's `count % 2 == 1` holds exactly for the positive odd counts. */
  lemma OddCountPositive(count: int)
    ensures OddCount(count) <==> count > 0 && count % 2 == 1
  {
  }

  class MagUncertainty {
    var hasEpistemic: bool
    var epiCount: int
    var epiDeltas: Option<seq<real>>
    var epiWeights: Option<seq<real>>
    var epiCutoff: real

    var hasAleatory: bool
    var aleaCount: int
    var aleaSigma: real
    var moBalance: bool
    var aleaCutoff: real

    /** The default constructor: Java's zero values. */
    constructor()
      ensures !hasEpistemic && epiCount == 0 && epiDeltas.None? && epiWeights.None? && epiCutoff == 0.0
      ensures !hasAleatory && aleaCount == 0 && aleaSigma == 0.0 && !moBalance && aleaCutoff == 0.0
    {
      hasEpistemic := false;
      epiCount := 0;
      epiDeltas := None;
      epiWeights := None;
      epiCutoff := 0.0;
      hasAleatory := false;
      aleaCount := 0;
      aleaSigma := 0.0;
      moBalance := false;
      aleaCutoff := 0.0;
    }

    /**
      create(double[], ...): non-empty deltas and weights of one length, a
      valid epistemic cutoff magnitude, a non-negative sigma, fewer than 40
      aleatory bins and a valid aleatory cutoff; the flags follow from the
      counts.  `validMag` is Earthquakes.checkMagnitude's range test.
     */
    static method Create(epiDeltas: seq<real>, epiWeights: seq<real>, epiCutoff: real, aleaSigma: real,
                         aleaCount: int, moBalance: bool, aleaCutoff: real, validMag: real -> bool)
      returns (r: Result<MagUncertainty>)
      ensures r.Success? <==>
        |epiDeltas| > 0 && |epiWeights| > 0 && |epiDeltas| == |epiWeights| && validMag(epiCutoff) &&
        aleaSigma >= 0.0 && aleaCount < MaxAleaCount && validMag(aleaCutoff)
      ensures r.Failure? ==> r.error.IllegalArgument?
      ensures r.Success? ==>
        var mu := r.value;
        fresh(mu) &&
        mu.epiDeltas == Some(epiDeltas) && mu.epiWeights == Some(epiWeights) && mu.epiCutoff == epiCutoff &&
        mu.epiCount == |epiDeltas| && (mu.hasEpistemic <==> mu.epiCount > 1) &&
        mu.aleaSigma == aleaSigma && mu.aleaCount == aleaCount && mu.moBalance == moBalance &&
        mu.aleaCutoff == aleaCutoff && (mu.hasAleatory <==> aleaCount > 1 && aleaSigma != 0.0)
    {
      var mu := new MagUncertainty();
      if !(|epiDeltas| > 0) || !(|epiWeights| > 0) || |epiDeltas| != |epiWeights| {
        return Failure(IllegalArgument(""));
      }
      mu.epiDeltas := Some(epiDeltas);
      mu.epiWeights := Some(epiWeights);
      mu.epiCount := |epiDeltas|;
      mu.hasEpistemic := mu.epiCount > 1;
      if !validMag(epiCutoff) {
        return Failure(IllegalArgument("invalid magnitude"));
      }
      mu.epiCutoff := epiCutoff;
      if !(aleaSigma >= 0.0) || !(aleaCount < MaxAleaCount) {
        return Failure(IllegalArgument(""));
      }
      mu.aleaSigma := aleaSigma;
      mu.aleaCount := aleaCount;
      mu.moBalance := moBalance;
      mu.hasAleatory := mu.aleaCount > 1 && mu.aleaSigma != 0.0;
      if !validMag(aleaCutoff) {
        return Failure(IllegalArgument("invalid magnitude"));
      }
      mu.aleaCutoff := aleaCutoff;
      return Success(mu);
    }

    /**
      create(Map, Map): each absent attribute map leaves its half at the
      defaults (flags false); epistemic deltas and weights must have one
      length, and the aleatory count must be odd.
     */
    static method CreateFromAtts(epi: Option<EpistemicAtts>, alea: Option<AleatoryAtts>)
      returns (r: Result<MagUncertainty>)
      ensures r.Success? <==>
        (epi.Some? ==> |epi.value.deltas| == |epi.value.weights|) && (alea.Some? ==> OddCount(alea.value.count))
      ensures r.Failure? ==> r.error.IllegalArgument?
      ensures r.Success? ==>
        var mu := r.value;
        fresh(mu) &&
        (epi.None? ==>
           !mu.hasEpistemic && mu.epiCount == 0 && mu.epiDeltas.None? && mu.epiWeights.None? && mu.epiCutoff == 0.0) &&
        (epi.Some? ==>
           mu.epiDeltas == Some(epi.value.deltas) && mu.epiWeights == Some(epi.value.weights) &&
           mu.epiCutoff == epi.value.cutoff && mu.epiCount == |epi.value.deltas| &&
           (mu.hasEpistemic <==> mu.epiCount > 1)) &&
        (alea.None? ==>
           !mu.hasAleatory && mu.aleaCount == 0 && mu.aleaSigma == 0.0 && !mu.moBalance && mu.aleaCutoff == 0.0) &&
        (alea.Some? ==>
           mu.aleaSigma == alea.value.sigma && mu.aleaCount == alea.value.count &&
           mu.aleaCutoff == alea.value.cutoff && mu.moBalance == alea.value.moBalance &&
           (mu.hasAleatory <==> alea.value.count > 1 && alea.value.sigma != 0.0))
    {
      var mu := new MagUncertainty();
      if epi.Some? {
        mu.epiDeltas := Some(epi.value.deltas);
        mu.epiWeights := Some(epi.value.weights);
        mu.epiCutoff := epi.value.cutoff;
        if |epi.value.deltas| != |epi.value.weights| {
          return Failure(IllegalArgument("Epistemic deltas and mags are different lengths"));
        }
        mu.epiCount := |epi.value.deltas|;
        mu.hasEpistemic := mu.epiCount > 1;
      }
      if alea.Some? {
        mu.aleaSigma := alea.value.sigma;
        mu.aleaCount := alea.value.count;
        mu.aleaCutoff := alea.value.cutoff;
        if JavaRem(mu.aleaCount, 2) != 1 {
          return Failure(IllegalArgument("Aleatory bins should be odd so they center on mean magnitude"));
        }
        mu.moBalance := alea.value.moBalance;
        mu.hasAleatory := mu.aleaCount > 1 && mu.aleaSigma != 0.0;
      }
      return Success(mu);
    }
  }
}

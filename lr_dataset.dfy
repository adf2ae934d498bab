/** The logistic-regression dataset: argument names, one value list per sample and one
    label per sample, plus the flag that records whether the names were set. */
module LogisticRegressionData {
  import opened JavaLang

  class LogisticRegressionDataset {
    var argNames: seq<string>
    var samples: seq<seq<real>>
    var samplesClassification: seq<real>
    var argSettingFinished: bool

    /** Every sample has its label, and before the names are set nothing is stored. */
    ghost predicate Valid()
      reads this
    {
      && |samples| == |samplesClassification|
      && (!argSettingFinished ==> argNames == [] && samples == [])
    }

    constructor ()
      ensures Valid()
      ensures argNames == [] && samples == [] && samplesClassification == []
      ensures !argSettingFinished
    {
      argNames, samples, samplesClassification := [], [], [];
      argSettingFinished := false;
    }

    /** Replaces the names and forgets every stored sample. */
    method SetArgNames(names: seq<string>)
      modifies this
      ensures Valid()
      ensures argNames == names && argSettingFinished
      ensures samples == [] && samplesClassification == []
    {
      argNames := [];
      samples := [];
      samplesClassification := [];
      argNames := argNames + names;
      argSettingFinished := true;
    }

    /** Stores the samples and labels when their counts agree and the first sample has one
        value per argument name but the last (the class column). Returns `Ok(false)` and
        changes nothing on a mismatch; with no samples at all `samples.get(0)` throws. */
    method SetSamples(newSamples: seq<seq<real>>, newClassification: seq<real>)
      returns (r: Result<bool>)
      requires Valid()
      modifies this
      ensures Valid()
      ensures r == Accepts(old(argNames), newSamples, newClassification)
      ensures argNames == old(argNames) && argSettingFinished == old(argSettingFinished)
      ensures if r == Ok(true)
              then samples == newSamples && samplesClassification == newClassification
              else samples == old(samples) && samplesClassification == old(samplesClassification)
    {
      if |newSamples| != |newClassification| {
        return Ok(false);
      }
      if |newSamples| == 0 {
        return Throws(IndexOutOfBounds);
      }
      var sampleArgNum := |newSamples[0]|;
      if sampleArgNum != |argNames| - 1 {
        return Ok(false);
      }
      samples := [];
      samplesClassification := [];
      samples := samples + newSamples;
      samplesClassification := samplesClassification + newClassification;
      r := Ok(true);
    }

    /** Empties all three lists and forgets that the names were set. */
    method Clear()
      modifies this
      ensures Valid()
      ensures argNames == [] && samples == [] && samplesClassification == []
      ensures !argSettingFinished
    {
      argNames := [];
      samples := [];
      samplesClassification := [];
      argSettingFinished := false;
    }

    /** A copy of the samples, built value by value. */
    method GetSamplesValueVector() returns (vectX: seq<seq<real>>)
      ensures |vectX| == |samples|
      ensures forall i :: 0 <= i < |samples| ==> |vectX[i]| == |samples[i]|
      ensures forall i, j :: 0 <= i < |samples| && 0 <= j < |samples[i]| ==> vectX[i][j] == samples[i][j]
    {
      vectX := [];
      var i := 0;
      while i < |samples|
        invariant 0 <= i <= |samples|
        invariant vectX == samples[..i]
      {
        var vectXi: seq<real> := [];
        var j := 0;
        while j < |samples[i]|
          invariant 0 <= j <= |samples[i]|
          invariant vectXi == samples[i][..j]
        {
          vectXi := vectXi + [samples[i][j]];
          j := j + 1;
        }
        assert vectXi == samples[i];
        assert samples[..i + 1] == samples[..i] + [samples[i]];
        vectX := vectX + [vectXi];
        i := i + 1;
      }
    }

    /** A copy of the labels, built value by value. */
    method GetSamplesClassificationVector() returns (vectY: seq<real>)
      ensures |vectY| == |samplesClassification|
      ensures forall i :: 0 <= i < |samplesClassification| ==> vectY[i] == samplesClassification[i]
    {
      vectY := [];
      var i := 0;
      while i < |samplesClassification|
        invariant 0 <= i <= |samplesClassification|
        invariant vectY == samplesClassification[..i]
      {
        vectY := vectY + [samplesClassification[i]];
        i := i + 1;
      }
    }
  }

  /** The outcome of `setSamples` for the names held at the time of the call. */
  function Accepts(names: seq<string>, newSamples: seq<seq<real>>, newClassification: seq<real>): (r: Result<bool>)
    ensures r == Ok(true) <==>
              |newSamples| == |newClassification| > 0 && |newSamples[0]| + 1 == |names|
    ensures r.Throws? <==> newSamples == [] && newClassification == []
  {
    if |newSamples| != |newClassification| then Ok(false)
    else if |newSamples| == 0 then Throws(IndexOutOfBounds)
    else Ok(|newSamples[0]| == |names| - 1)
  }

  /** Without argument names (a fresh or cleared dataset) no sample list is ever stored:
      the first sample would need -1 values. */
  lemma NoNamesNoSamples(newSamples: seq<seq<real>>, newClassification: seq<real>)
    ensures Accepts([], newSamples, newClassification) != Ok(true)
  {
  }

  /** Only the first sample's length is checked: a later sample of any length is stored. */
  lemma OnlyFirstSampleChecked(names: seq<string>, first: seq<real>, later: seq<real>, labels: seq<real>)
    requires |first| + 1 == |names| && |labels| == 2
    ensures Accepts(names, [first, later], labels) == Ok(true)
  {
  }
}

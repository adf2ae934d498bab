/** The structural part of logistic regression: argument checks, the intercept column, the
    0.5 threshold on the linear score and the recall rate. The gradient descent itself lies
    outside the model; its result is an input of `Execute`. */
module LogisticRegressionModel {
  import opened JavaLang

  /** The linear score x·w, summed from the first term as a matrix product does. */
  function Score(x: seq<real>, w: seq<real>): (s: real)
    requires |x| == |w|
    ensures (forall k :: 0 <= k < |w| ==> w[k] == 0.0) ==> s == 0.0
    ensures (forall k :: 0 <= k < |x| ==> x[k] == 0.0) ==> s == 0.0
  {
    if |x| == 0 then 0.0 else Score(x[..|x| - 1], w[..|w| - 1]) + x[|x| - 1] * w[|w| - 1]
  }

  /** The class given to a score: 0 up to and including 0.5, 1 above. */
  function Classification(score: real): (y: real)
    ensures y == 0.0 <==> score <= 0.5
    ensures y == 1.0 <==> score > 0.5
  {
    if score <= 0.5 then 0.0 else 1.0
  }

  /** The exception the constructor throws for these arguments, if any. */
  function ConstructorCheck(vectX: seq<seq<real>>, vectY: seq<real>): (e: Option<Exception>)
    ensures e.None? <==> |vectX| > 0 && |vectX[0]| > 0 && |vectX| == |vectY|
    ensures e.Some? ==> e.value.IllegalArgument?
  {
    if |vectX| == 0 then Some(IllegalArgument("Error: empty sample. "))
    else if |vectX[0]| == 0 then Some(IllegalArgument("Error: empty sample arguments. "))
    else if |vectX| != |vectY| then Some(IllegalArgument("Error: invalid sample parameters. "))
    else None
  }

  /** The exception `classify` throws for these samples and this weight count, if any: every
      sample must hold one value per weight but the intercept's. */
  function ClassifyCheck(vectX: seq<seq<real>>, dimVectW: nat): (e: Option<Exception>)
    ensures e.None? <==>
              |vectX| > 0 && |vectX[0]| > 0 && forall i :: 0 <= i < |vectX| ==> |vectX[i]| + 1 == dimVectW
    ensures e.Some? ==> e.value.IllegalArgument?
  {
    if |vectX| == 0 then Some(IllegalArgument("Error: empty sample. "))
    else if |vectX[0]| == 0 then Some(IllegalArgument("Error: invalid sample arguments. "))
    else if exists i :: 0 <= i < |vectX| && |vectX[i]| + 1 != dimVectW then Some(IllegalArgument("Error: vector of X invalid. "))
    else None
  }

  /** Before `execute` has stored weights, `classify` throws on every input. */
  lemma ClassifyNeedsWeights(vectX: seq<seq<real>>)
    ensures ClassifyCheck(vectX, 0).Some?
  {
  }

  /** How many positions carry the same class once both are cut to `int`. */
  function Hits(sampleClass: seq<real>, classifyClass: seq<real>): (n: nat)
    requires |sampleClass| <= |classifyClass|
    ensures n <= |sampleClass|
  {
    if |sampleClass| == 0 then 0
    else
      var k := |sampleClass| - 1;
      Hits(sampleClass[..k], classifyClass) + (if TruncToInt(sampleClass[k]) == TruncToInt(classifyClass[k]) then 1 else 0)
  }

  /** Labels that agree everywhere are all hits, so a perfect classification has rate 1. */
  lemma {:induction false} HitsOfEqualLabels(labels: seq<real>, classified: seq<real>)
    requires |labels| <= |classified| && labels == classified[..|labels|]
    ensures Hits(labels, classified) == |labels|
  {
    if |labels| > 0 {
      var k := |labels| - 1;
      assert labels[..k] == classified[..k];
      HitsOfEqualLabels(labels[..k], classified);
      assert labels[k] == classified[k];
    }
  }

  /** `classifySamples`: one class per row of the design matrix. */
  method ClassifySamples(matW: seq<real>, matX: seq<seq<real>>) returns (vectClassify: seq<real>)
    requires forall i :: 0 <= i < |matX| ==> |matX[i]| == |matW|
    ensures |vectClassify| == |matX|
    ensures forall i :: 0 <= i < |matX| ==> vectClassify[i] == Classification(Score(matX[i], matW))
    ensures forall i :: 0 <= i < |matX| ==> (vectClassify[i] == 0.0 <==> Score(matX[i], matW) <= 0.5)
  {
    vectClassify := [];
    var i := 0;
    while i < |matX|
      invariant 0 <= i <= |matX|
      invariant |vectClassify| == i
      invariant forall k :: 0 <= k < i ==> vectClassify[k] == Classification(Score(matX[k], matW))
    {
      var possibility2BeZero := ScoreOf(matX[i], matW);
      if possibility2BeZero <= 0.5 {
        vectClassify := vectClassify + [0.0];
      } else {
        vectClassify := vectClassify + [1.0];
      }
      i := i + 1;
    }
  }

  /** One entry of the product of a row and the weight column. */
  method ScoreOf(x: seq<real>, w: seq<real>) returns (s: real)
    requires |x| == |w|
    ensures s == Score(x, w)
  {
    s := 0.0;
    var k := 0;
    while k < |x|
      invariant 0 <= k <= |x|
      invariant s == Score(x[..k], w[..k])
    {
      assert x[..k + 1][..k] == x[..k] && w[..k + 1][..k] == w[..k];
      s := s + x[k] * w[k];
      k := k + 1;
    }
    assert x[..k] == x && w[..k] == w;
  }

  /** `recallRate`: the share of samples whose class the classification got right. Java's
      0/0 is NaN, written `None` here. */
  method RecallRate(sampleClass: seq<real>, classifyClass: seq<real>) returns (rate: Option<real>)
    requires |sampleClass| <= |classifyClass|
    ensures rate.None? <==> |sampleClass| == 0
    ensures rate.Some? ==> rate.value == Hits(sampleClass, classifyClass) as real / |sampleClass| as real
    ensures rate.Some? ==> 0.0 <= rate.value <= 1.0
  {
    var hits := 0;
    var sampleNum := |sampleClass|;
    var i := 0;
    while i < sampleNum
      invariant 0 <= i <= sampleNum
      invariant hits == Hits(sampleClass[..i], classifyClass)
    {
      assert sampleClass[..i + 1][..i] == sampleClass[..i];
      if TruncToInt(sampleClass[i]) == TruncToInt(classifyClass[i]) {
        hits := hits + 1;
      }
      i := i + 1;
    }
    assert sampleClass[..i] == sampleClass;
    if sampleNum == 0 {
      return None;
    }
    ShareInUnitInterval(hits, sampleNum);
    rate := Some(hits as real / sampleNum as real);
  }

  lemma ShareInUnitInterval(part: nat, whole: nat)
    requires 0 <= part <= whole && whole > 0
    ensures 0.0 <= part as real / whole as real <= 1.0
  {
    assert part as real / whole as real * whole as real == part as real;
  }

  class LogisticRegression {
    var constructedCorrectly: bool
    var vectX: seq<seq<real>>
    var vectY: seq<real>
    var vectW: seq<real>
    var regularized: bool
    var optimizedVectW: seq<real>

    /** What a constructed object keeps: as many labels as samples, and the first sample with
        its intercept holds one value per weight. */
    ghost predicate Valid()
      reads this
    {
      && constructedCorrectly
      && |vectX| == |vectY| > 0
      && |vectW| >= 2
      && |vectX[0]| == |vectW|
      && forall i :: 0 <= i < |vectX| ==> |vectX[i]| >= 1 && vectX[i][0] == 1.0
    }

    /** The constructor past its argument checks: M + 1 zero weights, and 1.0 put in front of
        every sample. */
    constructor (xs: seq<seq<real>>, ys: seq<real>, regularize: bool)
      requires ConstructorCheck(xs, ys).None?
      ensures Valid()
      ensures |vectW| == |xs[0]| + 1 && forall k :: 0 <= k < |vectW| ==> vectW[k] == 0.0
      ensures |vectX| == |xs| && forall i :: 0 <= i < |xs| ==> vectX[i] == [1.0] + xs[i]
      ensures vectY == ys && regularized == regularize && optimizedVectW == []
    {
      var w: seq<real> := [];
      var m := |xs[0]|;
      var i := 0;
      while i < m + 1
        invariant 0 <= i <= m + 1
        invariant |w| == i && forall k :: 0 <= k < i ==> w[k] == 0.0
      {
        w := w + [0.0];
        i := i + 1;
      }
      var x := xs;
      i := 0;
      while i < |xs|
        invariant 0 <= i <= |xs| && |x| == |xs|
        invariant forall k :: 0 <= k < i ==> x[k] == [1.0] + xs[k]
        invariant forall k :: i <= k < |xs| ==> x[k] == xs[k]
      {
        x := x[i := [1.0] + x[i]];
        i := i + 1;
      }
      vectW := w;
      vectX := x;
      vectY := ys;
      regularized := regularize;
      optimizedVectW := [];
      constructedCorrectly := true;
    }

    /** `new LogisticRegression(vectX, vectY, regularized)`, which throws
        `IllegalArgumentException` on bad arguments before building anything. */
    static method Create(xs: seq<seq<real>>, ys: seq<real>, regularize: bool)
      returns (r: Result<LogisticRegression>)
      ensures r.Throws? <==> ConstructorCheck(xs, ys).Some?
      ensures r.Throws? ==> r.error == ConstructorCheck(xs, ys).value
      ensures r.Ok? ==> fresh(r.value) && r.value.Valid() && r.value.vectY == ys
      ensures r.Ok? ==> |r.value.vectX| == |xs|
      ensures r.Ok? ==> forall i :: 0 <= i < |xs| ==> r.value.vectX[i] == [1.0] + xs[i]
      ensures r.Ok? ==> r.value.vectW == seq(|xs[0]| + 1, _ => 0.0)
      ensures r.Ok? ==> r.value.optimizedVectW == [] && r.value.regularized == regularize
    {
      if |xs| == 0 {
        return Throws(IllegalArgument("Error: empty sample. "));
      }
      if |xs[0]| == 0 {
        return Throws(IllegalArgument("Error: empty sample arguments. "));
      }
      if |xs| != |ys| {
        return Throws(IllegalArgument("Error: invalid sample parameters. "));
      }
      var lr := new LogisticRegression(xs, ys, regularize);
      r := Ok(lr);
    }

    /** The check at the top of `execute`: every sample, intercept included, has one value
        per weight. Later samples are not checked by the constructor, so this can fail. */
    method RowsFitWeights() returns (ok: bool)
      ensures ok <==> forall i :: 0 <= i < |vectX| ==> |vectX[i]| == |vectW|
    {
      var dimVectW := |vectW|;
      var i := 0;
      while i < |vectX|
        invariant 0 <= i <= |vectX|
        invariant forall k :: 0 <= k < i ==> |vectX[k]| == dimVectW
      {
        if |vectX[i]| != dimVectW {
          return false;
        }
        i := i + 1;
      }
      ok := true;
    }

    /** `execute` with the gradient descent given as its result `trainedW`: nothing is stored
        when the object is not constructed correctly or a sample does not fit the weights;
        otherwise the weights are appended, one by one, to `optimizedVectW`. */
    method Execute(trainedW: seq<real>)
      requires |trainedW| == |vectW|
      modifies this`optimizedVectW
      ensures var fits := old(constructedCorrectly) && forall i :: 0 <= i < |vectX| ==> |vectX[i]| == |vectW|;
              optimizedVectW == if fits then old(optimizedVectW) + trainedW else old(optimizedVectW)
    {
      if !constructedCorrectly {
        return;
      }
      var fits := RowsFitWeights();
      if !fits {
        return;
      }
      var i := 0;
      while i < |vectW|
        invariant 0 <= i <= |vectW|
        invariant optimizedVectW == old(optimizedVectW) + trainedW[..i]
      {
        optimizedVectW := optimizedVectW + [trainedW[i]];
        i := i + 1;
      }
      assert trainedW[..i] == trainedW;
    }

    /** `getOptimizedVectW`: the stored weights, as a value the caller cannot use to change
        the object. */
    method GetOptimizedVectW() returns (w: seq<real>)
      ensures |w| == |optimizedVectW| && forall k :: 0 <= k < |w| ==> w[k] == optimizedVectW[k]
    {
      w := optimizedVectW[..];
    }

    /** `classify`: each sample gets the intercept in front and the class of its score
        against the stored weights; bad input throws `IllegalArgumentException`. */
    method Classify(xs: seq<seq<real>>) returns (r: Result<seq<real>>)
      ensures r.Throws? <==> ClassifyCheck(xs, |optimizedVectW|).Some?
      ensures r.Throws? ==> r.error == ClassifyCheck(xs, |optimizedVectW|).value
      ensures r.Ok? ==> |r.value| == |xs|
      ensures r.Ok? ==> forall i :: 0 <= i < |xs| ==>
                |xs[i]| + 1 == |optimizedVectW| &&
                r.value[i] == Classification(Score([1.0] + xs[i], optimizedVectW))
    {
      if |xs| == 0 {
        return Throws(IllegalArgument("Error: empty sample. "));
      }
      if |xs[0]| == 0 {
        return Throws(IllegalArgument("Error: invalid sample arguments. "));
      }
      var dimVectW := |optimizedVectW|;
      var arrayX: seq<seq<real>> := [];
      var i := 0;
      while i < |xs|
        invariant 0 <= i <= |xs| && |arrayX| == i
        invariant forall k :: 0 <= k < i ==> |xs[k]| + 1 == dimVectW && arrayX[k] == [1.0] + xs[k]
      {
        if |xs[i]| != dimVectW - 1 {
          return Throws(IllegalArgument("Error: vector of X invalid. "));
        }
        arrayX := arrayX + [[1.0] + xs[i]];
        i := i + 1;
      }
      var vectClassify := ClassifySamples(optimizedVectW, arrayX);
      r := Ok(vectClassify);
    }
  }
}

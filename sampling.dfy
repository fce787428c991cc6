/**
 * The sampling loops: `segments + 1` equally spaced abscissae from A to B,
 * each evaluated through `evaluateFunction`.
 */
module Sampling {
  import opened Numbers
  import opened Text
  import opened Evaluation
  import opened Limits
  import opened Filtering

  /** `segmentosCurva`: the resolution of the 2D curves. */
  const CurveSegments: nat := 100
  /** `segmentosRadial`: the resolution of the solid profiles, and the lathe's angular steps. */
  const RadialSegments: nat := 60

  /** One evaluated point (x, y). A 2D polyline vertex `Vector3(x, y, 0)` is a sample. */
  datatype Sample = Sample(x: real, y: Number)

  /** `step = (B - A) / n`, computed exactly. */
  function Step(lim: Interval, n: nat): real
    requires n > 0
  {
    (lim.b - lim.a) / (n as real)
  }

  /** `x = A + i * step`, computed exactly. */
  function SampleX(lim: Interval, n: nat, i: int): real
    requires n > 0
  {
    lim.a + (i as real) * Step(lim, n)
  }

  /** The i-th sample of `formula`. */
  function SampleAt(eval: Evaluator, formula: string, lim: Interval, n: nat, i: int): Sample
    requires n > 0
  {
    var x := SampleX(lim, n, i);
    Sample(x, EvaluateFunction(eval, formula, x))
  }

  /** All samples a loop `for (i = 0; i <= n; i++)` visits, in order. */
  function Samples(eval: Evaluator, formula: string, lim: Interval, n: nat): seq<Sample>
    requires n > 0
  {
    seq(n + 1, i => SampleAt(eval, formula, lim, n, i))
  }

  predicate IncreasingX(s: seq<Sample>) {
    forall i, j :: 0 <= i < j < |s| ==> s[i].x < s[j].x
  }

  /**
   * The loop visits exactly n + 1 points, the first at A and the last at B;
   * over a proper interval the abscissae strictly increase, and over a
   * collapsed one every sample is the same.
   */
  lemma SamplesSpanInterval(eval: Evaluator, formula: string, lim: Interval, n: nat)
    requires n > 0
    ensures |Samples(eval, formula, lim, n)| == n + 1
    ensures Samples(eval, formula, lim, n)[0].x == lim.a
    ensures Samples(eval, formula, lim, n)[n].x == lim.b
    ensures lim.a < lim.b ==> IncreasingX(Samples(eval, formula, lim, n))
    ensures lim.a == lim.b ==> forall i :: 0 <= i <= n ==> Samples(eval, formula, lim, n)[i] == Samples(eval, formula, lim, n)[0]
  {
    var s := Samples(eval, formula, lim, n);
    var step := Step(lim, n);
    assert (n as real) * step == lim.b - lim.a;
    if lim.a < lim.b {
      assert step > 0.0;
      forall i, j | 0 <= i < j < |s|
        ensures s[i].x < s[j].x
      {
        assert s[i].x == lim.a + (i as real) * step;
        assert s[j].x == lim.a + (j as real) * step;
        assert s[j].x - s[i].x == ((j - i) as real) * step;
        assert ((j - i) as real) * step > 0.0;
      }
    }
  }

  /** The commas of a formula may be replaced before sampling without changing a sample. */
  lemma SamplesIgnorePriorNormalisation(eval: Evaluator, formula: string, lim: Interval, n: nat)
    requires n > 0
    ensures Samples(eval, ReplaceCommas(formula), lim, n) == Samples(eval, formula, lim, n)
  {
    forall i | 0 <= i <= n
      ensures SampleAt(eval, ReplaceCommas(formula), lim, n, i) == SampleAt(eval, formula, lim, n, i)
    {
      EvaluationIgnoresPriorNormalisation(eval, formula, SampleX(lim, n, i));
    }
  }

  /** `!isNaN(y)`: the test of the multi-curve loop. */
  predicate IsDefined(smp: Sample) {
    !IsNaN(smp.y)
  }

  /** The samples the multi-curve loop pushes. */
  function DefinedSamples(s: seq<Sample>): seq<Sample> {
    Filter(s, IsDefined)
  }

  /** The sampling loop of `generarCurva2D`: every sample is pushed, unfiltered. */
  method SampleCurve(eval: Evaluator, formula: string, lim: Interval, n: nat) returns (points: seq<Sample>)
    requires n > 0
    ensures points == Samples(eval, formula, lim, n)
  {
    points := [];
    var step := Step(lim, n);
    ghost var s := Samples(eval, formula, lim, n);
    var i := 0;
    while i <= n
      invariant 0 <= i <= n + 1
      invariant points == s[..i]
    {
      var x := lim.a + (i as real) * step;
      var y := EvaluateFunction(eval, formula, x);
      assert x == SampleX(lim, n, i);
      assert s[i] == SampleAt(eval, formula, lim, n, i) == Sample(x, y);
      assert s[..i + 1] == s[..i] + [s[i]];
      points := points + [Sample(x, y)];
      i := i + 1;
    }
    assert s[..n + 1] == s;
  }

  /** The sampling loop of `generarCurvas2D`: a sample is pushed only when y is not NaN. */
  method SampleDefined(eval: Evaluator, formula: string, lim: Interval, n: nat) returns (points: seq<Sample>)
    requires n > 0
    ensures points == DefinedSamples(Samples(eval, formula, lim, n))
  {
    points := [];
    var step := Step(lim, n);
    ghost var s := Samples(eval, formula, lim, n);
    var i := 0;
    while i <= n
      invariant 0 <= i <= n + 1
      invariant points == DefinedSamples(s[..i])
    {
      var x := lim.a + (i as real) * step;
      var y := EvaluateFunction(eval, formula, x);
      assert x == SampleX(lim, n, i);
      assert s[i] == SampleAt(eval, formula, lim, n, i) == Sample(x, y);
      assert s[..i + 1][..i] == s[..i];
      if !IsNaN(y) {
        points := points + [Sample(x, y)];
      }
      i := i + 1;
    }
    assert s[..n + 1] == s;
  }
}

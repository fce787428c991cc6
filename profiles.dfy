/**
 * The lathe profiles of `generarSolidoX` and `generarSolidoY`: which samples
 * each keeps, the point each sample becomes, and the loops that build them.
 */
module Profiles {
  import opened Numbers
  import opened Text
  import opened Evaluation
  import opened Limits
  import opened Filtering
  import opened Sampling

  /** A profile point `Vector2(u, v)`: u is the distance from the axis, v the position along it. */
  datatype Vec2 = Vec2(u: Number, v: Number)

  /** `!isNaN(y) && y >= 0`: the test of the loop of `generarSolidoX`. */
  predicate KeptAboutX(smp: Sample) {
    !IsNaN(smp.y) && AtLeastZero(smp.y)
  }

  /** `Vector2(Math.abs(y), x)`. */
  function PointAboutX(smp: Sample): Vec2 {
    Vec2(Abs(smp.y), Finite(smp.x))
  }

  function ProfileAboutX(s: seq<Sample>): seq<Vec2> {
    KeepMap(s, KeptAboutX, PointAboutX)
  }

  /** `!isNaN(y)`: the test of the loop of `generarSolidoY`. */
  predicate KeptAboutY(smp: Sample) {
    !IsNaN(smp.y)
  }

  /** `Vector2(Math.abs(x), y)`. */
  function PointAboutY(smp: Sample): Vec2 {
    Vec2(Abs(Finite(smp.x)), smp.y)
  }

  function ProfileAboutY(s: seq<Sample>): seq<Vec2> {
    KeepMap(s, KeptAboutY, PointAboutY)
  }

  predicate XBefore(a: Sample, b: Sample) {
    a.x < b.x
  }

  /** Strictly earlier along the axis of revolution. */
  predicate AxialBefore(p: Vec2, q: Vec2) {
    p.v.Finite? && q.v.Finite? && p.v.r < q.v.r
  }

  /**
   * A point is on the X profile exactly when some sample has a y that is
   * not NaN and not negative, and the point is (y, x): the radius is that
   * y itself, so a negative sample is dropped, never mirrored.
   */
  lemma ProfileAboutXMembership(s: seq<Sample>, p: Vec2)
    ensures p in ProfileAboutX(s) <==>
            exists smp :: smp in s && !IsNaN(smp.y) && AtLeastZero(smp.y) && p == Vec2(smp.y, Finite(smp.x))
  {
    KeepMapMembership(s, KeptAboutX, PointAboutX, p);
  }

  /** Every radius of the X profile is a non-negative number, and every axial position is finite. */
  lemma ProfileAboutXRadii(s: seq<Sample>)
    ensures forall i :: 0 <= i < |ProfileAboutX(s)| ==>
              AtLeastZero(ProfileAboutX(s)[i].u) && ProfileAboutX(s)[i].v.Finite?
  {
    forall i | 0 <= i < |ProfileAboutX(s)|
      ensures AtLeastZero(ProfileAboutX(s)[i].u) && ProfileAboutX(s)[i].v.Finite?
    {
      ProfileAboutXMembership(s, ProfileAboutX(s)[i]);
    }
  }

  /** The X profile keeps sampling order: over increasing abscissae its axial positions strictly increase. */
  lemma ProfileAboutXOrdered(s: seq<Sample>)
    requires IncreasingX(s)
    ensures forall i, j :: 0 <= i < j < |ProfileAboutX(s)| ==> AxialBefore(ProfileAboutX(s)[i], ProfileAboutX(s)[j])
  {
    KeepMapOrdered(s, KeptAboutX, PointAboutX, XBefore, AxialBefore);
  }

  /** The heights of the samples, in order. */
  function Heights(s: seq<Sample>): seq<Number> {
    seq(|s|, i requires 0 <= i < |s| => s[i].y)
  }

  /** The samples the Y filter drops are exactly those whose y is NaN. */
  lemma {:induction false} DroppedAboutYCountsNaN(s: seq<Sample>)
    ensures Dropped(s, KeptAboutY) == multiset(Heights(s))[NaN]
    decreases |s|
  {
    if s != [] {
      var init := s[..|s| - 1];
      DroppedAboutYCountsNaN(init);
      assert Heights(s) == Heights(init) + [s[|s| - 1].y];
    }
  }

  /** The Y profile has one point per sample whose y is not NaN: the sign of x never drops a sample. */
  lemma ProfileAboutYLength(s: seq<Sample>)
    ensures |ProfileAboutY(s)| == |s| - multiset(Heights(s))[NaN]
  {
    KeepMapLength(s, KeptAboutY, PointAboutY);
    DroppedAboutYCountsNaN(s);
  }

  /** A point is on the Y profile exactly when some sample has a y that is not NaN and the point is (|x|, y). */
  lemma ProfileAboutYMembership(s: seq<Sample>, p: Vec2)
    ensures p in ProfileAboutY(s) <==>
            exists smp :: smp in s && !IsNaN(smp.y) && p == Vec2(Finite(if smp.x < 0.0 then -smp.x else smp.x), smp.y)
  {
    KeepMapMembership(s, KeptAboutY, PointAboutY, p);
  }

  /** Every radius of the Y profile is a finite non-negative number. */
  lemma ProfileAboutYRadii(s: seq<Sample>)
    ensures forall i :: 0 <= i < |ProfileAboutY(s)| ==>
              ProfileAboutY(s)[i].u.Finite? && ProfileAboutY(s)[i].u.r >= 0.0
  {
    forall i | 0 <= i < |ProfileAboutY(s)|
      ensures ProfileAboutY(s)[i].u.Finite? && ProfileAboutY(s)[i].u.r >= 0.0
    {
      ProfileAboutYMembership(s, ProfileAboutY(s)[i]);
    }
  }

  /** The samples reflected in the Y axis. */
  function Mirrored(s: seq<Sample>): seq<Sample> {
    seq(|s|, i requires 0 <= i < |s| => Sample(-s[i].x, s[i].y))
  }

  /** Reflecting every sample in the Y axis leaves the Y profile unchanged. */
  lemma {:induction false} ProfileAboutYIgnoresSign(s: seq<Sample>)
    ensures ProfileAboutY(Mirrored(s)) == ProfileAboutY(s)
    decreases |s|
  {
    if s != [] {
      var init := s[..|s| - 1];
      ProfileAboutYIgnoresSign(init);
      assert Mirrored(s)[..|s| - 1] == Mirrored(init);
    }
  }

  /**
   * The sentinel 0 is a number and not NaN: when the evaluator throws at
   * every point, no filter drops anything, and every sample sits at height 0.
   */
  lemma SentinelIsNeverFiltered(eval: Evaluator, formula: string, lim: Interval, n: nat)
    requires n > 0
    requires forall x :: eval(ReplaceCommas(formula), x).Threw?
    ensures DefinedSamples(Samples(eval, formula, lim, n)) == Samples(eval, formula, lim, n)
    ensures |ProfileAboutY(Samples(eval, formula, lim, n))| == n + 1
    ensures |ProfileAboutX(Samples(eval, formula, lim, n))| == n + 1
    ensures forall i :: 0 <= i <= n ==> ProfileAboutX(Samples(eval, formula, lim, n))[i].u == Finite(0.0)
  {
    var s := Samples(eval, formula, lim, n);
    forall i | 0 <= i < |s|
      ensures s[i].y == Finite(0.0)
    {
      assert eval(ReplaceCommas(formula), SampleX(lim, n, i)).Threw?;
    }
    FilterAll(s, IsDefined);
    KeepMapAll(s, KeptAboutY, PointAboutY);
    KeepMapAll(s, KeptAboutX, PointAboutX);
  }

  /**
   * A collapsed interval is not rejected: every sample is the same, so each
   * profile is either empty or holds all n + 1 (identical) points.
   */
  lemma CollapsedIntervalAllOrNothing(eval: Evaluator, formula: string, lim: Interval, n: nat)
    requires n > 0 && lim.a == lim.b
    ensures var s := Samples(eval, formula, lim, n);
            |ProfileAboutX(s)| == (if KeptAboutX(s[0]) then n + 1 else 0)
    ensures var s := Samples(eval, formula, lim, n);
            |ProfileAboutY(s)| == (if KeptAboutY(s[0]) then n + 1 else 0)
  {
    var s := Samples(eval, formula, lim, n);
    SamplesSpanInterval(eval, formula, lim, n);
    if KeptAboutX(s[0]) {
      KeepMapAll(s, KeptAboutX, PointAboutX);
    } else {
      KeepMapNone(s, KeptAboutX, PointAboutX);
    }
    if KeptAboutY(s[0]) {
      KeepMapAll(s, KeptAboutY, PointAboutY);
    } else {
      KeepMapNone(s, KeptAboutY, PointAboutY);
    }
  }

  /** The profile loop of `generarSolidoX`. */
  method SampleProfileX(eval: Evaluator, formula: string, lim: Interval, n: nat) returns (profile: seq<Vec2>)
    requires n > 0
    ensures profile == ProfileAboutX(Samples(eval, formula, lim, n))
  {
    profile := [];
    var step := Step(lim, n);
    ghost var s := Samples(eval, formula, lim, n);
    var i := 0;
    while i <= n
      invariant 0 <= i <= n + 1
      invariant profile == ProfileAboutX(s[..i])
    {
      var x := lim.a + (i as real) * step;
      var y := EvaluateFunction(eval, formula, x);
      assert x == SampleX(lim, n, i);
      assert s[i] == SampleAt(eval, formula, lim, n, i) == Sample(x, y);
      assert s[..i + 1][..i] == s[..i];
      if !IsNaN(y) && AtLeastZero(y) {
        profile := profile + [Vec2(Abs(y), Finite(x))];
      }
      i := i + 1;
    }
    assert s[..n + 1] == s;
  }

  /** The profile loop of `generarSolidoY`. */
  method SampleProfileY(eval: Evaluator, formula: string, lim: Interval, n: nat) returns (profile: seq<Vec2>)
    requires n > 0
    ensures profile == ProfileAboutY(Samples(eval, formula, lim, n))
  {
    profile := [];
    var step := Step(lim, n);
    ghost var s := Samples(eval, formula, lim, n);
    var i := 0;
    while i <= n
      invariant 0 <= i <= n + 1
      invariant profile == ProfileAboutY(s[..i])
    {
      var x := lim.a + (i as real) * step;
      var y := EvaluateFunction(eval, formula, x);
      assert x == SampleX(lim, n, i);
      assert s[i] == SampleAt(eval, formula, lim, n, i) == Sample(x, y);
      assert s[..i + 1][..i] == s[..i];
      if !IsNaN(y) {
        profile := profile + [Vec2(Abs(Finite(x)), y)];
      }
      i := i + 1;
    }
    assert s[..n + 1] == s;
  }
}

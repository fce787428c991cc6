/**
 * What each generator builds for given inputs, as functions of those
 * inputs: the single curve of `generarCurva2D`, the lines of
 * `generarCurvas2D`, and the solids of `generarSolidoX`/`generarSolidoY`
 * and of `graficarTodo`.
 */
module Generators {
  import opened Wrappers
  import opened Numbers
  import opened Text
  import opened Evaluation
  import opened Limits
  import opened Filtering
  import opened Sampling
  import opened Profiles
  import opened Scene

  /** The colour of the single curve. */
  const CurveColor: Color := 0xFF6600
  /** The colours of the multi-curve plot, used cyclically by formula position. */
  const Palette: seq<Color> := [0xFF6600, 0x007bff, 0x28a745, 0x6f42c1]

  /** The solid colours `graficarTodo` passes for the first and the second formula. */
  const FirstAboutX: Color := 0x007bff
  const FirstAboutY: Color := 0x28a745
  const SecondAboutX: Color := 0xff1493
  const SecondAboutY: Color := 0x00ced1

  /** The curve `generarCurva2D` draws: all samples, none filtered. */
  function SingleCurve(eval: Evaluator, formula: string, lim: Interval): Shape {
    Polyline(Samples(eval, formula, lim, CurveSegments), CurveColor)
  }

  /**
   * The single curve has exactly 101 vertices, from A to B, each at the
   * wrapper's value (so possibly NaN, or the sentinel 0).
   */
  lemma SingleCurveShape(eval: Evaluator, formula: string, lim: Interval)
    ensures var pts := SingleCurve(eval, formula, lim).points;
            && |pts| == CurveSegments + 1 == 101
            && pts[0].x == lim.a && pts[CurveSegments].x == lim.b
            && (forall i :: 0 <= i < |pts| ==> pts[i].y == EvaluateFunction(eval, formula, pts[i].x))
  {
    SamplesSpanInterval(eval, formula, lim, CurveSegments);
  }

  /** The vertices of one formula in the multi-curve plot. */
  function DefinedCurve(eval: Evaluator, formula: string, lim: Interval): seq<Sample> {
    DefinedSamples(Samples(eval, formula, lim, CurveSegments))
  }

  /** The palette colour of the formula at `index`: `colors[index % colors.length]`. */
  function ColorAt(index: nat): Color {
    Palette[index % |Palette|]
  }

  /** Colours cycle with period 4: the formula at index k + 4 gets the colour of index k. */
  lemma ColorsCycle(k: nat)
    ensures ColorAt(k + 4) == ColorAt(k)
    ensures ColorAt(4) == ColorAt(0) == CurveColor
  {
  }

  /** The line drawn for the formula at `index`, if it has more than one defined vertex. */
  function LineFor(eval: Evaluator, formula: string, index: nat, lim: Interval): seq<Shape> {
    var pts := DefinedCurve(eval, formula, lim);
    if |pts| > 1 then [Polyline(pts, ColorAt(index))] else []
  }

  /** The lines of `generarCurvas2D`, in formula order. */
  function CurveLines(eval: Evaluator, formulas: seq<string>, lim: Interval): (r: seq<Shape>)
    ensures |r| <= |formulas|
    ensures forall k :: 0 <= k < |r| ==> r[k].Polyline? && |r[k].points| > 1
    decreases |formulas|
  {
    if formulas == [] then []
    else CurveLines(eval, formulas[..|formulas| - 1], lim) + LineFor(eval, formulas[|formulas| - 1], |formulas| - 1, lim)
  }

  /**
   * A line is drawn exactly for each formula with more than one defined
   * vertex, in the colour of its position; a degenerate formula is skipped
   * without affecting the others.
   */
  lemma {:induction false} CurveLinesMembership(eval: Evaluator, formulas: seq<string>, lim: Interval, sh: Shape)
    ensures sh in CurveLines(eval, formulas, lim) <==>
            exists k :: 0 <= k < |formulas| && |DefinedCurve(eval, formulas[k], lim)| > 1
                        && sh == Polyline(DefinedCurve(eval, formulas[k], lim), ColorAt(k))
    decreases |formulas|
  {
    if formulas != [] {
      var init := formulas[..|formulas| - 1];
      CurveLinesMembership(eval, init, lim, sh);
      assert forall k :: 0 <= k < |init| ==> init[k] == formulas[k];
    }
  }

  /** At most one line per formula, and none at all exactly when every formula degenerates. */
  lemma {:induction false} CurveLinesCount(eval: Evaluator, formulas: seq<string>, lim: Interval)
    ensures |CurveLines(eval, formulas, lim)| <= |formulas|
    ensures CurveLines(eval, formulas, lim) == [] <==>
            forall k :: 0 <= k < |formulas| ==> |DefinedCurve(eval, formulas[k], lim)| <= 1
    decreases |formulas|
  {
    if formulas != [] {
      var init := formulas[..|formulas| - 1];
      CurveLinesCount(eval, init, lim);
      assert forall k :: 0 <= k < |init| ==> init[k] == formulas[k];
    }
  }

  /** The solid `generarSolidoX` adds for a formula, if any. */
  function SolidAboutX(eval: Evaluator, formula: string, color: Color, lim: Interval): (r: Option<Shape>)
    ensures IsBlank(formula) ==> r.None?
    ensures r.Some? ==> r.value.Lathe? && r.value.axis == AboutX && r.value.color == color
                        && r.value.segments == RadialSegments && |r.value.profile| >= 2
  {
    if IsBlank(formula) then None
    else
      var profile := ProfileAboutX(Samples(eval, formula, lim, RadialSegments));
      if |profile| < 2 then None else Some(Lathe(profile, RadialSegments, color, AboutX))
  }

  /** The solid `generarSolidoY` adds for a formula, if any. */
  function SolidAboutY(eval: Evaluator, formula: string, color: Color, lim: Interval): (r: Option<Shape>)
    ensures IsBlank(formula) ==> r.None?
    ensures r.Some? ==> r.value.Lathe? && r.value.axis == AboutY && r.value.color == color
                        && r.value.segments == RadialSegments && |r.value.profile| >= 2
  {
    if IsBlank(formula) then None
    else
      var profile := ProfileAboutY(Samples(eval, formula, lim, RadialSegments));
      if |profile| < 2 then None else Some(Lathe(profile, RadialSegments, color, AboutY))
  }

  /**
   * A solid about X is a lathe of at least two points in 60 angular steps,
   * each point (y, x) of a sample whose y is not NaN and not negative,
   * with increasing axial positions over a proper interval.
   */
  lemma SolidAboutXProfile(eval: Evaluator, formula: string, color: Color, lim: Interval)
    requires SolidAboutX(eval, formula, color, lim).Some?
    ensures var sh := SolidAboutX(eval, formula, color, lim).value;
            && sh.Lathe? && sh.axis == AboutX && sh.color == color && sh.segments == 60
            && |sh.profile| >= 2 && !IsBlank(formula)
            && (forall p :: p in sh.profile ==>
                  exists smp :: smp in Samples(eval, formula, lim, RadialSegments)
                                && !IsNaN(smp.y) && AtLeastZero(smp.y) && p == Vec2(smp.y, Finite(smp.x)))
            && (lim.a < lim.b ==> forall i, j :: 0 <= i < j < |sh.profile| ==> AxialBefore(sh.profile[i], sh.profile[j]))
  {
    var s := Samples(eval, formula, lim, RadialSegments);
    forall p | p in ProfileAboutX(s)
      ensures exists smp :: smp in s && !IsNaN(smp.y) && AtLeastZero(smp.y) && p == Vec2(smp.y, Finite(smp.x))
    {
      ProfileAboutXMembership(s, p);
    }
    SamplesSpanInterval(eval, formula, lim, RadialSegments);
    if lim.a < lim.b {
      ProfileAboutXOrdered(s);
    }
  }

  /**
   * A solid about Y is a lathe with one point (|x|, y) per sample whose y
   * is not NaN, at least two of them.
   */
  lemma SolidAboutYProfile(eval: Evaluator, formula: string, color: Color, lim: Interval)
    requires SolidAboutY(eval, formula, color, lim).Some?
    ensures var sh := SolidAboutY(eval, formula, color, lim).value;
            var s := Samples(eval, formula, lim, RadialSegments);
            && sh.Lathe? && sh.axis == AboutY && sh.color == color && sh.segments == 60
            && 2 <= |sh.profile| == |s| - multiset(Heights(s))[NaN]
            && !IsBlank(formula)
            && (forall i :: 0 <= i < |sh.profile| ==> sh.profile[i].u.Finite? && sh.profile[i].u.r >= 0.0)
  {
    var s := Samples(eval, formula, lim, RadialSegments);
    ProfileAboutYLength(s);
    ProfileAboutYRadii(s);
  }

  /**
   * Over a collapsed interval a solid is still built, exactly when the
   * formula is not blank and its one repeated sample passes the filter.
   */
  lemma CollapsedIntervalSolids(eval: Evaluator, formula: string, color: Color, a: real)
    ensures var s0 := SampleAt(eval, formula, Interval(a, a), RadialSegments, 0);
            && (SolidAboutX(eval, formula, color, Interval(a, a)).Some? <==> !IsBlank(formula) && KeptAboutX(s0))
            && (SolidAboutY(eval, formula, color, Interval(a, a)).Some? <==> !IsBlank(formula) && KeptAboutY(s0))
  {
    CollapsedIntervalAllOrNothing(eval, formula, Interval(a, a), RadialSegments);
  }

  /** The shape carried by an option, as a sequence of zero or one shapes. */
  function Listed(o: Option<Shape>): seq<Shape> {
    if o.Some? then [o.value] else []
  }

  /** The non-blank trimmed formulas, in field order, as `graficarTodo` collects them. */
  function PresentFormulas(raw1: string, raw2: string): seq<string> {
    (if raw1 != [] then [raw1] else []) + (if raw2 != [] then [raw2] else [])
  }

  /** The solids `graficarTodo` leaves in the view about X. */
  function SolidsAboutX(eval: Evaluator, raw1: string, raw2: string, lim: Interval): seq<Shape> {
    (if raw1 != [] then Listed(SolidAboutX(eval, raw1, FirstAboutX, lim)) else [])
    + (if raw2 != [] then Listed(SolidAboutX(eval, raw2, SecondAboutX, lim)) else [])
  }

  /** The solids `graficarTodo` leaves in the view about Y. */
  function SolidsAboutY(eval: Evaluator, raw1: string, raw2: string, lim: Interval): seq<Shape> {
    (if raw1 != [] then Listed(SolidAboutY(eval, raw1, FirstAboutY, lim)) else [])
    + (if raw2 != [] then Listed(SolidAboutY(eval, raw2, SecondAboutY, lim)) else [])
  }

  /** A regeneration leaves at most one solid per present formula, so at most two, in each 3D view. */
  lemma SolidsPerFormula(eval: Evaluator, raw1: string, raw2: string, lim: Interval)
    ensures |SolidsAboutX(eval, raw1, raw2, lim)| <= |PresentFormulas(raw1, raw2)| <= 2
    ensures |SolidsAboutY(eval, raw1, raw2, lim)| <= |PresentFormulas(raw1, raw2)|
  {
  }
}

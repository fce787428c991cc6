/**
 * The expression evaluator (`math.evaluate`) as an oracle, and the wrapper
 * `evaluateFunction` that turns an evaluation exception into the value 0.
 */
module Evaluation {
  import opened Numbers
  import opened Text

  /** What `math.evaluate(expression, { x })` does for one expression and one binding of `x`. */
  datatype Outcome = Returned(value: Number) | Threw

  /** The evaluator: deterministic, total, and otherwise unknown. */
  type Evaluator = (string, real) -> Outcome

  /**
   * `evaluateFunction(formula, x)`: commas in the formula become decimal
   * points, and the result is the evaluator's value, or 0 when it throws.
   * It never fails.
   */
  function EvaluateFunction(eval: Evaluator, formula: string, x: real): (y: Number)
    ensures eval(ReplaceCommas(formula), x).Threw? ==> y == Finite(0.0)
    ensures eval(ReplaceCommas(formula), x).Returned? ==> y == eval(ReplaceCommas(formula), x).value
  {
    match eval(ReplaceCommas(formula), x)
    case Returned(v) => v
    case Threw => Finite(0.0)
  }

  /**
   * Replacing the commas before calling the wrapper, as the multi-curve
   * builder does, gives the same value as passing the raw formula.
   */
  lemma EvaluationIgnoresPriorNormalisation(eval: Evaluator, formula: string, x: real)
    ensures EvaluateFunction(eval, ReplaceCommas(formula), x) == EvaluateFunction(eval, formula, x)
  {
    ReplaceCommasIdempotent(formula);
  }
}

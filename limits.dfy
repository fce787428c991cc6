/** `getLimits`: the interval [A, B] the sampling loops run over. */
module Limits {
  import opened Wrappers

  /** The endpoint used when the first field does not parse. */
  const DefaultA: real := -1.0
  /** The endpoint used when the second field does not parse. */
  const DefaultB: real := 3.0

  datatype Interval = Interval(a: real, b: real)

  /**
   * The interval for the two parsed fields (None stands for NaN): an
   * unparseable endpoint takes its default, then the endpoints are swapped
   * when they are reversed. The result is ordered and holds exactly the two
   * endpoints after defaulting.
   */
  function GetLimits(parsedA: Option<real>, parsedB: Option<real>): (r: Interval)
    ensures r.a <= r.b
    ensures multiset{r.a, r.b} == multiset{parsedA.GetOr(DefaultA), parsedB.GetOr(DefaultB)}
  {
    var a := parsedA.GetOr(DefaultA);
    var b := parsedB.GetOr(DefaultB);
    if a > b then Interval(b, a) else Interval(a, b)
  }
}

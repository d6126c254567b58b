/**
 * The inputs every trading rule reads: the daily bars and the shared options
 * object, with JavaScript's `(options && options.X) || default` fallback.
 */
module RuleInputs {
  import opened Wrappers

  /** One daily price bar (`stockData[i]`); its trade date is not read by the rules. */
  datatype Bar = Bar(open: real, high: real, low: real, close: real)

  /**
   * The options object the engine hands to every rule.  A field is `None` when
   * the property is absent; `Some(0)` is kept apart because JavaScript treats a
   * zero as falsy, so it also selects the default.
   *   n: momentum window N, p: breakout fraction P, l: breakdown fraction L,
   *   s: stop-loss ratio S, os: open-price profit lock, mmbType: range kind.
   */
  datatype Options = Options(
    n: Option<int>,
    p: Option<real>,
    l: Option<real>,
    s: Option<real>,
    os: bool,
    mmbType: Option<string>)

  /** `x || d` for a numeric option: absent and zero both fall back to `d`. */
  function RealOr(x: Option<real>, d: real): (r: real)
    ensures x.None? || x.value == 0.0 ==> r == d
    ensures x.Some? && x.value != 0.0 ==> r == x.value
    ensures d != 0.0 ==> r != 0.0
  {
    if x.Some? && x.value != 0.0 then x.value else d
  }

  /** `x || d` for an integer option. */
  function IntOr(x: Option<int>, d: int): (r: int)
    ensures x.None? || x.value == 0 ==> r == d
    ensures x.Some? && x.value != 0 ==> r == x.value
    ensures d != 0 ==> r != 0
  {
    if x.Some? && x.value != 0 then x.value else d
  }
}

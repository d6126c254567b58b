/**
 * The percentage stop-loss rule (src/stoploss.js): sell the whole position
 * at `price * (1 - S)` on a day whose low reaches that level.
 */
module StopLoss {
  import opened Wrappers
  import opened RuleInputs
  import opened TransactionEngine

  /** `(options && options.S) || 0.1`: the tolerated loss ratio. */
  function StopRatio(options: Option<Options>): (s: real)
    ensures options.None? || options.value.s.None? || options.value.s == Some(0.0) ==> s == 0.1
    ensures options.Some? && options.value.s.Some? && options.value.s != Some(0.0) ==> s == options.value.s.value
  {
    if options.None? then 0.1 else RealOr(options.value.s, 0.1)
  }

  /** The stop-loss price for a position bought at `entry`. */
  function LossPrice(entry: real, options: Option<Options>): real
  {
    entry * (1.0 - StopRatio(options))
  }

  /**
   * checkStoplossTransaction.  Nothing happens without a held position; the
   * bar of the day is read only when there is one, and the held position must
   * carry its instrument (the source would fail on a missing one).
   */
  function CheckStoploss(stock: Option<Position>, date: TradeDate, index: int, bars: seq<Bar>, options: Option<Options>): (r: Option<Order>)
    requires IsHeld(stock) ==> 0 <= index < |bars| && stock.value.info.Some?
    ensures !IsHeld(stock) ==> r.None?
    ensures IsHeld(stock) ==>
      (r.Some? <==> bars[index].low <= LossPrice(stock.value.price, options))
    ensures r.Some? ==>
      r.value == SellTransaction(stock.value.info.value, date, index, stock.value.count,
                                 LossPrice(stock.value.price, options), "stoploss")
    ensures r.Some? ==> r.value.side == Sell && r.value.count == stock.value.count && bars[index].low <= r.value.price
    ensures IsHeld(stock) && (options.None? || options.value.s.None? || options.value.s == Some(0.0)) ==>
      (r.Some? <==> bars[index].low <= stock.value.price * 0.9)
  {
    if !IsHeld(stock) then None
    else
      var lossPrice := LossPrice(stock.value.price, options);
      if bars[index].low <= lossPrice then
        Some(SellTransaction(stock.value.info.value, date, index, stock.value.count, lossPrice, "stoploss"))
      else None
  }

  /**
   * With a ratio S between 0 and 1 and a non-negative entry price, the stop
   * sells at no more than the entry price, and loses exactly the fraction S of
   * it before fees.
   */
  lemma StoplossBoundsLoss(stock: Option<Position>, date: TradeDate, index: int, bars: seq<Bar>, options: Option<Options>)
    requires IsHeld(stock) ==> 0 <= index < |bars| && stock.value.info.Some?
    requires 0.0 <= StopRatio(options) <= 1.0 && IsHeld(stock) && stock.value.price >= 0.0
    requires CheckStoploss(stock, date, index, bars, options).Some?
    ensures var o := CheckStoploss(stock, date, index, bars, options).value;
      && 0.0 <= o.price <= stock.value.price
      && stock.value.price - o.price == stock.value.price * StopRatio(options)
      && 0.0 <= o.costs.total <= o.costs.amount
  {
    var e, s := stock.value.price, StopRatio(options);
    assert CheckStoploss(stock, date, index, bars, options).value.price == e * (1.0 - s);
    MulNonNegative(e, s);
    MulNonNegative(e, 1.0 - s);
  }
}

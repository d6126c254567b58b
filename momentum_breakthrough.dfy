/**
 * The momentum-breakout rule (bak/momentum-breakthrough.js).  "Moment" is
 * the average daily range of the previous N bars; a buy triggers at
 * `open + moment * P`, a breakdown sell at `open - moment * L`.
 */
module MomentumBreakthrough {
  import opened Wrappers
  import opened RuleInputs
  import opened TransactionEngine

  /** The balance the sell rule uses to ask "would we buy today?". */
  const HoldCheckBalance: real := 100000.0

  /** `(options && options.N) || 1`: the averaging window. */
  function Window(opts: Options): (n: int)
    ensures opts.n.None? || opts.n == Some(0) ==> n == 1
    ensures opts.n.Some? && opts.n.value != 0 ==> n == opts.n.value
    ensures n != 0
  {
    IntOr(opts.n, 1)
  }

  /** `(options && options.P) || 0.5`: the breakout fraction. */
  function BreakoutFraction(opts: Options): (p: real)
    ensures opts.p.None? || opts.p == Some(0.0) ==> p == 0.5
    ensures opts.p.Some? && opts.p.value != 0.0 ==> p == opts.p.value
    ensures p != 0.0
  {
    RealOr(opts.p, 0.5)
  }

  /** `(options && options.L) || 0.5`: the breakdown fraction. */
  function BreakdownFraction(opts: Options): (l: real)
    ensures opts.l.None? || opts.l == Some(0.0) ==> l == 0.5
    ensures opts.l.Some? && opts.l.value != 0.0 ==> l == opts.l.value
    ensures l != 0.0
  {
    RealOr(opts.l, 0.5)
  }

  /** `options.mmbType === "hl"`: high minus low; anything else means high minus close. */
  predicate HighLow(opts: Options)
  {
    opts.mmbType == Some("hl")
  }

  /** The range one bar contributes. */
  function BarRange(b: Bar, hl: bool): real
  {
    if hl then b.high - b.low else b.high - b.close
  }

  /**
   * The accumulator of the source's loop after its first `k` rounds: round
   * `i` adds the range of bar `index - i - 1` when that bar exists.
   */
  function RangeSum(bars: seq<Bar>, index: int, k: int, hl: bool): real
    requires 0 <= index <= |bars|
    decreases k
  {
    if k <= 0 then 0.0
    else RangeSum(bars, index, k - 1, hl) + (if index - k >= 0 then BarRange(bars[index - k], hl) else 0.0)
  }

  /** The accumulated range divided by N (the source divides by N even when fewer bars precede). */
  function Moment(bars: seq<Bar>, index: int, opts: Options): real
    requires 0 <= index <= |bars|
  {
    RangeSum(bars, index, Window(opts), HighLow(opts)) / Window(opts) as real
  }

  /**
   * The source's loop (lines 31-42 and again 130-141), run as written.
   */
  method ComputeMoment(bars: seq<Bar>, index: int, opts: Options) returns (moment: real)
    requires 0 <= index <= |bars|
    ensures moment == Moment(bars, index, opts)
  {
    var n := Window(opts);
    moment := 0.0;
    var i := 0;
    while i < n
      invariant 0 <= i <= Max(n, 0)
      invariant moment == RangeSum(bars, index, i, HighLow(opts))
    {
      if index - i - 1 >= 0 {
        var tmp := bars[index - i - 1];
        if opts.mmbType == Some("hl") {
          moment := moment + (tmp.high - tmp.low);
        } else {
          moment := moment + (tmp.high - tmp.close);
        }
      }
      i := i + 1;
    }
    moment := moment / n as real;
  }

  /** Sum of the ranges of a run of bars: an independent reading of the window. */
  function SumRanges(s: seq<Bar>, hl: bool): real
  {
    if s == [] then 0.0 else BarRange(s[0], hl) + SumRanges(s[1..], hl)
  }

  function Max(a: int, b: int): int
  {
    if a < b then b else a
  }

  /** The accumulator after k rounds is the range sum of the last min(k, index) bars before `index`. */
  lemma {:induction false} RangeSumIsWindow(bars: seq<Bar>, index: int, k: int, hl: bool)
    requires 0 <= index <= |bars| && k >= 0
    ensures RangeSum(bars, index, k, hl) == SumRanges(bars[Max(0, index - k)..index], hl)
    decreases k
  {
    if k == 0 {
      assert bars[index..index] == [];
    } else {
      RangeSumIsWindow(bars, index, k - 1, hl);
      if index - k >= 0 {
        var w := bars[index - k..index];
        assert w[1..] == bars[index - (k - 1)..index];
      }
    }
  }

  /**
   * Moment is the sum of the ranges of the (up to) N bars before `index`,
   * divided by N, whether or not N bars are available.
   */
  lemma MomentIsWindowAverage(bars: seq<Bar>, index: int, opts: Options)
    requires 0 <= index <= |bars| && Window(opts) > 0
    ensures Moment(bars, index, opts)
         == SumRanges(bars[Max(0, index - Window(opts))..index], HighLow(opts)) / Window(opts) as real
  {
    RangeSumIsWindow(bars, index, Window(opts), HighLow(opts));
  }

  /** Every bar a window of `k` rounds reads (`max(0, index - k) .. index - 1`) has a non-negative range. */
  predicate RangesNonNegative(bars: seq<Bar>, index: int, k: int, hl: bool)
    requires 0 <= index <= |bars|
  {
    forall j :: Max(0, index - k) <= j < index ==> BarRange(bars[j], hl) >= 0.0
  }

  lemma {:induction false} RangeSumNonNegative(bars: seq<Bar>, index: int, k: int, hl: bool)
    requires 0 <= index <= |bars| && RangesNonNegative(bars, index, k, hl)
    ensures RangeSum(bars, index, k, hl) >= 0.0
    decreases k
  {
    if k > 0 {
      RangeSumNonNegative(bars, index, k - 1, hl);
    }
  }

  /** With well-formed bars in the window, Moment is non-negative (for any window, even a negative one). */
  lemma MomentNonNegative(bars: seq<Bar>, index: int, opts: Options)
    requires 0 <= index <= |bars| && RangesNonNegative(bars, index, Window(opts), HighLow(opts))
    ensures Moment(bars, index, opts) >= 0.0
  {
    var n := Window(opts);
    var s := RangeSum(bars, index, n, HighLow(opts));
    RangeSumNonNegative(bars, index, n, HighLow(opts));
    if n < 0 {
      assert s == 0.0;
    }
  }

  /** The buy target `open + moment * P`. */
  function BuyTarget(bars: seq<Bar>, index: int, opts: Options): real
    requires 0 <= index < |bars|
  {
    bars[index].open + Moment(bars, index, opts) * BreakoutFraction(opts)
  }

  /** The buy condition: the day opened at or below the target and its high reached it. */
  predicate BuySignal(bars: seq<Bar>, index: int, opts: Options)
    requires 0 <= index < |bars|
  {
    bars[index].high >= BuyTarget(bars, index, opts) && bars[index].open <= BuyTarget(bars, index, opts)
  }

  /**
   * checkMMBBuyTransaction.  Nothing with no cash; otherwise, when the day
   * breaks out, the largest affordable lot buy at the target, tagged "mmb".
   */
  function CheckBuy(balance: real, info: StockInfo, date: TradeDate, index: int, bars: seq<Bar>, opts: Options): (r: Option<Order>)
    requires balance > 0.0 ==> 0 <= index < |bars|
    ensures balance <= 0.0 ==> r.None?
    ensures balance > 0.0 && !BuySignal(bars, index, opts) ==> r.None?
    ensures r.Some? ==>
      && BuySignal(bars, index, opts)
      && r.value.side == Buy && r.value.tag == "mmb" && r.value.date == date && r.value.index == index
      && r.value.price == BuyTarget(bars, index, opts)
      && bars[index].open <= r.value.price <= bars[index].high
      && IsLot(r.value.count)
      && r.value.costs == TransactionFee(true, info, r.value.count, r.value.price)
      && r.value.costs.total + balance >= 0.0
    ensures balance > 0.0 && BuySignal(bars, index, opts) ==>
      r == BuyTransaction(info, date, index, balance, BuyTarget(bars, index, opts), "mmb")
  {
    if balance <= 0.0 then None
    else if BuySignal(bars, index, opts) then
      BuyTransaction(info, date, index, balance, BuyTarget(bars, index, opts), "mmb")
    else None
  }

  /** On a breakout day with a positive target, the buy happens exactly when one lot is affordable. */
  lemma BuyWhenOneLotAffordable(balance: real, info: StockInfo, date: TradeDate, index: int, bars: seq<Bar>, opts: Options)
    requires balance > 0.0 && 0 <= index < |bars|
    requires BuySignal(bars, index, opts) && BuyTarget(bars, index, opts) > 0.0
    ensures CheckBuy(balance, info, date, index, bars, opts).Some?
        <==> Affordable(info, LotSize, BuyTarget(bars, index, opts), balance)
  {
    BuyIsLargestAffordable(info, date, index, balance, BuyTarget(bars, index, opts), "mmb");
  }

  /** The breakdown sell price `open - moment * L`. */
  function SellTarget(bars: seq<Bar>, index: int, opts: Options): real
    requires 0 <= index < |bars|
  {
    bars[index].open - Moment(bars, index, opts) * BreakdownFraction(opts)
  }

  /** The open-price profit lock ("mmb1") applies: enabled, and the day opened above the entry price. */
  predicate ProfitLock(stock: Position, bars: seq<Bar>, index: int, opts: Options)
    requires 0 <= index < |bars|
  {
    opts.os && bars[index].open > stock.price
  }

  /** The breakdown sell ("mmb2") applies: its price lies between the day's low and its open. */
  predicate Breakdown(bars: seq<Bar>, index: int, opts: Options)
    requires 0 <= index < |bars|
  {
    SellTarget(bars, index, opts) <= bars[index].open && SellTarget(bars, index, opts) >= bars[index].low
  }

  /** The exit part of the sell rule, after the hold check: profit lock first, then breakdown. */
  function Exit(stock: Position, date: TradeDate, index: int, bars: seq<Bar>, opts: Options): (r: Option<Order>)
    requires stock.count > 0 && 0 <= index < |bars| && stock.info.Some?
    ensures r.Some? ==>
      && r.value.side == Sell && r.value.count == stock.count && r.value.date == date && r.value.index == index
      && r.value.costs == TransactionFee(false, stock.info.value, stock.count, r.value.price)
    ensures ProfitLock(stock, bars, index, opts) ==>
      r.Some? && r.value.tag == "mmb1" && r.value.price == bars[index].open && r.value.price > stock.price
    ensures !ProfitLock(stock, bars, index, opts) ==>
      (r.Some? <==> Breakdown(bars, index, opts))
    ensures !ProfitLock(stock, bars, index, opts) && r.Some? ==>
      r.value.tag == "mmb2" && r.value.price == SellTarget(bars, index, opts)
      && bars[index].low <= r.value.price <= bars[index].open
  {
    var info := stock.info.value;
    if ProfitLock(stock, bars, index, opts) then
      Some(SellTransaction(info, date, index, stock.count, bars[index].open, "mmb1"))
    else if Breakdown(bars, index, opts) then
      Some(SellTransaction(info, date, index, stock.count, SellTarget(bars, index, opts), "mmb2"))
    else None
  }

  /**
   * checkMMBSellTransaction.  Nothing without a held position; hold when the
   * buy check with a balance of 100000 would produce an order; otherwise exit
   * by profit lock or by breakdown, selling the whole position.
   */
  function CheckSell(stock: Option<Position>, date: TradeDate, index: int, bars: seq<Bar>, opts: Options): (r: Option<Order>)
    requires IsHeld(stock) ==> 0 <= index < |bars| && stock.value.info.Some?
    ensures !IsHeld(stock) ==> r.None?
    ensures IsHeld(stock) && CheckBuy(HoldCheckBalance, stock.value.info.value, date, index, bars, opts).Some? ==> r.None?
    ensures IsHeld(stock) && CheckBuy(HoldCheckBalance, stock.value.info.value, date, index, bars, opts).None? ==>
      r == Exit(stock.value, date, index, bars, opts)
    ensures r.Some? ==> r.value.side == Sell && r.value.count == stock.value.count
  {
    if !IsHeld(stock) then None
    else if CheckBuy(HoldCheckBalance, stock.value.info.value, date, index, bars, opts).Some? then None
    else Exit(stock.value, date, index, bars, opts)
  }

  /** On well-formed bars every sell the rule makes is at a price the day actually traded. */
  lemma SellWithinBar(stock: Option<Position>, date: TradeDate, index: int, bars: seq<Bar>, opts: Options)
    requires IsHeld(stock) ==> 0 <= index < |bars| && stock.value.info.Some?
    requires CheckSell(stock, date, index, bars, opts).Some?
    requires bars[index].low <= bars[index].open <= bars[index].high
    ensures var o := CheckSell(stock, date, index, bars, opts).value;
      bars[index].low <= o.price <= bars[index].high
      && (o.tag == "mmb1" || o.tag == "mmb2")
  {
  }

  // ---------------------------------------------------------------------------
  // The rule plugged into the engine's daily step
  // ---------------------------------------------------------------------------

  /** The sell check as the engine calls it on the account's stock record. */
  function SellRule(date: TradeDate, index: int, bars: seq<Bar>, opts: Options): (rule: Position --> Option<Order>)
    requires 0 <= index < |bars|
    ensures forall p :: WellFormed(p) ==> rule.requires(p)
  {
    p requires WellFormed(p) => CheckSell(Some(p), date, index, bars, opts)
  }

  /** The buy check as the engine calls it with the account's balance. */
  function BuyRule(info: StockInfo, date: TradeDate, index: int, bars: seq<Bar>, opts: Options): (rule: real --> Option<Order>)
    requires 0 <= index < |bars|
    ensures forall b :: rule.requires(b)
  {
    b => CheckBuy(b, info, date, index, bars, opts)
  }

  /**
   * A momentum day on an account whose position is empty or whole lots: it
   * settles at most a sell and then a buy, and leaves the position empty or
   * whole lots.
   */
  lemma MomentumDay(l: Ledger, info: StockInfo, date: TradeDate, index: int, bars: seq<Bar>, opts: Options)
    requires 0 <= index < |bars| && WellFormed(l.stock) && LotPosition(l.stock)
    ensures var r := Day(l, info, SellRule(date, index, bars, opts), BuyRule(info, date, index, bars, opts));
      && Sides(r.transactions[|l.transactions|..]) in {[], [Sell], [Buy], [Sell, Buy]}
      && LotPosition(r.stock)
  {
    var sell := SellRule(date, index, bars, opts);
    var buy := BuyRule(info, date, index, bars, opts);
    assert sell.requires(l.stock);
    DaySellThenBuy(l, info, sell, buy);
    DayKeepsLotPosition(l, info, sell, buy);
  }

  // ---------------------------------------------------------------------------
  // The hold check, as written and as intended
  // ---------------------------------------------------------------------------

  /** The day of the counterexample below: a breakout after a 200-point range. */
  const ExampleBars: seq<Bar> := [Bar(1900.0, 2000.0, 1800.0, 1900.0), Bar(1900.0, 2100.0, 1750.0, 2050.0)]
  const ExampleOptions: Options := Options(None, None, None, None, false, Some("hl"))
  const ExampleInfo: StockInfo := StockInfo("SSE")
  const ExampleDate: TradeDate := TradeDate(20200102)

  /** On the example day the moment is 200, the buy target 2000 and the breakdown price 1800. */
  lemma ExampleDayTargets()
    ensures Moment(ExampleBars, 1, ExampleOptions) == 200.0
    ensures BuyTarget(ExampleBars, 1, ExampleOptions) == 2000.0
    ensures SellTarget(ExampleBars, 1, ExampleOptions) == 1800.0
    ensures BuySignal(ExampleBars, 1, ExampleOptions)
  {
    assert RangeSum(ExampleBars, 1, 1, true) == 200.0;
  }

  /** The hold check's 100000 cannot buy a lot at 2000, so the position is sold at 1800. */
  lemma ExampleSellNotHeld(stock: Position)
    requires stock == Position(Some(ExampleInfo), 100, 1950.0)
    ensures CheckSell(Some(stock), ExampleDate, 1, ExampleBars, ExampleOptions)
         == Some(SellTransaction(ExampleInfo, ExampleDate, 1, 100, 1800.0, "mmb2"))
  {
    ExampleDayTargets();
    assert InitialCount(HoldCheckBalance, 2000.0) == 0;
    assert CheckBuy(HoldCheckBalance, ExampleInfo, ExampleDate, 1, ExampleBars, ExampleOptions).None?;
  }

  /** With the sale's proceeds added to 1000000, the buy check buys 500 shares at 2000. */
  lemma ExampleRebuy(balance: real)
    requires balance == 1000000.0 + SellTransaction(ExampleInfo, ExampleDate, 1, 100, 1800.0, "mmb2").costs.total
    ensures CheckBuy(balance, ExampleInfo, ExampleDate, 1, ExampleBars, ExampleOptions)
         == Some(Order(ExampleDate, Buy, 1, 500, 2000.0, TransactionFee(true, ExampleInfo, 500, 2000.0), "mmb"))
  {
    ExampleDayTargets();
    assert InitialCount(balance, 2000.0) == 500;
    assert Affordable(ExampleInfo, 500, 2000.0, balance);
  }

  /**
   * As written, the sell rule holds only when a 100000 budget would actually
   * buy a lot at the target.  Counterexample: a breakout to 2000 (one lot costs
   * over 200000) is not held; the position is sold at the breakdown price 1800
   * and, with the cash now available, bought back at 2000 on the same day.
   */
  lemma HoldCheckMissesCostlyBreakout()
    ensures var bars, opts, info, date := ExampleBars, ExampleOptions, ExampleInfo, ExampleDate;
      var l := Ledger(1000000.0, Position(Some(info), 100, 1950.0), []);
      var r := Day(l, info, SellRule(date, 1, bars, opts), BuyRule(info, date, 1, bars, opts));
      && BuySignal(bars, 1, opts)
      && CheckSell(Some(l.stock), date, 1, bars, opts).Some?
      && Sides(r.transactions) == [Sell, Buy]
      && r.transactions[0].price == 1800.0 && r.transactions[1].price == 2000.0
  {
    var l := Ledger(1000000.0, Position(Some(ExampleInfo), 100, 1950.0), []);
    ExampleDayTargets();
    ExampleSellNotHeld(l.stock);
    var sold := SellTransaction(ExampleInfo, ExampleDate, 1, 100, 1800.0, "mmb2");
    var mid := Settle(l, ExampleInfo, Some(sold));
    assert mid.stock.count == 0;
    ExampleRebuy(mid.balance);
    var bought := Order(ExampleDate, Buy, 1, 500, 2000.0, TransactionFee(true, ExampleInfo, 500, 2000.0), "mmb");
    var sell := SellRule(ExampleDate, 1, ExampleBars, ExampleOptions);
    var buy := BuyRule(ExampleInfo, ExampleDate, 1, ExampleBars, ExampleOptions);
    assert Day(l, ExampleInfo, sell, buy).transactions == [sold, bought];
  }

  /** The sell rule with the hold check it evidently intends: hold whenever the buy signal fires. */
  function CheckSellHoldOnSignal(stock: Option<Position>, date: TradeDate, index: int, bars: seq<Bar>, opts: Options): (r: Option<Order>)
    requires IsHeld(stock) ==> 0 <= index < |bars| && stock.value.info.Some?
    ensures !IsHeld(stock) ==> r.None?
    ensures IsHeld(stock) && BuySignal(bars, index, opts) ==> r.None?
    ensures IsHeld(stock) && !BuySignal(bars, index, opts) ==> r == Exit(stock.value, date, index, bars, opts)
    ensures r.Some? ==> r == CheckSell(stock, date, index, bars, opts)
  {
    if !IsHeld(stock) then None
    else if BuySignal(bars, index, opts) then None
    else Exit(stock.value, date, index, bars, opts)
  }

  function SellRuleHoldOnSignal(date: TradeDate, index: int, bars: seq<Bar>, opts: Options): (rule: Position --> Option<Order>)
    requires 0 <= index < |bars|
    ensures forall p :: WellFormed(p) ==> rule.requires(p)
  {
    p requires WellFormed(p) => CheckSellHoldOnSignal(Some(p), date, index, bars, opts)
  }

  /** With the intended hold check, a momentum day never sells and buys back. */
  lemma HoldOnSignalNeverRebuys(l: Ledger, info: StockInfo, date: TradeDate, index: int, bars: seq<Bar>, opts: Options)
    requires 0 <= index < |bars| && WellFormed(l.stock)
    ensures var r := Day(l, info, SellRuleHoldOnSignal(date, index, bars, opts), BuyRule(info, date, index, bars, opts));
      |r.transactions| <= |l.transactions| + 1
  {
  }
}

/**
 * The transaction engine: the fee model, the buy and sell order builders, the
 * settlement of one order against the account, and the daily sell-then-buy
 * sequence (src/transaction-engine.js).
 *
 * Money and prices are exact reals; share counts are integers.
 */
module TransactionEngine {
  import opened Wrappers

  /** A trade date.  The engine only copies it into the orders it builds. */
  datatype TradeDate = TradeDate(ymd: nat)

  /** Instrument reference data.  Only the exchange matters: it decides the transfer fee. */
  datatype StockInfo = StockInfo(exchange: string)

  datatype Side = Buy | Sell

  /** The record `calculateTransactionFee` returns. */
  datatype FeeBreakdown = FeeBreakdown(total: real, amount: real, commission: real, fee: real, duty: real)

  /**
   * One order (`translog`).  Besides the fields the builders fill in, it keeps
   * the day index and the rule tag ("mmb", "mmb1", "mmb2", "stoploss") that the
   * rules hand to the builders; the free-text memo is not kept.
   */
  datatype Order = Order(
    date: TradeDate,
    side: Side,
    index: int,
    count: int,
    price: real,
    costs: FeeBreakdown,
    tag: string)

  /** The account's `stock` record: instrument, share count and entry price. */
  datatype Position = Position(info: Option<StockInfo>, count: int, price: real)

  /** The record settlement installs after a sell, and the one a new account starts with. */
  const EmptyPosition: Position := Position(None, 0, 0.0)

  /** The minimum tradable quantity (one "hand"). */
  const LotSize: int := 100

  const CommissionRate: real := 0.25 / 1000.0
  const StampDutyRate: real := 1.0 / 1000.0

  /** Transfer fee rate: charged on the Shanghai exchange only. */
  function TransferRate(info: StockInfo): real
  {
    if info.exchange == "SSE" then 0.02 / 1000.0 else 0.0
  }

  /** All costs of a buy, as a fraction of the traded amount. */
  function BuyRate(info: StockInfo): real
  {
    CommissionRate + TransferRate(info)
  }

  /** All costs of a sell, as a fraction of the traded amount. */
  function SellRate(info: StockInfo): real
  {
    CommissionRate + TransferRate(info) + StampDutyRate
  }

  // ---------------------------------------------------------------------------
  // Fee model (calculateTransactionFee)
  // ---------------------------------------------------------------------------

  /**
   * Prices `count` shares at `price`.  The components are computed as the
   * source does; the postconditions give the closed form: a buy costs the
   * amount plus the buy rate, a sell yields the amount less the sell rate.
   */
  function TransactionFee(buy: bool, info: StockInfo, count: int, price: real): (f: FeeBreakdown)
    ensures f.amount == count as real * price
    ensures f.commission == f.amount * CommissionRate
    ensures f.fee == f.amount * TransferRate(info)
    ensures f.duty == if buy then 0.0 else f.amount * StampDutyRate
    ensures buy ==> f.total == -(f.amount * (1.0 + BuyRate(info)))
    ensures !buy ==> f.total == f.amount * (1.0 - SellRate(info))
    ensures f.amount >= 0.0 && buy ==> f.total <= -f.amount <= 0.0
    ensures f.amount >= 0.0 && !buy ==> 0.0 <= f.total <= f.amount
  {
    var amount := count as real * price;
    var commission := (amount * 0.25) / 1000.0;
    var fee := if info.exchange == "SSE" then (amount * 0.02) / 1000.0 else 0.0;
    var duty := if !buy then (amount * 1.0) / 1000.0 else 0.0;
    var total := if buy then 0.0 - (amount + commission + fee + duty)
                 else amount - commission - fee - duty;
    FeeBreakdown(total, amount, commission, fee, duty)
  }

  /** The fee model is linear in the share count. */
  lemma FeeIsLinear(buy: bool, info: StockInfo, count: int, price: real)
    ensures TransactionFee(buy, info, count, price).total
         == count as real * TransactionFee(buy, info, 1, price).total
  {
  }

  /** At a positive price, buying more shares never costs less. */
  lemma BuyCostMonotone(info: StockInfo, c1: int, c2: int, price: real)
    requires price > 0.0 && c1 <= c2
    ensures TransactionFee(true, info, c2, price).total <= TransactionFee(true, info, c1, price).total
  {
    assert (c2 - c1) as real * price >= 0.0;
  }

  /** Two worked examples: a Shanghai buy and a Shenzhen sell of 1000 shares at 10. */
  lemma FeeExamples()
    ensures TransactionFee(true, StockInfo("SSE"), 1000, 10.0)
         == FeeBreakdown(-10002.7, 10000.0, 2.5, 0.2, 0.0)
    ensures TransactionFee(false, StockInfo("SZSE"), 1000, 10.0)
         == FeeBreakdown(9987.5, 10000.0, 2.5, 0.0, 10.0)
  {
  }

  // ---------------------------------------------------------------------------
  // Order builders (createBuyTransaction, createSellTransaction)
  //
  // The rules call the builders as (info, date, index, count or balance,
  // price, tag, memo), but src/transaction-engine.js:161,186 declares only
  // (info, date, count or balance, price, memo).  Taken literally, every rule
  // call would pass the day index as the count or balance and the intended
  // count or balance as the price.  The builders below take the seven
  // arguments in the order the rules pass them (memo aside), which is what the
  // rules evidently intend.
  // ---------------------------------------------------------------------------

  /** A positive whole number of lots. */
  predicate IsLot(count: int)
  {
    count >= LotSize && count % LotSize == 0
  }

  /** Buying `count` shares at `price` leaves the balance non-negative. */
  predicate Affordable(info: StockInfo, count: int, price: real, balance: real)
  {
    TransactionFee(true, info, count, price).total + balance >= 0.0
  }

  /** `parseInt(balance / price / 100) * 100`: the whole lots the cash covers before fees. */
  function InitialCount(balance: real, price: real): (c: int)
    requires price != 0.0
    ensures c % LotSize == 0
  {
    (balance / price / 100.0).Floor * LotSize
  }

  /**
   * The countdown of createBuyTransaction's loop: starting from `count`, drop
   * one lot at a time until the buy is affordable, giving up below one lot.
   * The result is the largest affordable lot count not above `count`.
   */
  function LargestAffordable(info: StockInfo, count: int, price: real, balance: real): (r: Option<int>)
    requires count % LotSize == 0
    decreases count
    ensures r.Some? ==> IsLot(r.value) && r.value <= count && Affordable(info, r.value, price, balance)
    ensures r.Some? ==> forall c :: r.value < c <= count && c % LotSize == 0 ==> !Affordable(info, c, price, balance)
    ensures r.None? ==> forall c :: LotSize <= c <= count && c % LotSize == 0 ==> !Affordable(info, c, price, balance)
  {
    if count < LotSize then None
    else if Affordable(info, count, price, balance) then Some(count)
    else
      LotGap(info, count, price, balance);
      LargestAffordable(info, count - LotSize, price, balance)
  }

  /** The only whole-lot count above `count - LotSize` and up to `count` is `count` itself. */
  lemma LotGap(info: StockInfo, count: int, price: real, balance: real)
    requires count % LotSize == 0
    ensures forall c :: count - LotSize < c <= count && c % LotSize == 0 && Affordable(info, c, price, balance) ==> c == count
  {
    forall c | count - LotSize < c <= count && c % LotSize == 0
      ensures c == count
    {
      assert c == c / LotSize * LotSize && count == count / LotSize * LotSize;
    }
  }

  /**
   * What createBuyTransaction returns: a buy of the largest lot count, not
   * above the initial whole-lot count, whose cost the balance covers; nothing
   * when there is none.
   */
  function BuyTransaction(info: StockInfo, date: TradeDate, index: int, balance: real, price: real, tag: string): (r: Option<Order>)
    ensures price == 0.0 ==> r.None?
    ensures r.Some? ==>
      && price != 0.0
      && r.value.side == Buy && r.value.date == date && r.value.index == index
      && r.value.price == price && r.value.tag == tag
      && r.value.costs == TransactionFee(true, info, r.value.count, price)
      && IsLot(r.value.count) && r.value.count <= InitialCount(balance, price)
      && r.value.costs.total + balance >= 0.0
    ensures r.Some? ==>
      forall c :: r.value.count < c <= InitialCount(balance, price) && c % LotSize == 0 ==> !Affordable(info, c, price, balance)
    ensures price != 0.0 && r.None? ==>
      forall c :: IsLot(c) && c <= InitialCount(balance, price) ==> !Affordable(info, c, price, balance)
  {
    if price == 0.0 then None
    else match LargestAffordable(info, InitialCount(balance, price), price, balance)
      case None => None
      case Some(c) => Some(Order(date, Buy, index, c, price, TransactionFee(true, info, c, price), tag))
  }

  /**
   * createBuyTransaction as the source runs it: size the order in whole lots,
   * give up below one lot, then count down until the order is affordable.
   */
  method CreateBuyTransaction(info: StockInfo, date: TradeDate, index: int, balance: real, price: real, tag: string)
    returns (r: Option<Order>)
    ensures r == BuyTransaction(info, date, index, balance, price, tag)
  {
    if price == 0.0 {
      return None;
    }
    var count := InitialCount(balance, price);
    if count < 100 {
      return None;
    }
    var found, total;
    found, count, total := Countdown(info, count, price, balance);
    if !found {
      return None;
    }
    return Some(Order(date, Buy, index, count, price, total, tag));
  }

  /**
   * The `while` loop of createBuyTransaction: from a whole-lot `start`, drop
   * one lot at a time while the buy is unaffordable, giving up below one lot.
   * It finds exactly the lot count `LargestAffordable` describes, with its fees.
   */
  method Countdown(info: StockInfo, start: int, price: real, balance: real)
    returns (found: bool, count: int, total: FeeBreakdown)
    requires IsLot(start)
    ensures found <==> LargestAffordable(info, start, price, balance).Some?
    ensures found ==> LargestAffordable(info, start, price, balance) == Some(count)
    ensures found ==> total == TransactionFee(true, info, count, price)
  {
    count := start;
    total := TransactionFee(true, info, count, price);
    while total.total + balance < 0.0
      invariant IsLot(count) && count <= start
      invariant total == TransactionFee(true, info, count, price)
      invariant forall c :: count < c <= start && c % LotSize == 0 ==> !Affordable(info, c, price, balance)
      decreases count
    {
      CountdownStep(info, start, count, price, balance);
      count := count - 100;
      if count < 100 {
        NoneAffordable(info, start, price, balance);
        return false, count, total;
      }
      total := TransactionFee(true, info, count, price);
    }
    LargestAffordableIs(info, start, price, balance, count);
    found := true;
  }

  /** One unaffordable round extends the unaffordable range down by a lot. */
  lemma CountdownStep(info: StockInfo, start: int, count: int, price: real, balance: real)
    requires count % LotSize == 0 && !Affordable(info, count, price, balance)
    requires forall c :: count < c <= start && c % LotSize == 0 ==> !Affordable(info, c, price, balance)
    ensures forall c :: count - LotSize < c <= start && c % LotSize == 0 ==> !Affordable(info, c, price, balance)
  {
    LotGap(info, count, price, balance);
  }

  /** An affordable lot count with nothing affordable above it (up to `start`) is the countdown's result. */
  lemma LargestAffordableIs(info: StockInfo, start: int, price: real, balance: real, k: int)
    requires start % LotSize == 0 && IsLot(k) && k <= start && Affordable(info, k, price, balance)
    requires forall c :: k < c <= start && c % LotSize == 0 ==> !Affordable(info, c, price, balance)
    ensures LargestAffordable(info, start, price, balance) == Some(k)
  {
  }

  /** When no lot count up to `start` is affordable, the countdown finds nothing. */
  lemma NoneAffordable(info: StockInfo, start: int, price: real, balance: real)
    requires start % LotSize == 0
    requires forall c :: LotSize <= c <= start && c % LotSize == 0 ==> !Affordable(info, c, price, balance)
    ensures LargestAffordable(info, start, price, balance).None?
  {
  }

  /** The whole-lot count never spends more than the balance at a positive price. */
  lemma InitialCountFits(balance: real, price: real)
    requires price > 0.0
    ensures InitialCount(balance, price) as real * price <= balance
    ensures (InitialCount(balance, price) + LotSize) as real * price > balance
  {
    var u := balance / price;
    var f := (u / 100.0).Floor;
    var lo := f as real * 100.0;
    var hi := lo + 100.0;
    assert lo <= u < hi;
    assert balance == u * price;
    assert (u - lo) * price == u * price - lo * price >= 0.0;
    var above := hi * price;
    assert above - u * price == (hi - u) * price > 0.0;
    assert (InitialCount(balance, price) + LotSize) as real * price == above;
  }

  /** At a positive price no lot count above the initial whole-lot count is affordable. */
  lemma AboveInitialUnaffordable(info: StockInfo, balance: real, price: real, c: int)
    requires price > 0.0 && IsLot(c) && c > InitialCount(balance, price)
    ensures !Affordable(info, c, price, balance)
  {
    var c0 := InitialCount(balance, price);
    InitialCountFits(balance, price);
    var d := c as real - (c0 + LotSize) as real;
    assert d >= 0.0;
    MulNonNegative(d, price);
    var a := c as real * price;
    var above := (c0 + LotSize) as real * price;
    assert above > balance;
    assert a - above == d * price;
    assert a >= above;
    MulNonNegative(c as real, price);
    assert TransactionFee(true, info, c, price).amount == a;
  }

  /** The product of two non-negative reals is non-negative. */
  lemma MulNonNegative(a: real, b: real)
    requires a >= 0.0 && b >= 0.0
    ensures a * b >= 0.0
  {
  }

  /**
   * At a positive price the buy is the largest affordable whole-lot order of
   * all, not only of those below the initial count; and there is no order
   * exactly when not even one lot is affordable.
   */
  lemma BuyIsLargestAffordable(info: StockInfo, date: TradeDate, index: int, balance: real, price: real, tag: string)
    requires price > 0.0
    ensures var r := BuyTransaction(info, date, index, balance, price, tag);
      r.Some? ==> forall c :: IsLot(c) && c > r.value.count ==> !Affordable(info, c, price, balance)
    ensures BuyTransaction(info, date, index, balance, price, tag).None?
      <==> !Affordable(info, LotSize, price, balance)
  {
    var r := BuyTransaction(info, date, index, balance, price, tag);
    var c0 := InitialCount(balance, price);
    if r.Some? {
      forall c | IsLot(c) && c > r.value.count
        ensures !Affordable(info, c, price, balance)
      {
        if c > c0 {
          AboveInitialUnaffordable(info, balance, price, c);
        }
      }
      BuyCostMonotone(info, LotSize, r.value.count, price);
    } else if c0 < LotSize {
      AboveInitialUnaffordable(info, balance, price, LotSize);
    } else {
      assert IsLot(LotSize);
    }
  }

  /** What createSellTransaction returns: a sell of `count` shares at `price`, priced by the sell fees. */
  function SellTransaction(info: StockInfo, date: TradeDate, index: int, count: int, price: real, tag: string): (o: Order)
    ensures o.side == Sell && o.date == date && o.index == index && o.tag == tag
    ensures o.count == count && o.price == price
    ensures o.costs == TransactionFee(false, info, count, price)
    ensures count >= 0 && price >= 0.0 ==> 0.0 <= o.costs.total <= o.costs.amount
  {
    Order(date, Sell, index, count, price, TransactionFee(false, info, count, price), tag)
  }

  // ---------------------------------------------------------------------------
  // Settlement (executeCapitalSettlement) as a function on account values
  // ---------------------------------------------------------------------------

  /** The account's state (`capitalData`) as a value. */
  datatype Ledger = Ledger(balance: real, stock: Position, transactions: seq<Order>)

  /** A held position knows its instrument (which the rules need to price a sell). */
  predicate WellFormed(p: Position)
  {
    p.count > 0 ==> p.info.Some?
  }

  /** The source's `_.isEmpty(stock) || stock.count <= 0`, negated: there is something to sell. */
  predicate IsHeld(stock: Option<Position>)
  {
    stock.Some? && stock.value.count > 0
  }

  /** Net cash flow of a sequence of settled orders. */
  function CashFlow(orders: seq<Order>): real
  {
    if orders == [] then 0.0 else CashFlow(orders[..|orders| - 1]) + orders[|orders| - 1].costs.total
  }

  lemma {:induction false} CashFlowAppend(a: seq<Order>, b: seq<Order>)
    ensures CashFlow(a + b) == CashFlow(a) + CashFlow(b)
    decreases |b|
  {
    if b == [] {
      assert a + b == a;
    } else {
      var b' := b[..|b| - 1];
      assert (a + b)[..|a + b| - 1] == a + b';
      CashFlowAppend(a, b');
    }
  }

  /** A settlement goes through when there is an order and the balance covers its cash flow. */
  predicate Accepts(balance: real, order: Option<Order>)
  {
    order.Some? && order.value.costs.total + balance >= 0.0
  }

  /** The position an accepted order leaves: a buy opens it, anything else clears it. */
  function PositionAfter(info: StockInfo, o: Order): (p: Position)
    ensures WellFormed(p)
    ensures o.side == Sell ==> p.count == 0
  {
    if o.side == Buy then Position(Some(info), o.count, o.price) else EmptyPosition
  }

  /**
   * executeCapitalSettlement on values: an empty order, or one the balance
   * cannot cover, leaves everything as it was; otherwise the cash flow is
   * applied, the position set or cleared, and the order logged.
   */
  function Settle(l: Ledger, info: StockInfo, order: Option<Order>): (r: Ledger)
    ensures !Accepts(l.balance, order) ==> r == l
    ensures Accepts(l.balance, order) ==>
      && r.balance == l.balance + order.value.costs.total
      && r.balance >= 0.0
      && r.transactions == l.transactions + [order.value]
    ensures Accepts(l.balance, order) && order.value.side == Buy ==>
      r.stock == Position(Some(info), order.value.count, order.value.price)
    ensures Accepts(l.balance, order) && order.value.side == Sell ==> r.stock == EmptyPosition
  {
    if order.None? then l
    else if order.value.costs.total + l.balance < 0.0 then l
    else Ledger(l.balance + order.value.costs.total, PositionAfter(info, order.value),
                l.transactions + [order.value])
  }

  /** Settlement keeps the balance equal to the initial balance plus the logged cash flows. */
  lemma SettleConserves(l: Ledger, info: StockInfo, order: Option<Order>, initial: real)
    requires l.balance == initial + CashFlow(l.transactions)
    ensures Settle(l, info, order).balance == initial + CashFlow(Settle(l, info, order).transactions)
  {
  }

  /** Settlement keeps a held position attached to its instrument. */
  lemma SettleKeepsWellFormed(l: Ledger, info: StockInfo, order: Option<Order>)
    requires WellFormed(l.stock)
    ensures WellFormed(Settle(l, info, order).stock)
  {
  }

  // ---------------------------------------------------------------------------
  // The daily step (executeTransaction) as a function on account values
  // ---------------------------------------------------------------------------

  /**
   * One trading day: settle whatever the sell rule proposes for the current
   * position; then, only if no shares are held any more, settle whatever the
   * buy rule proposes for the balance as it now stands.  (The stop-loss pass
   * between the two is commented out in the source and is not part of the day.)
   */
  function Day(l: Ledger, info: StockInfo, sellRule: Position --> Option<Order>, buyRule: real --> Option<Order>): (r: Ledger)
    requires sellRule.requires(l.stock)
    requires forall b :: buyRule.requires(b)
    ensures |l.transactions| <= |r.transactions| <= |l.transactions| + 2
    ensures r.transactions[..|l.transactions|] == l.transactions
    ensures r.balance == l.balance + CashFlow(r.transactions[|l.transactions|..])
  {
    var mid := Settle(l, info, sellRule(l.stock));
    var r := if mid.stock.count > 0 then mid else Settle(mid, info, buyRule(mid.balance));
    assert r.transactions == l.transactions + r.transactions[|l.transactions|..];
    CashFlowAppend(l.transactions, r.transactions[|l.transactions|..]);
    assert r.balance == l.balance + CashFlow(r.transactions[|l.transactions|..]) by {
      SettleConserves(l, info, sellRule(l.stock), l.balance - CashFlow(l.transactions));
      if mid.stock.count <= 0 {
        SettleConserves(mid, info, buyRule(mid.balance), l.balance - CashFlow(l.transactions));
      }
    }
    r
  }

  /**
   * The buy rule is consulted only when the position is empty after the
   * sell step, and only at the balance left after it: two buy rules that agree
   * there give the same day.
   */
  lemma DayConsultsBuyRuleOnlyAfterSell(l: Ledger, info: StockInfo, sellRule: Position --> Option<Order>,
                                        buy1: real --> Option<Order>, buy2: real --> Option<Order>)
    requires sellRule.requires(l.stock)
    requires forall b :: buy1.requires(b)
    requires forall b :: buy2.requires(b)
    ensures var mid := Settle(l, info, sellRule(l.stock));
      (mid.stock.count > 0 || buy1(mid.balance) == buy2(mid.balance)) ==>
        Day(l, info, sellRule, buy1) == Day(l, info, sellRule, buy2)
  {
  }

  /**
   * When a day logs two orders, the first is the sell rule's proposal for the
   * position held that morning and the second is the buy rule's proposal for
   * the balance after the first.
   */
  lemma DayTwoSettlements(l: Ledger, info: StockInfo, sellRule: Position --> Option<Order>, buyRule: real --> Option<Order>)
    requires sellRule.requires(l.stock)
    requires forall b :: buyRule.requires(b)
    requires |Day(l, info, sellRule, buyRule).transactions| == |l.transactions| + 2
    ensures var r := Day(l, info, sellRule, buyRule);
      var n := |l.transactions|;
      && sellRule(l.stock).Some?
      && r.transactions[n] == sellRule(l.stock).value
      && PositionAfter(info, r.transactions[n]).count <= 0
      && buyRule(l.balance + r.transactions[n].costs.total).Some?
      && r.transactions[n + 1] == buyRule(l.balance + r.transactions[n].costs.total).value
  {
  }

  /** The sides of the orders a day appends, in order. */
  function Sides(orders: seq<Order>): (s: seq<Side>)
    ensures |s| == |orders|
    ensures forall i :: 0 <= i < |orders| ==> s[i] == orders[i].side
  {
    if orders == [] then [] else [orders[0].side] + Sides(orders[1..])
  }

  /**
   * If the sell rule only ever proposes sells and the buy rule only buys, a
   * day settles at most one sell followed by at most one buy.
   */
  lemma DaySellThenBuy(l: Ledger, info: StockInfo, sellRule: Position --> Option<Order>, buyRule: real --> Option<Order>)
    requires sellRule.requires(l.stock)
    requires forall b :: buyRule.requires(b)
    requires sellRule(l.stock).Some? ==> sellRule(l.stock).value.side == Sell
    requires forall b :: buyRule.requires(b) && buyRule(b).Some? ==> buyRule(b).value.side == Buy
    ensures Sides(Day(l, info, sellRule, buyRule).transactions[|l.transactions|..]) in {[], [Sell], [Buy], [Sell, Buy]}
  {
    var n := |l.transactions|;
    var r := Day(l, info, sellRule, buyRule);
    var mid := Settle(l, info, sellRule(l.stock));
    var added := r.transactions[n..];
    if |added| == 2 {
      DayTwoSettlements(l, info, sellRule, buyRule);
      assert buyRule.requires(l.balance + r.transactions[n].costs.total);
      assert Sides(added) == [Sell, Buy];
    } else if |added| == 1 {
      if Accepts(l.balance, sellRule(l.stock)) {
        assert added[0] == sellRule(l.stock).value;
        assert Sides(added) == [Sell];
      } else {
        assert buyRule.requires(l.balance);
        assert added[0] == buyRule(l.balance).value;
        assert Sides(added) == [Buy];
      }
    }
  }

  /** Every buy is a whole number of lots (sells may be of any size). */
  predicate LotOrder(o: Order)
  {
    o.side == Buy ==> IsLot(o.count)
  }

  /** No position, or one of whole lots. */
  predicate LotPosition(p: Position)
  {
    p.count == 0 || IsLot(p.count)
  }

  /**
   * If both rules only ever propose lot-aligned buys, the position after the
   * day is empty or a whole number of lots whenever it was before.
   */
  lemma DayKeepsLotPosition(l: Ledger, info: StockInfo, sellRule: Position --> Option<Order>, buyRule: real --> Option<Order>)
    requires sellRule.requires(l.stock)
    requires forall b :: buyRule.requires(b)
    requires LotPosition(l.stock)
    requires sellRule(l.stock).Some? ==> LotOrder(sellRule(l.stock).value)
    requires forall b :: buyRule.requires(b) && buyRule(b).Some? ==> LotOrder(buyRule(b).value)
    ensures LotPosition(Day(l, info, sellRule, buyRule).stock)
  {
  }

  // ---------------------------------------------------------------------------
  // The account object (capitalData)
  // ---------------------------------------------------------------------------

  /**
   * The account the engine mutates in place: cash balance, current position
   * record and the log of settled orders.
   */
  class Account {
    var balance: real
    var stock: Position
    var transactions: seq<Order>
    /** The balance the account was opened with. */
    ghost const initial: real

    /** A held position knows its instrument, and the balance is the opening balance plus every logged cash flow. */
    ghost predicate Valid()
      reads this
    {
      WellFormed(stock) && balance == initial + CashFlow(transactions)
    }

    /** The account's state as a value. */
    function Model(): Ledger
      reads this
    {
      Ledger(balance, stock, transactions)
    }

    /** A fresh account: the opening balance, the empty stock record and no transactions. */
    constructor (initBalance: real)
      ensures Valid()
      ensures initial == initBalance
      ensures Model() == Ledger(initBalance, EmptyPosition, [])
    {
      balance := initBalance;
      stock := EmptyPosition;
      transactions := [];
      initial := initBalance;
    }

    /** executeCapitalSettlement: settle `order` in place; `ok` says whether it went through. */
    method ExecuteCapitalSettlement(info: StockInfo, order: Option<Order>) returns (ok: bool)
      requires Valid()
      modifies this
      ensures Valid()
      ensures ok == Accepts(old(balance), order)
      ensures !ok ==> unchanged(this)
      ensures ok ==> balance == old(balance) + order.value.costs.total >= 0.0
      ensures ok ==> transactions == old(transactions) + [order.value]
      ensures Model() == Settle(old(Model()), info, order)
    {
      ghost var before := Model();
      SettleConserves(before, info, order, initial);
      if order.None? {
        return false;
      }
      var o := order.value;
      if o.costs.total + balance < 0.0 {
        return false;
      }
      balance := balance + o.costs.total;
      if o.side == Buy {
        stock := Position(Some(info), o.count, o.price);
      } else {
        stock := EmptyPosition;
      }
      transactions := transactions + [o];
      assert Model() == Settle(before, info, order);
      return true;
    }

    /**
     * executeTransaction: the day's sell check, then, if no shares remain,
     * the buy check against the updated balance.
     */
    method ExecuteTransaction(info: StockInfo, sellRule: Position --> Option<Order>, buyRule: real --> Option<Order>)
      requires Valid()
      requires forall p :: WellFormed(p) ==> sellRule.requires(p)
      requires forall b :: buyRule.requires(b)
      modifies this
      ensures Valid()
      ensures Model() == Day(old(Model()), info, sellRule, buyRule)
    {
      var sold := ExecuteCapitalSettlement(info, sellRule(stock));
      if stock.count > 0 {
        return;
      }
      var bought := ExecuteCapitalSettlement(info, buyRule(balance));
    }
  }
}

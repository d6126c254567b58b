# stocksim transaction engine — a Dafny model

This project models the core of a single-stock daily backtester, together with the two trading rules that feed it.

- **The transaction engine** (`src/transaction-engine.js`):
  - the fee model: commission, the Shanghai-only transfer fee, and stamp duty on sells;
  - the buy builder: sizes an order in whole lots of 100 shares, then counts down one lot at a time until the cash covers the order and its fees;
  - the sell builder;
  - settlement of one order against the account (`capitalData`): cash balance, position record and transaction log;
  - the daily step: the sell check first, then, if no shares remain, the buy check against the updated balance.
- **The percentage stop-loss rule** (`src/stoploss.js`).
- **The momentum-breakout rule** (`bak/momentum-breakthrough.js`):
  - "moment" is the average range of the previous N bars;
  - buy at `open + moment*P`;
  - sell by the open-price profit lock (`mmb1`) or at the breakdown price `open - moment*L` (`mmb2`);
  - but hold while the buy check would still buy.

Money and prices are exact `real`s and share counts are `int`s. `parseInt(x / 100) * 100` is modelled as `(x / 100).Floor * 100`. As long as the price is not zero, this gives the same order: truncation and flooring differ only for negative quotients, and there both give fewer than 100 shares, so no order.

Files:

- `wrappers.dfy`: `Option`.
- `rule_inputs.dfy`: bars, the shared options object, and JavaScript's `x || default` fallback.
- `transaction_engine.dfy`:
  - fees and builders;
  - settlement and the daily step, first as functions on an account value (`Ledger`: `Settle`, `Day`);
  - then as the `Account` class, whose methods update the fields in place and are proved equal to those functions.
- `stoploss.dfy`: the stop-loss rule.
- `momentum_breakthrough.dfy`: the momentum rule, the closures that plug it into the daily step, and the hold-check finding below.

**Argument order of the builders.** The two rule files call the builders with seven arguments: `(info, date, index, count or balance, price, tag, memo)` (`src/stoploss.js:21-31`, `bak/momentum-breakthrough.js:60-70,113-121,150-160`). But `src/transaction-engine.js:161,186` declares five: `(stockInfo, tradeDate, count or balance, price, memo)`. Taken literally, every rule order would use the day index as its count or balance and the intended count or balance as its price. The model follows the reading the rules evidently intend. The builders take the day index, the count or balance, the price and the rule tag, and the order records the index and the tag. The same note is a comment at the builders in `transaction_engine.dfy`.

**What the engine does not do:**

- Settlement never checks for a buy while a position is held, or for a sell while flat. A buy replaces the position record and a sell clears it. No run is aborted.
- The insufficient-funds check (`total + balance < 0`) applies to every order. There is no fixed-stake mode.
- There is no realized-trade pairing and no statistics. The log is the plain list of settled orders.
- The stop-loss pass in `executeTransaction` is commented out (`src/transaction-engine.js:53-77`). So the daily step is only the strategy's sell and then its buy, and nothing gives a stop-loss priority over the strategy's sell.

## Model

| member | source | states |
|---|---|---|
| `TransactionEngine.TransactionFee` | src/transaction-engine.js:219-243 | the amount is count×price; commission is amount×0.25/1000; the transfer fee is amount×0.02/1000 on "SSE" and 0 elsewhere; duty is amount/1000 on a sell and 0 on a buy; a buy's total is −amount×(1+buy rate) and a sell's is amount×(1−sell rate); so for a non-negative amount a buy's total is ≤ −amount ≤ 0 and a sell's lies in [0, amount] |
| `TransactionEngine.FeeIsLinear` | src/transaction-engine.js:219-243 | the total is linear in the share count: count × the total for one share |
| `TransactionEngine.BuyCostMonotone` | src/transaction-engine.js:220-237 | at a positive price, more shares never cost less (makes the countdown's affordability test downward closed) |
| `TransactionEngine.FeeExamples` | src/transaction-engine.js:219-243 | 1000 shares at 10 on SSE cost 10002.7 (commission 2.5, transfer 0.2); sold on SZSE they yield 9987.5 (duty 10) |
| `TransactionEngine.LargestAffordable` | src/transaction-engine.js:190-196 | the countdown returns the largest lot count at or below its start that the balance covers after fees, and nothing when no lot count in [100, start] is affordable |
| `TransactionEngine.LotGap` | src/transaction-engine.js:192-193 | the only multiple of 100 above count − 100 and up to count is count itself, so one `count -= 100` skips no candidate |
| `TransactionEngine.BuyTransaction` | src/transaction-engine.js:186-210 | no order at price 0 or when no whole lot up to floor(balance/price/100)×100 is affordable; otherwise a buy at the given price and tag whose count is a positive multiple of 100, at most the initial lot count, affordable (total + balance ≥ 0), priced by the buy fees, and maximal: every larger lot count up to the initial one is unaffordable |
| `TransactionEngine.InitialCount` | src/transaction-engine.js:188 | `parseInt(balance / price / 100) * 100`, as a floor; always a multiple of 100 |
| `TransactionEngine.CreateBuyTransaction` | src/transaction-engine.js:186-210 | the lot sizing, the give-up below one lot, and the countdown loop, run as written, return exactly `BuyTransaction`'s order |
| `TransactionEngine.Countdown` | src/transaction-engine.js:191-196 | the `while` loop from a whole-lot start, run as written, finds an affordable lot count exactly when `LargestAffordable` does, and then the same count with its fees; it terminates because the count decreases; its invariant is that every lot count above the current one (up to the start) is unaffordable |
| `TransactionEngine.CountdownStep` | src/transaction-engine.js:191-193 | one unaffordable round extends the unaffordable range down by one lot |
| `TransactionEngine.LargestAffordableIs` | src/transaction-engine.js:191-196 | an affordable lot count with nothing affordable above it up to the start is what the countdown returns |
| `TransactionEngine.NoneAffordable` | src/transaction-engine.js:193-194 | when no lot count up to the start is affordable, the countdown returns nothing |
| `TransactionEngine.InitialCountFits` | src/transaction-engine.js:188 | at a positive price the whole-lot count costs at most the balance, and one more lot would exceed it |
| `TransactionEngine.AboveInitialUnaffordable` | src/transaction-engine.js:188-196 | at a positive price no lot count above the initial whole-lot count is affordable |
| `TransactionEngine.BuyIsLargestAffordable` | src/transaction-engine.js:186-210 | at a positive price the buy is the largest affordable whole-lot order of all, and there is no order exactly when a single lot is unaffordable |
| `TransactionEngine.SellTransaction` | src/transaction-engine.js:161-177 | always an order, of type sell, with the given count, price, date, index and tag, whose costs are the sell fees; for non-negative count and price its proceeds lie in [0, amount] |
| `TransactionEngine.Accepts` | src/transaction-engine.js:120-121 | settlement goes through exactly when there is an order and total + balance ≥ 0 |
| `TransactionEngine.PositionAfter` | src/transaction-engine.js:136-148 | a settled buy installs {info, count, price}; anything else installs the empty record {null, 0, 0} |
| `TransactionEngine.Settle` | src/transaction-engine.js:118-152 | an empty order, or one with total + balance < 0, leaves balance, stock and log unchanged; otherwise the balance becomes old balance + total (≥ 0), the log grows by exactly this order at the end, a buy sets the stock to its count and price and a sell resets it to count 0, price 0 |
| `TransactionEngine.SettleConserves` | src/transaction-engine.js:135-149 | settlement keeps the balance equal to the initial balance plus the cash flows of all logged orders |
| `TransactionEngine.SettleKeepsWellFormed` | src/transaction-engine.js:136-148 | after settlement a held position still records its instrument |
| `TransactionEngine.Day` | src/transaction-engine.js:18-109 | the day keeps the old log as a prefix, adds at most two orders, and moves the balance by exactly their cash flows |
| `TransactionEngine.DayConsultsBuyRuleOnlyAfterSell` | src/transaction-engine.js:79-91 | the buy rule matters only when no shares are held after the sell step, and only at the balance left after it |
| `TransactionEngine.DayTwoSettlements` | src/transaction-engine.js:29-36 | when a day logs two orders, the first is the sell rule's order for the morning position, it left no shares, and the second is the buy rule's order for the post-sell balance |
| `TransactionEngine.DaySellThenBuy` | src/transaction-engine.js:29-91 | if the sell rule only sells and the buy rule only buys, a day settles nothing, one sell, one buy, or a sell followed by a buy |
| `TransactionEngine.DayKeepsLotPosition` | src/transaction-engine.js:136-148 | if the rules only propose whole-lot buys, the position stays empty or a whole number of lots |
| `TransactionEngine.Account.constructor` | src/index.js:105-109 | a new account holds the opening balance, the empty stock record {null, 0, 0} and no transactions, the shape the (commented-out) caller builds |
| `TransactionEngine.Account.ExecuteCapitalSettlement` | src/transaction-engine.js:118-152 | settles in place: returns false and changes nothing for an empty or uncovered order; otherwise returns true, with the new balance the old plus total (≥ 0) and the order appended; the new state is `Settle` of the old; keeps the balance equal to opening balance plus logged cash flows |
| `TransactionEngine.Account.ExecuteTransaction` | src/transaction-engine.js:18-109 | the in-place sell-then-buy sequence leaves the account in exactly the state `Day` gives |
| `StopLoss.StopRatio` | src/stoploss.js:15 | S is the option's value, or 0.1 when options or S are absent or S is 0 |
| `StopLoss.LossPrice` | src/stoploss.js:18 | the stop price entry × (1 − S) |
| `StopLoss.CheckStoploss` | src/stoploss.js:11-33 | no order without a held position (absent, or count ≤ 0); with one, a sell exactly when the day's low ≤ price×(1−S); it is the whole count at that loss price, tagged "stoploss", priced by the sell fees; with options absent, S absent or S = 0 the threshold is price×0.9 |
| `StopLoss.StoplossBoundsLoss` | src/stoploss.js:15-19 | for 0 ≤ S ≤ 1 and a non-negative entry price, the stop sells at no more than the entry price, losing exactly the fraction S of it before fees, with non-negative proceeds |
| `MomentumBreakthrough.Window` | bak/momentum-breakthrough.js:27 | N is the option's value, or 1 when absent or 0; never 0, so the division by N is defined |
| `MomentumBreakthrough.BreakoutFraction` | bak/momentum-breakthrough.js:29 | P is the option's value, or 0.5 when absent or 0; never 0 |
| `MomentumBreakthrough.BreakdownFraction` | bak/momentum-breakthrough.js:127 | L is the option's value, or 0.5 when absent or 0; never 0 |
| `MomentumBreakthrough.RangeSum` | bak/momentum-breakthrough.js:31-41 | the accumulator after k rounds: round i adds the range of bar index−i−1 when it exists (high−low for "hl", else high−close) |
| `MomentumBreakthrough.Moment` | bak/momentum-breakthrough.js:31-42 | the accumulator after N rounds divided by N: the moment both rules use |
| `MomentumBreakthrough.ComputeMoment` | bak/momentum-breakthrough.js:31-42 | the accumulating loop, run as written (N defaulting to 1, "hl" selecting high−low, else high−close), returns exactly `Moment` |
| `MomentumBreakthrough.RangeSumIsWindow` | bak/momentum-breakthrough.js:31-41 | after k rounds the accumulator is the sum of the ranges of the bars `max(0, index−k) .. index−1` |
| `MomentumBreakthrough.MomentIsWindowAverage` | bak/momentum-breakthrough.js:31-42 | moment is the range sum of the (up to) N preceding bars divided by N, even when fewer than N bars precede |
| `MomentumBreakthrough.RangeSumNonNegative` | bak/momentum-breakthrough.js:31-41 | the accumulator after k rounds is non-negative when every bar it reads (`max(0, index−k) .. index−1`) has a non-negative range |
| `MomentumBreakthrough.MomentNonNegative` | bak/momentum-breakthrough.js:31-42 | moment ≥ 0 when each bar in the N-day window has high ≥ low (or high ≥ close), for any N |
| `MomentumBreakthrough.BuyTarget` | bak/momentum-breakthrough.js:46 | the buy target open + moment × P |
| `MomentumBreakthrough.BuySignal` | bak/momentum-breakthrough.js:57 | the breakout condition: high ≥ target and open ≤ target |
| `MomentumBreakthrough.CheckBuy` | bak/momentum-breakthrough.js:15-72 | no order when balance ≤ 0 or when the day does not both open at or below and reach the target `open + moment×P` (P defaulting to 0.5); any order is a buy tagged "mmb" at the target, within [open, high], a positive whole number of lots, affordable, priced by the buy fees; on a breakout day it is the buy builder's order for the balance at the target |
| `MomentumBreakthrough.BuyWhenOneLotAffordable` | bak/momentum-breakthrough.js:57-70 | on a breakout day with a positive target, the rule buys exactly when one lot at the target is affordable |
| `MomentumBreakthrough.ProfitLock` | bak/momentum-breakthrough.js:106 | the "mmb1" condition: `OS` set and the open above the entry price |
| `MomentumBreakthrough.SellTarget` | bak/momentum-breakthrough.js:143 | the breakdown price open − moment × L |
| `MomentumBreakthrough.Breakdown` | bak/momentum-breakthrough.js:148 | the "mmb2" condition: low ≤ breakdown price ≤ open |
| `MomentumBreakthrough.Exit` | bak/momentum-breakthrough.js:103-161 | with `OS` set and open above the entry price, sells the whole count at the open, tagged "mmb1" (checked first); otherwise sells the whole count at `open − moment×L`, tagged "mmb2", exactly when that price lies in [low, open] |
| `MomentumBreakthrough.CheckSell` | bak/momentum-breakthrough.js:83-162 | no order without a held position, and none when the buy check with balance 100000 yields an order (hold); otherwise the exit above; every order is a sell of the whole position |
| `MomentumBreakthrough.SellWithinBar` | bak/momentum-breakthrough.js:106-161 | when low ≤ open ≤ high, every sell the rule makes is at a price within the day's [low, high] and tagged "mmb1" or "mmb2" |
| `MomentumBreakthrough.SellRule` | src/transaction-engine.js:29-35 | the momentum sell check, applied to the account's stock record, is defined on every well-formed position |
| `MomentumBreakthrough.BuyRule` | src/transaction-engine.js:82-89 | the momentum buy check, applied to the account's balance, is defined for every balance |
| `MomentumBreakthrough.MomentumDay` | src/transaction-engine.js:18-109 | with the momentum rules plugged in, a day settles nothing, a sell, a buy, or a sell then a buy, and keeps the position empty or whole lots |
| `MomentumBreakthrough.ExampleDayTargets` | bak/momentum-breakthrough.js:27-57 | on the counterexample's day the moment is 200, the buy target 2000, the breakdown price 1800, and the buy signal fires |
| `MomentumBreakthrough.ExampleSellNotHeld` | bak/momentum-breakthrough.js:87-101 | on that day the hold check's 100000 buys nothing, so the held 100 shares are sold at 1800, tagged "mmb2" |
| `MomentumBreakthrough.ExampleRebuy` | bak/momentum-breakthrough.js:57-70 | with the sale's proceeds added to 1000000, the buy check buys 500 shares at 2000 |
| `MomentumBreakthrough.HoldCheckMissesCostlyBreakout` | bak/momentum-breakthrough.js:87-101 | a concrete day on which the buy signal fires but the rule still sells (at 1800) and the same day buys back (at 2000) |
| `MomentumBreakthrough.CheckSellHoldOnSignal` | bak/momentum-breakthrough.js:83-162 | the corrected rule holds whenever the buy signal fires; otherwise it exits as `Exit`; any sell it makes is also one the source's rule makes |
| `MomentumBreakthrough.SellRuleHoldOnSignal` | src/transaction-engine.js:29-35 | the corrected sell check is defined on every well-formed position |
| `MomentumBreakthrough.HoldOnSignalNeverRebuys` | bak/momentum-breakthrough.js:87-101 | with the corrected hold check, a momentum day never sells and buys back: it logs at most one order |

## Left out

- `src/index.js`: command-line flag parsing and console output. It hands the run to `simulate` in an external library, which is not part of this model. Its own loading, price adjustment and day loop are commented out.
- `config/default.js`: a static configuration object that refers to rules in that external library. It has no logic.
- Statistics, realized-trade pairing, the fixed-stake mode and the stop-loss pass inside the daily step: none of them exists in the modelled code.
- Logging (`debug`, `toFixed` formatting) and the memo strings of orders. Orders carry the rule tag instead.
- Dates are opaque. An order keeps the date it is given; the source formats it as `YYYYMMDD`.
- Stock information other than the exchange is not modelled.
- `async`: nothing in the core runs concurrently.
- IEEE-754 rounding: amounts are exact reals. NaN options (`parseInt` of a bad flag) are not modelled. A zero option does select the default, as JavaScript's `||` does.
- `parseInt`'s string round trip for quotients written in exponent notation (at least 1e21, or below 1e-6) is not modelled.
- `TransactionEngine.BuyTransaction`: at price 0 the source divides by zero and builds an order whose count is NaN. The model returns no order.
- `TransactionEngine.Account.ExecuteCapitalSettlement`: its trade-date parameter is never read (`src/transaction-engine.js:118-152`), so the model has none. A null `capitalData` is not modelled.
- Rule preconditions that stand for runtime errors in the source:
  - `stockData[index]` must exist whenever a rule reads it, that is, when there is a position or a positive balance;
  - a held position must record its instrument, or the fee calculation would dereference null.
- `MomentumBreakthrough.CheckBuy` and `CheckSell` take an options object that is always present: the model assumes the engine always passes one. The source reads `options.mmbType` (lines 35 and 134) and `options.OS` (line 106) without a guard, so it tolerates absent options only on its early returns (balance ≤ 0, line 23; no held position, line 84), at index 0 (no earlier bar, so the window loop never reads `mmbType`), and, in the sell rule, when the hold check returns first. Only the stop-loss rule models absent options.
- The engine's `tradeMethod` object is passed as two function values, the sell check and the buy check. The date, index, bars and options are bound into them.

## Findings

| source | as written | input that shows it | evidently intended | confidence | as-written member | corrected member |
|---|---|---|---|---|---|---|
| bak/momentum-breakthrough.js:87-101 | the sell rule holds only if `checkMMBBuyTransaction(100000, …)` returns an order, which needs 100000 to pay for a whole lot at the buy target | bars (o,h,l,c) = (1900,2000,1800,1900), (1900,2100,1750,2050); index 1; N=1, P=L=0.5, "hl"; 100 shares bought at 1950; balance 1,000,000: the target is 2000 and the signal fires, but one lot costs over 200000, so the rule sells at 1800 and the buy check buys 500 shares back at 2000 the same day | hold whenever the buy condition (`high ≥ target ≥ open`) fires, as the comment at line 86 says ("check whether the momentum-breakout buy condition holds") | medium (not executed) | `MomentumBreakthrough.HoldCheckMissesCostlyBreakout` | `MomentumBreakthrough.CheckSellHoldOnSignal` |

The corrected rule plugs into the daily step through `SellRuleHoldOnSignal`. `HoldOnSignalNeverRebuys` proves that, with it, no day both sells and buys back.

# A-kill three-wave strategy: the decision core in Dafny

This project models the decision core of a JoinQuant stock strategy (`main.py`). The strategy looks for a stock that has fallen sharply (an "A-kill") and then shows the following:

- a rise in three waves, whose highs climb
- support prices formed by high-volume bullish bars
- a consolidation under the third wave's high

The strategy buys such a stock on a breakout, ranks the candidates by signal strength plus a shareholder-concentration bonus, and manages each position through stop, take-profit and time-stop exits.

The project proves properties of that model. The modules follow the program's stages:

- `common.dfy` (module `Common`): bars, the clock, percentages, means, max and argmin.
- `waves.dfy` (module `Waves`): the segmentation loop of `identify_three_waves`. It alternates up and down legs, each with a start scan, an end search and, for up legs, a support scan.
- `pattern.dfy` (module `Pattern`): `identify_A_kill`, the start-date search, and the ordered checks and quality score of `identify_three_waves`.
- `consolidation.dfy` (module `Consolidation`): `check_consolidation`.
- `signal.dfy` (module `Signal`): the parameters, `get_shareholder_change`, `is_close_limit_up`, the candidate and pool filters, `generate_trade_signal` with its first-match tiers, and the two screening loops of `trade_logic` (the basic candidates and the trade signals).
- `ranking.dfy` (module `Ranking`): position sizing, `calculate_composite_score` and the stable descending sort.
- `lifecycle.dfy` (module `Lifecycle`): the position book `g.positions`. It is a class `Book` whose methods update the map in place: `check_immediate_stops`, `check_tail_position`, `cleanup_sold_positions`, `morning_cleanup` and `trade_logic` with its buying loop.

Each loop of the source is a method. Its `ensures` ties the result, or the new state, to a specification function. The properties are lemmas about those functions.

The source's inputs are parameters:
- The market data (`get_price`, `get_current_data`, `get_fundamentals`, `finance.run_query`) is given as bar sequences, quotes and maps; a failed fetch is `None`.
- The clock is a `Clock` value.
- Order submission and order status are given as sequences (`orderOk`, `OrderStatus` lists). The holdings after the tail check's sell orders are a second map, `heldAfter`.
- Dates are day numbers, and prices and volumes are exact reals.

Three behaviours of the code are kept as written:
- The comment at main.py:268 speaks of the leg's own bars, but the support scan reads the close, open and low of bar `i` of the analysed data. Only the volume comes from the leg's bar `start + i` (main.py:275-281). `Waves.SupportBar` states this.
- `morning_cleanup` drops every selling entry regardless of holdings (main.py:851-858). `cleanup_sold_positions` drops only those no longer held. `Lifecycle.MorningDropsAllSelling` states the difference.
- The price position of the consolidation report is 50 whenever `wave3_high <= support` (main.py:398).

## Model

| member | source | states |
|---|---|---|
| Common.MaxOf | main.py:378 | the result is at least every element and is one of them (Python's max) |
| Common.ArgMin | main.py:156 | the index of the first smallest element: no element is smaller and every earlier one is strictly larger (np.argmin) |
| Waves.LegStart | main.py:205-229 | a leg starts within the 10 bars from the cursor |
| Waves.ScanStartSound | main.py:210-226 | the running scan returns an index no later bar beats and that strictly beats every earlier bar |
| Waves.LegStartRule | main.py:205-229 | the start is the first bar of the window holding the lowest close (up leg) or highest close (down leg) |
| Waves.LocalMaxWindow | main.py:242-244 | the local-maximum test is the same as "close at or above every close in `closes[max(0,i-3):min(len,i+4)]`" |
| Waves.LocalMinWindow | main.py:253-255 | the mirror image for a local minimum |
| Waves.FindEnd | main.py:235-258 | a found end lies in the searched range |
| Waves.FindEndSound | main.py:235-258 | the search returns the first bar that ends the leg, or none when no bar of the range qualifies |
| Waves.LegEnd | main.py:260-263 | the end lies after the start, inside the bars, and the leg is at most 30 bars long |
| Waves.LegEndRule | main.py:235-263 | the end is the first bar of [start+5, min(start+30, len)) with a rise of at least 10% at a local maximum (≥5% fall at a local minimum for down legs) and three bars after it; if there is none, the end is forced to min(start+29, len-1) |
| Waves.ScanSupportSound | main.py:275-281 | the support scan yields the least low among the qualifying bars, or none when none qualifies |
| Waves.SupportRule | main.py:269-281 | an up leg's raw support is the least low of the bars closing above their open whose leg bar trades above 1.2× the leg's mean volume |
| Waves.Truthy | main.py:283-284 | the truthiness test keeps a support exactly when it exists and is non-zero |
| Waves.Leg | main.py:205-294 | a leg has the requested direction, starts within 10 bars of the cursor, ends after its start inside the bars, and lasts end-start+1 ≤ 30 bars; its dates are its bars' dates, its prices their closes, and its change is the percentage change from start to end price |
| Waves.WithSupport | main.py:268-295 | only the support changes; a leg has one exactly when it is an up leg whose raw support exists and is non-zero, and then the support is that raw support |
| Waves.Attach | main.py:287-296 | attaching supports keeps the number of legs |
| Waves.UpWaves | main.py:303 | the up-wave list contains only up legs of the input, and no more of them than there are legs |
| Waves.UpWavesAppend | main.py:303 | the up-wave filter distributes over concatenation, so it keeps the legs' order |
| Waves.UpWavesSingle | main.py:303 | a single leg is kept exactly when it is an up leg |
| Waves.Segment | main.py:198-300 | the segmentation finds at most 8 legs |
| Waves.LegsFromAlternating | main.py:201-300 | the legs found from a cursor alternate in direction from the first, and each lies inside the bars, is at most 30 long and has a support only if it is an up leg |
| Waves.LegsAfterAlternating | main.py:287-300 | the same for a leg followed by the legs found after it |
| Waves.LegsFromChained | main.py:207-299 | the first leg starts within 10 bars of the cursor and each later leg starts after the previous end, within 10 bars of it |
| Waves.LegsAfterChained | main.py:298-300 | the same for a leg followed by the legs found after it; the cursor strictly increases |
| Waves.LegsFromStopped | main.py:203 | at most 8 legs, and the scan stops only once 8 legs exist or fewer than 11 bars remain from the cursor |
| Waves.LegsAfterStopped | main.py:203 | the same for a leg followed by the legs found after it |
| Waves.AttachShaped | main.py:268-296 | attaching supports keeps alternation, chaining and the stop condition |
| Waves.SegmentShape | main.py:198-300 | the whole shape of the segmentation: ≤8 alternating legs starting with up, chained, inside the bars and ≤30 long; an up leg carries the truthy support of its bars and a down leg none; support_levels is the legs' supports in discovery order |
| Waves.SupportsBounded | main.py:283-284 | support_levels grows by at most one per up leg |
| Waves.FindLegStart | main.py:205-229 | the start-scan loop computes the leg start |
| Waves.FindLegEnd | main.py:231-263 | the end-search loop computes the leg end, including the forced end |
| Waves.ScanLegSupport | main.py:269-281 | the support loop computes the raw support |
| Waves.NextLeg | main.py:205-296 | one pass of the loop body builds the leg with its support |
| Waves.ContinuesStep | main.py:298-300 | each pass keeps "legs found so far + legs still to find = all legs" |
| Waves.SupportsOfAppend | main.py:283-284 | appending a leg appends its support, if any, to support_levels |
| Waves.SegmentWaves | main.py:198-300 | the segmentation loop returns exactly the waves and support_levels of `Segment` |
| Pattern.IdentifyAKill | main.py:134-162 | has_A_kill always holds; a bottom is reported exactly for ≥60 bars whose highest high lies more than 30% above the lowest close; the bottom is the first lowest close, with its date and quality 60 |
| Pattern.FirstOnOrAfter | main.py:185-189 | the first index dated on or after the start date, or none when every bar is earlier |
| Pattern.LocateStart | main.py:185-189 | the enumerate loop finds that index |
| Pattern.BandPointsBounds | main.py:320-323 | the leg-range points lie between 0 and 10 per leg |
| Pattern.Score | main.py:319-330 | the quality score lies in [0, 70], so min(100, score) is the score |
| Pattern.FullScore | main.py:319-330 | the score is 70 exactly when three up legs each change by 10%-20%, there are at most 90 days in all, and there are at least two supports |
| Pattern.Validate | main.py:303-350 | a confirmation needs ≥3 up legs and ≥2 supports, keeps the waves, and carries a quality score equal to the additive score and at least min_wave_score |
| Pattern.ValidateOutcomes | main.py:303-353 | confirmed exactly when there are ≥3 up legs with strictly rising end prices, ≥2 supports, score ≥ min_wave_score and a non-zero first start price; each rejection reason exactly when the earlier checks pass and its own check fails; a zero first start price (the total-rise division raises, and the handler reports a failure) is the analysis-failure rejection |
| Pattern.ValidateConfirmed | main.py:309-348 | a confirmed result scores ≤70 and ≥ min_wave_score, keeps the waves, their count and total days; wave3_high is the third up leg's end price and above the other two highs; support_levels is the first three supports; strongest_support is their maximum; total_rise_pct is the change from the first leg's non-zero start price to wave3_high |
| Pattern.ThreeWaves | main.py:165-353 | a failed fetch rejects as unavailable data; a confirmation needs a bar on or after the start date, at least 30 bars from it, and a score of at least min_wave_score |
| Pattern.ThreeWavesLength | main.py:180-192 | fewer than 30 bars from the start date, or no bar on or after it, rejects with the insufficient-length reason; a confirmation comes from the validator on at least 30 bars |
| Pattern.ConfirmedLegs | main.py:198-345 | a confirmed pattern has ≥3 up legs and ≤8 legs, alternating from up; only up legs carry supports; its supports are the first supports of its legs |
| Pattern.ScoreWaves | main.py:319-330 | the score loop computes the additive score |
| Pattern.IdentifyThreeWaves | main.py:165-353 | the whole detector computes the same verdict as `ThreeWaves` |
| Consolidation.InRangeCountIsCardinality | main.py:381-384 | in_range_count is the number of closes inside [support·0.98, wave3_high·1.02] |
| Consolidation.InRangeCountBound | main.py:381-386 | in_range_count never exceeds the number of closes |
| Consolidation.CountInRange | main.py:381-384 | the counting loop computes in_range_count |
| Consolidation.VolumeRatio | main.py:389-395 | volume_ratio · early mean = recent mean when the early mean of the first 10 volumes is positive; 1 otherwise |
| Consolidation.PricePosition | main.py:398 | when wave3_high > support the current price lies at price_position percent of the way from support to wave3_high; 50 otherwise |
| Consolidation.Consolidate | main.py:356-411 | no report exactly for a failed fetch, fewer than 20 bars or no supports; a report's support level is one of the supports and its resistance is wave3_high |
| Consolidation.ConsolidationVerdict | main.py:370-408 | None exactly for a failed fetch, fewer than 20 bars or no supports; otherwise in_range_ratio is the in-band share, in [0, 1]; support_level is the maximum support; is_consolidating iff ratio ≥ 0.7 and volume_ratio < 1.5; volume_ratio · early mean = recent mean for a positive early mean, else 1; current price is the last close, and price_position places it between support (0) and wave3_high (100), 50 when wave3_high ≤ support |
| Consolidation.CheckConsolidation | main.py:356-411 | the detector with its loop returns the report of `Consolidate` |
| Signal.ShareholderChange | main.py:118-128 | a change exists exactly with two reports and a positive previous count; it is positive iff holders decreased, zero iff unchanged, and latest = previous·(1 − change/100) |
| Signal.IsCloseLimitUp | main.py:864-879 | limit-up iff two closes exist and the change reaches the board's threshold: 19.9% for 68/30 codes, 9.9% for 00/60, never otherwise |
| Signal.BasicCandidateBoundaries | main.py:742-744 | with the initial parameters the turnover band is open at 7% and closed at 12%, a rise of exactly 4% is not enough, and a limit-up close is never a candidate |
| Signal.PoolEligible | main.py:68-75 | a code that passes the pool filter never gets the 19.9% limit-up threshold |
| Signal.VolumeRatio5 | main.py:471-479 | the ratio times the five-day mean (today's volume with fewer than five days) is today's volume when that mean is positive; 1 otherwise |
| Signal.Tier | main.py:481-496 | the position ratio is the full, 0.6× or 0.3× ratio or 0; a non-zero one needs a volume ratio above 1 and a close or high above the resistance |
| Signal.TierFirstMatch | main.py:481-496 | the tiers are first-match: strong when its conditions hold, medium only when strong fails, weak only when both fail, ratio 0 otherwise; ratios are ratio, 0.6·ratio, 0.3·ratio |
| Signal.GenerateSignal | main.py:414-517 | a signal carries the code, name, price change, turnover and time it was asked for, a positive position ratio, and today's close as entry; a non-positive position_ratio gives none |
| Signal.SignalFromBreakout | main.py:447-514 | a signal needs today's bar; entry = today's close, stop = support·(1 − immediate_stop_loss), take = close·(1 + immediate_take_profit); strength and ratio are those of the tier rule, and a positive tier ratio always yields a signal; the other fields pass through; a non-positive position_ratio gives none |
| Signal.SignalNeedsBottom | main.py:421-431 | without an A-kill bottom (failed fetch, <60 bars or a range ≤30%) there is no signal |
| Signal.SignalGuarantees | main.py:418-446 | a signal implies a bottom, a confirmed three-wave pattern from it, and a consolidating window; the signal is the breakout stage on that pattern's wave3_high and the window's support |
| Signal.NoRatioNoSignal | main.py:485-496 | with position_ratio ≤ 0 no signal is produced |
| Signal.Turnover | main.py:739-740 | turnover · (circulating cap · 10000) = volume · 100 for a non-zero cap |
| Signal.Screen | main.py:720-751 | a quote becomes a candidate only with two bars and a circulating cap, with the rise from the previous close to today's high and the turnover, when they pass the basic filter; with both inputs present, a rejected quote fails the filter |
| Signal.BasicCandidatesAppend | main.py:718-751 | the candidate list distributes over concatenation of the pool, so it keeps the pool's order |
| Signal.BasicCandidatesSingle | main.py:718-751 | a single quote yields its candidate exactly when it passes the screen |
| Signal.CandidatesScreened | main.py:718-751 | every candidate is the screen of some quote of the pool |
| Signal.ScreenQuotes | main.py:718-751 | the screening loop returns exactly the basic candidates |
| Signal.TradeSignalsAppend | main.py:761-772 | the signal list distributes over concatenation of the candidates, so it keeps their order |
| Signal.TradeSignalsSingle | main.py:761-772 | a single candidate yields its signal exactly when generate_trade_signal returns one |
| Signal.SignalsGenerated | main.py:761-772 | every trade signal is generate_trade_signal's result for some candidate, and has a positive position ratio |
| Signal.CollectSignals | main.py:761-772 | the signal loop returns exactly the trade signals |
| Ranking.PositionValue | main.py:698-712 | a budget exists exactly below max_positions, with ≥10000 cash and a per-stock amount ≥10000; it is the smaller of cash·position_ratio and cash over the free slots |
| Ranking.PositionValueWithinCash | main.py:708-709 | the per-stock amount never exceeds the cash |
| Ranking.MaxBuy | main.py:794 | at most two buys, and no more than the free slots |
| Ranking.Bonus | main.py:780-786 | 0 without a change; otherwise change·(−10) clamped to [−50, 50] |
| Ranking.Score | main.py:775-788 | a score lies within 50 of its tier's base (100/60/30) and in [−20, 150] |
| Ranking.SortedTail | main.py:790 | the tail of a descending list is descending |
| Ranking.InsertBelow | main.py:790 | insertion keeps an upper bound on the scores |
| Ranking.InsertPermutation | main.py:790 | insertion adds exactly the new signal |
| Ranking.InsertSorted | main.py:790 | insertion keeps the list descending |
| Ranking.Sort | main.py:790 | the sort keeps the number of signals |
| Ranking.SortSortedPermutation | main.py:790 | the sorted list is by descending score and is a permutation of the input |
| Ranking.InsertWithScore | main.py:790 | insertion places a signal in front of the others with its own score |
| Ranking.SortStable | main.py:790 | equal-score signals keep their original relative order |
| Lifecycle.Profit | main.py:536-554 | a profit is computed exactly for a position not selling, held with a positive amount, priced, and with a non-zero buy price; then price = buy price·(1 + profit/100) |
| Lifecycle.ImmediateExit | main.py:555-589 | an immediate exit needs a computed profit and is a stop or a take |
| Lifecycle.TailExit | main.py:611-645 | a tail exit needs a computed profit and is the tail take or a time stop |
| Lifecycle.ImmediatePrecedence | main.py:555-589 | a selling position is skipped; a stop is taken exactly when profit ≤ −stop·100; a take exactly when above that and ≥ take·100; nothing otherwise |
| Lifecycle.TailPrecedence | main.py:611-645 | a selling position is skipped; the tail take exactly when profit ≥ tail·100; otherwise the time stop exactly when held ≥ time_stop_days, labelled a profit iff profit > 0 |
| Lifecycle.StopAtFifteenPercent | main.py:555-567 | with the initial parameters, −15% exactly triggers the immediate stop |
| Lifecycle.TimeProfitAfterThirtyDays | main.py:628-645 | with the initial parameters, 30 days at +2% sells by the time stop, labelled a profit |
| Lifecycle.AfterImmediate | main.py:520-593 | the immediate check keeps the book's codes and never touches a selling entry |
| Lifecycle.AfterCleanup | main.py:667-680 | cleanup keeps a subset of the codes, each entry unchanged and not both selling and unheld |
| Lifecycle.AfterTail | main.py:595-665 | the tail check keeps a subset of the codes, and no survivor is selling and unheld in the holdings after the sell orders |
| Lifecycle.AfterMorning | main.py:851-858 | morning cleanup keeps a subset of the entries, each unchanged and not selling |
| Lifecycle.CancelInCounts | main.py:840-846 | the cancel count is the number of open or pending orders |
| Lifecycle.SellingNeverReordered | main.py:536-538 | a position marked selling is never ordered again and is left unchanged by both checks |
| Lifecycle.ImmediateChanges | main.py:535-589 | the immediate check keeps the codes and changes only the sold positions, which were not selling and now carry the marks |
| Lifecycle.ImmediateWindowClosed | main.py:528-533 | during 9:00-9:29 and 14:55-14:59 the immediate check does nothing |
| Lifecycle.ImmediateIdempotent | main.py:520-593 | a second immediate check with the same market changes nothing and sells nothing |
| Lifecycle.CleanupExact | main.py:667-680 | cleanup deletes exactly the selling entries not held (amount ≤ 0 or absent), keeps the rest unchanged, and is idempotent |
| Lifecycle.MorningDropsAllSelling | main.py:851-858 | morning cleanup keeps exactly the non-selling entries unchanged, so it removes at least what cleanup removes |
| Lifecycle.TailLeavesNoStaleEntry | main.py:595-665 | after the tail check a code survives exactly when its marked entry is not selling-and-unheld in the holdings after the sell orders; each survivor is its original, marked if sold; a sold code no longer held is gone |
| Lifecycle.NewPosition | main.py:812-819 | a new entry is unsold, bought at the current price and time, with quantity·price = the amount (0 for a non-positive price), stop 0.97·price and take 1.08·price |
| Lifecycle.AdmitFrom | main.py:796-822 | the buying loop buys no more signals than it walks through |
| Lifecycle.AdmitBound | main.py:796-798 | admission buys at most max_buy stocks |
| Lifecycle.AdmitKeeps | main.py:796-822 | admission keeps every old entry as it was and adds only the bought codes |
| Lifecycle.AdmitBought | main.py:796-811 | each purchase is a signal's code that was neither in the book nor held and had a price, and no code is bought twice |
| Lifecycle.AdmitEntries | main.py:811-822 | each bought code gets a fresh entry at its current price |
| Lifecycle.Picks | main.py:796-811 | the picked indices lie in the walked part of the list, no more of them than signals walked |
| Lifecycle.AdmitPicksSound | main.py:796-811 | the k-th purchase is the code of the signal at the k-th pick; picks strictly increase; each pick was not in the book, not bought before, not held, priced, and its order succeeded |
| Lifecycle.AdmitGreedy | main.py:796-811 | every signal between two picks, before the first or after the last was passed over (in the book, bought before, held, unpriced or a failed order), unless max_buy purchases were already made |
| Lifecycle.TopRanked | main.py:790-796 | the walked signals are the first min(len, 2·max_buy) of the sort, in descending score order, and score at least as high as every signal left out |
| Lifecycle.TradeOutcome | main.py:683-822 | nothing changes without trading enabled, outside 14:56 or without signals |
| Lifecycle.TradeOutcomeBound | main.py:683-712 | trade_logic buys at most two stocks and no more than the free slots, and only when enabled, at 14:56, with a budget |
| Lifecycle.TradeOutcomeBuys | main.py:790-822 | trade_logic keeps the book, adds exactly the bought codes, each a signal's code not in the book and not held, once, with a fresh entry at its price |
| Lifecycle.TradeOutcomeRanked | main.py:790-822 | the purchases are the walked signals at the picks, in descending score order; each pick was eligible and its order succeeded; every other walked signal was passed over unless max_buy purchases were made |
| Lifecycle.CancelOpenOrders | main.py:840-846 | the nested cancel loop counts the open and pending orders |
| Lifecycle.Book.constructor | main.py:21 | the book starts empty |
| Lifecycle.Book.RemoveCodes | main.py:677-680 | the delete loop removes exactly the given codes and keeps the other entries |
| Lifecycle.Book.CheckImmediateStops | main.py:520-593 | the check updates the book to `AfterImmediate` and returns the codes it orders sold |
| Lifecycle.Book.RemovableCodes | main.py:669-675 | the collection loop finds exactly the selling, unheld codes |
| Lifecycle.Book.CleanupSoldPositions | main.py:667-680 | cleanup updates the book to `AfterCleanup` |
| Lifecycle.Book.CheckTailPosition | main.py:595-665 | the tail check marks with the holdings at its start, cleans up with the holdings after its sell orders, updates the book to `AfterTail` and returns the codes it orders sold |
| Lifecycle.Book.SellingCodes | main.py:851-854 | the collection loop finds exactly the selling codes |
| Lifecycle.Book.MorningCleanup | main.py:838-858 | morning cleanup returns the cancel count and updates the book to `AfterMorning` |
| Lifecycle.Book.Admit | main.py:796-822 | the buying loop updates the book and returns the bought codes as `AdmitFrom` does |
| Lifecycle.Book.TradeLogic | main.py:683-822 | trade_logic screens the pool's quotes, collects their signals, and updates the book and returns the bought codes as `TradeOutcome` does on those signals |

## Left out

- Platform calls: `get_price`, `get_fundamentals`, `finance.run_query`, `get_current_data`, `get_all_securities`, `get_trade_days`, `order_target`, `order_value`, `get_open_orders` and `cancel_order`. Their results are parameters; sell orders show up as the returned sets of sold codes.
- `initialize` scheduling, `handle_data`, `after_trading_end` and all logging. Only the two clock windows are kept, as predicates.
- The stock-pool query of `initialize_stock_pool`: only its prefix, age and ST filter is modelled, as `Signal.PoolEligible`.
- `is_close_limit_up`'s own fetch of two closes: the basic filter applies the test to the closes of the quote's two bars, which are the same two days.
- Reason strings and f-string formatting. A rejection or sell reason is an enum plus the numbers involved.
- Date conversions: bars carry day numbers, and the holding days are the difference of day numbers.
- IEEE floating point. Arithmetic is exact. A zero base in a numpy percentage change (a leg's change, the A-kill range, the day's rise, the limit-up change) is read as no change (`Common.Pct`), where numpy would produce inf or nan; the model does not reproduce those values. A zero circulating cap gives a turnover of 0 (`Signal.Turnover`), where numpy gives inf; both fail the filter when min_turnover is not negative.
- Caught exceptions become the function's default result:
  - a failed fetch becomes `None` input, which is rejected;
  - a zero first start price in the total-rise division is the `AnalysisFailed` rejection;
  - a missing current price or a zero buy price in the lifecycle checks skips that position;
  - a missing price in the buying loop skips that signal;
  - a missing `A_bottom_date` gives no signal.
- `check_consolidation`'s branch that sets volume_ratio to 1 for fewer than 20 volumes cannot be reached after the 20-bar check, so it is not modelled.
- The iteration order of `g.positions`. Every check updates each entry independently, so the final book does not depend on key order. The methods visit the keys in an unspecified order.
- `Waves.WithSupport`: its fallback for leg indices outside the bars, which `Waves.Leg` never produces, gives no support rather than raising.
- `identify_A_kill` reports `has_A_kill` true on every path, so the `not a_kill['has_A_kill']` test of `generate_trade_signal` never fires. The model keeps the test.
- The `current_data[stock].is_st` flag and the listing age are inputs of `Signal.PoolEligible`.

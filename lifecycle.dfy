/** The position book g.positions and what the scheduled jobs do to it:
    check_immediate_stops marks positions for sale at the stop or the take
    price, check_tail_position marks them at 14:55 for the tail take-profit
    or the time stop and then runs cleanup_sold_positions, morning_cleanup
    cancels open orders and drops every entry marked for sale, and
    trade_logic admits new positions from the ranked signals.

    Each job is a pure function on the map of positions (the specification)
    and a method of the class Book that updates its positions field in
    place and is proved to agree with that function. */
module Lifecycle {
  import opened Common
  import opened Signal
  import opened Ranking

  /** The sell_reason text of the source, as a tag and its numbers. */
  datatype SellReason =
    | ImmediateStop(pct: real)
    | ImmediateTake(pct: real)
    | TailTake(pct: real)
    | TimeProfit(days: int, pct: real)
    | TimeLoss(days: int, pct: real)

  /** One entry of g.positions. */
  datatype Position = Position(
    buyPrice: real,
    buyTime: Clock,
    quantity: real,
    selling: bool,
    sellReason: Option<SellReason>,
    sellTime: Option<Clock>,
    stopLoss: real,
    takeProfit: real)

  /** The broker's side at the time of a check: total_amount of every code
      in context.portfolio.positions, and last_price of every code that
      get_current_data can price. */
  datatype Market = Market(held: map<string, real>, prices: map<string, real>)

  /** The held amount of a code, 0 when the portfolio does not hold it. */
  function HeldAmount(held: map<string, real>, code: string): real
  {
    if code in held then held[code] else 0.0
  }

  // ---------------------------------------------------------------------
  // Clock windows.

  /** check_immediate_stops returns at once during 9:00-9:29 and during
      14:55-14:59; at every other time (8:50 or 15:00 as well) it runs. */
  predicate ImmediateWindowOpen(now: Clock)
  {
    !(now.hour == 9 && now.minute < 30) && !(now.hour == 14 && now.minute >= 55)
  }

  /** trade_logic buys only at 14:56. */
  predicate TradeWindow(now: Clock)
  {
    now.hour == 14 && now.minute == 56
  }

  // ---------------------------------------------------------------------
  // Per-position decisions.

  /** The profit in percent of a position the checks look at; None when the
      check skips it: already selling, not held (absent or amount <= 0), no
      current price, or a zero buy price (a division the source's per-stock
      handler catches). */
  function Profit(p: Position, code: string, market: Market): (r: Option<real>)
    ensures r.Some? <==>
      !p.selling && HeldAmount(market.held, code) > 0.0 && code in market.prices && p.buyPrice != 0.0
    ensures r.Some? ==> market.prices[code] == p.buyPrice * (1.0 + r.value / 100.0)
  {
    if p.selling then None
    else if HeldAmount(market.held, code) <= 0.0 then None
    else if code !in market.prices then None
    else if p.buyPrice == 0.0 then None
    else
      var share := (market.prices[code] - p.buyPrice) / p.buyPrice;
      assert share * p.buyPrice == market.prices[code] - p.buyPrice;
      Some(share * 100.0)
  }

  /** The immediate check: the stop first, then the take-profit. */
  function ImmediateExit(p: Position, code: string, market: Market, params: Params): (r: Option<SellReason>)
    ensures r.Some? ==> Profit(p, code, market).Some? && (r.value.ImmediateStop? || r.value.ImmediateTake?)
  {
    match Profit(p, code, market)
    case None => None
    case Some(pct) =>
      if pct <= -params.immediateStopLoss * 100.0 then Some(ImmediateStop(pct))
      else if pct >= params.immediateTakeProfit * 100.0 then Some(ImmediateTake(pct))
      else None
  }

  /** The 14:55 check: the tail take-profit first, then the time stop,
      labelled a profit exactly when the profit is positive. */
  function TailExit(p: Position, code: string, market: Market, now: Clock, params: Params): (r: Option<SellReason>)
    ensures r.Some? ==> Profit(p, code, market).Some? && (r.value.TailTake? || r.value.TimeProfit? || r.value.TimeLoss?)
  {
    match Profit(p, code, market)
    case None => None
    case Some(pct) =>
      var days := now.day - p.buyTime.day;
      if pct >= params.tailTakeProfit * 100.0 then Some(TailTake(pct))
      else if days >= params.timeStopDays then
        (if pct > 0.0 then Some(TimeProfit(days, pct)) else Some(TimeLoss(days, pct)))
      else None
  }

  /** The marks the checks set on a position they sell. */
  function Mark(p: Position, reason: SellReason, now: Clock): Position
  {
    p.(selling := true, sellReason := Some(reason), sellTime := Some(now))
  }

  function Apply(p: Position, exit: Option<SellReason>, now: Clock): Position
  {
    if exit.Some? then Mark(p, exit.value, now) else p
  }

  /** The immediate stop pre-empts the take-profit: a position is stopped
      exactly when its profit is at or below -immediate_stop_loss * 100, and
      taken exactly when it is above that and at or above
      immediate_take_profit * 100; a position already selling is left alone. */
  lemma ImmediatePrecedence(p: Position, code: string, market: Market, params: Params)
    ensures var e := ImmediateExit(p, code, market, params);
      var pr := Profit(p, code, market);
      && (p.selling ==> e.None?)
      && (e.Some? ==> pr.Some?)
      && (pr.Some? ==>
            && (e == Some(ImmediateStop(pr.value)) <==> pr.value <= -params.immediateStopLoss * 100.0)
            && (e == Some(ImmediateTake(pr.value)) <==>
                  pr.value > -params.immediateStopLoss * 100.0 && pr.value >= params.immediateTakeProfit * 100.0)
            && (e.None? <==>
                  pr.value > -params.immediateStopLoss * 100.0 && pr.value < params.immediateTakeProfit * 100.0))
  {
  }

  /** The tail take-profit pre-empts the time stop, and the time stop is
      labelled a profit exactly when the profit is positive. */
  lemma TailPrecedence(p: Position, code: string, market: Market, now: Clock, params: Params)
    ensures var e := TailExit(p, code, market, now, params);
      var pr := Profit(p, code, market);
      var days := now.day - p.buyTime.day;
      && (p.selling ==> e.None?)
      && (e.Some? ==> pr.Some?)
      && (pr.Some? ==>
            && (e == Some(TailTake(pr.value)) <==> pr.value >= params.tailTakeProfit * 100.0)
            && (e == Some(TimeProfit(days, pr.value)) <==>
                  pr.value < params.tailTakeProfit * 100.0 && days >= params.timeStopDays && pr.value > 0.0)
            && (e == Some(TimeLoss(days, pr.value)) <==>
                  pr.value < params.tailTakeProfit * 100.0 && days >= params.timeStopDays && pr.value <= 0.0)
            && (e.None? <==> pr.value < params.tailTakeProfit * 100.0 && days < params.timeStopDays))
  {
  }

  /** With the initial parameters, a position bought at 10 and priced at
      8.5 is stopped at -15%. */
  lemma StopAtFifteenPercent(code: string, buyTime: Clock)
    ensures var p := Position(10.0, buyTime, 100.0, false, None, None, 9.7, 10.8);
      var market := Market(map[code := 100.0], map[code := 8.5]);
      ImmediateExit(p, code, market, Defaults) == Some(ImmediateStop(-15.0))
  {
    var market := Market(map[code := 100.0], map[code := 8.5]);
    assert HeldAmount(market.held, code) == 100.0;
    assert (8.5 - 10.0) / 10.0 * 100.0 == -15.0;
  }

  /** With the initial parameters, a position 30 days old at +2% is sold by
      the time stop and labelled a profit. */
  lemma TimeProfitAfterThirtyDays(code: string)
    ensures var p := Position(10.0, Clock(100, 14, 56), 100.0, false, None, None, 9.7, 10.8);
      var market := Market(map[code := 100.0], map[code := 10.2]);
      TailExit(p, code, market, Clock(130, 14, 55), Defaults) == Some(TimeProfit(30, 2.0))
  {
    var market := Market(map[code := 100.0], map[code := 10.2]);
    assert HeldAmount(market.held, code) == 100.0;
    assert (10.2 - 10.0) / 10.0 * 100.0 == 2.0;
  }

  // ---------------------------------------------------------------------
  // The jobs as functions on the book.

  /** check_immediate_stops: nothing happens with an empty book or outside
      the window; otherwise every position it sells is marked. */
  function AfterImmediate(ps: map<string, Position>, market: Market, now: Clock, params: Params)
    : (r: map<string, Position>)
    ensures r.Keys == ps.Keys
    ensures forall c :: c in ps && ps[c].selling ==> r[c] == ps[c]
  {
    if |ps| == 0 || !ImmediateWindowOpen(now) then ps
    else map c | c in ps :: Apply(ps[c], ImmediateExit(ps[c], c, market, params), now)
  }

  /** The codes check_immediate_stops sends a sell order for. */
  function ImmediateSold(ps: map<string, Position>, market: Market, now: Clock, params: Params): set<string>
  {
    if |ps| == 0 || !ImmediateWindowOpen(now) then {}
    else set c | c in ps && ImmediateExit(ps[c], c, market, params).Some?
  }

  /** The marks of check_tail_position's loop. */
  function TailMarks(ps: map<string, Position>, market: Market, now: Clock, params: Params)
    : map<string, Position>
  {
    map c | c in ps :: Apply(ps[c], TailExit(ps[c], c, market, now, params), now)
  }

  /** The codes check_tail_position sends a sell order for. */
  function TailSold(ps: map<string, Position>, market: Market, now: Clock, params: Params): set<string>
  {
    if |ps| == 0 then {}
    else set c | c in ps && TailExit(ps[c], c, market, now, params).Some?
  }

  /** A selling entry whose code is no longer held. */
  predicate Removable(p: Position, code: string, held: map<string, real>)
  {
    p.selling && HeldAmount(held, code) <= 0.0
  }

  /** cleanup_sold_positions. */
  function AfterCleanup(ps: map<string, Position>, held: map<string, real>): (r: map<string, Position>)
    ensures r.Keys <= ps.Keys
    ensures forall c :: c in r ==> r[c] == ps[c] && !Removable(r[c], c, held)
  {
    map c | c in ps && !Removable(ps[c], c, held) :: ps[c]
  }

  /** check_tail_position: nothing with an empty book, else the marks and
      then the cleanup. The marks read the holdings of the market at the
      start of the check; the cleanup reads heldAfter, the portfolio once
      the sell orders of the loop have been sent (a filled sale shows there
      as an amount of 0 or no entry). */
  function AfterTail(ps: map<string, Position>, market: Market, heldAfter: map<string, real>, now: Clock,
                     params: Params): (r: map<string, Position>)
    ensures r.Keys <= ps.Keys
    ensures forall c :: c in r ==> !Removable(r[c], c, heldAfter) || |ps| == 0
  {
    if |ps| == 0 then ps else AfterCleanup(TailMarks(ps, market, now, params), heldAfter)
  }

  /** The position part of morning_cleanup: every selling entry goes. */
  function AfterMorning(ps: map<string, Position>): (r: map<string, Position>)
    ensures r.Keys <= ps.Keys
    ensures forall c :: c in r ==> r[c] == ps[c] && !r[c].selling
  {
    map c | c in ps && !ps[c].selling :: ps[c]
  }

  /** The order states morning_cleanup meets; open and pending ones are
      cancelled. */
  datatype OrderStatus = Open | Pending | Filled | Cancelled | Rejected

  function CancelIn(orders: seq<OrderStatus>): nat
  {
    if orders == [] then 0
    else CancelIn(orders[..|orders| - 1]) + (if orders[|orders| - 1] in {Open, Pending} then 1 else 0)
  }

  /** The number of orders cancelled over all order lists. */
  function CancelCount(lists: seq<seq<OrderStatus>>): nat
  {
    if lists == [] then 0 else CancelCount(lists[..|lists| - 1]) + CancelIn(lists[|lists| - 1])
  }

  /** The count is the number of open or pending orders. */
  lemma {:induction false} CancelInCounts(orders: seq<OrderStatus>)
    ensures CancelIn(orders) == |set i | 0 <= i < |orders| && orders[i] in {Open, Pending}|
  {
    if orders != [] {
      var n := |orders| - 1;
      CancelInCounts(orders[..n]);
      var before := set i | 0 <= i < n && orders[..n][i] in {Open, Pending};
      var upTo := set i | 0 <= i < |orders| && orders[i] in {Open, Pending};
      assert before == set i | 0 <= i < n && orders[i] in {Open, Pending};
      if orders[n] in {Open, Pending} {
        assert upTo == before + {n};
      } else {
        assert upTo == before;
      }
    }
  }

  // ---------------------------------------------------------------------
  // Properties of the jobs.

  /** A position already marked selling is never ordered again and is left
      as it is by both checks. */
  lemma SellingNeverReordered(ps: map<string, Position>, market: Market, now: Clock, params: Params, c: string)
    requires c in ps && ps[c].selling
    ensures c !in ImmediateSold(ps, market, now, params) && AfterImmediate(ps, market, now, params)[c] == ps[c]
    ensures c !in TailSold(ps, market, now, params) && TailMarks(ps, market, now, params)[c] == ps[c]
  {
  }

  /** The immediate check sells exactly the marked positions, keeps the
      codes, and changes nothing but the marks of the sold ones. */
  lemma ImmediateChanges(ps: map<string, Position>, market: Market, now: Clock, params: Params)
    ensures var after := AfterImmediate(ps, market, now, params);
      var sold := ImmediateSold(ps, market, now, params);
      && after.Keys == ps.Keys
      && sold <= ps.Keys
      && (forall c :: c in ps && c !in sold ==> after[c] == ps[c])
      && (forall c :: c in sold ==>
            && !ps[c].selling && after[c].selling
            && after[c] == Mark(ps[c], ImmediateExit(ps[c], c, market, params).value, now))
  {
  }

  /** During 9:00-9:29 and 14:55-14:59 the immediate check does nothing. */
  lemma ImmediateWindowClosed(ps: map<string, Position>, market: Market, now: Clock, params: Params)
    requires (now.hour == 9 && now.minute < 30) || (now.hour == 14 && now.minute >= 55)
    ensures AfterImmediate(ps, market, now, params) == ps
    ensures ImmediateSold(ps, market, now, params) == {}
  {
  }

  /** Running the immediate check twice with the same market is running it
      once: the second run finds every sold position already selling. */
  lemma ImmediateIdempotent(ps: map<string, Position>, market: Market, now: Clock, params: Params)
    ensures var once := AfterImmediate(ps, market, now, params);
      AfterImmediate(once, market, now, params) == once &&
      ImmediateSold(once, market, now, params) == {}
  {
    var once := AfterImmediate(ps, market, now, params);
    if |ps| != 0 && ImmediateWindowOpen(now) {
      assert once.Keys == ps.Keys;
      forall c | c in once
        ensures ImmediateExit(once[c], c, market, params).None? ==> once[c] == Apply(once[c], None, now)
        ensures ImmediateExit(ps[c], c, market, params).Some? ==> once[c].selling
        ensures ImmediateExit(ps[c], c, market, params).None? ==> once[c] == ps[c]
      {
      }
      forall c | c in once
        ensures ImmediateExit(once[c], c, market, params).None?
      {
        if ImmediateExit(ps[c], c, market, params).Some? {
          assert once[c].selling;
        }
      }
      if |once| != 0 {
        var twice := AfterImmediate(once, market, now, params);
        assert forall c :: c in once ==> twice[c] == once[c];
      }
    }
  }

  /** cleanup_sold_positions deletes exactly the selling entries whose code
      is held with amount <= 0 or not at all, and leaves every other entry
      unchanged; a second run changes nothing. */
  lemma CleanupExact(ps: map<string, Position>, held: map<string, real>)
    ensures var after := AfterCleanup(ps, held);
      && (forall c :: c in after <==> c in ps && !(ps[c].selling && HeldAmount(held, c) <= 0.0))
      && (forall c :: c in after ==> after[c] == ps[c])
      && AfterCleanup(after, held) == after
  {
  }

  /** morning_cleanup drops every selling entry whatever is held (so at
      least what cleanup_sold_positions drops), and keeps the rest as is. */
  lemma MorningDropsAllSelling(ps: map<string, Position>, held: map<string, real>)
    ensures var after := AfterMorning(ps);
      && (forall c :: c in after <==> c in ps && !ps[c].selling)
      && (forall c :: c in after ==> after[c] == ps[c])
      && after.Keys <= AfterCleanup(ps, held).Keys
      && (forall c :: c in after ==> !after[c].selling)
  {
  }

  /** After the tail check no entry is both selling and unheld in the
      portfolio after the orders; an entry survives exactly when its marked
      or unmarked original is not such an entry, and it is that original. So
      a position the check sells, whose sale has filled, is gone. */
  lemma TailLeavesNoStaleEntry(ps: map<string, Position>, market: Market, heldAfter: map<string, real>,
                               now: Clock, params: Params)
    requires |ps| != 0
    ensures var after := AfterTail(ps, market, heldAfter, now, params);
      && (forall c :: c in after <==>
            c in ps && !Removable(Apply(ps[c], TailExit(ps[c], c, market, now, params), now), c, heldAfter))
      && (forall c :: c in after ==> !Removable(after[c], c, heldAfter))
      && (forall c :: c in after ==> after[c] == Apply(ps[c], TailExit(ps[c], c, market, now, params), now))
      && (forall c :: c in TailSold(ps, market, now, params) && HeldAmount(heldAfter, c) <= 0.0 ==> c !in after)
  {
  }

  // ---------------------------------------------------------------------
  // Admission of new positions.

  /** The entry trade_logic records for a filled buy. */
  function NewPosition(price: real, now: Clock, value: real): (p: Position)
    ensures !p.selling && p.sellReason.None? && p.sellTime.None?
    ensures p.buyPrice == price && p.buyTime == now
    ensures p.stopLoss == price * 0.97 && p.takeProfit == price * 1.08
    ensures price > 0.0 ==> p.quantity * price == value
    ensures price <= 0.0 ==> p.quantity == 0.0
  {
    Position(price, now, if price > 0.0 then value / price else 0.0, false, None, None, price * 0.97, price * 1.08)
  }

  /** The book after an admission pass and the codes bought, in order. */
  datatype Admission = Admission(positions: map<string, Position>, bought: seq<string>)

  /** Signal k is skipped: already in the book, still held, not priced, or
      its order fails (orderOk[k] is the result of order_value for the k-th
      signal; a missing entry is a failure). */
  predicate Skipped(ps: map<string, Position>, code: string, k: nat, market: Market, orderOk: seq<bool>)
  {
    code in ps || HeldAmount(market.held, code) > 0.0 || code !in market.prices ||
    !(k < |orderOk| && orderOk[k])
  }

  /** The admission loop from signal k with count buys made so far. */
  function AdmitFrom(ps: map<string, Position>, sigs: seq<Signal>, k: nat, count: nat, market: Market,
                     now: Clock, value: real, maxBuy: nat, orderOk: seq<bool>): (r: Admission)
    ensures k <= |sigs| ==> |r.bought| <= |sigs| - k
    decreases |sigs| - k
  {
    if k >= |sigs| || count >= maxBuy then Admission(ps, [])
    else
      var code := sigs[k].code;
      if Skipped(ps, code, k, market, orderOk) then
        AdmitFrom(ps, sigs, k + 1, count, market, now, value, maxBuy, orderOk)
      else
        var rest := AdmitFrom(ps[code := NewPosition(market.prices[code], now, value)], sigs, k + 1, count + 1,
                              market, now, value, maxBuy, orderOk);
        Admission(rest.positions, [code] + rest.bought)
  }

  /** The codes of sigs[k..]. */
  function CodesFrom(sigs: seq<Signal>, k: nat): set<string>
  {
    set j | k <= j < |sigs| :: sigs[j].code
  }

  /** r keeps every entry of ps as it was and holds exactly the codes of
      ps and the bought ones. */
  ghost predicate KeepsOld(ps: map<string, Position>, r: Admission)
  {
    && (forall c :: c in ps ==> c in r.positions && r.positions[c] == ps[c])
    && (forall c :: c in r.positions <==> c in ps || c in r.bought)
  }

  /** Every code r buys is one of codes, was not in ps, is not held, has a
      price, and is bought once. */
  predicate BuysFresh(ps: map<string, Position>, r: Admission, market: Market, codes: set<string>)
  {
    && (forall i :: 0 <= i < |r.bought| ==>
          && r.bought[i] !in ps
          && r.bought[i] in codes
          && HeldAmount(market.held, r.bought[i]) <= 0.0
          && r.bought[i] in market.prices)
    && (forall i, j :: 0 <= i < j < |r.bought| ==> r.bought[i] != r.bought[j])
  }

  /** Every code r buys gets a fresh, unsold entry at its current price. */
  predicate FreshEntries(r: Admission, market: Market, now: Clock, value: real)
  {
    forall i :: 0 <= i < |r.bought| ==>
      && r.bought[i] in market.prices
      && r.bought[i] in r.positions
      && r.positions[r.bought[i]] == NewPosition(market.prices[r.bought[i]], now, value)
  }

  /** Admission makes at most maxBuy - count purchases. */
  lemma {:induction false} AdmitBound(ps: map<string, Position>, sigs: seq<Signal>, k: nat, count: nat,
                                      market: Market, now: Clock, value: real, maxBuy: nat, orderOk: seq<bool>)
    requires count <= maxBuy
    ensures count + |AdmitFrom(ps, sigs, k, count, market, now, value, maxBuy, orderOk).bought| <= maxBuy
    decreases |sigs| - k
  {
    if k < |sigs| && count < maxBuy {
      var code := sigs[k].code;
      if Skipped(ps, code, k, market, orderOk) {
        AdmitBound(ps, sigs, k + 1, count, market, now, value, maxBuy, orderOk);
      } else {
        AdmitBound(ps[code := NewPosition(market.prices[code], now, value)], sigs, k + 1, count + 1,
                   market, now, value, maxBuy, orderOk);
      }
    }
  }

  /** Admission keeps every old entry as it was and adds only the bought
      codes. */
  lemma {:induction false} AdmitKeeps(ps: map<string, Position>, sigs: seq<Signal>, k: nat, count: nat,
                                      market: Market, now: Clock, value: real, maxBuy: nat, orderOk: seq<bool>)
    ensures KeepsOld(ps, AdmitFrom(ps, sigs, k, count, market, now, value, maxBuy, orderOk))
    decreases |sigs| - k
  {
    if k < |sigs| && count < maxBuy {
      var code := sigs[k].code;
      if Skipped(ps, code, k, market, orderOk) {
        AdmitKeeps(ps, sigs, k + 1, count, market, now, value, maxBuy, orderOk);
      } else {
        AdmitKeeps(ps[code := NewPosition(market.prices[code], now, value)], sigs, k + 1, count + 1,
                   market, now, value, maxBuy, orderOk);
      }
    }
  }

  /** Every purchase is of the code of one of sigs[k..] that was neither in
      the book nor held and had a price, and no code is bought twice. */
  lemma {:induction false} AdmitBought(ps: map<string, Position>, sigs: seq<Signal>, k: nat, count: nat,
                                       market: Market, now: Clock, value: real, maxBuy: nat, orderOk: seq<bool>)
    ensures BuysFresh(ps, AdmitFrom(ps, sigs, k, count, market, now, value, maxBuy, orderOk), market,
                      CodesFrom(sigs, k))
    decreases |sigs| - k
  {
    if k < |sigs| && count < maxBuy {
      var code := sigs[k].code;
      assert CodesFrom(sigs, k + 1) <= CodesFrom(sigs, k);
      if Skipped(ps, code, k, market, orderOk) {
        AdmitBought(ps, sigs, k + 1, count, market, now, value, maxBuy, orderOk);
      } else {
        var ps' := ps[code := NewPosition(market.prices[code], now, value)];
        AdmitBought(ps', sigs, k + 1, count + 1, market, now, value, maxBuy, orderOk);
        var rest := AdmitFrom(ps', sigs, k + 1, count + 1, market, now, value, maxBuy, orderOk);
        var r := Admission(rest.positions, [code] + rest.bought);
        assert code in CodesFrom(sigs, k);
        forall i | 0 <= i < |r.bought|
          ensures r.bought[i] !in ps && r.bought[i] in CodesFrom(sigs, k)
        {
          if i > 0 {
            assert r.bought[i] == rest.bought[i - 1];
          }
        }
        forall i, j | 0 <= i < j < |r.bought|
          ensures r.bought[i] != r.bought[j]
        {
          assert r.bought[j] == rest.bought[j - 1];
          if i > 0 {
            assert r.bought[i] == rest.bought[i - 1];
          }
        }
      }
    }
  }

  /** Each bought code gets a fresh, unsold entry at its current price. */
  lemma {:induction false} AdmitEntries(ps: map<string, Position>, sigs: seq<Signal>, k: nat, count: nat,
                                        market: Market, now: Clock, value: real, maxBuy: nat, orderOk: seq<bool>)
    ensures FreshEntries(AdmitFrom(ps, sigs, k, count, market, now, value, maxBuy, orderOk), market, now, value)
    decreases |sigs| - k
  {
    if k < |sigs| && count < maxBuy {
      var code := sigs[k].code;
      if Skipped(ps, code, k, market, orderOk) {
        AdmitEntries(ps, sigs, k + 1, count, market, now, value, maxBuy, orderOk);
      } else {
        var ps' := ps[code := NewPosition(market.prices[code], now, value)];
        AdmitEntries(ps', sigs, k + 1, count + 1, market, now, value, maxBuy, orderOk);
        AdmitKeeps(ps', sigs, k + 1, count + 1, market, now, value, maxBuy, orderOk);
        var rest := AdmitFrom(ps', sigs, k + 1, count + 1, market, now, value, maxBuy, orderOk);
        var r := Admission(rest.positions, [code] + rest.bought);
        forall i | 0 <= i < |r.bought|
          ensures r.bought[i] in market.prices && r.bought[i] in r.positions
          ensures r.positions[r.bought[i]] == NewPosition(market.prices[r.bought[i]], now, value)
        {
          if i > 0 {
            assert r.bought[i] == rest.bought[i - 1];
          }
        }
      }
    }
  }

  /** The indices into sigs of the signals the admission pass buys, in the
      order it buys them. */
  function Picks(ps: map<string, Position>, sigs: seq<Signal>, k: nat, count: nat, market: Market,
                 now: Clock, value: real, maxBuy: nat, orderOk: seq<bool>): (r: seq<nat>)
    ensures k <= |sigs| ==> |r| <= |sigs| - k
    ensures forall i :: 0 <= i < |r| ==> k <= r[i] < |sigs|
    decreases |sigs| - k
  {
    if k >= |sigs| || count >= maxBuy then []
    else
      var code := sigs[k].code;
      if Skipped(ps, code, k, market, orderOk) then
        Picks(ps, sigs, k + 1, count, market, now, value, maxBuy, orderOk)
      else
        [k] + Picks(ps[code := NewPosition(market.prices[code], now, value)], sigs, k + 1, count + 1,
                    market, now, value, maxBuy, orderOk)
  }

  /** Signal j would be passed over after the purchases before: its code
      is in the book or among those purchases, is held, has no price, or its
      order fails. */
  predicate PassedOver(ps: map<string, Position>, before: seq<string>, code: string, j: nat, market: Market,
                       orderOk: seq<bool>)
  {
    code in ps || code in before || HeldAmount(market.held, code) > 0.0 || code !in market.prices ||
    !(j < |orderOk| && orderOk[j])
  }

  /** Every signal of sigs[lo..hi] is passed over after the purchases before. */
  predicate GapPassed(ps: map<string, Position>, before: seq<string>, sigs: seq<Signal>, lo: int, hi: int,
                      market: Market, orderOk: seq<bool>)
  {
    forall j :: 0 <= lo <= j < hi <= |sigs| ==> PassedOver(ps, before, sigs[j].code, j, market, orderOk)
  }

  /** bought[i] is the code of sigs[picks[i]], the picks rise through
      sigs[k..], and each pick was not passed over after the purchases
      before it: new to the book, not bought before, not held, priced, and
      its order succeeded. */
  predicate PickedInOrder(ps: map<string, Position>, sigs: seq<Signal>, k: nat, bought: seq<string>,
                          picks: seq<nat>, market: Market, orderOk: seq<bool>)
  {
    && |picks| == |bought|
    && (forall i :: 0 <= i < |picks| ==>
          && k <= picks[i] < |sigs|
          && bought[i] == sigs[picks[i]].code
          && !PassedOver(ps, bought[..i], bought[i], picks[i], market, orderOk))
    && (forall i, j :: 0 <= i < j < |picks| ==> picks[i] < picks[j])
  }

  /** The pass is greedy: every signal of sigs[k..] between two picks was
      passed over after the purchases made so far, and so was every signal
      after the last pick unless maxBuy purchases had been made. */
  predicate Greedy(ps: map<string, Position>, sigs: seq<Signal>, k: nat, count: nat, maxBuy: nat,
                   bought: seq<string>, picks: seq<nat>, market: Market, orderOk: seq<bool>)
  {
    forall i :: 0 <= i <= |picks| && i <= |bought| ==>
      count + i >= maxBuy ||
      GapPassed(ps, bought[..i], sigs, if i == 0 then k else picks[i - 1] + 1,
                if i == |picks| then |sigs| else picks[i], market, orderOk)
  }

  /** The purchases of the pass are the codes of its picks, in rising
      order, none passed over. */
  lemma {:induction false} AdmitPicksSound(ps: map<string, Position>, sigs: seq<Signal>, k: nat, count: nat,
                                           market: Market, now: Clock, value: real, maxBuy: nat,
                                           orderOk: seq<bool>)
    ensures PickedInOrder(ps, sigs, k, AdmitFrom(ps, sigs, k, count, market, now, value, maxBuy, orderOk).bought,
                          Picks(ps, sigs, k, count, market, now, value, maxBuy, orderOk), market, orderOk)
    decreases |sigs| - k
  {
    if k < |sigs| && count < maxBuy {
      var code := sigs[k].code;
      if Skipped(ps, code, k, market, orderOk) {
        AdmitPicksSound(ps, sigs, k + 1, count, market, now, value, maxBuy, orderOk);
      } else {
        var ps' := ps[code := NewPosition(market.prices[code], now, value)];
        AdmitPicksSound(ps', sigs, k + 1, count + 1, market, now, value, maxBuy, orderOk);
        var rest := AdmitFrom(ps', sigs, k + 1, count + 1, market, now, value, maxBuy, orderOk).bought;
        var p' := Picks(ps', sigs, k + 1, count + 1, market, now, value, maxBuy, orderOk);
        var bought := [code] + rest;
        var picks := [k] + p';
        forall i | 0 <= i < |picks|
          ensures k <= picks[i] < |sigs| && bought[i] == sigs[picks[i]].code
          ensures !PassedOver(ps, bought[..i], bought[i], picks[i], market, orderOk)
        {
          if i > 0 {
            assert bought[i] == rest[i - 1] && picks[i] == p'[i - 1];
            assert bought[..i] == [code] + rest[..i - 1];
            assert !PassedOver(ps', rest[..i - 1], rest[i - 1], p'[i - 1], market, orderOk);
          } else {
            assert bought[..i] == [];
          }
        }
        forall i, j | 0 <= i < j < |picks|
          ensures picks[i] < picks[j]
        {
          assert picks[j] == p'[j - 1];
          if i > 0 {
            assert picks[i] == p'[i - 1];
          }
        }
      }
    }
  }

  /** A skipped signal k extends the first gap of the pass from k + 1. */
  lemma GreedySkip(ps: map<string, Position>, sigs: seq<Signal>, k: nat, count: nat, maxBuy: nat,
                   bought: seq<string>, picks: seq<nat>, market: Market, orderOk: seq<bool>)
    requires k < |sigs| && PassedOver(ps, [], sigs[k].code, k, market, orderOk)
    requires Greedy(ps, sigs, k + 1, count, maxBuy, bought, picks, market, orderOk)
    ensures Greedy(ps, sigs, k, count, maxBuy, bought, picks, market, orderOk)
  {
    forall i | 0 <= i <= |picks| && i <= |bought| && count + i < maxBuy
      ensures GapPassed(ps, bought[..i], sigs, if i == 0 then k else picks[i - 1] + 1,
                        if i == |picks| then |sigs| else picks[i], market, orderOk)
    {
      var hi := if i == |picks| then |sigs| else picks[i];
      if i == 0 {
        assert bought[..0] == [];
        assert GapPassed(ps, bought[..0], sigs, k + 1, hi, market, orderOk);
        forall j | 0 <= k <= j < hi <= |sigs|
          ensures PassedOver(ps, bought[..0], sigs[j].code, j, market, orderOk)
        {
        }
      } else {
        assert GapPassed(ps, bought[..i], sigs, picks[i - 1] + 1, hi, market, orderOk);
      }
    }
  }

  /** A purchase of signal k in front of the rest of the pass: the gaps of
      the rest, with code added to the book, are the later gaps of the
      whole pass. */
  lemma GreedyBuy(ps: map<string, Position>, x: Position, sigs: seq<Signal>, k: nat, count: nat, maxBuy: nat,
                  rest: seq<string>, p': seq<nat>, market: Market, orderOk: seq<bool>)
    requires k < |sigs|
    requires Greedy(ps[sigs[k].code := x], sigs, k + 1, count + 1, maxBuy, rest, p', market, orderOk)
    ensures Greedy(ps, sigs, k, count, maxBuy, [sigs[k].code] + rest, [k] + p', market, orderOk)
  {
    var code := sigs[k].code;
    var bought := [code] + rest;
    var picks := [k] + p';
    forall i | 0 <= i <= |picks| && i <= |bought| && count + i < maxBuy
      ensures GapPassed(ps, bought[..i], sigs, if i == 0 then k else picks[i - 1] + 1,
                        if i == |picks| then |sigs| else picks[i], market, orderOk)
    {
      if i > 0 {
        assert bought[..i] == [code] + rest[..i - 1];
        var lo := if i - 1 == 0 then k + 1 else p'[i - 2] + 1;
        var hi := if i - 1 == |p'| then |sigs| else p'[i - 1];
        assert lo == picks[i - 1] + 1;
        assert hi == (if i == |picks| then |sigs| else picks[i]);
        assert GapPassed(ps[code := x], rest[..i - 1], sigs, lo, hi, market, orderOk);
      }
    }
  }

  /** The pass is greedy over sigs[k..]. */
  lemma {:induction false} AdmitGreedy(ps: map<string, Position>, sigs: seq<Signal>, k: nat, count: nat,
                                       market: Market, now: Clock, value: real, maxBuy: nat, orderOk: seq<bool>)
    ensures Greedy(ps, sigs, k, count, maxBuy, AdmitFrom(ps, sigs, k, count, market, now, value, maxBuy, orderOk).bought,
                   Picks(ps, sigs, k, count, market, now, value, maxBuy, orderOk), market, orderOk)
    decreases |sigs| - k
  {
    if k >= |sigs| || count >= maxBuy {
      var bought := AdmitFrom(ps, sigs, k, count, market, now, value, maxBuy, orderOk).bought;
      assert bought[..0] == [];
    } else {
      var code := sigs[k].code;
      if Skipped(ps, code, k, market, orderOk) {
        AdmitGreedy(ps, sigs, k + 1, count, market, now, value, maxBuy, orderOk);
        GreedySkip(ps, sigs, k, count, maxBuy,
                   AdmitFrom(ps, sigs, k + 1, count, market, now, value, maxBuy, orderOk).bought,
                   Picks(ps, sigs, k + 1, count, market, now, value, maxBuy, orderOk), market, orderOk);
      } else {
        var x := NewPosition(market.prices[code], now, value);
        AdmitGreedy(ps[code := x], sigs, k + 1, count + 1, market, now, value, maxBuy, orderOk);
        GreedyBuy(ps, x, sigs, k, count, maxBuy,
                  AdmitFrom(ps[code := x], sigs, k + 1, count + 1, market, now, value, maxBuy, orderOk).bought,
                  Picks(ps[code := x], sigs, k + 1, count + 1, market, now, value, maxBuy, orderOk),
                  market, orderOk);
      }
    }
  }

  /** trade_signals[:max_buy * 2] after the descending sort. */
  function Top(signals: seq<Signal>, maxBuy: nat): seq<Signal>
  {
    var ranked := Sort(signals);
    ranked[..Min(|ranked|, 2 * maxBuy)]
  }

  /** The outcome of trade_logic on the book: nothing outside 14:56, when
      trading is disabled, without a budget or without signals; otherwise
      the admission pass over the first 2 * max_buy signals by descending
      composite score. */
  function TradeOutcome(ps: map<string, Position>, enabled: bool, now: Clock, market: Market, cash: real,
                        signals: seq<Signal>, orderOk: seq<bool>, params: Params): (r: Admission)
    ensures !(enabled && TradeWindow(now)) || signals == [] ==> r.bought == [] && r.positions == ps
  {
    if !enabled || !TradeWindow(now) then Admission(ps, [])
    else
      var current := HeldCount(market.held);
      var value := PositionValue(cash, params, current);
      if value.None? || signals == [] then Admission(ps, [])
      else
        var maxBuy := MaxBuy(params, current);
        AdmitFrom(ps, Top(signals, maxBuy), 0, 0, market, now, value.value, maxBuy, orderOk)
  }

  /** trade_logic buys at most two stocks and never more than the free
      slots, and only at 14:56, when enabled and with a budget. */
  lemma TradeOutcomeBound(ps: map<string, Position>, enabled: bool, now: Clock, market: Market, cash: real,
                          signals: seq<Signal>, orderOk: seq<bool>, params: Params)
    ensures |TradeOutcome(ps, enabled, now, market, cash, signals, orderOk, params).bought| <= 2
    ensures |TradeOutcome(ps, enabled, now, market, cash, signals, orderOk, params).bought| > 0 ==>
      && enabled && TradeWindow(now)
      && PositionValue(cash, params, HeldCount(market.held)).Some?
      && |TradeOutcome(ps, enabled, now, market, cash, signals, orderOk, params).bought| <=
           params.maxPositions - HeldCount(market.held)
  {
    var current := HeldCount(market.held);
    if enabled && TradeWindow(now) {
      var value := PositionValue(cash, params, current);
      if value.Some? && signals != [] {
        var maxBuy := MaxBuy(params, current);
        AdmitBound(ps, Top(signals, maxBuy), 0, 0, market, now, value.value, maxBuy, orderOk);
      }
    }
  }

  /** trade_logic keeps every existing entry, adds exactly the bought codes,
      each the code of one of the signals that was neither in the book nor
      held, once, with a fresh unsold entry at its current price. */
  lemma TradeOutcomeBuys(ps: map<string, Position>, enabled: bool, now: Clock, market: Market, cash: real,
                         signals: seq<Signal>, orderOk: seq<bool>, params: Params)
    ensures KeepsOld(ps, TradeOutcome(ps, enabled, now, market, cash, signals, orderOk, params))
    ensures BuysFresh(ps, TradeOutcome(ps, enabled, now, market, cash, signals, orderOk, params), market,
                      CodesFrom(signals, 0))
    ensures PositionValue(cash, params, HeldCount(market.held)).Some? ==>
      FreshEntries(TradeOutcome(ps, enabled, now, market, cash, signals, orderOk, params), market, now,
                   PositionValue(cash, params, HeldCount(market.held)).value)
  {
    var current := HeldCount(market.held);
    if enabled && TradeWindow(now) {
      var value := PositionValue(cash, params, current);
      if value.Some? && signals != [] {
        var maxBuy := MaxBuy(params, current);
        var top := Top(signals, maxBuy);
        AdmitKeeps(ps, top, 0, 0, market, now, value.value, maxBuy, orderOk);
        AdmitBought(ps, top, 0, 0, market, now, value.value, maxBuy, orderOk);
        AdmitEntries(ps, top, 0, 0, market, now, value.value, maxBuy, orderOk);
        SortSortedPermutation(signals);
        forall c | c in CodesFrom(top, 0)
          ensures c in CodesFrom(signals, 0)
        {
          var m :| 0 <= m < |top| && top[m].code == c;
          assert top[m] in multiset(signals);
          var j :| 0 <= j < |signals| && signals[j] == top[m];
        }
      }
    }
  }

  /** The candidates trade_logic walks through are the first
      min(len, 2 * max_buy) signals of the descending sort: they are in
      descending score order and outscore every signal left out. */
  lemma TopRanked(signals: seq<Signal>, maxBuy: nat)
    ensures var top := Top(signals, maxBuy);
      && |top| == Min(|signals|, 2 * maxBuy)
      && top == Sort(signals)[..|top|]
      && multiset(Sort(signals)) == multiset(signals)
      && (forall i, j :: 0 <= i < j < |top| ==> Score(top[i]) >= Score(top[j]))
      && (forall i, j :: 0 <= i < |top| <= j < |Sort(signals)| ==> Score(Sort(signals)[i]) >= Score(Sort(signals)[j]))
  {
    SortSortedPermutation(signals);
    var top := Top(signals, maxBuy);
    forall i, j | 0 <= i < j < |top|
      ensures Score(top[i]) >= Score(top[j])
    {
      assert top[i] == Sort(signals)[i] && top[j] == Sort(signals)[j];
    }
  }

  /** trade_logic buys by rank: the purchases are the codes of picks in the
      top signals, in rising pick order and so by descending score; each
      pick was new to the book and to the earlier purchases, not held,
      priced, and its order succeeded; and every other top signal was
      passed over after the purchases before it, except those after the
      last pick once max_buy purchases were made. */
  lemma TradeOutcomeRanked(ps: map<string, Position>, enabled: bool, now: Clock, market: Market, cash: real,
                           signals: seq<Signal>, orderOk: seq<bool>, params: Params)
    requires enabled && TradeWindow(now) && signals != []
    requires PositionValue(cash, params, HeldCount(market.held)).Some?
    ensures var current := HeldCount(market.held);
      var value := PositionValue(cash, params, current).value;
      var maxBuy := MaxBuy(params, current);
      var top := Top(signals, maxBuy);
      var bought := TradeOutcome(ps, enabled, now, market, cash, signals, orderOk, params).bought;
      var picks := Picks(ps, top, 0, 0, market, now, value, maxBuy, orderOk);
      && PickedInOrder(ps, top, 0, bought, picks, market, orderOk)
      && Greedy(ps, top, 0, 0, maxBuy, bought, picks, market, orderOk)
      && (forall i, j :: 0 <= i < j < |picks| ==> Score(top[picks[i]]) >= Score(top[picks[j]]))
  {
    var current := HeldCount(market.held);
    var value := PositionValue(cash, params, current).value;
    var maxBuy := MaxBuy(params, current);
    var top := Top(signals, maxBuy);
    var picks := Picks(ps, top, 0, 0, market, now, value, maxBuy, orderOk);
    TopRanked(signals, maxBuy);
    AdmitPicksSound(ps, top, 0, 0, market, now, value, maxBuy, orderOk);
    AdmitGreedy(ps, top, 0, 0, market, now, value, maxBuy, orderOk);
    forall i, j | 0 <= i < j < |picks|
      ensures Score(top[picks[i]]) >= Score(top[picks[j]])
    {
      assert picks[i] < picks[j];
    }
  }

  // ---------------------------------------------------------------------
  // Orders.

  /** The order-cancelling part of morning_cleanup: the number of open or
      pending orders over all order lists. */
  method CancelOpenOrders(orders: seq<seq<OrderStatus>>) returns (canceled: nat)
    ensures canceled == CancelCount(orders)
  {
    canceled := 0;
    for i := 0 to |orders|
      invariant canceled == CancelCount(orders[..i])
    {
      var list := orders[i];
      ghost var before := canceled;
      for j := 0 to |list|
        invariant canceled == before + CancelIn(list[..j])
      {
        if list[j] == Open || list[j] == Pending {
          canceled := canceled + 1;
        }
        assert list[..j + 1][..j] == list[..j];
      }
      assert list[..|list|] == list;
      assert orders[..i + 1][..i] == orders[..i];
    }
    assert orders[..|orders|] == orders;
  }

  // ---------------------------------------------------------------------
  // The book.

  class Book {
    var positions: map<string, Position>

    constructor ()
      ensures positions == map[]
    {
      positions := map[];
    }

    /** The deletion loop both cleanups end with. */
    method RemoveCodes(codes: set<string>)
      modifies this
      ensures positions.Keys == old(positions).Keys - codes
      ensures forall c :: c in positions ==> positions[c] == old(positions)[c]
    {
      var pending := codes;
      while pending != {}
        invariant pending <= codes
        invariant positions.Keys == old(positions).Keys - (codes - pending)
        invariant forall c :: c in positions ==> positions[c] == old(positions)[c]
        decreases |pending|
      {
        var code :| code in pending;
        if code in positions {
          positions := positions - {code};
        }
        pending := pending - {code};
      }
    }

    /** check_immediate_stops; returns the codes it sends a sell order for. */
    method CheckImmediateStops(market: Market, now: Clock, params: Params) returns (sold: set<string>)
      modifies this
      ensures positions == AfterImmediate(old(positions), market, now, params)
      ensures sold == ImmediateSold(old(positions), market, now, params)
    {
      sold := {};
      if |positions| == 0 || !ImmediateWindowOpen(now) {
        return;
      }
      ghost var ps := positions;
      var todo := positions.Keys;
      while todo != {}
        invariant todo <= ps.Keys && positions.Keys == ps.Keys && sold <= ps.Keys
        invariant forall c :: c in todo ==> positions[c] == ps[c] && c !in sold
        invariant forall c :: c in ps && c !in todo ==>
          && positions[c] == Apply(ps[c], ImmediateExit(ps[c], c, market, params), now)
          && (c in sold <==> ImmediateExit(ps[c], c, market, params).Some?)
        decreases |todo|
      {
        var code :| code in todo;
        var exit := ImmediateExit(positions[code], code, market, params);
        if exit.Some? {
          positions := positions[code := Mark(positions[code], exit.value, now)];
          sold := sold + {code};
        }
        todo := todo - {code};
      }
      assert positions == AfterImmediate(ps, market, now, params);
      assert sold == ImmediateSold(ps, market, now, params);
    }

    /** The codes of the selling entries whose code is no longer held. */
    method RemovableCodes(held: map<string, real>) returns (codes: set<string>)
      ensures codes == set c | c in positions && Removable(positions[c], c, held)
    {
      codes := {};
      var todo := positions.Keys;
      while todo != {}
        invariant todo <= positions.Keys && codes <= positions.Keys
        invariant forall c :: c in todo ==> c !in codes
        invariant forall c :: c in positions && c !in todo ==>
          (c in codes <==> Removable(positions[c], c, held))
        decreases |todo|
      {
        var code :| code in todo;
        if Removable(positions[code], code, held) {
          codes := codes + {code};
        }
        todo := todo - {code};
      }
    }

    /** cleanup_sold_positions: collect the removable codes, then delete them. */
    method CleanupSoldPositions(held: map<string, real>)
      modifies this
      ensures positions == AfterCleanup(old(positions), held)
    {
      var toRemove := RemovableCodes(held);
      ghost var ps := positions;
      RemoveCodes(toRemove);
      assert positions.Keys == AfterCleanup(ps, held).Keys;
    }

    /** check_tail_position; returns the codes it sends a sell order for.
      heldAfter is the portfolio the closing cleanup reads. */
    method CheckTailPosition(market: Market, heldAfter: map<string, real>, now: Clock, params: Params)
      returns (sold: set<string>)
      modifies this
      ensures positions == AfterTail(old(positions), market, heldAfter, now, params)
      ensures sold == TailSold(old(positions), market, now, params)
    {
      sold := {};
      if |positions| == 0 {
        return;
      }
      ghost var ps := positions;
      var todo := positions.Keys;
      while todo != {}
        invariant todo <= ps.Keys && positions.Keys == ps.Keys && sold <= ps.Keys
        invariant forall c :: c in todo ==> positions[c] == ps[c] && c !in sold
        invariant forall c :: c in ps && c !in todo ==>
          && positions[c] == Apply(ps[c], TailExit(ps[c], c, market, now, params), now)
          && (c in sold <==> TailExit(ps[c], c, market, now, params).Some?)
        decreases |todo|
      {
        var code :| code in todo;
        var exit := TailExit(positions[code], code, market, now, params);
        if exit.Some? {
          positions := positions[code := Mark(positions[code], exit.value, now)];
          sold := sold + {code};
        }
        todo := todo - {code};
      }
      assert positions == TailMarks(ps, market, now, params);
      assert sold == TailSold(ps, market, now, params);
      CleanupSoldPositions(heldAfter);
    }

    /** The codes of the selling entries. */
    method SellingCodes() returns (codes: set<string>)
      ensures codes == set c | c in positions && positions[c].selling
    {
      codes := {};
      var todo := positions.Keys;
      while todo != {}
        invariant todo <= positions.Keys && codes <= positions.Keys
        invariant forall c :: c in todo ==> c !in codes
        invariant forall c :: c in positions && c !in todo ==> (c in codes <==> positions[c].selling)
        decreases |todo|
      {
        var code :| code in todo;
        if positions[code].selling {
          codes := codes + {code};
        }
        todo := todo - {code};
      }
    }

    /** morning_cleanup: cancel the open and pending orders of every list
      (returning how many), then drop every selling entry. */
    method MorningCleanup(orders: seq<seq<OrderStatus>>) returns (canceled: nat)
      modifies this
      ensures canceled == CancelCount(orders)
      ensures positions == AfterMorning(old(positions))
    {
      canceled := CancelOpenOrders(orders);
      var toRemove := SellingCodes();
      ghost var ps := positions;
      RemoveCodes(toRemove);
      assert positions.Keys == AfterMorning(ps).Keys;
    }

    /** The admission loop of trade_logic over the top signals. */
    method Admit(sigs: seq<Signal>, market: Market, now: Clock, value: real, maxBuy: nat, orderOk: seq<bool>)
      returns (bought: seq<string>)
      modifies this
      ensures Admission(positions, bought) == AdmitFrom(old(positions), sigs, 0, 0, market, now, value, maxBuy, orderOk)
    {
      bought := [];
      var buyCount: nat := 0;
      var k := 0;
      while k < |sigs|
        invariant k <= |sigs| && buyCount == |bought|
        invariant var r := AdmitFrom(positions, sigs, k, buyCount, market, now, value, maxBuy, orderOk);
          Admission(r.positions, bought + r.bought) ==
            AdmitFrom(old(positions), sigs, 0, 0, market, now, value, maxBuy, orderOk)
        decreases |sigs| - k
      {
        if buyCount >= maxBuy {
          break;
        }
        var code := sigs[k].code;
        if code in positions || HeldAmount(market.held, code) > 0.0 {
          k := k + 1;
          continue;
        }
        if code !in market.prices {
          k := k + 1;
          continue;
        }
        var price := market.prices[code];
        var ok := k < |orderOk| && orderOk[k];
        if ok {
          ghost var rest := AdmitFrom(positions[code := NewPosition(price, now, value)], sigs, k + 1,
                                      buyCount + 1, market, now, value, maxBuy, orderOk);
          assert bought + ([code] + rest.bought) == (bought + [code]) + rest.bought;
          positions := positions[code := NewPosition(price, now, value)];
          bought := bought + [code];
          buyCount := buyCount + 1;
        }
        k := k + 1;
      }
      assert bought + [] == bought;
    }

    /** trade_logic on the book: the gates, the screening of the pool's
      quotes, the signals of the candidates, the sort and the admission. */
    method TradeLogic(enabled: bool, now: Clock, market: Market, cash: real, quotes: seq<Quote>,
                      orderOk: seq<bool>, params: Params) returns (bought: seq<string>)
      modifies this
      ensures Admission(positions, bought) ==
        TradeOutcome(old(positions), enabled, now, market, cash,
                     TradeSignals(BasicCandidates(quotes, params), now, params), orderOk, params)
    {
      bought := [];
      if !enabled || !TradeWindow(now) {
        return;
      }
      var current := HeldCount(market.held);
      var value := PositionValue(cash, params, current);
      if value.None? {
        return;
      }
      var candidates := ScreenQuotes(quotes, params);
      var signals := CollectSignals(candidates, now, params);
      if signals == [] {
        return;
      }
      var maxBuy := MaxBuy(params, current);
      var ranked := Sort(signals);
      bought := Admit(ranked[..Min(|ranked|, 2 * maxBuy)], market, now, value.value, maxBuy, orderOk);
    }
  }
}

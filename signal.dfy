/** generate_trade_signal and the small predicates around it: the strategy
    parameters, the shareholder-count change, the close-at-limit-up test,
    the basic candidate filter, the stock-pool filter and the first-match
    Strong/Medium/Weak tiering with its stop and take prices. */
module Signal {
  import opened Common
  import opened Pattern
  import opened Consolidation

  /** The entries of g.params that the decision core reads. */
  datatype Params = Params(
    minTurnover: real,
    maxTurnover: real,
    minPriceChange: real,
    minWaveScore: int,
    positionRatio: real,
    maxPositions: int,
    immediateStopLoss: real,
    immediateTakeProfit: real,
    tailTakeProfit: real,
    timeStopDays: int)

  /** The values initialize sets. */
  const Defaults := Params(7.0, 12.0, 4.0, 40, 0.1, 10, 0.15, 0.2, 0.15, 30)

  // ---------------------------------------------------------------------
  // Shareholder count change.

  /** The change of the shareholder count against the previous report, in
      percent, positive when holders decreased. holders lists the reported
      counts newest first (at most two are queried; an empty list stands for
      a failed query). None without two reports or with a non-positive
      previous count. */
  function ShareholderChange(holders: seq<real>): (r: Option<real>)
    ensures r.Some? <==> |holders| >= 2 && holders[1] > 0.0
    ensures r.Some? ==> (r.value > 0.0 <==> holders[0] < holders[1])
    ensures r.Some? ==> (r.value == 0.0 <==> holders[0] == holders[1])
    ensures r.Some? ==> holders[0] == holders[1] * (1.0 - r.value / 100.0)
  {
    if |holders| < 2 then None
    else
      var latest := holders[0];
      var previous := holders[1];
      if previous > 0.0 then Some((previous - latest) / previous * 100.0) else None
  }

  // ---------------------------------------------------------------------
  // Code prefixes, limit-up and the filters.

  predicate StartsWith(code: string, prefix: string)
  {
    |prefix| <= |code| && code[..|prefix|] == prefix
  }

  /** The limit-up threshold of a board: 19.9% for codes starting 68 or 30,
      9.9% for 00 or 60, none for any other code. */
  function LimitThreshold(code: string): Option<real>
  {
    if StartsWith(code, "68") || StartsWith(code, "30") then Some(19.9)
    else if StartsWith(code, "00") || StartsWith(code, "60") then Some(9.9)
    else None
  }

  /** is_close_limit_up on the last two closes fetched for the code (fewer
      than two: false). */
  function IsCloseLimitUp(code: string, closes: seq<real>): (r: bool)
    ensures r <==>
      |closes| >= 2 && LimitThreshold(code).Some? &&
      Pct(closes[0], closes[1]) >= LimitThreshold(code).value
  {
    if |closes| < 2 then false
    else
      var change := Pct(closes[0], closes[1]);
      if StartsWith(code, "68") || StartsWith(code, "30") then change >= 19.9
      else if StartsWith(code, "00") || StartsWith(code, "60") then change >= 9.9
      else false
  }

  /** The basic filter of trade_logic: turnover in (min, max], intraday rise
      above the minimum, and not closed at limit-up. */
  predicate BasicCandidate(turnover: real, priceChange: real, limitUp: bool, params: Params)
  {
    params.minTurnover < turnover <= params.maxTurnover && priceChange > params.minPriceChange && !limitUp
  }

  /** With the initial parameters the turnover band is open at 7% and closed
      at 12%, a rise of exactly 4% is not enough, and a stock closed at
      limit-up is never a candidate. */
  lemma BasicCandidateBoundaries()
    ensures BasicCandidate(12.0, 4.5, false, Defaults)
    ensures !BasicCandidate(7.0, 4.5, false, Defaults)
    ensures !BasicCandidate(12.5, 4.5, false, Defaults)
    ensures !BasicCandidate(10.0, 4.0, false, Defaults)
    ensures !BasicCandidate(10.0, 4.5, true, Defaults)
  {
  }

  /** The stock-pool filter of initialize_stock_pool: listed for more than
      365 days, not ST, and not a BJ, 68 or 3 code.
      The pool keeps no ChiNext (30...), STAR (68...) or Beijing code, so a
      pool code that closes at limit-up is a main-board code at 9.9%. */
  predicate PoolEligible(code: string, listedDays: int, isST: bool)
    ensures PoolEligible(code, listedDays, isST) ==> LimitThreshold(code) != Some(19.9)
  {
    listedDays > 365 && !isST &&
    !StartsWith(code, "BJ") && !StartsWith(code, "68") && !StartsWith(code, "3")
  }

  // ---------------------------------------------------------------------
  // Tiering.

  datatype Strength = Strong | Medium | Weak

  /** The 5-day volume ratio: today's volume over the mean of the last five
      daily volumes (today's own volume when fewer than five are returned),
      1 when that mean is not positive. */
  function VolumeRatio5(todayVolume: real, lastFive: seq<real>): (r: real)
    ensures var avg := if |lastFive| >= 5 then Mean(lastFive) else todayVolume;
      && (avg > 0.0 ==> r * avg == todayVolume)
      && (avg <= 0.0 ==> r == 1.0)
  {
    var avg := if |lastFive| >= 5 then Mean(lastFive) else todayVolume;
    if avg > 0.0 then todayVolume / avg else 1.0
  }

  /** The first-match tier rule: strength and position ratio (0 when no
      tier applies). */
  function Tier(today: Bar, resistance: real, volumeRatio: real, ratio: real): (t: (Strength, real))
    ensures t.1 == ratio || t.1 == ratio * 0.6 || t.1 == ratio * 0.3 || t.1 == 0.0
    ensures t.1 != 0.0 ==> volumeRatio > 1.0 && (today.close > resistance || today.high > resistance)
  {
    var breakthrough := today.close > resistance;
    var earlyBreak := today.high > resistance * 1.01 && today.close > today.open * 1.02;
    if breakthrough && earlyBreak && volumeRatio > 1.5 then (Strong, ratio)
    else if breakthrough && volumeRatio > 1.2 then (Medium, ratio * 0.6)
    else if today.high > resistance && volumeRatio > 1.0 then (Weak, ratio * 0.3)
    else (Weak, 0.0)
  }

  /** The tiers in first-match order: strong whenever its conditions hold,
      medium only when strong fails, weak only when both fail, and no
      position otherwise. */
  lemma TierFirstMatch(today: Bar, resistance: real, volumeRatio: real, ratio: real)
    ensures var (strength, pos) := Tier(today, resistance, volumeRatio, ratio);
      var breakthrough := today.close > resistance;
      var earlyBreak := today.high > resistance * 1.01 && today.close > today.open * 1.02;
      var strong := breakthrough && earlyBreak && volumeRatio > 1.5;
      var medium := breakthrough && volumeRatio > 1.2;
      var weak := today.high > resistance && volumeRatio > 1.0;
      && (strong ==> strength == Strong && pos == ratio)
      && (!strong && medium ==> strength == Medium && pos == ratio * 0.6)
      && (!strong && !medium && weak ==> strength == Weak && pos == ratio * 0.3)
      && (!strong && !medium && !weak ==> strength == Weak && pos == 0.0)
      && (strength == Strong <==> strong)
      && (strength == Medium <==> !strong && medium)
  {
  }

  /** A trade signal as generate_trade_signal builds it. */
  datatype Signal = Signal(
    code: string,
    name: string,
    strength: Strength,
    positionRatio: real,
    entryPrice: real,
    stopLoss: real,
    takeProfit: real,
    shareholderChange: Option<real>,
    volumeRatio: real,
    priceChange: real,
    turnoverRatio: real,
    buyTime: Clock)

  /** What the market-data collaborator returns for one candidate: the bars
      for identify_A_kill, identify_three_waves and check_consolidation
      (None for a failed fetch), today's bar (None when empty), the last
      five daily volumes, and the shareholder counts newest first. */
  datatype SignalInputs = SignalInputs(
    aKillBars: Option<seq<Bar>>,
    waveBars: Option<seq<Bar>>,
    consolidationBars: Option<seq<Bar>>,
    today: Option<Bar>,
    lastFive: seq<real>,
    holders: seq<real>)

  /** generate_trade_signal. A missing A_bottom_date raises in the source
      and the handler returns None; so does every failed stage. */
  function GenerateSignal(code: string, name: string, priceChange: real, turnover: real,
                          now: Clock, inputs: SignalInputs, params: Params): (r: Option<Signal>)
    ensures r.Some? ==>
      && inputs.today.Some? && r.value.entryPrice == inputs.today.value.close
      && r.value.code == code && r.value.name == name && r.value.buyTime == now
      && r.value.priceChange == priceChange && r.value.turnoverRatio == turnover
      && r.value.positionRatio > 0.0
    ensures params.positionRatio <= 0.0 ==> r.None?
  {
    var aKill := IdentifyAKill(inputs.aKillBars);
    if !aKill.hasAKill || aKill.bottom.None? then None
    else
      var waves := ThreeWaves(inputs.waveBars, aKill.bottom.value.date, params.minWaveScore);
      if !waves.Confirmed? then None
      else
        var consolidation := Consolidate(inputs.consolidationBars, waves.pattern.wave3High,
                                         waves.pattern.supportLevels);
        if consolidation.None? || !consolidation.value.isConsolidating then None
        else SignalFromBreakout(code, name, priceChange, turnover, now, waves.pattern.wave3High,
                                consolidation.value.supportLevel, inputs, params)
  }

  /** The last stage of generate_trade_signal, once the pattern and the
      consolidation are confirmed: today's bar, the volume ratio, the tier
      and the stop and take prices. */
  function SignalFromBreakout(code: string, name: string, priceChange: real, turnover: real,
                              now: Clock, resistance: real, support: real,
                              inputs: SignalInputs, params: Params): (r: Option<Signal>)
    ensures r.Some? ==>
      var sig := r.value;
      && inputs.today.Some?
      && sig.entryPrice == inputs.today.value.close
      && sig.stopLoss == support * (1.0 - params.immediateStopLoss)
      && sig.takeProfit == inputs.today.value.close * (1.0 + params.immediateTakeProfit)
      && sig.positionRatio > 0.0
      && (sig.strength == Strong ==> sig.positionRatio == params.positionRatio)
      && (sig.strength == Medium ==> sig.positionRatio == params.positionRatio * 0.6)
      && (sig.strength == Weak ==> sig.positionRatio == params.positionRatio * 0.3)
      && sig.code == code && sig.name == name
      && sig.shareholderChange == ShareholderChange(inputs.holders)
      && sig.volumeRatio == VolumeRatio5(inputs.today.value.volume, inputs.lastFive)
      && sig.priceChange == priceChange && sig.turnoverRatio == turnover && sig.buyTime == now
    ensures r.Some? ==>
      (r.value.strength, r.value.positionRatio) ==
        Tier(inputs.today.value, resistance, r.value.volumeRatio, params.positionRatio)
    ensures (inputs.today.Some? &&
             Tier(inputs.today.value, resistance, VolumeRatio5(inputs.today.value.volume, inputs.lastFive),
                  params.positionRatio).1 > 0.0) ==> r.Some?
    ensures params.positionRatio <= 0.0 ==> r.None?
  {
    if inputs.today.None? then None
    else
      var today := inputs.today.value;
      var volumeRatio := VolumeRatio5(today.volume, inputs.lastFive);
      var (strength, pos) := Tier(today, resistance, volumeRatio, params.positionRatio);
      if pos <= 0.0 then None
      else
        Some(Signal(code, name, strength, pos, today.close,
                    support * (1.0 - params.immediateStopLoss),
                    today.close * (1.0 + params.immediateTakeProfit),
                    ShareholderChange(inputs.holders), volumeRatio, priceChange, turnover, now))
  }

  // ---------------------------------------------------------------------
  // The screening loops of trade_logic.

  /** What the market-data collaborator returns for one stock of the pool:
      its last two daily bars (fewer when the fetch comes back short), its
      circulating share capital in units of 10000 shares (None when the
      query is empty), and the data generate_trade_signal fetches for it. */
  datatype Quote = Quote(code: string, name: string, lastTwo: seq<Bar>, circulatingCap: Option<real>,
                         inputs: SignalInputs)

  /** A quote that passed the basic filter, with its two figures. */
  datatype Candidate = Candidate(quote: Quote, priceChange: real, turnover: real)

  /** The turnover ratio in percent: today's volume over the circulating
      shares. A zero capital, where numpy yields inf or nan and the filter
      rejects the stock, gives 0, which the filter rejects as well. */
  function Turnover(volume: real, capital: real): (r: real)
    ensures capital != 0.0 ==> r * (capital * 10000.0) == volume * 100.0
    ensures capital == 0.0 ==> r == 0.0
  {
    if capital == 0.0 then 0.0
    else
      var t := volume / (capital * 10000.0) * 100.0;
      assert volume / (capital * 10000.0) * (capital * 10000.0) == volume;
      t
  }

  /** The basic filter on one quote: skipped with fewer than two bars or no
      capital; otherwise kept with the rise of today's high over yesterday's
      close and the turnover when those pass BasicCandidate and the last two
      closes are not at limit-up. */
  function Screen(q: Quote, params: Params): (r: Option<Candidate>)
    ensures r.Some? ==>
      && |q.lastTwo| >= 2 && q.circulatingCap.Some?
      && r.value.quote == q
      && r.value.priceChange == Pct(q.lastTwo[0].close, q.lastTwo[1].high)
      && r.value.turnover == Turnover(q.lastTwo[1].volume, q.circulatingCap.value)
      && BasicCandidate(r.value.turnover, r.value.priceChange, IsCloseLimitUp(q.code, Closes(q.lastTwo)), params)
    ensures r.None? && |q.lastTwo| >= 2 && q.circulatingCap.Some? ==>
      !BasicCandidate(Turnover(q.lastTwo[1].volume, q.circulatingCap.value),
                      Pct(q.lastTwo[0].close, q.lastTwo[1].high),
                      IsCloseLimitUp(q.code, Closes(q.lastTwo)), params)
  {
    if |q.lastTwo| < 2 || q.circulatingCap.None? then None
    else
      var priceChange := Pct(q.lastTwo[0].close, q.lastTwo[1].high);
      var turnover := Turnover(q.lastTwo[1].volume, q.circulatingCap.value);
      if BasicCandidate(turnover, priceChange, IsCloseLimitUp(q.code, Closes(q.lastTwo)), params)
      then Some(Candidate(q, priceChange, turnover))
      else None
  }

  /** basic_candidates: the quotes that pass the filter, in pool order. */
  function BasicCandidates(qs: seq<Quote>, params: Params): seq<Candidate>
  {
    if qs == [] then []
    else
      var last := Screen(qs[|qs| - 1], params);
      BasicCandidates(qs[..|qs| - 1], params) + (if last.Some? then [last.value] else [])
  }

  /** The signal of one candidate, if generate_trade_signal yields one. */
  function CandidateSignal(c: Candidate, now: Clock, params: Params): Option<Signal>
  {
    GenerateSignal(c.quote.code, c.quote.name, c.priceChange, c.turnover, now, c.quote.inputs, params)
  }

  /** trade_signals: the signals of the candidates, in candidate order. */
  function TradeSignals(cs: seq<Candidate>, now: Clock, params: Params): seq<Signal>
  {
    if cs == [] then []
    else
      var last := CandidateSignal(cs[|cs| - 1], now, params);
      TradeSignals(cs[..|cs| - 1], now, params) + (if last.Some? then [last.value] else [])
  }

  /** Both lists are order-keeping filters: they distribute over
      concatenation, and a single element is kept exactly when it passes. */
  lemma {:induction false} BasicCandidatesAppend(a: seq<Quote>, b: seq<Quote>, params: Params)
    ensures BasicCandidates(a + b, params) == BasicCandidates(a, params) + BasicCandidates(b, params)
    decreases |b|
  {
    if b == [] {
      assert a + b == a;
    } else {
      var n := |b| - 1;
      var ab := a + b;
      var last := Screen(b[n], params);
      var kept := if last.Some? then [last.value] else [];
      assert ab[..|ab| - 1] == a + b[..n];
      assert ab[|ab| - 1] == b[n];
      assert BasicCandidates(ab, params) == BasicCandidates(a + b[..n], params) + kept;
      BasicCandidatesAppend(a, b[..n], params);
      assert BasicCandidates(b, params) == BasicCandidates(b[..n], params) + kept;
    }
  }

  lemma BasicCandidatesSingle(q: Quote, params: Params)
    ensures BasicCandidates([q], params) == (if Screen(q, params).Some? then [Screen(q, params).value] else [])
  {
    assert [q][..0] == [];
  }

  lemma {:induction false} TradeSignalsAppend(a: seq<Candidate>, b: seq<Candidate>, now: Clock, params: Params)
    ensures TradeSignals(a + b, now, params) == TradeSignals(a, now, params) + TradeSignals(b, now, params)
    decreases |b|
  {
    if b == [] {
      assert a + b == a;
    } else {
      var n := |b| - 1;
      var ab := a + b;
      assert ab[..|ab| - 1] == a + b[..n];
      assert ab[|ab| - 1] == b[n];
      TradeSignalsLast(ab, now, params);
      TradeSignalsLast(b, now, params);
      TradeSignalsAppend(a, b[..n], now, params);
    }
  }

  lemma TradeSignalsLast(cs: seq<Candidate>, now: Clock, params: Params)
    requires cs != []
    ensures var last := CandidateSignal(cs[|cs| - 1], now, params);
      TradeSignals(cs, now, params) ==
        TradeSignals(cs[..|cs| - 1], now, params) + (if last.Some? then [last.value] else [])
  {
  }

  lemma TradeSignalsSingle(c: Candidate, now: Clock, params: Params)
    ensures TradeSignals([c], now, params) ==
      (if CandidateSignal(c, now, params).Some? then [CandidateSignal(c, now, params).value] else [])
  {
    assert [c][..0] == [];
  }

  /** Every candidate comes from a quote of the pool that passes the basic
      filter. */
  lemma {:induction false} CandidatesScreened(qs: seq<Quote>, params: Params)
    ensures forall k :: 0 <= k < |BasicCandidates(qs, params)| ==>
      exists i :: 0 <= i < |qs| && Screen(qs[i], params) == Some(BasicCandidates(qs, params)[k])
  {
    if qs != [] {
      var n := |qs| - 1;
      CandidatesScreened(qs[..n], params);
      var before := BasicCandidates(qs[..n], params);
      forall k | 0 <= k < |BasicCandidates(qs, params)|
        ensures exists i :: 0 <= i < |qs| && Screen(qs[i], params) == Some(BasicCandidates(qs, params)[k])
      {
        var all := BasicCandidates(qs, params);
        if k < |before| {
          assert all[k] == before[k];
          var i :| 0 <= i < n && Screen(qs[..n][i], params) == Some(before[k]);
          assert qs[i] == qs[..n][i];
          assert Screen(qs[i], params) == Some(all[k]);
        } else {
          assert Screen(qs[n], params) == Some(all[k]);
        }
      }
    } else {
      assert BasicCandidates(qs, params) == [];
    }
  }

  /** Every trade signal is what generate_trade_signal returned for one of
      the candidates, with that candidate's code. */
  lemma {:induction false} SignalsGenerated(cs: seq<Candidate>, now: Clock, params: Params)
    ensures forall k :: 0 <= k < |TradeSignals(cs, now, params)| ==>
      exists i :: 0 <= i < |cs| && CandidateSignal(cs[i], now, params) == Some(TradeSignals(cs, now, params)[k])
    ensures forall k :: 0 <= k < |TradeSignals(cs, now, params)| ==>
      TradeSignals(cs, now, params)[k].positionRatio > 0.0
  {
    if cs != [] {
      var n := |cs| - 1;
      SignalsGenerated(cs[..n], now, params);
      var before := TradeSignals(cs[..n], now, params);
      forall k | 0 <= k < |TradeSignals(cs, now, params)|
        ensures exists i :: 0 <= i < |cs| && CandidateSignal(cs[i], now, params) == Some(TradeSignals(cs, now, params)[k])
        ensures TradeSignals(cs, now, params)[k].positionRatio > 0.0
      {
        var all := TradeSignals(cs, now, params);
        if k < |before| {
          assert all[k] == before[k];
          var i :| 0 <= i < n && CandidateSignal(cs[..n][i], now, params) == Some(before[k]);
          assert cs[i] == cs[..n][i];
          assert CandidateSignal(cs[i], now, params) == Some(all[k]);
        } else {
          var c := cs[n];
          assert CandidateSignal(c, now, params) == Some(TradeSignals(cs, now, params)[k]);
          SignalGuarantees(c.quote.code, c.quote.name, c.priceChange, c.turnover, now, c.quote.inputs, params);
        }
      }
    } else {
      assert TradeSignals(cs, now, params) == [];
    }
  }

  /** The basic-candidate loop of trade_logic. */
  method ScreenQuotes(qs: seq<Quote>, params: Params) returns (cs: seq<Candidate>)
    ensures cs == BasicCandidates(qs, params)
  {
    cs := [];
    for i := 0 to |qs|
      invariant cs == BasicCandidates(qs[..i], params)
    {
      assert qs[..i + 1][..i] == qs[..i];
      var c := Screen(qs[i], params);
      if c.Some? {
        cs := cs + [c.value];
      }
    }
    assert qs[..|qs|] == qs;
  }

  /** The signal-collecting loop of trade_logic. */
  method CollectSignals(cs: seq<Candidate>, now: Clock, params: Params) returns (sigs: seq<Signal>)
    ensures sigs == TradeSignals(cs, now, params)
  {
    sigs := [];
    for i := 0 to |cs|
      invariant sigs == TradeSignals(cs[..i], now, params)
    {
      assert cs[..i + 1][..i] == cs[..i];
      var sig := CandidateSignal(cs[i], now, params);
      if sig.Some? {
        sigs := sigs + [sig.value];
      }
    }
    assert cs[..|cs|] == cs;
  }

  /** A signal needs an A-kill bottom: fewer than 60 bars, or a range of at
      most 30%, give no signal. */
  lemma SignalNeedsBottom(code: string, name: string, priceChange: real, turnover: real,
                          now: Clock, inputs: SignalInputs, params: Params)
    requires inputs.aKillBars.None? || |inputs.aKillBars.value| < 60 ||
             Pct(MinOf(Closes(inputs.aKillBars.value)), MaxOf(Highs(inputs.aKillBars.value))) <= 30.0
    ensures GenerateSignal(code, name, priceChange, turnover, now, inputs, params).None?
  {
  }

  /** What a signal guarantees: a confirmed three-wave rise from the A-kill
      bottom and a consolidating window after it, whose support and
      wave3_high feed the breakout stage (which fixes the tier, the stop and
      the take prices). */
  lemma SignalGuarantees(code: string, name: string, priceChange: real, turnover: real,
                         now: Clock, inputs: SignalInputs, params: Params)
    ensures GenerateSignal(code, name, priceChange, turnover, now, inputs, params).Some? ==>
      var aKill := IdentifyAKill(inputs.aKillBars);
      && aKill.bottom.Some?
      && var waves := ThreeWaves(inputs.waveBars, aKill.bottom.value.date, params.minWaveScore);
      && waves.Confirmed?
      && var consolidation := Consolidate(inputs.consolidationBars, waves.pattern.wave3High,
                                          waves.pattern.supportLevels);
      && consolidation.Some? && consolidation.value.isConsolidating
      && GenerateSignal(code, name, priceChange, turnover, now, inputs, params) ==
           SignalFromBreakout(code, name, priceChange, turnover, now, waves.pattern.wave3High,
                              consolidation.value.supportLevel, inputs, params)
  {
  }

  /** With a non-positive position_ratio no tier yields a signal. */
  lemma NoRatioNoSignal(code: string, name: string, priceChange: real, turnover: real,
                        now: Clock, inputs: SignalInputs, params: Params)
    requires params.positionRatio <= 0.0
    ensures GenerateSignal(code, name, priceChange, turnover, now, inputs, params).None?
  {
  }
}

/** The pattern recognisers: identify_A_kill, which locates the bottom of a
    sharp fall in the last 200 bars, and identify_three_waves, which cuts
    the bars from that bottom into legs (module Waves) and then confirms or
    rejects a three-wave rise by ordered checks and an additive score. */
module Pattern {
  import opened Common
  import opened Waves

  // ---------------------------------------------------------------------
  // identify_A_kill

  /** The bottom of an A-kill: its quality score, price and day. */
  datatype Bottom = Bottom(qualityScore: int, price: real, date: int)

  /** The A-kill verdict: has_A_kill and, when the range is wide enough, the bottom. */
  datatype AKill = AKill(hasAKill: bool, bottom: Option<Bottom>)

  function Closes(bars: seq<Bar>): (cs: seq<real>)
    ensures |cs| == |bars| && forall i :: 0 <= i < |bars| ==> cs[i] == bars[i].close
  {
    seq(|bars|, i requires 0 <= i < |bars| => bars[i].close)
  }

  function Highs(bars: seq<Bar>): (hs: seq<real>)
    ensures |hs| == |bars| && forall i :: 0 <= i < |bars| ==> hs[i] == bars[i].high
  {
    seq(|bars|, i requires 0 <= i < |bars| => bars[i].high)
  }

  /** The relaxed A-kill test on the bars fetched for it (None when the
      fetch failed, which the source's blanket handler turns into the bare
      verdict). The verdict is always positive; a bottom is reported only
      for at least 60 bars whose highest high lies more than 30% above
      the lowest close, and it is the first bar with that lowest close. */
  function IdentifyAKill(data: Option<seq<Bar>>): (r: AKill)
    ensures r.hasAKill
    ensures r.bottom.Some? <==>
      data.Some? && |data.value| >= 60 &&
      Pct(MinOf(Closes(data.value)), MaxOf(Highs(data.value))) > 30.0
    ensures r.bottom.Some? ==>
      var bars := data.value;
      && r.bottom.value.qualityScore == 60
      && (forall i :: 0 <= i < |bars| ==> r.bottom.value.price <= bars[i].close)
      && exists k :: 0 <= k < |bars| &&
           bars[k].close == r.bottom.value.price && bars[k].date == r.bottom.value.date &&
           forall i :: 0 <= i < k ==> r.bottom.value.price < bars[i].close
  {
    if data.None? || |data.value| < 60 then AKill(true, None)
    else
      var bars := data.value;
      var k := ArgMin(Closes(bars));
      if Pct(bars[k].close, MaxOf(Highs(bars))) > 30.0
      then AKill(true, Some(Bottom(60, bars[k].close, bars[k].date)))
      else AKill(true, None)
  }

  /** np.min of a non-empty sequence, taken at its first arg-minimum. */
  function MinOf(s: seq<real>): real
    requires |s| > 0
  {
    s[ArgMin(s)]
  }

  // ---------------------------------------------------------------------
  // The start of the analysed bars.

  /** The first index from i whose bar is dated on or after startDate. */
  function FirstOnOrAfter(bars: seq<Bar>, startDate: int, i: nat): (r: Option<nat>)
    ensures r.Some? ==>
      i <= r.value < |bars| && bars[r.value].date >= startDate &&
      forall j :: i <= j < r.value ==> bars[j].date < startDate
    ensures r.None? ==> forall j :: i <= j < |bars| ==> bars[j].date < startDate
    decreases |bars| - i
  {
    if i >= |bars| then None
    else if bars[i].date >= startDate then Some(i)
    else FirstOnOrAfter(bars, startDate, i + 1)
  }

  /** The enumerate loop that finds start_idx. */
  method LocateStart(bars: seq<Bar>, startDate: int) returns (r: Option<nat>)
    ensures r == FirstOnOrAfter(bars, startDate, 0)
  {
    r := None;
    var i := 0;
    while i < |bars|
      invariant i <= |bars|
      invariant FirstOnOrAfter(bars, startDate, i) == FirstOnOrAfter(bars, startDate, 0)
      decreases |bars| - i
    {
      if bars[i].date >= startDate {
        r := Some(i);
        return;
      }
      i := i + 1;
    }
  }

  // ---------------------------------------------------------------------
  // Validation and scoring.

  /** Why identify_three_waves said no. */
  datatype Reason =
    | DataUnavailable
    | InsufficientLength
    | TooFewUpWaves(count: nat)
    | HighsNotRising
    | InsufficientSupport
    | ScoreTooLow(score: int)
    | AnalysisFailed

  /** The fields of a confirmed three-wave rise. */
  datatype Pattern = Pattern(
    waveCount: nat,
    waves: seq<Wave>,
    supportLevels: seq<real>,
    waveHighs: seq<real>,
    wave3High: real,
    strongestSupport: real,
    totalRisePct: real,
    totalDays: int,
    qualityScore: int)

  datatype Verdict = Rejected(reason: Reason) | Confirmed(pattern: Pattern)

  /** A leg whose change lies in [10%, 20%] earns 10 points. */
  predicate InBand(w: Wave)
  {
    10.0 <= w.changePct <= 20.0
  }

  function BandPoints(ws: seq<Wave>): int
  {
    if ws == [] then 0
    else BandPoints(ws[..|ws| - 1]) + (if InBand(ws[|ws| - 1]) then 10 else 0)
  }

  lemma {:induction false} BandPointsBounds(ws: seq<Wave>)
    ensures 0 <= BandPoints(ws) <= 10 * |ws|
  {
    if ws != [] {
      BandPointsBounds(ws[..|ws| - 1]);
    }
  }

  /** sum(w['duration'] for w in waves). */
  function TotalDays(ws: seq<Wave>): int
  {
    if ws == [] then 0 else TotalDays(ws[..|ws| - 1]) + ws[|ws| - 1].duration
  }

  /** The first (at most) three up legs, up_waves[:3]. */
  function FirstUps(waves: seq<Wave>): seq<Wave>
  {
    var ups := UpWaves(waves);
    ups[..Min(3, |ups|)]
  }

  /** The additive quality score: 10 per in-band leg among the first three
      up legs, 20 for at most 90 days in all, 20 for two or more supports.
      It never exceeds 70, so min(100, score) is the score itself. */
  function Score(waves: seq<Wave>, supports: seq<real>): (s: int)
    ensures 0 <= s <= 70
  {
    BandPointsBounds(FirstUps(waves));
    BandPoints(FirstUps(waves)) + (if TotalDays(waves) <= 90 then 20 else 0)
      + (if |supports| >= 2 then 20 else 0)
  }

  /** The full score: three up legs each changing by 10% to 20%, at most 90
      days in all and two supports score 70, and exactly these do. */
  lemma FullScore(waves: seq<Wave>, supports: seq<real>)
    ensures Score(waves, supports) == 70 <==>
      && |FirstUps(waves)| == 3
      && (forall k :: 0 <= k < 3 ==> InBand(FirstUps(waves)[k]))
      && TotalDays(waves) <= 90
      && |supports| >= 2
  {
    var ups := FirstUps(waves);
    BandPointsBounds(ups);
    if |ups| == 3 {
      BandPointsBounds(ups[..2]);
      BandPointsBounds(ups[..1]);
      assert ups[..2][..1] == ups[..1];
      assert ups[..1][..0] == [];
      assert BandPoints(ups) == 30 <==> InBand(ups[0]) && InBand(ups[1]) && InBand(ups[2]);
    }
  }

  /** The end prices of three up legs rise strictly. */
  predicate Rising(ups: seq<Wave>)
    requires |ups| >= 3
  {
    ups[0].endPrice < ups[1].endPrice < ups[2].endPrice
  }

  /** The checks after the segmentation, in the source's order. */
  function Validate(waves: seq<Wave>, supports: seq<real>, minScore: int): (v: Verdict)
    ensures v.Confirmed? ==>
      && |UpWaves(waves)| >= 3 && |supports| >= 2
      && v.pattern.waves == waves
      && v.pattern.qualityScore == Score(waves, supports) >= minScore
  {
    var ups := UpWaves(waves);
    if |ups| < 3 then Rejected(TooFewUpWaves(|ups|))
    else if !Rising(ups) then Rejected(HighsNotRising)
    else if |supports| < 2 then Rejected(InsufficientSupport)
    else
      var score := Score(waves, supports);
      if score < minScore then Rejected(ScoreTooLow(score))
      else if waves[0].startPrice == 0.0 then Rejected(AnalysisFailed)
      else
        var highs := [ups[0].endPrice, ups[1].endPrice, ups[2].endPrice];
        var firstSupports := supports[..Min(3, |supports|)];
        Confirmed(Pattern(|waves|, waves, firstSupports, highs, highs[2], MaxOf(firstSupports),
                          Pct(waves[0].startPrice, highs[2]), TotalDays(waves), Min(100, score)))
  }

  /** The validator's outcomes: it confirms exactly when there are three up
      legs with strictly rising end prices, two supports, enough score and a
      non-zero first start price (the total rise divides by it; a zero
      raises in the source and its handler reports a failure), and each
      rejection names the first check that failed. */
  lemma ValidateOutcomes(waves: seq<Wave>, supports: seq<real>, minScore: int)
    ensures var v := Validate(waves, supports, minScore);
      var ups := UpWaves(waves);
      && (v.Confirmed? <==>
            |ups| >= 3 && Rising(ups) && |supports| >= 2 && Score(waves, supports) >= minScore &&
            waves[0].startPrice != 0.0)
      && (v == Rejected(TooFewUpWaves(|ups|)) <==> |ups| < 3)
      && (v == Rejected(HighsNotRising) <==> |ups| >= 3 && !Rising(ups))
      && (v == Rejected(InsufficientSupport) <==> |ups| >= 3 && Rising(ups) && |supports| < 2)
      && (v == Rejected(ScoreTooLow(Score(waves, supports))) <==>
            |ups| >= 3 && Rising(ups) && |supports| >= 2 && Score(waves, supports) < minScore)
      && (v == Rejected(AnalysisFailed) <==>
            |ups| >= 3 && Rising(ups) && |supports| >= 2 && Score(waves, supports) >= minScore &&
            waves[0].startPrice == 0.0)
  {
  }

  /** A confirmed pattern scores at most 70, its wave3_high is the third up
      leg's end price (so above the first two), its support list is the
      first three supports, its strongest support is the largest of them,
      and its total rise runs from the first leg's start price. */
  lemma ValidateConfirmed(waves: seq<Wave>, supports: seq<real>, minScore: int)
    requires Validate(waves, supports, minScore).Confirmed?
    ensures var p := Validate(waves, supports, minScore).pattern;
      var ups := UpWaves(waves);
      && 0 <= p.qualityScore <= 70
      && p.qualityScore == Score(waves, supports) >= minScore
      && p.waveCount == |waves| && p.waves == waves && p.totalDays == TotalDays(waves)
      && |ups| >= 3
      && p.wave3High == ups[2].endPrice
      && p.waveHighs == [ups[0].endPrice, ups[1].endPrice, ups[2].endPrice]
      && p.waveHighs[0] < p.wave3High && p.waveHighs[1] < p.wave3High
      && p.supportLevels == supports[..Min(3, |supports|)]
      && 2 <= |p.supportLevels| <= 3
      && (forall i :: 0 <= i < |p.supportLevels| ==> p.supportLevels[i] <= p.strongestSupport)
      && p.strongestSupport in p.supportLevels
      && waves[0].startPrice != 0.0
      && p.totalRisePct == Pct(waves[0].startPrice, p.wave3High)
  {
    ValidateOutcomes(waves, supports, minScore);
    var ups := UpWaves(waves);
    var score := Score(waves, supports);
    var highs := [ups[0].endPrice, ups[1].endPrice, ups[2].endPrice];
    var fs := supports[..Min(3, |supports|)];
    assert Validate(waves, supports, minScore) ==
      Confirmed(Pattern(|waves|, waves, fs, highs, highs[2], MaxOf(fs),
                        Pct(waves[0].startPrice, highs[2]), TotalDays(waves), Min(100, score)));
    assert MaxOf(fs) in fs;
  }

  // ---------------------------------------------------------------------
  // identify_three_waves as a whole.

  /** identify_three_waves on the bars fetched for it (None when the fetch
      failed), from the first bar dated on or after startDate. */
  function ThreeWaves(data: Option<seq<Bar>>, startDate: int, minScore: int): (v: Verdict)
    ensures data.None? ==> v == Rejected(DataUnavailable)
    ensures v.Confirmed? ==>
      && data.Some? && FirstOnOrAfter(data.value, startDate, 0).Some?
      && |data.value| - FirstOnOrAfter(data.value, startDate, 0).value >= 30
      && v.pattern.qualityScore >= minScore
  {
    if data.None? then Rejected(DataUnavailable)
    else
      var bars := data.value;
      match FirstOnOrAfter(bars, startDate, 0)
      case None => Rejected(InsufficientLength)
      case Some(s) =>
        if |bars| - s < 30 then Rejected(InsufficientLength)
        else
          var seg := Segment(bars[s..]);
          Validate(seg.0, seg.1, minScore)
  }

  /** Fewer than 30 bars from the start date (or none at all) reject with
      the insufficient-length reason; a confirmed verdict had at least 30
      bars to work on and comes from the validator on their segmentation. */
  lemma ThreeWavesLength(data: Option<seq<Bar>>, startDate: int, minScore: int)
    requires data.Some?
    ensures var bars := data.value;
      var s := FirstOnOrAfter(bars, startDate, 0);
      && ((s.None? || |bars| - s.value < 30) ==>
            ThreeWaves(data, startDate, minScore) == Rejected(InsufficientLength))
      && (ThreeWaves(data, startDate, minScore).Confirmed? ==>
            s.Some? && |bars| - s.value >= 30 &&
            ThreeWaves(data, startDate, minScore) ==
              Validate(Segment(bars[s.value..]).0, Segment(bars[s.value..]).1, minScore))
  {
  }

  /** A confirmed pattern has at most 8 legs, alternating from an up leg,
      only up legs carry a support, and its support list is the start of the
      supports of its legs in discovery order. */
  lemma ConfirmedLegs(data: Option<seq<Bar>>, startDate: int, minScore: int)
    requires ThreeWaves(data, startDate, minScore).Confirmed?
    ensures var p := ThreeWaves(data, startDate, minScore).pattern;
      && 3 <= |UpWaves(p.waves)| && |p.waves| <= 8
      && (forall j :: 0 <= j < |p.waves| ==> p.waves[j].dir == DirFrom(Up, j))
      && p.waves[0].dir == Up
      && (forall j :: 0 <= j < |p.waves| && p.waves[j].support.Some? ==> p.waves[j].dir == Up)
      && p.supportLevels == SupportsOf(p.waves)[..|p.supportLevels|]
  {
    var bars := data.value;
    var s := FirstOnOrAfter(bars, startDate, 0).value;
    SegmentShape(bars[s..]);
    ValidateConfirmed(Segment(bars[s..]).0, Segment(bars[s..]).1, minScore);
  }

  /** The validator's score loop over up_waves[:3]. */
  method ScoreWaves(waves: seq<Wave>, supports: seq<real>) returns (score: int)
    ensures score == Score(waves, supports)
  {
    var firstUps := FirstUps(waves);
    score := 0;
    for i := 0 to |firstUps|
      invariant score == BandPoints(firstUps[..i])
    {
      assert firstUps[..i + 1][..i] == firstUps[..i];
      if InBand(firstUps[i]) {
        score := score + 10;
      }
    }
    assert firstUps[..|firstUps|] == firstUps;
    if TotalDays(waves) <= 90 {
      score := score + 20;
    }
    if |supports| >= 2 {
      score := score + 20;
    }
  }

  /** identify_three_waves: the start search, the segmentation loop, the
      ordered checks and the score. */
  method IdentifyThreeWaves(data: Option<seq<Bar>>, startDate: int, minScore: int) returns (v: Verdict)
    ensures v == ThreeWaves(data, startDate, minScore)
  {
    if data.None? {
      return Rejected(DataUnavailable);
    }
    var bars := data.value;
    var start := LocateStart(bars, startDate);
    if start.None? || |bars| - start.value < 30 {
      return Rejected(InsufficientLength);
    }
    var waves, supports := SegmentWaves(bars[start.value..]);
    var ups := UpWaves(waves);
    if |ups| < 3 {
      return Rejected(TooFewUpWaves(|ups|));
    }
    if !(ups[0].endPrice < ups[1].endPrice < ups[2].endPrice) {
      return Rejected(HighsNotRising);
    }
    if |supports| < 2 {
      return Rejected(InsufficientSupport);
    }
    var score := ScoreWaves(waves, supports);
    if score < minScore {
      return Rejected(ScoreTooLow(score));
    }
    if waves[0].startPrice == 0.0 {
      return Rejected(AnalysisFailed);
    }
    var highs := [ups[0].endPrice, ups[1].endPrice, ups[2].endPrice];
    var firstSupports := supports[..Min(3, |supports|)];
    v := Confirmed(Pattern(|waves|, waves, firstSupports, highs, highs[2], MaxOf(firstSupports),
                           Pct(waves[0].startPrice, highs[2]), TotalDays(waves), Min(100, score)));
  }
}

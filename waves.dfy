/** The wave segmenter of identify_three_waves: a cursor walks the closing
    prices and cuts them into alternating up and down legs, recording for
    each up leg the support price found among its high-volume bullish bars.

    Each step of the loop is given as a function (ScanStart, FindEnd,
    ScanSupport, Leg, WithSupport, LegsFrom) and the loop itself as the
    method SegmentWaves, which is proved to compute Segment. */
module Waves {
  import opened Common

  datatype Direction = Up | Down

  function Flip(d: Direction): Direction
  {
    if d == Up then Down else Up
  }

  /** One leg of the segmentation, indices relative to the analysed bars. */
  datatype Wave = Wave(
    dir: Direction,
    startIdx: nat,
    endIdx: nat,
    startDate: int,
    endDate: int,
    startPrice: real,
    endPrice: real,
    changePct: real,
    duration: int,
    support: Option<real>)

  // ---------------------------------------------------------------------
  // Leg start: the first extreme close among the 10 bars from the cursor.

  /** x replaces the current best: a strictly lower close for an up leg,
      a strictly higher one for a down leg. */
  predicate Beats(d: Direction, x: real, best: real)
  {
    if d == Up then x < best else x > best
  }

  /** The scan over indices i..hi-1 keeping the best index so far. */
  function ScanStart(bars: seq<Bar>, d: Direction, i: nat, hi: nat, best: nat): (r: nat)
    requires best < |bars| && hi <= |bars|
    ensures r == best || i <= r < hi
    decreases hi - i
  {
    if i >= hi then best
    else ScanStart(bars, d, i + 1, hi, if Beats(d, bars[i].close, bars[best].close) then i else best)
  }

  function LegStart(bars: seq<Bar>, cursor: nat, d: Direction): (s: nat)
    requires cursor < |bars|
    ensures cursor <= s < Min(cursor + 10, |bars|)
  {
    ScanStart(bars, d, cursor, Min(cursor + 10, |bars|), cursor)
  }

  /** lo..best..i is the part scanned: nothing in it beats best, and best
      strictly beats everything before it. */
  lemma {:induction false} ScanStartSound(bars: seq<Bar>, d: Direction, lo: nat, i: nat, hi: nat, best: nat)
    requires lo <= best <= i <= hi <= |bars| && best < hi
    requires forall j :: lo <= j < i ==> !Beats(d, bars[j].close, bars[best].close)
    requires forall j :: lo <= j < best ==> Beats(d, bars[best].close, bars[j].close)
    ensures var r := ScanStart(bars, d, i, hi, best);
      lo <= r < hi &&
      (forall j :: lo <= j < hi ==> !Beats(d, bars[j].close, bars[r].close)) &&
      (forall j :: lo <= j < r ==> Beats(d, bars[r].close, bars[j].close))
    decreases hi - i
  {
    if i < hi {
      var next := if Beats(d, bars[i].close, bars[best].close) then i else best;
      ScanStartSound(bars, d, lo, i + 1, hi, next);
    }
  }

  /** The start of a leg is the first bar of the window holding its extreme
      close: the lowest for an up leg, the highest for a down leg. */
  lemma LegStartRule(bars: seq<Bar>, cursor: nat, d: Direction)
    requires cursor < |bars|
    ensures var s := LegStart(bars, cursor, d);
      var hi := Min(cursor + 10, |bars|);
      (forall j :: cursor <= j < hi ==> !Beats(d, bars[j].close, bars[s].close)) &&
      (forall j :: cursor <= j < s ==> Beats(d, bars[s].close, bars[j].close))
  {
    ScanStartSound(bars, d, cursor, cursor, Min(cursor + 10, |bars|), cursor);
  }

  // ---------------------------------------------------------------------
  // Leg end: the first confirmed local extremum after the minimum lookahead.

  /** Bar j, if it exists, closes at or below bar i. */
  predicate NotAbove(bars: seq<Bar>, j: int, i: nat)
    requires i < |bars|
  {
    !(0 <= j < |bars|) || bars[j].close <= bars[i].close
  }

  /** Bar j, if it exists, closes at or above bar i. */
  predicate NotBelow(bars: seq<Bar>, j: int, i: nat)
    requires i < |bars|
  {
    !(0 <= j < |bars|) || bars[i].close <= bars[j].close
  }

  /** closes[i] >= max(closes[max(0, i-3) : i+1]) and
      closes[i] >= max(closes[i+1 : min(len, i+4)]): bar i closes at or above
      the three bars before it and the three after it that exist. */
  predicate IsLocalMax(bars: seq<Bar>, i: nat)
    requires i < |bars|
  {
    && NotAbove(bars, i - 3, i) && NotAbove(bars, i - 2, i) && NotAbove(bars, i - 1, i)
    && NotAbove(bars, i + 1, i) && NotAbove(bars, i + 2, i) && NotAbove(bars, i + 3, i)
  }

  /** The mirror image: bar i closes at or below its three neighbours on
      either side that exist. */
  predicate IsLocalMin(bars: seq<Bar>, i: nat)
    requires i < |bars|
  {
    && NotBelow(bars, i - 3, i) && NotBelow(bars, i - 2, i) && NotBelow(bars, i - 1, i)
    && NotBelow(bars, i + 1, i) && NotBelow(bars, i + 2, i) && NotBelow(bars, i + 3, i)
  }

  /** The local-maximum test is the window test of the source: bar i closes
      at or above every bar of closes[max(0, i-3) : min(len, i+4)]. */
  lemma LocalMaxWindow(bars: seq<Bar>, i: nat)
    requires i < |bars|
    ensures IsLocalMax(bars, i) <==>
      forall j :: Max(0, i - 3) <= j < Min(|bars|, i + 4) ==> bars[j].close <= bars[i].close
  {
    if IsLocalMax(bars, i) {
      forall j | Max(0, i - 3) <= j < Min(|bars|, i + 4)
        ensures bars[j].close <= bars[i].close
      {
        assert j == i || j == i - 3 || j == i - 2 || j == i - 1 || j == i + 1 || j == i + 2 || j == i + 3;
      }
    }
  }

  lemma LocalMinWindow(bars: seq<Bar>, i: nat)
    requires i < |bars|
    ensures IsLocalMin(bars, i) <==>
      forall j :: Max(0, i - 3) <= j < Min(|bars|, i + 4) ==> bars[i].close <= bars[j].close
  {
    if IsLocalMin(bars, i) {
      forall j | Max(0, i - 3) <= j < Min(|bars|, i + 4)
        ensures bars[i].close <= bars[j].close
      {
        assert j == i || j == i - 3 || j == i - 2 || j == i - 1 || j == i + 1 || j == i + 2 || j == i + 3;
      }
    }
  }

  /** Bar i may end the leg that starts at start: a rise of at least 10% at
      a local maximum (up), or a fall of at least 5% at a local minimum
      (down), with three bars still following it. */
  predicate EndsLeg(bars: seq<Bar>, d: Direction, start: nat, i: nat)
    requires start < |bars| && i < |bars|
  {
    var change := Pct(bars[start].close, bars[i].close);
    if d == Up then change >= 10.0 && i < |bars| - 3 && IsLocalMax(bars, i)
    else change <= -5.0 && i < |bars| - 3 && IsLocalMin(bars, i)
  }

  /** The first i in [i, hi) that ends the leg, if any. */
  function FindEnd(bars: seq<Bar>, d: Direction, start: nat, i: nat, hi: nat): (r: Option<nat>)
    requires start < |bars| && hi <= |bars|
    ensures r.Some? ==> i <= r.value < hi
    decreases hi - i
  {
    if i >= hi then None
    else if EndsLeg(bars, d, start, i) then Some(i)
    else FindEnd(bars, d, start, i + 1, hi)
  }

  lemma {:induction false} FindEndSound(bars: seq<Bar>, d: Direction, start: nat, i: nat, hi: nat)
    requires start < |bars| && hi <= |bars|
    ensures match FindEnd(bars, d, start, i, hi)
      case Some(e) =>
        EndsLeg(bars, d, start, e) && forall k :: i <= k < e ==> !EndsLeg(bars, d, start, k)
      case None =>
        forall k :: i <= k < hi ==> !EndsLeg(bars, d, start, k)
    decreases hi - i
  {
    if i < hi && !EndsLeg(bars, d, start, i) {
      FindEndSound(bars, d, start, i + 1, hi);
    }
  }

  /** The end index of the leg starting at start: the first qualifying bar
      in [start+5, start+30), else forced to min(start+29, len-1). */
  function LegEnd(bars: seq<Bar>, d: Direction, start: nat): (e: nat)
    requires start + 1 < |bars|
    ensures start < e < |bars| && e - start + 1 <= 30
  {
    match FindEnd(bars, d, start, start + 5, Min(start + 30, |bars|))
    case Some(e) => e
    case None => Min(start + 29, |bars| - 1)
  }

  /** The end rule in full: a leg ends at the FIRST bar of [start+5,
      min(start+30, len)) that qualifies, and at min(start+29, len-1) when
      no bar there qualifies. */
  lemma LegEndRule(bars: seq<Bar>, d: Direction, start: nat)
    requires start + 1 < |bars|
    ensures var e := LegEnd(bars, d, start);
      var hi := Min(start + 30, |bars|);
      || (start + 5 <= e < hi && EndsLeg(bars, d, start, e) &&
          forall k :: start + 5 <= k < e ==> !EndsLeg(bars, d, start, k))
      || (e == Min(start + 29, |bars| - 1) &&
          forall k :: start + 5 <= k < hi ==> !EndsLeg(bars, d, start, k))
  {
    FindEndSound(bars, d, start, start + 5, Min(start + 30, |bars|));
  }

  // ---------------------------------------------------------------------
  // Support of an up leg. As written in the source, the i-th scanned bar
  // takes its close, open and low from bar i of the analysed data (not
  // from bar start+i) and only its volume from the leg itself.

  predicate SupportBar(bars: seq<Bar>, start: nat, i: nat, avg: real)
    requires start + i < |bars|
  {
    bars[i].close > bars[i].open && bars[start + i].volume > avg * 1.2
  }

  /** The running minimum of the lows of qualifying bars i..len-1. */
  function ScanSupport(bars: seq<Bar>, start: nat, len: nat, i: nat, avg: real, acc: Option<real>): Option<real>
    requires start + len <= |bars|
    decreases len - i
  {
    if i >= len then acc
    else
      var acc' := if SupportBar(bars, start, i, avg) && (acc.None? || bars[i].low < acc.value)
                  then Some(bars[i].low) else acc;
      ScanSupport(bars, start, len, i + 1, avg, acc')
  }

  /** r is the least low among the qualifying bars 0..len-1, None if there
      are none. */
  ghost predicate LeastQualifyingLow(bars: seq<Bar>, start: nat, len: nat, avg: real, r: Option<real>)
    requires start + len <= |bars|
  {
    match r
    case None => forall j :: 0 <= j < len ==> !SupportBar(bars, start, j, avg)
    case Some(v) =>
      (exists j :: 0 <= j < len && SupportBar(bars, start, j, avg) && bars[j].low == v) &&
      (forall j :: 0 <= j < len && SupportBar(bars, start, j, avg) ==> v <= bars[j].low)
  }

  lemma {:induction false} ScanSupportSound(bars: seq<Bar>, start: nat, len: nat, i: nat, avg: real, acc: Option<real>)
    requires start + len <= |bars| && i <= len
    requires LeastQualifyingLow(bars, start, i, avg, acc)
    ensures LeastQualifyingLow(bars, start, len, avg, ScanSupport(bars, start, len, i, avg, acc))
    decreases len - i
  {
    if i < len {
      var acc' := if SupportBar(bars, start, i, avg) && (acc.None? || bars[i].low < acc.value)
                  then Some(bars[i].low) else acc;
      assert LeastQualifyingLow(bars, start, i + 1, avg, acc');
      ScanSupportSound(bars, start, len, i + 1, avg, acc');
    }
  }

  /** Python truthiness of the support found: None and 0.0 are dropped. */
  function Truthy(o: Option<real>): (r: Option<real>)
    ensures r.Some? <==> o.Some? && o.value != 0.0
    ensures r.Some? ==> r == o
  {
    if o.Some? && o.value != 0.0 then o else None
  }

  /** The support price of the up leg start..end before the truthiness test. */
  function RawSupport(bars: seq<Bar>, start: nat, end: nat): Option<real>
    requires start <= end < |bars|
  {
    ScanSupport(bars, start, end - start + 1, 0, MeanVolume(bars, start, end + 1), None)
  }

  /** A recorded support is the least low of the qualifying bars, where a bar
      qualifies when it closes above its open and the leg's bar at the same
      offset trades more than 1.2 times the leg's mean volume. */
  lemma SupportRule(bars: seq<Bar>, start: nat, end: nat)
    requires start <= end < |bars|
    ensures LeastQualifyingLow(bars, start, end - start + 1, MeanVolume(bars, start, end + 1),
                               RawSupport(bars, start, end))
  {
    ScanSupportSound(bars, start, end - start + 1, 0, MeanVolume(bars, start, end + 1), None);
  }

  // ---------------------------------------------------------------------
  // One leg and the whole segmentation. A leg's shape (Leg) and its support
  // (WithSupport) are given separately; the segmentation is the list of
  // shapes (LegsFrom) with the supports attached (Attach).

  /** The shape of the leg found from cursor in direction d: its start, its
      end, the prices there, the change between them and the duration. */
  function Leg(bars: seq<Bar>, cursor: nat, d: Direction): (w: Wave)
    requires cursor + 10 < |bars|
    ensures w.dir == d && w.support == None
    ensures cursor <= w.startIdx < cursor + 10 && w.startIdx < w.endIdx < |bars|
    ensures w.duration == w.endIdx - w.startIdx + 1 && w.duration <= 30
    ensures w.startPrice == bars[w.startIdx].close && w.endPrice == bars[w.endIdx].close
    ensures w.startDate == bars[w.startIdx].date && w.endDate == bars[w.endIdx].date
    ensures w.changePct == Pct(w.startPrice, w.endPrice)
  {
    var s := LegStart(bars, cursor, d);
    var e := LegEnd(bars, d, s);
    Wave(d, s, e, bars[s].date, bars[e].date, bars[s].close, bars[e].close,
         Pct(bars[s].close, bars[e].close), e - s + 1, None)
  }

  /** The leg with its support_level: the truthy raw support for an up leg,
      None for a down leg. Indices outside the bars (which Leg never yields)
      get no support. */
  function WithSupport(bars: seq<Bar>, w: Wave): (r: Wave)
    ensures r.(support := w.support) == w
    ensures r.support.Some? <==>
      w.dir == Up && w.startIdx <= w.endIdx < |bars| &&
      RawSupport(bars, w.startIdx, w.endIdx).Some? &&
      RawSupport(bars, w.startIdx, w.endIdx).value != 0.0
    ensures r.support.Some? ==> r.support == RawSupport(bars, w.startIdx, w.endIdx)
  {
    if w.dir == Up && w.startIdx <= w.endIdx < |bars|
    then w.(support := Truthy(RawSupport(bars, w.startIdx, w.endIdx)))
    else w.(support := None)
  }

  /** Every leg with its support attached. */
  function Attach(bars: seq<Bar>, legs: seq<Wave>): (ws: seq<Wave>)
    ensures |ws| == |legs|
  {
    seq(|legs|, j requires 0 <= j < |legs| => WithSupport(bars, legs[j]))
  }

  /** What a leg adds to support_levels. */
  function SupportList(w: Wave): seq<real>
  {
    if w.support.Some? then [w.support.value] else []
  }

  /** The supports of a list of legs in discovery order. */
  function SupportsOf(waves: seq<Wave>): seq<real>
  {
    if waves == [] then [] else SupportsOf(waves[..|waves| - 1]) + SupportList(waves[|waves| - 1])
  }

  /** The up legs, in order (the up_waves comprehension). */
  function UpWaves(waves: seq<Wave>): (ups: seq<Wave>)
    ensures |ups| <= |waves|
    ensures forall k :: 0 <= k < |ups| ==> ups[k].dir == Up && ups[k] in waves
  {
    if waves == [] then []
    else
      var last := waves[|waves| - 1];
      UpWaves(waves[..|waves| - 1]) + (if last.dir == Up then [last] else [])
  }

  /** The filter keeps every up leg and drops every down leg, in order: it
      distributes over concatenation, and a single leg is kept exactly when
      it is an up leg. */
  lemma {:induction false} UpWavesAppend(a: seq<Wave>, b: seq<Wave>)
    ensures UpWaves(a + b) == UpWaves(a) + UpWaves(b)
    decreases |b|
  {
    if b == [] {
      assert a + b == a;
    } else {
      var n := |b| - 1;
      var ab := a + b;
      var kept := if b[n].dir == Up then [b[n]] else [];
      assert ab[..|ab| - 1] == a + b[..n];
      assert ab[|ab| - 1] == b[n];
      assert UpWaves(ab) == UpWaves(a + b[..n]) + kept;
      UpWavesAppend(a, b[..n]);
      assert UpWaves(b) == UpWaves(b[..n]) + kept;
    }
  }

  lemma UpWavesSingle(w: Wave)
    ensures UpWaves([w]) == (if w.dir == Up then [w] else [])
  {
    assert [w][..0] == [];
  }

  /** The leg shapes found from cursor, with direction d for the first of
      them, when k legs exist already: the loop's continuation. */
  function LegsFrom(bars: seq<Bar>, cursor: nat, d: Direction, k: nat): seq<Wave>
    decreases |bars| - cursor, 1
  {
    if cursor + 10 < |bars| && k < 8 then LegsAfter(bars, Leg(bars, cursor, d), k) else []
  }

  /** The leg w, found as the (k+1)-th, followed by the legs found after it. */
  function LegsAfter(bars: seq<Bar>, w: Wave, k: nat): seq<Wave>
    requires w.endIdx < |bars|
    decreases |bars| - w.endIdx, 0
  {
    [w] + LegsFrom(bars, w.endIdx + 1, Flip(w.dir), k + 1)
  }

  /** The waves and support_levels identify_three_waves finds in bars. */
  function Segment(bars: seq<Bar>): (r: (seq<Wave>, seq<real>))
    ensures |r.0| <= 8
  {
    LegsFromStopped(bars, 0, Up, 0);
    var waves := Attach(bars, LegsFrom(bars, 0, Up, 0));
    (waves, SupportsOf(waves))
  }

  /** The direction of the j-th leg when the first has direction d. */
  function DirFrom(d: Direction, j: nat): Direction
  {
    if j % 2 == 0 then d else Flip(d)
  }

  /** The cursor after the legs ws found from cursor. */
  function After(cursor: nat, ws: seq<Wave>): nat
  {
    if ws == [] then cursor else ws[|ws| - 1].endIdx + 1
  }

  /** A single leg inside the bars, at most 30 bars long, with a support
      only if it is an up leg. */
  predicate LegInside(bars: seq<Bar>, w: Wave)
  {
    && w.startIdx < w.endIdx < |bars|
    && w.duration == w.endIdx - w.startIdx + 1 <= 30
    && (w.support.Some? ==> w.dir == Up)
  }

  /** Leg j starts after leg j-1 ends, within 10 bars of the cursor there. */
  predicate Follows(ws: seq<Wave>, j: nat)
    requires 0 < j < |ws|
  {
    ws[j - 1].endIdx < ws[j].startIdx <= ws[j - 1].endIdx + 10
  }

  /** Directions alternate from d and every leg is inside the bars. */
  ghost predicate Alternating(bars: seq<Bar>, d: Direction, ws: seq<Wave>)
  {
    forall j :: 0 <= j < |ws| ==> ws[j].dir == DirFrom(d, j) && LegInside(bars, ws[j])
  }

  /** The first leg starts within 10 bars of the cursor and each later one
      within 10 bars after the previous leg's end. */
  ghost predicate Chained(cursor: nat, ws: seq<Wave>)
  {
    && (|ws| > 0 ==> cursor <= ws[0].startIdx < cursor + 10)
    && (forall j :: 0 < j < |ws| ==> Follows(ws, j))
  }

  /** At most 8 legs in all, and the scan stopped because 8 legs exist or
      fewer than 11 bars remain from the cursor. */
  predicate Stopped(bars: seq<Bar>, cursor: nat, k: nat, ws: seq<Wave>)
  {
    && k + |ws| <= 8
    && (k + |ws| == 8 || After(cursor, ws) + 10 >= |bars|)
  }

  /** The shape of the legs found from cursor with first direction d when k
      legs exist already. */
  ghost predicate ShapedFrom(bars: seq<Bar>, cursor: nat, d: Direction, k: nat, ws: seq<Wave>)
  {
    Alternating(bars, d, ws) && Chained(cursor, ws) && Stopped(bars, cursor, k, ws)
  }

  lemma {:induction false} LegsFromAlternating(bars: seq<Bar>, cursor: nat, d: Direction, k: nat)
    ensures Alternating(bars, d, LegsFrom(bars, cursor, d, k))
    decreases |bars| - cursor, 1
  {
    if cursor + 10 < |bars| && k < 8 {
      LegsAfterAlternating(bars, Leg(bars, cursor, d), k);
    }
  }

  lemma {:induction false} LegsAfterAlternating(bars: seq<Bar>, w: Wave, k: nat)
    requires LegInside(bars, w)
    ensures Alternating(bars, w.dir, LegsAfter(bars, w, k))
    decreases |bars| - w.endIdx, 0
  {
    var rest := LegsFrom(bars, w.endIdx + 1, Flip(w.dir), k + 1);
    LegsFromAlternating(bars, w.endIdx + 1, Flip(w.dir), k + 1);
    var ws := [w] + rest;
    forall j | 0 < j < |ws|
      ensures ws[j].dir == DirFrom(w.dir, j) && LegInside(bars, ws[j])
    {
      assert ws[j] == rest[j - 1];
      assert ws[j].dir == DirFrom(Flip(w.dir), j - 1);
    }
  }

  lemma {:induction false} LegsFromChained(bars: seq<Bar>, cursor: nat, d: Direction, k: nat)
    ensures Chained(cursor, LegsFrom(bars, cursor, d, k))
    decreases |bars| - cursor, 1
  {
    if cursor + 10 < |bars| && k < 8 {
      LegsAfterChained(bars, Leg(bars, cursor, d), k);
    }
  }

  lemma {:induction false} LegsAfterChained(bars: seq<Bar>, w: Wave, k: nat)
    requires w.endIdx < |bars|
    ensures Chained(w.startIdx, LegsAfter(bars, w, k))
    decreases |bars| - w.endIdx, 0
  {
    var rest := LegsFrom(bars, w.endIdx + 1, Flip(w.dir), k + 1);
    LegsFromChained(bars, w.endIdx + 1, Flip(w.dir), k + 1);
    var ws := [w] + rest;
    forall j | 0 < j < |ws|
      ensures Follows(ws, j)
    {
      if j > 1 {
        assert Follows(rest, j - 1);
      }
    }
  }

  lemma {:induction false} LegsFromStopped(bars: seq<Bar>, cursor: nat, d: Direction, k: nat)
    requires k <= 8
    ensures Stopped(bars, cursor, k, LegsFrom(bars, cursor, d, k))
    decreases |bars| - cursor, 1
  {
    if cursor + 10 < |bars| && k < 8 {
      LegsAfterStopped(bars, Leg(bars, cursor, d), k);
    }
  }

  lemma {:induction false} LegsAfterStopped(bars: seq<Bar>, w: Wave, k: nat)
    requires w.endIdx < |bars| && k < 8
    ensures Stopped(bars, w.startIdx, k, LegsAfter(bars, w, k))
    decreases |bars| - w.endIdx, 0
  {
    var rest := LegsFrom(bars, w.endIdx + 1, Flip(w.dir), k + 1);
    LegsFromStopped(bars, w.endIdx + 1, Flip(w.dir), k + 1);
    assert After(w.startIdx, [w] + rest) == After(w.endIdx + 1, rest);
  }

  /** Attaching supports keeps the shape. */
  lemma AttachShaped(bars: seq<Bar>, cursor: nat, d: Direction, k: nat, legs: seq<Wave>)
    requires ShapedFrom(bars, cursor, d, k, legs)
    ensures ShapedFrom(bars, cursor, d, k, Attach(bars, legs))
  {
    var ws := Attach(bars, legs);
    forall j | 0 <= j < |ws|
      ensures ws[j].dir == DirFrom(d, j) && LegInside(bars, ws[j])
      ensures j > 0 ==> Follows(ws, j)
    {
      assert ws[j].(support := legs[j].support) == legs[j];
      if j > 0 {
        assert ws[j - 1].(support := legs[j - 1].support) == legs[j - 1];
        assert Follows(legs, j);
      }
    }
    assert After(cursor, ws) == After(cursor, legs);
  }

  /** Segmenter shape and termination: at most 8 legs, alternating from up,
      inside the bars and at most 30 long, each starting after the previous
      one within 10 bars of the cursor; an up leg carries the truthy support
      of its bars and a down leg none; the support list is exactly the
      supports of the legs in order; the loop stopped because 8 legs exist or
      fewer than 11 bars remain from the cursor. */
  lemma SegmentShape(bars: seq<Bar>)
    ensures var (ws, ss) := Segment(bars);
      && ShapedFrom(bars, 0, Up, 0, ws)
      && (forall j :: 0 <= j < |ws| ==>
            ws[j].support == (if ws[j].dir == Up then Truthy(RawSupport(bars, ws[j].startIdx, ws[j].endIdx)) else None))
      && ss == SupportsOf(ws)
  {
    LegsFromAlternating(bars, 0, Up, 0);
    LegsFromChained(bars, 0, Up, 0);
    LegsFromStopped(bars, 0, Up, 0);
    AttachShaped(bars, 0, Up, 0, LegsFrom(bars, 0, Up, 0));
  }

  /** support_levels grows by at most one per up leg. */
  lemma {:induction false} SupportsBounded(waves: seq<Wave>)
    requires forall k :: 0 <= k < |waves| ==> waves[k].support.Some? ==> waves[k].dir == Up
    ensures |SupportsOf(waves)| <= |UpWaves(waves)|
  {
    if waves != [] {
      SupportsBounded(waves[..|waves| - 1]);
    }
  }

  // ---------------------------------------------------------------------
  // The imperative segmentation loop.

  /** The start scan: the first extreme close in the 10 bars from cursor. */
  method FindLegStart(bars: seq<Bar>, cursor: nat, d: Direction) returns (s: nat)
    requires cursor < |bars|
    ensures s == LegStart(bars, cursor, d)
  {
    s := cursor;
    var hi := Min(cursor + 10, |bars|);
    for i := cursor to hi
      invariant s < |bars|
      invariant ScanStart(bars, d, i, hi, s) == LegStart(bars, cursor, d)
    {
      if Beats(d, bars[i].close, bars[s].close) {
        s := i;
      }
    }
  }

  /** The end scan: the first confirmed extremum in [s+5, s+30), else the
      forced end. */
  method FindLegEnd(bars: seq<Bar>, d: Direction, s: nat) returns (e: nat)
    requires s + 1 < |bars|
    ensures e == LegEnd(bars, d, s)
  {
    var found := false;
    var endHi := Min(s + 30, |bars|);
    var j := s + 5;
    e := 0;
    while j < endHi
      invariant s + 5 <= j
      invariant FindEnd(bars, d, s, j, endHi) == FindEnd(bars, d, s, s + 5, endHi)
      decreases endHi - j
    {
      if EndsLeg(bars, d, s, j) {
        e, found := j, true;
        break;
      }
      j := j + 1;
    }
    if !found {
      e := Min(s + 29, |bars| - 1);
    }
  }

  /** The support scan of the up leg s..e, before the truthiness test. */
  method ScanLegSupport(bars: seq<Bar>, s: nat, e: nat) returns (support: Option<real>)
    requires s <= e < |bars|
    ensures support == RawSupport(bars, s, e)
  {
    var len := e - s + 1;
    var avg := MeanVolume(bars, s, e + 1);
    support := None;
    for i := 0 to len
      invariant ScanSupport(bars, s, len, i, avg, support) == RawSupport(bars, s, e)
    {
      if SupportBar(bars, s, i, avg) && (support.None? || bars[i].low < support.value) {
        support := Some(bars[i].low);
      }
    }
  }

  /** One pass of the loop body: the leg from cursor with its support. */
  method NextLeg(bars: seq<Bar>, cursor: nat, d: Direction) returns (w: Wave)
    requires cursor + 10 < |bars|
    ensures w == WithSupport(bars, Leg(bars, cursor, d))
  {
    var s := FindLegStart(bars, cursor, d);
    var e := FindLegEnd(bars, d, s);
    var support: Option<real> := None;
    if d == Up {
      support := ScanLegSupport(bars, s, e);
      if !(support.Some? && support.value != 0.0) {
        support := None;
      }
    }
    w := Wave(d, s, e, bars[s].date, bars[e].date, bars[s].close, bars[e].close,
              Pct(bars[s].close, bars[e].close), e - s + 1, support);
  }

  /** The loop's state after legs: the legs found so far followed by the
      legs the loop will still find give all the legs. */
  ghost predicate Continues(bars: seq<Bar>, legs: seq<Wave>, cursor: nat, d: Direction)
  {
    legs + LegsFrom(bars, cursor, d, |legs|) == LegsFrom(bars, 0, Up, 0)
  }

  lemma ContinuesStep(bars: seq<Bar>, legs: seq<Wave>, cursor: nat, d: Direction)
    requires Continues(bars, legs, cursor, d) && cursor + 10 < |bars| && |legs| < 8
    ensures var leg := Leg(bars, cursor, d);
      Continues(bars, legs + [leg], leg.endIdx + 1, Flip(d))
  {
    var leg := Leg(bars, cursor, d);
    assert LegsFrom(bars, cursor, d, |legs|) == LegsAfter(bars, leg, |legs|);
    assert legs + [leg] + LegsFrom(bars, leg.endIdx + 1, Flip(d), |legs| + 1) == LegsFrom(bars, 0, Up, 0);
  }

  lemma AttachAppend(bars: seq<Bar>, legs: seq<Wave>, leg: Wave)
    ensures Attach(bars, legs + [leg]) == Attach(bars, legs) + [WithSupport(bars, leg)]
  {
  }

  lemma SupportsOfAppend(ws: seq<Wave>, w: Wave)
    ensures SupportsOf(ws + [w]) == SupportsOf(ws) + SupportList(w)
  {
    assert (ws + [w])[..|ws|] == ws;
  }

  /** The segmentation loop of identify_three_waves. */
  method SegmentWaves(bars: seq<Bar>) returns (waves: seq<Wave>, supports: seq<real>)
    ensures (waves, supports) == Segment(bars)
  {
    waves, supports := [], [];
    var cursor: nat := 0;
    var d := Up;
    ghost var legs: seq<Wave> := [];
    while cursor + 10 < |bars| && |waves| < 8
      invariant |legs| == |waves|
      invariant Continues(bars, legs, cursor, d)
      invariant waves == Attach(bars, legs)
      invariant supports == SupportsOf(waves)
      decreases |bars| - cursor
    {
      var w := NextLeg(bars, cursor, d);
      ghost var leg := Leg(bars, cursor, d);
      ContinuesStep(bars, legs, cursor, d);
      AttachAppend(bars, legs, leg);
      SupportsOfAppend(waves, w);
      if w.support.Some? {
        supports := supports + [w.support.value];
      }
      legs := legs + [leg];
      waves := waves + [w];
      cursor := w.endIdx + 1;
      d := Flip(d);
    }
    assert LegsFrom(bars, cursor, d, |legs|) == [];
    assert legs == LegsFrom(bars, 0, Up, 0);
  }
}

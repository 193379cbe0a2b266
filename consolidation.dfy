/** check_consolidation: whether the last bars after the third wave trade
    in the band between the strongest support and the third wave's high,
    on volume that is not expanding. */
module Consolidation {
  import opened Common

  /** The fields of the detector's report. */
  datatype Report = Report(
    isConsolidating: bool,
    inRangeRatio: real,
    volumeRatio: real,
    currentPrice: real,
    supportLevel: real,
    resistanceLevel: real,
    pricePosition: real)

  /** A close inside [support * 0.98, wave3High * 1.02]. */
  predicate InPriceBand(close: real, support: real, wave3High: real)
  {
    support * 0.98 <= close && close <= wave3High * 1.02
  }

  /** The number of in-band closes among bars[..n]. */
  function InRangeCount(bars: seq<Bar>, n: nat, support: real, wave3High: real): nat
    requires n <= |bars|
  {
    if n == 0 then 0
    else
      var last := if InPriceBand(bars[n - 1].close, support, wave3High) then 1 else 0;
      InRangeCount(bars, n - 1, support, wave3High) + last
  }

  /** The indices below n of the bars whose close is in the band. */
  function InBandIndices(bars: seq<Bar>, n: nat, support: real, wave3High: real): set<int>
    requires n <= |bars|
  {
    set i | 0 <= i < n && InPriceBand(bars[i].close, support, wave3High)
  }

  lemma InBandStep(bars: seq<Bar>, n: nat, support: real, wave3High: real)
    requires 0 < n <= |bars|
    ensures n - 1 !in InBandIndices(bars, n - 1, support, wave3High)
    ensures InBandIndices(bars, n, support, wave3High) ==
      InBandIndices(bars, n - 1, support, wave3High) +
      (if InPriceBand(bars[n - 1].close, support, wave3High) then {n - 1} else {})
  {
  }

  /** The count is the number of bars whose close is in the band. */
  lemma {:induction false} InRangeCountIsCardinality(bars: seq<Bar>, n: nat, support: real, wave3High: real)
    requires n <= |bars|
    ensures InRangeCount(bars, n, support, wave3High) == |InBandIndices(bars, n, support, wave3High)|
  {
    if n > 0 {
      InRangeCountIsCardinality(bars, n - 1, support, wave3High);
      InBandStep(bars, n, support, wave3High);
    }
  }

  lemma {:induction false} InRangeCountBound(bars: seq<Bar>, n: nat, support: real, wave3High: real)
    requires n <= |bars|
    ensures InRangeCount(bars, n, support, wave3High) <= n
  {
    if n > 0 {
      InRangeCountBound(bars, n - 1, support, wave3High);
    }
  }

  /** The in_range_count loop. */
  method CountInRange(bars: seq<Bar>, support: real, wave3High: real) returns (count: nat)
    ensures count == InRangeCount(bars, |bars|, support, wave3High)
  {
    count := 0;
    for i := 0 to |bars|
      invariant count == InRangeCount(bars, i, support, wave3High)
    {
      if InPriceBand(bars[i].close, support, wave3High) {
        count := count + 1;
      }
    }
  }

  /** recent / early mean volume over the last and first 10 bars, 1 when
      the early mean is not positive. */
  function VolumeRatio(bars: seq<Bar>): (r: real)
    requires |bars| >= 10
    ensures MeanVolume(bars, 0, 10) > 0.0 ==>
      r * MeanVolume(bars, 0, 10) == MeanVolume(bars, |bars| - 10, |bars|)
    ensures MeanVolume(bars, 0, 10) <= 0.0 ==> r == 1.0
  {
    var recent := MeanVolume(bars, |bars| - 10, |bars|);
    var early := MeanVolume(bars, 0, 10);
    if early > 0.0 then recent / early else 1.0
  }

  /** Where the current close sits between support (0) and wave3High (100);
      50 when the band is empty or inverted. */
  function PricePosition(current: real, support: real, wave3High: real): (r: real)
    ensures wave3High > support ==> current == support + r / 100.0 * (wave3High - support)
    ensures wave3High <= support ==> r == 50.0
  {
    if wave3High > support then
      var share := (current - support) / (wave3High - support);
      assert share * (wave3High - support) == current - support;
      share * 100.0
    else 50.0
  }

  /** The detector on the last bars fetched for it (None when the fetch
      failed). */
  function Consolidate(window: Option<seq<Bar>>, wave3High: real, supports: seq<real>): (r: Option<Report>)
    ensures r.None? <==> window.None? || |window.value| < 20 || supports == []
    ensures r.Some? ==> r.value.supportLevel in supports && r.value.resistanceLevel == wave3High
  {
    if window.None? || |window.value| < 20 || supports == [] then None
    else
      var bars := window.value;
      var support := MaxOf(supports);
      var ratio := (InRangeCount(bars, |bars|, support, wave3High) as real) / (|bars| as real);
      var volumeRatio := VolumeRatio(bars);
      var current := bars[|bars| - 1].close;
      Some(Report(ratio >= 0.7 && volumeRatio < 1.5, ratio, volumeRatio, current, support, wave3High,
                  PricePosition(current, support, wave3High)))
  }

  lemma RatioInUnit(count: nat, n: nat)
    requires 0 < n && count <= n
    ensures 0.0 <= (count as real) / (n as real) <= 1.0
  {
    assert (count as real) / (n as real) <= (n as real) / (n as real);
  }

  /** The detector's verdict: no report for fewer than 20 bars or no
      supports; otherwise the in-range ratio is the share of closes in the
      band and lies in [0, 1], the support level is the largest support,
      the verdict holds exactly when the ratio is at least 0.7 and the
      volume ratio below 1.5, the volume ratio is the recent over the early
      mean volume (1 when the early mean is not positive), and the price
      position is the current close's place between the support (0) and
      the third wave's high (100), 50 when that high does not exceed the
      support. */
  lemma ConsolidationVerdict(window: Option<seq<Bar>>, wave3High: real, supports: seq<real>)
    ensures var r := Consolidate(window, wave3High, supports);
      && (r.None? <==> window.None? || |window.value| < 20 || supports == [])
      && (r.Some? ==>
            var bars := window.value;
            var rep := r.value;
            var inBand := InBandIndices(bars, |bars|, rep.supportLevel, wave3High);
            && rep.inRangeRatio == (|inBand| as real) / (|bars| as real)
            && 0.0 <= rep.inRangeRatio <= 1.0
            && (forall i :: 0 <= i < |supports| ==> supports[i] <= rep.supportLevel)
            && rep.supportLevel in supports
            && rep.resistanceLevel == wave3High
            && rep.currentPrice == bars[|bars| - 1].close
            && (rep.isConsolidating <==> rep.inRangeRatio >= 0.7 && rep.volumeRatio < 1.5)
            && (MeanVolume(bars, 0, 10) > 0.0 ==>
                  rep.volumeRatio * MeanVolume(bars, 0, 10) == MeanVolume(bars, |bars| - 10, |bars|))
            && (MeanVolume(bars, 0, 10) <= 0.0 ==> rep.volumeRatio == 1.0)
            && (wave3High > rep.supportLevel ==>
                  rep.currentPrice == rep.supportLevel + rep.pricePosition / 100.0 * (wave3High - rep.supportLevel))
            && (wave3High <= rep.supportLevel ==> rep.pricePosition == 50.0))
  {
    if !(window.None? || |window.value| < 20 || supports == []) {
      var bars := window.value;
      var support := MaxOf(supports);
      InRangeCountIsCardinality(bars, |bars|, support, wave3High);
      InRangeCountBound(bars, |bars|, support, wave3High);
      RatioInUnit(InRangeCount(bars, |bars|, support, wave3High), |bars|);
    }
  }

  /** check_consolidation with its counting loop. */
  method CheckConsolidation(window: Option<seq<Bar>>, wave3High: real, supports: seq<real>)
    returns (r: Option<Report>)
    ensures r == Consolidate(window, wave3High, supports)
  {
    if window.None? || |window.value| < 20 {
      return None;
    }
    var bars := window.value;
    if supports == [] {
      return None;
    }
    var support := MaxOf(supports);
    var count := CountInRange(bars, support, wave3High);
    var ratio := (count as real) / (|bars| as real);
    var volumeRatio := VolumeRatio(bars);
    var current := bars[|bars| - 1].close;
    r := Some(Report(ratio >= 0.7 && volumeRatio < 1.5, ratio, volumeRatio, current, support, wave3High,
                     PricePosition(current, support, wave3High)));
  }
}

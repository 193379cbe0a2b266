/** Shared vocabulary of the strategy model: optional values, price bars,
    exact arithmetic helpers (sums, means, percentage changes) and the
    extremum helpers that stand in for numpy's max/min/argmin. */
module Common {

  datatype Option<+T> = None | Some(value: T)

  /** One daily bar as the market-data collaborator returns it; the date is a day number. */
  datatype Bar = Bar(date: int, open: real, high: real, low: real, close: real, volume: real)

  /** A wall-clock instant: day number, hour and minute (context.current_dt). */
  datatype Clock = Clock(day: int, hour: int, minute: int)

  function Min(a: int, b: int): int { if a <= b then a else b }
  function Max(a: int, b: int): int { if a >= b then a else b }
  function MinReal(a: real, b: real): real { if a <= b then a else b }
  function MaxReal(a: real, b: real): real { if a >= b then a else b }

  /** The sum of a sequence, accumulated from the right end. */
  function Sum(s: seq<real>): real
  {
    if s == [] then 0.0 else Sum(s[..|s| - 1]) + s[|s| - 1]
  }

  /** np.mean of a non-empty sequence. */
  function Mean(s: seq<real>): real
    requires |s| > 0
  {
    Sum(s) / (|s| as real)
  }

  /** Percentage change from base to x, (x - base) / base * 100. A zero base
      (where numpy would yield inf or nan) is read as no change. */
  function Pct(base: real, x: real): real
  {
    if base == 0.0 then 0.0 else (x - base) / base * 100.0
  }

  /** The total volume of bars[lo..hi]. */
  function VolumeSum(bars: seq<Bar>, lo: nat, hi: nat): real
    requires lo <= hi <= |bars|
    decreases hi - lo
  {
    if lo == hi then 0.0 else VolumeSum(bars, lo, hi - 1) + bars[hi - 1].volume
  }

  /** np.mean of the volumes of the non-empty run bars[lo..hi]. */
  function MeanVolume(bars: seq<Bar>, lo: nat, hi: nat): real
    requires lo < hi <= |bars|
  {
    VolumeSum(bars, lo, hi) / ((hi - lo) as real)
  }

  /** The largest element of a non-empty sequence (Python's max). */
  function MaxOf(s: seq<real>): (m: real)
    requires |s| > 0
    ensures forall i :: 0 <= i < |s| ==> s[i] <= m
    ensures exists i :: 0 <= i < |s| && s[i] == m
  {
    if |s| == 1 then s[0]
    else
      var rest := MaxOf(s[1..]);
      assert forall i :: 1 <= i < |s| ==> s[i] == s[1..][i - 1];
      if s[0] >= rest then s[0] else rest
  }

  /** The index of the first smallest element (np.argmin). */
  function ArgMin(s: seq<real>): (k: nat)
    requires |s| > 0
    ensures k < |s|
    ensures forall i :: 0 <= i < |s| ==> s[k] <= s[i]
    ensures forall i :: 0 <= i < k ==> s[k] < s[i]
  {
    if |s| == 1 then 0
    else
      var k := ArgMin(s[..|s| - 1]);
      if s[|s| - 1] < s[k] then |s| - 1 else k
  }
}

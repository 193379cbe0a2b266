/** The buying side of trade_logic apart from the order book: the position
    budget, calculate_composite_score (strength base plus a clamped
    shareholder bonus) and the stable descending sort of the signals. */
module Ranking {
  import opened Common
  import opened Signal

  // ---------------------------------------------------------------------
  // Position sizing.

  /** The number of portfolio positions with a positive total amount. */
  function HeldCount(held: map<string, real>): nat
  {
    |set c | c in held && held[c] > 0.0|
  }

  /** The amount to invest per stock, None when trade_logic stops before
      buying: at max_positions already, less than 10000 cash, or a per-stock
      amount below 10000. The amount is the smaller of cash * position_ratio
      and an equal share of the cash over the free slots. */
  function PositionValue(cash: real, params: Params, current: nat): (r: Option<real>)
    ensures r.Some? <==>
      current < params.maxPositions && cash >= 10000.0 &&
      MinReal(cash * params.positionRatio, cash / ((params.maxPositions - current) as real)) >= 10000.0
    ensures r.Some? ==>
      && 10000.0 <= r.value
      && r.value <= cash * params.positionRatio
      && r.value <= cash / ((params.maxPositions - current) as real)
      && (r.value == cash * params.positionRatio ||
          r.value == cash / ((params.maxPositions - current) as real))
  {
    if current >= params.maxPositions then None
    else if cash < 10000.0 then None
    else
      var value := MinReal(cash * params.positionRatio, cash / ((params.maxPositions - current) as real));
      if value < 10000.0 then None else Some(value)
  }

  /** The per-stock amount never exceeds the cash (the free-slot share is at
      most all of it). */
  lemma PositionValueWithinCash(cash: real, params: Params, current: nat)
    requires PositionValue(cash, params, current).Some?
    ensures PositionValue(cash, params, current).value <= cash
  {
    var slots := (params.maxPositions - current) as real;
    assert slots >= 1.0;
    assert cash / slots <= cash by {
      assert cash >= 0.0;
      assert cash / slots * slots == cash;
    }
  }

  /** At most two buys a day, and never more than the free slots. */
  function MaxBuy(params: Params, current: nat): (m: int)
    ensures m <= 2 && m <= params.maxPositions - current
    ensures m == 2 || m == params.maxPositions - current
  {
    Min(2, params.maxPositions - current)
  }

  // ---------------------------------------------------------------------
  // Composite score.

  function StrengthScore(s: Strength): int
  {
    match s
    case Strong => 100
    case Medium => 60
    case Weak => 30
  }

  /** The shareholder bonus: -10 points per percent of change, clamped to
      [-50, 50]; 0 without a change. */
  function Bonus(change: Option<real>): (b: real)
    ensures -50.0 <= b <= 50.0
    ensures change.None? ==> b == 0.0
    ensures change.Some? && -5.0 <= change.value <= 5.0 ==> b == change.value * (-10.0)
    ensures change.Some? && change.value < -5.0 ==> b == 50.0
    ensures change.Some? && change.value > 5.0 ==> b == -50.0
  {
    if change.None? then 0.0
    else MaxReal(-50.0, MinReal(change.value * (-10.0), 50.0))
  }

  /** calculate_composite_score. The score of each tier lies in its own
      base +- 50, and every score lies in [-20, 150]. */
  function Score(sig: Signal): (s: real)
    ensures -20.0 <= s <= 150.0
    ensures (StrengthScore(sig.strength) as real) - 50.0 <= s <= (StrengthScore(sig.strength) as real) + 50.0
  {
    (StrengthScore(sig.strength) as real) + Bonus(sig.shareholderChange)
  }

  // ---------------------------------------------------------------------
  // trade_signals.sort(key=calculate_composite_score, reverse=True).

  /** Descending by score. */
  ghost predicate SortedDesc(s: seq<Signal>)
  {
    forall i, j :: 0 <= i < j < |s| ==> Score(s[i]) >= Score(s[j])
  }

  lemma SortedTail(t: seq<Signal>)
    requires SortedDesc(t) && t != []
    ensures SortedDesc(t[1..])
  {
    forall i, j | 0 <= i < j < |t[1..]|
      ensures Score(t[1..][i]) >= Score(t[1..][j])
    {
      assert t[1..][i] == t[i + 1] && t[1..][j] == t[j + 1];
    }
  }

  /** Insert x before the first element it scores at least as high as. */
  function Insert(x: Signal, t: seq<Signal>): (r: seq<Signal>)
    ensures |r| == |t| + 1
  {
    if t == [] || Score(x) >= Score(t[0]) then [x] + t
    else [t[0]] + Insert(x, t[1..])
  }

  /** The stable descending sort, by insertion from the back. */
  function Sort(s: seq<Signal>): (r: seq<Signal>)
    ensures |r| == |s|
  {
    if s == [] then [] else Insert(s[0], Sort(s[1..]))
  }

  /** Inserting below a bound keeps every score below it. */
  lemma {:induction false} InsertBelow(x: Signal, t: seq<Signal>, b: real)
    requires Score(x) <= b && forall k :: 0 <= k < |t| ==> Score(t[k]) <= b
    ensures forall k :: 0 <= k < |Insert(x, t)| ==> Score(Insert(x, t)[k]) <= b
  {
    if t != [] && Score(x) < Score(t[0]) {
      InsertBelow(x, t[1..], b);
    }
  }

  lemma {:induction false} InsertPermutation(x: Signal, t: seq<Signal>)
    ensures multiset(Insert(x, t)) == multiset{x} + multiset(t)
  {
    if t != [] && Score(x) < Score(t[0]) {
      InsertPermutation(x, t[1..]);
      assert t == [t[0]] + t[1..];
    }
  }

  lemma {:induction false} InsertSorted(x: Signal, t: seq<Signal>)
    requires SortedDesc(t)
    ensures SortedDesc(Insert(x, t))
  {
    if t != [] && Score(x) < Score(t[0]) {
      var rest := Insert(x, t[1..]);
      SortedTail(t);
      InsertSorted(x, t[1..]);
      InsertBelow(x, t[1..], Score(t[0]));
      var r := [t[0]] + rest;
      forall i, j | 0 <= i < j < |r|
        ensures Score(r[i]) >= Score(r[j])
      {
        assert r[j] == rest[j - 1];
        if i > 0 {
          assert r[i] == rest[i - 1];
        }
      }
    }
  }

  /** The sort orders by descending score and is a permutation. */
  lemma {:induction false} SortSortedPermutation(s: seq<Signal>)
    ensures SortedDesc(Sort(s))
    ensures multiset(Sort(s)) == multiset(s)
  {
    if s != [] {
      SortSortedPermutation(s[1..]);
      InsertSorted(s[0], Sort(s[1..]));
      InsertPermutation(s[0], Sort(s[1..]));
      assert s == [s[0]] + s[1..];
    }
  }

  /** The signals of s scoring exactly v, in order. */
  function WithScore(s: seq<Signal>, v: real): seq<Signal>
  {
    if s == [] then [] else (if Score(s[0]) == v then [s[0]] else []) + WithScore(s[1..], v)
  }

  /** Insertion adds x to the signals of its own score, in front: it passes
      only signals scoring strictly more than x. */
  lemma {:induction false} InsertWithScore(x: Signal, t: seq<Signal>, v: real)
    ensures WithScore(Insert(x, t), v) == (if Score(x) == v then [x] else []) + WithScore(t, v)
  {
    if t == [] || Score(x) >= Score(t[0]) {
      assert Insert(x, t) == [x] + t;
      assert ([x] + t)[1..] == t;
    } else {
      var rest := Insert(x, t[1..]);
      assert Insert(x, t) == [t[0]] + rest;
      InsertWithScore(x, t[1..], v);
      assert ([t[0]] + rest)[1..] == rest;
      assert WithScore(t, v) == (if Score(t[0]) == v then [t[0]] else []) + WithScore(t[1..], v);
    }
  }

  /** Stability: for every score, the signals with that score appear in the
      sorted list in their original relative order. */
  lemma {:induction false} SortStable(s: seq<Signal>, v: real)
    ensures WithScore(Sort(s), v) == WithScore(s, v)
  {
    if s != [] {
      SortStable(s[1..], v);
      InsertWithScore(s[0], Sort(s[1..]), v);
    }
  }
}

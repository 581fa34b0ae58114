/** backend/app/pipeline/fidelity.py: the patience-style longest nondecreasing subsequence, and the
    reading-order rates built on it. Rates are exact here; the source rounds them to four places. */
module Subsequence {

  /** Positions picked from left to right whose values never fall. */
  predicate Picks(values: seq<int>, at: seq<nat>) {
    && (forall k | 0 <= k < |at| :: at[k] < |values|)
    && forall j, k | 0 <= j < k < |at| :: at[j] < at[k] && values[at[j]] <= values[at[k]]
  }

  /** Some nondecreasing subsequence has this length, and none is longer. */
  ghost predicate IsLongest(values: seq<int>, n: nat) {
    && (exists at :: Picks(values, at) && |at| == n)
    && forall at | Picks(values, at) :: |at| <= n
  }

  predicate NonDecreasing(s: seq<int>) {
    forall i, j | 0 <= i < j < |s| :: s[i] <= s[j]
  }

  /** Where `value` goes to the right of everything not above it. */
  method BisectRight(tails: seq<int>, value: int) returns (index: nat)
    requires NonDecreasing(tails)
    ensures index <= |tails|
    ensures forall k | 0 <= k < index :: tails[k] <= value
    ensures forall k | index <= k < |tails| :: tails[k] > value
  {
    var lo, hi := 0, |tails|;
    while lo < hi
      invariant 0 <= lo <= hi <= |tails|
      invariant forall k | 0 <= k < lo :: tails[k] <= value
      invariant forall k | hi <= k < |tails| :: tails[k] > value
    {
      var mid := (lo + hi) / 2;
      if value < tails[mid] {
        hi := mid;
      } else {
        lo := mid + 1;
      }
    }
    return lo;
  }

  /** A picking of length `k + 1` that ends at this value. */
  predicate EndsAt(values: seq<int>, at: seq<nat>, k: nat, tail: int) {
    Picks(values, at) && |at| == k + 1 && values[at[k]] == tail
  }

  /** `tails[k]` ends a picking of length `k + 1`. */
  ghost predicate Attained(values: seq<int>, tails: seq<int>, witnesses: seq<seq<nat>>) {
    |witnesses| == |tails| && forall k | 0 <= k < |tails| :: EndsAt(values, witnesses[k], k, tails[k])
  }

  /** No picking of length `k + 1` ends lower than `tails[k]`, and none is longer than `tails`. */
  ghost predicate Lowest(values: seq<int>, tails: seq<int>) {
    forall at, k: nat, tail | EndsAt(values, at, k, tail) :: k < |tails| && tail >= tails[k]
  }

  lemma StillEndsAt(values: seq<int>, value: int, at: seq<nat>, k: nat, tail: int)
    requires EndsAt(values, at, k, tail)
    ensures EndsAt(values + [value], at, k, tail)
  {
  }

  /** A picking that ends no higher than a value goes on with it. */
  lemma Extends(values: seq<int>, value: int, at: seq<nat>, k: nat, tail: int)
    requires EndsAt(values, at, k, tail) && tail <= value
    ensures EndsAt(values + [value], at + [|values|], k + 1, value)
  {
    var longer, more := values + [value], at + [|values|];
    forall j | 0 <= j < |at| ensures longer[at[j]] <= value {
      assert j == k || values[at[j]] <= values[at[k]];
    }
    assert more[|at|] == |values| && longer[|values|] == value;
  }

  lemma StartsAt(values: seq<int>, value: int)
    ensures EndsAt(values + [value], [] + [|values|], 0, value)
  {
  }

  lemma AttainedStep(values: seq<int>, tails: seq<int>, witnesses: seq<seq<nat>>, value: int, index: nat)
    returns (after: seq<seq<nat>>)
    requires Attained(values, tails, witnesses) && index <= |tails|
    requires forall k | 0 <= k < index :: tails[k] <= value
    ensures Attained(values + [value], Placed(tails, index, value), after)
  {
    hide EndsAt;
    var extended := (if index == 0 then [] else witnesses[index - 1]) + [|values|];
    if index > 0 {
      Extends(values, value, witnesses[index - 1], index - 1, tails[index - 1]);
    } else {
      StartsAt(values, value);
    }
    after := if index == |tails| then witnesses + [extended] else witnesses[index := extended];
    forall k | 0 <= k < |tails| && k != index ensures EndsAt(values + [value], witnesses[k], k, tails[k]) {
      StillEndsAt(values, value, witnesses[k], k, tails[k]);
    }
  }

  function Placed(tails: seq<int>, index: nat, value: int): seq<int>
    requires index <= |tails|
  {
    if index == |tails| then tails + [value] else tails[index := value]
  }

  /** A picking from the longer sequence is one of the shorter, or ends with the new value after one
      of the shorter that ends no higher. */
  lemma EndsBefore(values: seq<int>, value: int, at: seq<nat>, k: nat, tail: int)
    requires EndsAt(values + [value], at, k, tail)
    ensures EndsAt(values, at, k, tail)
      || (tail == value && (k == 0 || (at[k - 1] < |values| && EndsAt(values, at[..k], k - 1, values[at[k - 1]]) && values[at[k - 1]] <= value)))
  {
    var longer := values + [value];
    assert forall i | 0 <= i < k :: at[i] < at[k];
    assert forall i | 0 <= i < |values| :: longer[i] == values[i];
    if at[k] >= |values| && k > 0 {
      assert forall i | 0 <= i < k :: at[..k][i] == at[i];
      assert longer[at[k - 1]] <= longer[at[k]];
    }
  }

  lemma LowestStep(values: seq<int>, tails: seq<int>, value: int, index: nat)
    requires Lowest(values, tails) && index <= |tails|
    requires forall k | 0 <= k < index :: tails[k] <= value
    requires forall k | index <= k < |tails| :: tails[k] > value
    ensures Lowest(values + [value], Placed(tails, index, value))
  {
    hide EndsAt;
    forall at, k: nat, tail | EndsAt(values + [value], at, k, tail)
      ensures k < |Placed(tails, index, value)| && tail >= Placed(tails, index, value)[k]
    {
      LowestOne(values, tails, value, index, at, k, tail);
    }
  }

  lemma LowestOne(values: seq<int>, tails: seq<int>, value: int, index: nat, at: seq<nat>, k: nat, tail: int)
    requires Lowest(values, tails) && index <= |tails| && EndsAt(values + [value], at, k, tail)
    requires forall k | 0 <= k < index :: tails[k] <= value
    requires forall k | index <= k < |tails| :: tails[k] > value
    ensures k < |Placed(tails, index, value)| && tail >= Placed(tails, index, value)[k]
  {
    EndsBefore(values, value, at, k, tail);
    assert |at| == k + 1;
    hide EndsAt;
    if EndsAt(values, at, k, tail) {
      assert k < |tails| && tail >= tails[k];
    } else if k > 0 {
      assert EndsAt(values, at[..k], k - 1, values[at[k - 1]]);
      assert k - 1 < |tails| && values[at[k - 1]] >= tails[k - 1];
    }
  }

  method LongestNondecreasingSubsequenceLen(values: seq<int>) returns (n: nat)
    ensures IsLongest(values, n)
  {
    hide Picks; hide Attained; hide Lowest;
    var tails: seq<int> := [];
    ghost var witnesses: seq<seq<nat>> := [];
    NothingPicked();
    var i := 0;
    while i < |values|
      invariant 0 <= i <= |values| && NonDecreasing(tails)
      invariant Attained(values[..i], tails, witnesses) && Lowest(values[..i], tails)
    {
      var value := values[i];
      var index := BisectRight(tails, value);
      assert values[..i + 1] == values[..i] + [value];
      witnesses := AttainedStep(values[..i], tails, witnesses, value, index);
      LowestStep(values[..i], tails, value, index);
      if index == |tails| {
        tails := tails + [value];
      } else {
        tails := tails[index := value];
      }
      i := i + 1;
    }
    assert values[..i] == values;
    LengthIsLongest(values, tails, witnesses);
    return |tails|;
  }

  lemma EndsSomewhere(values: seq<int>, at: seq<nat>, k: nat, tail: int)
    ensures EndsAt(values, at, k, tail) ==> values != []
  {
  }

  lemma NothingPicked()
    ensures Attained([], [], []) && Lowest([], [])
  {
    forall at, k: nat, tail ensures !EndsAt([], at, k, tail) {
      EndsSomewhere([], at, k, tail);
    }
  }

  lemma LengthIsLongest(values: seq<int>, tails: seq<int>, witnesses: seq<seq<nat>>)
    requires Attained(values, tails, witnesses) && Lowest(values, tails)
    ensures IsLongest(values, |tails|)
  {
    if tails == [] {
      assert Picks(values, []);
    } else {
      assert EndsAt(values, witnesses[|tails| - 1], |tails| - 1, tails[|tails| - 1]);
    }
    forall at | Picks(values, at) ensures |at| <= |tails| {
      if at != [] {
        assert EndsAt(values, at, |at| - 1, values[at[|at| - 1]]);
      }
    }
  }

  lemma {:induction false} PickingIsBounded(values: seq<int>, at: seq<nat>)
    requires Picks(values, at)
    ensures |at| <= |values|
    ensures |at| == |values| ==> forall k | 0 <= k < |at| :: at[k] == k
    decreases |values|
  {
    if at != [] {
      var n := |at| - 1;
      assert forall k | 0 <= k < n :: at[k] < at[n];
      assert Picks(values[..at[n]], at[..n]);
      PickingIsBounded(values[..at[n]], at[..n]);
    }
  }

  lemma OrderedIsPickable(values: seq<int>)
    requires NonDecreasing(values)
    ensures exists at :: Picks(values, at) && |at| == |values|
  {
    var all := seq(|values|, k => k);
    assert Picks(values, all);
  }

  lemma FullPickingIsOrdered(values: seq<int>, at: seq<nat>)
    requires Picks(values, at) && |at| == |values|
    ensures NonDecreasing(values)
  {
    PickingIsBounded(values, at);
    forall i, j | 0 <= i < j < |values| ensures values[i] <= values[j] {
      assert at[i] == i && at[j] == j;
    }
  }

  /** The longest picking takes everything exactly when the values never fall. */
  lemma AllPickedIffOrdered(values: seq<int>, n: nat)
    requires IsLongest(values, n)
    ensures n <= |values| && (n == |values| <==> NonDecreasing(values))
  {
    hide Picks; hide NonDecreasing;
    var at :| Picks(values, at) && |at| == n;
    PickingIsBounded(values, at);
    if NonDecreasing(values) {
      OrderedIsPickable(values);
    }
    if n == |values| {
      FullPickingIsOrdered(values, at);
    }
  }

  // ---------------------------------------------------------------- the rates

  datatype MatchMode = Exact | Dense

  datatype Metrics = Metrics(considered: nat, matched: nat, ordered: nat, hitRate: real, orderRate: real, mode: MatchMode)

  function Rate(part: nat, whole: nat): real
    requires whole > 0
  {
    part as real / whole as real
  }

  lemma RateInRange(part: nat, whole: nat)
    requires part <= whole && whole > 0
    ensures 0.0 <= Rate(part, whole) <= 1.0 && (Rate(part, whole) == 1.0 <==> part == whole)
    ensures Rate(part, whole) * whole as real == part as real
  {
    var r := Rate(part, whole);
    assert r * whole as real == part as real;
    if r == 1.0 {
      assert 1.0 * whole as real == part as real;
    }
  }

  /** More hits first, then more of them in order; the exact reading wins a tie. */
  predicate Better(hits: nat, ordered: nat, thanHits: nat, thanOrdered: nat) {
    hits > thanHits || (hits == thanHits && ordered > thanOrdered)
  }

  /** `exact` and `dense` are the positions the fragments were found at in the two readings. */
  method ReadingOrderMetrics(fragments: nat, exact: seq<int>, dense: seq<int>) returns (m: Metrics)
    requires |exact| <= fragments && |dense| <= fragments
    ensures m.considered == fragments
    ensures var chosen := if m.mode == Exact then exact else dense;
      && m.matched == |chosen| && IsLongest(chosen, m.ordered)
      && 0.0 <= m.hitRate <= 1.0 && 0.0 <= m.orderRate <= 1.0
      && m.hitRate * fragments as real == m.matched as real && m.orderRate * m.matched as real == m.ordered as real
      && (fragments == 0 ==> m.hitRate == 0.0) && (chosen == [] ==> m.orderRate == 0.0)
      && (fragments > 0 ==> (m.hitRate == 1.0 <==> m.matched == fragments))
      && (chosen != [] ==> (m.orderRate == 1.0 <==> NonDecreasing(chosen)))
    ensures forall e, d | IsLongest(exact, e) && IsLongest(dense, d) ::
              m.mode == Dense <==> Better(|dense|, d, |exact|, e)
  {
    hide Picks;
    var positions, mode := exact, Exact;
    var exactOrdered := LongestNondecreasingSubsequenceLen(exact);
    var denseOrdered := LongestNondecreasingSubsequenceLen(dense);
    AllPickedIffOrdered(exact, exactOrdered);
    AllPickedIffOrdered(dense, denseOrdered);
    if |dense| > |exact| {
      positions, mode := dense, Dense;
    } else if |dense| == |exact| && dense != [] {
      if denseOrdered > exactOrdered {
        positions, mode := dense, Dense;
      }
    }
    var hits := |positions|;
    var ordered := if mode == Exact then exactOrdered else denseOrdered;
    RateInRange(hits, if fragments > 1 then fragments else 1);
    if hits > 0 {
      RateInRange(ordered, hits);
    }
    hide Rate;
    m := Metrics(fragments, hits, ordered, Rate(hits, if fragments > 1 then fragments else 1),
                 if hits > 0 then Rate(ordered, hits) else 0.0, mode);
  }
}

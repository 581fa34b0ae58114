/** backend/app/pipeline/reading_order.py `kendall_tau`: a Fenwick tree over ranks counts the pairs two
    orders disagree on. Tau is an exact rational here, where the source rounds to a float. */
module Kendall {
  import opened Counting

  predicate NoRepeats(s: seq<int>) {
    forall i, j | 0 <= i < j < |s| :: s[i] != s[j]
  }

  function Index(s: seq<int>, x: int): (i: nat)
    requires x in s
    ensures i < |s| && s[i] == x
  {
    if s[0] == x then 0 else 1 + Index(s[1..], x)
  }

  // ---------------------------------------------------------------- what tau means

  function Shared(first: seq<int>, second: seq<int>): set<int> {
    set x | x in first && x in second
  }

  /** The pairs the two orders disagree on, written in the order of the first. */
  function Discordant(first: seq<int>, second: seq<int>): set<(int, int)> {
    set a, b | a in Shared(first, second) && b in Shared(first, second)
               && Index(first, a) < Index(first, b) && Index(second, b) < Index(second, a) :: (a, b)
  }

  /** Tau-a over the shared elements. */
  function Tau(first: seq<int>, second: seq<int>): real {
    Rate(|Shared(first, second)|, |Discordant(first, second)|)
  }

  /** One less twice the share of the `n` elements' pairs that are discordant. */
  function Rate(n: nat, discordant: nat): real {
    if n < 2 then 1.0
    else
      assert n * (n - 1) != 0;
      1.0 - 4.0 * discordant as real / (n * (n - 1)) as real
  }

  // ---------------------------------------------------------------- counting

  function SharedRanks(first: seq<int>, second: seq<int>): (ranks: seq<nat>)
    ensures forall r | r in ranks :: r < |second|
  {
    if first == [] then []
    else
      var last := first[|first| - 1];
      SharedRanks(first[..|first| - 1], second) + if last in second then [Index(second, last)] else []
  }

  /** How many of the ranks lie in `lo` up to `hi`. */
  function CountIn(ranks: seq<nat>, lo: int, hi: int): (n: nat)
    ensures n <= |ranks|
  {
    if ranks == [] then 0
    else CountIn(ranks[..|ranks| - 1], lo, hi) + if lo <= ranks[|ranks| - 1] < hi then 1 else 0
  }

  /** How many pairs of positions hold their ranks in descending order. */
  function Inversions(ranks: seq<nat>): nat {
    if ranks == [] then 0
    else
      var init := ranks[..|ranks| - 1];
      Inversions(init) + (|init| - CountIn(init, 0, ranks[|ranks| - 1] + 1))
  }

  lemma {:induction false} CountOneMore(ranks: seq<nat>, r: nat, lo: int, hi: int)
    ensures CountIn(ranks + [r], lo, hi) == CountIn(ranks, lo, hi) + if lo <= r < hi then 1 else 0
  {
    assert (ranks + [r])[..|ranks|] == ranks;
  }

  lemma {:induction ranks} CountSplits(ranks: seq<nat>, lo: int, mid: int, hi: int)
    requires lo <= mid <= hi
    ensures CountIn(ranks, lo, hi) == CountIn(ranks, lo, mid) + CountIn(ranks, mid, hi)
  {
  }

  // ---------------------------------------------------------------- the lowest set bit

  /** `position & -position`: the largest power of two that divides it. */
  function LowBit(n: nat): (b: nat)
    requires n > 0
    ensures 1 <= b <= n
  {
    if n % 2 == 1 then 1 else 2 * LowBit(n / 2)
  }

  function PowerOfTwo(e: nat): nat {
    if e == 0 then 1 else 2 * PowerOfTwo(e - 1)
  }

  ghost predicate Divides(d: nat, n: nat) {
    exists k: nat :: n == k * d
  }

  /** The lowest set bit, by what it is worth: the power of two that divides the position while no
      greater one does. */
  lemma {:induction false} LowBitIsGreatestPower(n: nat, e: nat)
    requires n > 0
    ensures exists f: nat :: LowBit(n) == PowerOfTwo(f)
    ensures Divides(LowBit(n), n)
    ensures Divides(PowerOfTwo(e), n) ==> PowerOfTwo(e) <= LowBit(n)
    decreases n, e
  {
    if n % 2 == 1 {
      assert PowerOfTwo(0) == 1 && n == n * 1;
      if e > 0 && Divides(PowerOfTwo(e), n) {
        var k: nat :| n == k * PowerOfTwo(e);
        EvenProduct(k, PowerOfTwo(e - 1));
      }
    } else {
      LowBitIsGreatestPower(n / 2, if e > 0 then e - 1 else 0);
      var f: nat :| LowBit(n / 2) == PowerOfTwo(f);
      assert LowBit(n) == PowerOfTwo(f + 1);
      var k: nat :| n / 2 == k * LowBit(n / 2);
      EvenProduct(k, LowBit(n / 2));
      if e > 0 && Divides(PowerOfTwo(e), n) {
        var m: nat :| n == m * PowerOfTwo(e);
        EvenProduct(m, PowerOfTwo(e - 1));
        assert n / 2 == m * PowerOfTwo(e - 1);
      }
    }
  }

  lemma EvenProduct(k: nat, b: nat)
    ensures k * (2 * b) == 2 * (k * b)
  {
  }

  lemma {:induction false} LowBitInside(p: nat, d: nat)
    requires p > 0 && 0 < d < LowBit(p)
    ensures LowBit(p + d) == LowBit(d)
  {
    if d % 2 == 0 {
      assert (p + d) / 2 == p / 2 + d / 2;
      LowBitInside(p / 2, d / 2);
    }
  }

  lemma {:induction false} LowBitDoubles(p: nat)
    requires p > 0
    ensures LowBit(p + LowBit(p)) >= 2 * LowBit(p)
  {
    if p % 2 == 0 {
      assert (p + LowBit(p)) / 2 == p / 2 + LowBit(p / 2);
      LowBitDoubles(p / 2);
    }
  }

  /** Tree slot `p` is responsible for the ranks from `p - LowBit(p)` up to `p`. */
  predicate Covers(p: nat, rank: nat)
    requires p > 0
  {
    p - LowBit(p) <= rank < p
  }

  lemma FirstCover(rank: nat)
    ensures Covers(rank + 1, rank)
    ensures forall q | 0 < q < rank + 1 :: !Covers(q, rank)
  {
  }

  /** The slots that cover a rank are the ones the update loop visits, in order. */
  lemma NextCover(p: nat, rank: nat)
    requires p > 0 && Covers(p, rank)
    ensures Covers(p + LowBit(p), rank)
    ensures forall q | p < q < p + LowBit(p) :: !Covers(q, rank)
  {
    LowBitDoubles(p);
    forall q | p < q < p + LowBit(p) ensures !Covers(q, rank) {
      LowBitInside(p, q - p);
    }
  }

  /** What tree slot `p` holds once these ranks were seen. */
  function Slot(ranks: seq<nat>, p: nat): nat
    requires p > 0
  {
    CountIn(ranks, p - LowBit(p), p)
  }

  lemma EmptySlot(p: nat)
    requires p > 0
    ensures Slot([], p) == 0
  {
  }

  lemma SlotOneMore(ranks: seq<nat>, r: nat, p: nat)
    requires p > 0
    ensures Slot(ranks + [r], p) == Slot(ranks, p) + if Covers(p, r) then 1 else 0
  {
    CountOneMore(ranks, r, p - LowBit(p), p);
  }

  lemma CountBySlot(ranks: seq<nat>, p: nat, hi: int)
    requires 0 < p <= hi
    ensures CountIn(ranks, p - LowBit(p), hi) == Slot(ranks, p) + CountIn(ranks, p, hi)
  {
    CountSplits(ranks, p - LowBit(p), p, hi);
  }

  lemma {:induction ranks} CountNothing(ranks: seq<nat>, at: int)
    ensures CountIn(ranks, at, at) == 0
  {
  }

  method KendallTau(first: seq<int>, second: seq<int>) returns (tau: real)
    requires NoRepeats(first) && NoRepeats(second)
    ensures tau == Tau(first, second)
  {
    hide LowBit; hide Covers; hide CountIn; hide Slot; hide Shared; hide Discordant; hide Rate; hide Index;
    var shared := SharedRanks(first, second);
    RanksCount(first, second);
    DiscordantCount(first, second);
    if |shared| < 2 {
      return Rate(|shared|, Inversions(shared));
    }
    var tree := new nat[|second| + 1](_ => 0);
    forall p: nat | 0 < p < tree.Length ensures tree[p] == Slot([], p) {
      EmptySlot(p);
    }
    var inversions := 0;
    var seen := 0;
    while seen < |shared|
      invariant 0 <= seen <= |shared| && tree.Length == |second| + 1
      invariant forall p: nat | 0 < p < tree.Length :: tree[p] == Slot(shared[..seen], p)
      invariant inversions == Inversions(shared[..seen])
    {
      var rank := shared[seen];
      assert rank in shared && rank < |second|;
      ghost var before := shared[..seen];
      assert shared[..seen + 1] == before + [rank];
      InversionsOneMore(before, rank);
      var position, prefix := rank + 1, 0;
      CountNothing(before, rank + 1);
      while position > 0
        invariant 0 <= position <= rank + 1
        invariant forall p: nat | 0 < p < tree.Length :: tree[p] == Slot(before, p)
        invariant prefix == CountIn(before, position, rank + 1) && prefix <= seen
        decreases position
      {
        CountBySlot(before, position, rank + 1);
        prefix := prefix + tree[position];
        position := position - LowBit(position);
      }
      inversions := inversions + (seen - prefix);
      position := rank + 1;
      FirstCover(rank);
      forall p: nat | 0 < p < position ensures Slot(before + [rank], p) == Slot(before, p) {
        SlotOneMore(before, rank, p);
      }
      while position < tree.Length
        invariant rank < position && Covers(position, rank)
        invariant forall p: nat | 0 < p < tree.Length ::
                    tree[p] == if p < position then Slot(before + [rank], p) else Slot(before, p)
        decreases tree.Length - position
      {
        NextCover(position, rank);
        forall p: nat | position <= p < position + LowBit(position)
          ensures Slot(before + [rank], p) == Slot(before, p) + if p == position then 1 else 0
        {
          SlotOneMore(before, rank, p);
        }
        tree[position] := tree[position] + 1;
        position := position + LowBit(position);
      }
      assert forall p: nat | 0 < p < tree.Length :: tree[p] == Slot(before + [rank], p);
      seen := seen + 1;
    }
    assert shared[..seen] == shared;
    tau := Rate(|shared|, inversions);
  }

  // ---------------------------------------------------------------- inversions are discordant pairs

  lemma {:induction false} IndexInPrefix(s: seq<int>, y: int, x: int)
    requires x in s
    ensures Index(s + [y], x) == Index(s, x)
  {
    if s[0] != x {
      assert (s + [y])[1..] == s[1..] + [y];
      IndexInPrefix(s[1..], y, x);
    }
  }

  lemma {:induction false} RanksCount(first: seq<int>, second: seq<int>)
    requires NoRepeats(first)
    ensures |SharedRanks(first, second)| == |Shared(first, second)|
  {
    if first != [] {
      var init, last := first[..|first| - 1], first[|first| - 1];
      RanksCount(init, second);
      assert first == init + [last];
      assert Shared(first, second) == Shared(init, second) + if last in second then {last} else {};
    }
  }

  /** The shared elements of `first` that `second` puts after `x`. */
  function Overtaken(first: seq<int>, second: seq<int>, x: int): set<int>
    requires x in second
  {
    set a | a in first && a in second && Index(second, x) < Index(second, a)
  }

  lemma OvertakenOneMore(init: seq<int>, last: int, second: seq<int>, x: int)
    requires last !in init && last != x && x in second && NoRepeats(second)
    ensures |Overtaken(init + [last], second, x)|
         == |Overtaken(init, second, x)| + if last in second && Index(second, x) + 1 <= Index(second, last) then 1 else 0
  {
    assert Overtaken(init + [last], second, x)
        == Overtaken(init, second, x) + if last in second && Index(second, x) < Index(second, last) then {last} else {};
  }

  lemma {:induction false} OvertakenCount(first: seq<int>, second: seq<int>, x: int)
    requires NoRepeats(first) && NoRepeats(second) && x in second && x !in first
    ensures |Overtaken(first, second, x)| == |SharedRanks(first, second)| - CountIn(SharedRanks(first, second), 0, Index(second, x) + 1)
  {
    if first != [] {
      var init, last := first[..|first| - 1], first[|first| - 1];
      assert first == init + [last];
      NoRepeatsPrefix(init, last);
      OvertakenCount(init, second, x);
      SharedRanksOneMore(init, last, second);
      OvertakenOneMore(init, last, second, x);
      if last in second {
        CountOneMore(SharedRanks(init, second), Index(second, last), 0, Index(second, x) + 1);
      }
      hide *;
    }
  }

  lemma DiscordantOneMore(init: seq<int>, last: int, second: seq<int>)
    requires NoRepeats(init + [last]) && NoRepeats(second)
    ensures Discordant(init + [last], second)
         == Discordant(init, second) + if last in second then Paired(Overtaken(init, second, last), last) else {}
  {
    var first := init + [last];
    assert last !in init by {
      forall i | 0 <= i < |init| ensures init[i] != last {
        assert first[i] == init[i] && first[|init|] == last;
      }
    }
    assert Index(first, last) == |init|;
    forall x | x in init ensures Index(first, x) == Index(init, x) {
      IndexInPrefix(init, last, x);
    }
  }

  lemma {:induction false} InversionsOneMore(ranks: seq<nat>, r: nat)
    ensures Inversions(ranks + [r]) == Inversions(ranks) + (|ranks| - CountIn(ranks, 0, r + 1))
  {
    assert (ranks + [r])[..|ranks|] == ranks;
  }

  lemma {:induction false} SharedRanksOneMore(init: seq<int>, last: int, second: seq<int>)
    ensures SharedRanks(init + [last], second)
         == if last in second then SharedRanks(init, second) + [Index(second, last)] else SharedRanks(init, second)
  {
    assert (init + [last])[..|init|] == init;
  }

  lemma NoRepeatsPrefix(init: seq<int>, last: int)
    requires NoRepeats(init + [last])
    ensures NoRepeats(init) && last !in init
  {
    var s := init + [last];
    forall i | 0 <= i < |init| ensures init[i] != last {
      assert s[i] == init[i] && s[|init|] == last;
    }
    assert init == s[..|init|];
  }

  lemma DiscordantCountOneMore(init: seq<int>, last: int, second: seq<int>)
    requires NoRepeats(init + [last]) && NoRepeats(second)
    ensures |Discordant(init + [last], second)|
         == |Discordant(init, second)| + if last in second then |Overtaken(init, second, last)| else 0
  {
    DiscordantOneMore(init, last, second);
    NoRepeatsPrefix(init, last);
    if last in second {
      var more := Paired(Overtaken(init, second, last), last);
      PairedCount(Overtaken(init, second, last), last);
      assert forall p | p in Discordant(init, second) :: p.1 in init;
      assert Discordant(init, second) !! more;
      DisjointUnion(Discordant(init, second), more);
    }
  }

  /** The ranks' inversions are the pairs the two orders disagree on, each counted once. */
  lemma {:induction false} DiscordantCount(first: seq<int>, second: seq<int>)
    requires NoRepeats(first) && NoRepeats(second)
    ensures |Discordant(first, second)| == Inversions(SharedRanks(first, second))
  {
    if first == [] {
      assert Discordant(first, second) == {};
    } else {
      var init, last := first[..|first| - 1], first[|first| - 1];
      assert first == init + [last];
      NoRepeatsPrefix(init, last);
      DiscordantCount(init, second);
      DiscordantCountOneMore(init, last, second);
      SharedRanksOneMore(init, last, second);
      if last in second {
        InversionsOneMore(SharedRanks(init, second), Index(second, last));
        OvertakenCount(init, second, last);
      }
      hide *;
    }
  }

  // ---------------------------------------------------------------- what tau promises

  lemma {:induction false} InversionsBounded(ranks: seq<nat>)
    ensures 2 * Inversions(ranks) <= |ranks| * (|ranks| - 1)
  {
    if ranks != [] {
      var n := |ranks| - 1;
      InversionsBounded(ranks[..n]);
      InversionsOneMore(ranks[..n], ranks[n]);
      assert ranks == ranks[..n] + [ranks[n]];
      hide *;
      PairsOneMore(n);
    }
  }

  lemma PairsOneMore(n: nat)
    ensures n * (n - 1) + 2 * n == (n + 1) * n
  {
  }

  lemma TauIsSymmetric(first: seq<int>, second: seq<int>)
    ensures Tau(first, second) == Tau(second, first)
  {
    assert Shared(first, second) == Shared(second, first);
    assert Discordant(second, first) == Flip(Discordant(first, second));
    FlipCount(Discordant(first, second));
  }

  /** Both orders put the shared elements in the same order. */
  predicate SameOrder(first: seq<int>, second: seq<int>) {
    forall a, b | a in Shared(first, second) && b in Shared(first, second) ::
      Index(first, a) < Index(first, b) <==> Index(second, a) < Index(second, b)
  }

  lemma TauInRange(first: seq<int>, second: seq<int>)
    requires NoRepeats(first) && NoRepeats(second)
    ensures -1.0 <= Tau(first, second) <= 1.0
    ensures Tau(first, second) == 1.0 <==> SameOrder(first, second)
  {
    RanksCount(first, second);
    DiscordantCount(first, second);
    InversionsBounded(SharedRanks(first, second));
    NoDiscordance(first, second);
    RatioInRange(|Shared(first, second)|, |Discordant(first, second)|);
    if |Shared(first, second)| < 2 {
      FewAgree(first, second);
    }
    hide Discordant; hide Shared; hide SameOrder; hide Rate;
  }

  lemma RatioInRange(n: nat, d: nat)
    requires 2 * d <= n * (n - 1)
    ensures -1.0 <= Rate(n, d) <= 1.0
    ensures n >= 2 ==> (Rate(n, d) == 1.0 <==> d == 0)
  {
    if n >= 2 {
      var m := n * (n - 1);
      assert m > 0;
      var q := 4.0 * d as real / m as real;
      assert q * m as real == 4.0 * d as real;
      assert 4.0 * d as real <= 2.0 * m as real;
      assert 0.0 <= q <= 2.0;
    }
  }

  lemma NoDiscordance(first: seq<int>, second: seq<int>)
    ensures Discordant(first, second) == {} <==> SameOrder(first, second)
  {
    if Discordant(first, second) == {} {
      forall a, b | a in Shared(first, second) && b in Shared(first, second)
        ensures Index(first, a) < Index(first, b) <==> Index(second, a) < Index(second, b)
      {
        assert (a, b) !in Discordant(first, second) && (b, a) !in Discordant(first, second);
      }
    }
  }

  lemma FewAgree(first: seq<int>, second: seq<int>)
    requires |Shared(first, second)| < 2
    ensures SameOrder(first, second)
  {
    forall a, b | a in Shared(first, second) && b in Shared(first, second) ensures a == b {
      assert {a, b} <= Shared(first, second) && Shared(first, second) == {a, b} + (Shared(first, second) - {a, b});
    }
  }
}

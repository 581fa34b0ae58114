/** backend/app/pipeline/reading_order.py: filling slots, the XY-cut order of a whole page, and the vote
    between Docling's order, the drawing order and the layout. */
module ReadingOrder {
  import opened Wrappers
  import opened Sorting
  import opened XyCut
  import Counting
  import Kendall

  // ---------------------------------------------------------------- slots

  function In(movable: set<nat>): nat -> bool {
    (i: nat) => i in movable
  }

  function Elements(s: seq<nat>): set<nat> {
    set i | i in s
  }

  function FillFrom(original: seq<nat>, movable: set<nat>, replacement: seq<nat>): seq<nat>
    requires |Filter(original, In(movable))| == |replacement|
  {
    if original == [] then []
    else
      var init, last := original[..|original| - 1], original[|original| - 1];
      if last in movable then
        FillFrom(init, movable, replacement[..|replacement| - 1]) + [replacement[|replacement| - 1]]
      else FillFrom(init, movable, replacement) + [last]
  }

  predicate NoRepeats(s: seq<nat>) {
    forall i, j | 0 <= i < j < |s| :: s[i] != s[j]
  }

  /** `ordered` is an arrangement of some of the elements of `original`. */
  predicate Arranges(ordered: seq<nat>, original: seq<nat>) {
    NoRepeats(ordered) && NoRepeats(original) && forall i | i in ordered :: i in original
  }

  lemma {:induction false} NoRepeatsCounts(s: seq<nat>)
    ensures NoRepeats(s) <==> forall x :: multiset(s)[x] <= 1
  {
    if s != [] {
      var init, last := s[..|s| - 1], s[|s| - 1];
      assert s == init + [last];
      NoRepeatsCounts(init);
      if NoRepeats(s) {
        assert last !in init;
        assert multiset(init)[last] == 0;
      } else {
        var i, j :| 0 <= i < j < |s| && s[i] == s[j];
        if j < |s| - 1 {
          assert init[i] == init[j];
          var x :| multiset(init)[x] > 1;
          assert multiset(s)[x] > 1;
        } else {
          assert init[i] == last && last in multiset(init);
          assert multiset(s)[last] >= 2;
        }
      }
    }
  }

  lemma MovableFit(original: seq<nat>, ordered: seq<nat>)
    requires Arranges(ordered, original)
    ensures multiset(Filter(original, In(Elements(ordered)))) == multiset(ordered)
    ensures |Filter(original, In(Elements(ordered)))| == |ordered|
  {
    var movable := Filter(original, In(Elements(ordered)));
    FilterCounts(original, In(Elements(ordered)));
    NoRepeatsCounts(original);
    NoRepeatsCounts(ordered);
    forall x ensures multiset(movable)[x] == multiset(ordered)[x] {
      assert x in ordered <==> x in multiset(ordered);
      assert x in original <==> x in multiset(original);
    }
    SameCountsSameElements(movable, ordered);
  }

  /** Elements without evidence keep their slots; the others fill the remaining slots in the new order. */
  function FillSlots(original: seq<nat>, ordered: seq<nat>): seq<nat>
    requires Arranges(ordered, original)
  {
    MovableFit(original, ordered);
    FillFrom(original, Elements(ordered), ordered)
  }

  lemma FillStep(original: seq<nat>, movable: set<nat>, replacement: seq<nat>)
    requires original != [] && |Filter(original, In(movable))| == |replacement|
    ensures var init, last := original[..|original| - 1], original[|original| - 1];
      if last in movable then
        && replacement != [] && |Filter(init, In(movable))| == |replacement| - 1
        && Filter(original, In(movable)) == Filter(init, In(movable)) + [last]
        && FillFrom(original, movable, replacement)
           == FillFrom(init, movable, replacement[..|replacement| - 1]) + [replacement[|replacement| - 1]]
      else
        && Filter(original, In(movable)) == Filter(init, In(movable))
        && FillFrom(original, movable, replacement) == FillFrom(init, movable, replacement) + [last]
  {
  }

  lemma FilterOneMore(s: seq<nat>, x: nat, movable: set<nat>)
    ensures Filter(s + [x], In(movable)) == Filter(s, In(movable)) + if x in movable then [x] else []
  {
    assert (s + [x])[..|s|] == s;
  }

  lemma {:induction false} FillKeepsSlots(original: seq<nat>, movable: set<nat>, replacement: seq<nat>)
    requires |Filter(original, In(movable))| == |replacement|
    ensures var r := FillFrom(original, movable, replacement);
      |r| == |original| && forall k | 0 <= k < |r| && original[k] !in movable :: r[k] == original[k]
  {
    if original != [] {
      var init, last := original[..|original| - 1], original[|original| - 1];
      FillStep(original, movable, replacement);
      hide Filter; hide FillFrom;
      FillKeepsSlots(init, movable, if last in movable then replacement[..|replacement| - 1] else replacement);
    }
  }

  lemma {:induction false} FillInOrder(original: seq<nat>, movable: set<nat>, replacement: seq<nat>)
    requires |Filter(original, In(movable))| == |replacement| && forall i | i in replacement :: i in movable
    ensures Filter(FillFrom(original, movable, replacement), In(movable)) == replacement
  {
    if original != [] {
      var init, last := original[..|original| - 1], original[|original| - 1];
      FillStep(original, movable, replacement);
      hide Filter; hide FillFrom;
      if last in movable {
        var front, back := replacement[..|replacement| - 1], replacement[|replacement| - 1];
        assert replacement == front + [back] && back in replacement;
        FillInOrder(init, movable, front);
        FilterOneMore(FillFrom(init, movable, front), back, movable);
      } else {
        FillInOrder(init, movable, replacement);
        FilterOneMore(FillFrom(init, movable, replacement), last, movable);
      }
    }
  }

  lemma OneMoreCounted(s: seq<nat>, x: nat)
    ensures multiset(s + [x]) == multiset(s) + multiset{x}
  {
  }

  /** One more element, in the two ways the fill takes it. */
  lemma OneMoreSlot(filled: seq<nat>, kept: seq<nat>, init: seq<nat>, front: seq<nat>, back: nat, last: nat)
    requires multiset(filled) + multiset(kept) == multiset(init) + multiset(front)
    ensures multiset(filled + [back]) + multiset(kept + [last]) == multiset(init + [last]) + multiset(front + [back])
    ensures multiset(filled + [last]) + multiset(kept) == multiset(init + [last]) + multiset(front)
  {
    OneMoreCounted(filled, back);
    OneMoreCounted(kept, last);
    OneMoreCounted(init, last);
    OneMoreCounted(front, back);
    OneMoreCounted(filled, last);
    Grow(multiset(filled), multiset(kept), multiset(init), multiset(front), multiset{back}, multiset{last});
    Grow(multiset(filled), multiset(kept), multiset(init), multiset(front), multiset{last}, multiset{});
  }

  lemma {:induction false} FillCounts(original: seq<nat>, movable: set<nat>, replacement: seq<nat>)
    requires |Filter(original, In(movable))| == |replacement|
    ensures multiset(FillFrom(original, movable, replacement)) + multiset(Filter(original, In(movable)))
         == multiset(original) + multiset(replacement)
  {
    if original == [] {
      assert replacement == [];
    } else {
      var init, last := original[..|original| - 1], original[|original| - 1];
      FillStep(original, movable, replacement);
      assert original == init + [last];
      var front := if last in movable then replacement[..|replacement| - 1] else replacement;
      FillCounts(init, movable, front);
      var back := if last in movable then replacement[|replacement| - 1] else last;
      assert last in movable ==> replacement == front + [back];
      OneMoreSlot(FillFrom(init, movable, front), Filter(init, In(movable)), init, front, back, last);
      hide *;
    }
  }

  /** Adding `x` and `y` on both sides, in the two ways the fill does. */
  lemma Grow(a: multiset<nat>, b: multiset<nat>, c: multiset<nat>, d: multiset<nat>, x: multiset<nat>, y: multiset<nat>)
    requires a + b == c + d
    ensures (a + x) + (b + y) == (c + y) + (d + x)
    ensures (a + x) + b == (c + x) + d
  {
    forall e
      ensures ((a + x) + (b + y))[e] == ((c + y) + (d + x))[e]
      ensures ((a + x) + b)[e] == ((c + x) + d)[e]
    {
      assert (a + b)[e] == (c + d)[e];
    }
  }

  lemma Cancel(a: multiset<nat>, b: multiset<nat>, c: multiset<nat>)
    requires a + c == b + c
    ensures a == b
  {
    forall x ensures a[x] == b[x] {
      assert (a + c)[x] == (b + c)[x];
    }
  }

  lemma FillSlotsFacts(original: seq<nat>, ordered: seq<nat>)
    requires Arranges(ordered, original)
    ensures var r := FillSlots(original, ordered);
      && multiset(r) == multiset(original) && |r| == |original|
      && (forall k | 0 <= k < |r| && original[k] !in ordered :: r[k] == original[k])
      && Filter(r, In(Elements(ordered))) == ordered
  {
    hide FillFrom; hide Filter; hide NoRepeats;
    MovableFit(original, ordered);
    FillKeepsSlots(original, Elements(ordered), ordered);
    FillInOrder(original, Elements(ordered), ordered);
    FillCounts(original, Elements(ordered), ordered);
    Cancel(multiset(FillSlots(original, ordered)), multiset(original), multiset(ordered));
  }

  // ---------------------------------------------------------------- a page's layout order

  function Range(n: nat): (r: seq<nat>)
    ensures |r| == n && forall k | 0 <= k < n :: r[k] == k
  {
    seq(n, k => k)
  }

  type PageBoxes = seq<Option<Box>>

  function ValidBoxes(boxes: PageBoxes): Layout {
    map i: nat | i < |boxes| && boxes[i].Some? && Proper(boxes[i].value) :: boxes[i].value
  }

  function ValidIndices(boxes: PageBoxes): seq<nat> {
    Filter(Range(|boxes|), In(ValidBoxes(boxes).Keys))
  }

  lemma ValidIndicesFacts(boxes: PageBoxes)
    ensures AllProper(ValidBoxes(boxes), ValidIndices(boxes)) && NoRepeats(ValidIndices(boxes))
    ensures forall i: nat :: i in ValidIndices(boxes) <==> i < |boxes| && boxes[i].Some? && Proper(boxes[i].value)
  {
    var range, keep := Range(|boxes|), In(ValidBoxes(boxes).Keys);
    FilterElements(range, keep);
    FilterCounts(range, keep);
    NoRepeatsCounts(range);
    NoRepeatsCounts(ValidIndices(boxes));
    forall i: nat ensures i in range <==> i < |boxes| {
      assert i < |boxes| ==> range[i] == i;
    }
  }

  lemma CutArranges(boxes: PageBoxes, levels: nat)
    ensures AllProper(ValidBoxes(boxes), ValidIndices(boxes))
    ensures Arranges(Cut(ValidBoxes(boxes), ValidIndices(boxes), levels), Range(|boxes|))
    ensures Elements(Cut(ValidBoxes(boxes), ValidIndices(boxes), levels)) == ValidBoxes(boxes).Keys
  {
    ValidIndicesFacts(boxes);
    hide Cut;
    CutIsPermutation(ValidBoxes(boxes), ValidIndices(boxes), levels);
    var cut := Cut(ValidBoxes(boxes), ValidIndices(boxes), levels);
    SameCountsSameElements(cut, ValidIndices(boxes));
    NoRepeatsCounts(cut);
    NoRepeatsCounts(ValidIndices(boxes));
    forall i | i in cut ensures i in Range(|boxes|) {
      assert Range(|boxes|)[i] == i;
    }
  }

  function XyCutOrder(boxes: PageBoxes): seq<nat> {
    CutArranges(boxes, DEPTH_CAP);
    FillSlots(Range(|boxes|), Cut(ValidBoxes(boxes), ValidIndices(boxes), DEPTH_CAP))
  }

  /** Every element once; those without valid geometry in their own slots, the rest in the order the
      cuts found. */
  lemma XyCutOrderIsPermutation(boxes: PageBoxes)
    ensures var order := XyCutOrder(boxes);
      && multiset(order) == multiset(Range(|boxes|)) && |order| == |boxes|
      && (forall k | 0 <= k < |boxes| && !(boxes[k].Some? && Proper(boxes[k].value)) :: order[k] == k)
      && AllProper(ValidBoxes(boxes), ValidIndices(boxes))
      && Filter(order, In(ValidBoxes(boxes).Keys)) == Cut(ValidBoxes(boxes), ValidIndices(boxes), DEPTH_CAP)
  {
    hide Cut;
    CutArranges(boxes, DEPTH_CAP);
    var cut := Cut(ValidBoxes(boxes), ValidIndices(boxes), DEPTH_CAP);
    FillSlotsFacts(Range(|boxes|), cut);
    assert forall k | 0 <= k < |boxes| && k in cut :: k in Elements(cut);
  }

  // ---------------------------------------------------------------- the vote

  /** Where an element's first drawing operator stands: its content stream, and its place in it. */
  type Operators = map<nat, (int, int)>

  predicate DrawnBefore(ops: Operators, i: nat, j: nat)
    requires i in ops && j in ops
  {
    var a, b := ops[i], ops[j];
    a.0 < b.0 || (a.0 == b.0 && (a.1 < b.1 || (a.1 == b.1 && i <= j)))
  }

  function Draws(ops: Operators): (nat, nat) -> bool {
    (i: nat, j: nat) => if i in ops && j in ops then DrawnBefore(ops, i, j) else i <= j
  }

  function DrawnIndices(n: nat, ops: Operators): seq<nat> {
    Sorted(Filter(Range(n), In(ops.Keys)), Draws(ops))
  }

  lemma DrawnArranges(n: nat, ops: Operators)
    requires forall i | i in ops :: i < n
    ensures Arranges(DrawnIndices(n, ops), Range(n)) && Elements(DrawnIndices(n, ops)) == ops.Keys
  {
    var keys := Filter(Range(n), In(ops.Keys));
    RangeElements(n);
    RangePart(n, ops.Keys);
    SortedCounts(keys, Draws(ops));
    SortedElements(keys, Draws(ops));
    NoRepeatsCounts(keys);
    NoRepeatsCounts(DrawnIndices(n, ops));
    hide Filter; hide Sorted; hide NoRepeats; hide Draws;
  }

  lemma RangeElements(n: nat)
    ensures NoRepeats(Range(n)) && forall i: nat :: i in Range(n) <==> i < n
  {
    forall i: nat | i < n ensures i in Range(n) {
      assert Range(n)[i] == i;
    }
  }

  lemma RangePart(n: nat, keys: set<nat>)
    ensures NoRepeats(Filter(Range(n), In(keys))) && forall i: nat :: i in Filter(Range(n), In(keys)) <==> i < n && i in keys
  {
    RangeElements(n);
    FilterElements(Range(n), In(keys));
    FilterCounts(Range(n), In(keys));
    NoRepeatsCounts(Range(n));
    NoRepeatsCounts(Filter(Range(n), In(keys)));
    hide Filter; hide NoRepeats;
  }

  function DrawingOrder(n: nat, ops: Operators): seq<nat>
    requires forall i | i in ops :: i < n
  {
    DrawnArranges(n, ops);
    FillSlots(Range(n), DrawnIndices(n, ops))
  }

  const AGREES := 0.9
  const DISAGREES := 0.8

  /** Docling's order `d` is outvoted when drawing `p` and layout `x` agree with each other and not with it. */
  predicate Outvoted(d: seq<nat>, p: seq<nat>, x: seq<nat>) {
    if |d| <= 5 then p == x && d != p && d != x
    else Kendall.Tau(p, x) >= AGREES && Kendall.Tau(d, p) <= DISAGREES && Kendall.Tau(d, x) <= DISAGREES
  }

  /** Drawn elements with valid geometry: what both witnesses speak of. */
  function Evidence(boxes: PageBoxes, ops: Operators): set<nat> {
    ops.Keys * ValidBoxes(boxes).Keys
  }

  function Among(order: seq<nat>, evidence: set<nat>): seq<nat> {
    Filter(order, In(evidence))
  }

  predicate UsesDrawing(boxes: PageBoxes, ops: Operators)
    requires forall i | i in ops :: i < |boxes|
  {
    var d, p, x := Range(|boxes|), DrawingOrder(|boxes|, ops), XyCutOrder(boxes);
    var evidence := Evidence(boxes, ops);
    && Outvoted(d, p, x) && |evidence| >= 2
    && Outvoted(Among(d, evidence), Among(p, evidence), Among(x, evidence))
  }

  function ChooseOrder(boxes: PageBoxes, ops: Operators): seq<nat>
    requires forall i | i in ops :: i < |boxes|
  {
    if UsesDrawing(boxes, ops) then DrawingOrder(|boxes|, ops) else Range(|boxes|)
  }

  lemma SameMeansTauOne(s: seq<nat>)
    requires Kendall.NoRepeats(s)
    ensures Kendall.Tau(s, s) == 1.0
  {
    Kendall.TauInRange(s, s);
  }

  lemma OutvotedMeansDifferent(d: seq<nat>, p: seq<nat>, x: seq<nat>)
    requires Outvoted(d, p, x) && Kendall.NoRepeats(d)
    ensures d != p && d != x
  {
    SameMeansTauOne(d);
  }

  lemma AmongRange(n: nat, evidence: set<nat>)
    ensures Kendall.NoRepeats(Range(n)) && Kendall.NoRepeats(Among(Range(n), evidence))
  {
    RangeElements(n);
    RangePart(n, evidence);
    assert NoRepeats(Range(n)) && NoRepeats(Among(Range(n), evidence));
  }

  lemma DrawingOrderFacts(n: nat, ops: Operators)
    requires forall i | i in ops :: i < n
    ensures var order := DrawingOrder(n, ops);
      && multiset(order) == multiset(Range(n)) && |order| == n
      && forall k | 0 <= k < n && k !in ops :: order[k] == k
  {
    DrawnArranges(n, ops);
    FillSlotsFacts(Range(n), DrawnIndices(n, ops));
    hide FillSlots; hide DrawnIndices; hide Filter; hide NoRepeats;
    forall k | 0 <= k < n && k !in ops ensures k !in DrawnIndices(n, ops) {
      assert k !in Elements(DrawnIndices(n, ops));
    }
  }

  /** The chosen order has every element once and keeps what was not drawn in its slot. It leaves
      Docling's only for the drawing order, and then the two differ, over the page and over the
      evidence alone, and the layout differs from Docling's in both places as well. */
  lemma ChosenOrderIsSafe(boxes: PageBoxes, ops: Operators)
    requires forall i | i in ops :: i < |boxes|
    ensures var order, docling := ChooseOrder(boxes, ops), Range(|boxes|);
      && multiset(order) == multiset(docling) && |order| == |boxes|
      && (forall k | 0 <= k < |boxes| && k !in ops :: order[k] == k)
      && (UsesDrawing(boxes, ops) <==> order != docling)
      && (UsesDrawing(boxes, ops) ==>
            var evidence := Evidence(boxes, ops);
            && order == DrawingOrder(|boxes|, ops) && XyCutOrder(boxes) != docling
            && Among(order, evidence) != Among(docling, evidence)
            && Among(XyCutOrder(boxes), evidence) != Among(docling, evidence))
  {
    hide Among; hide DrawingOrder; hide XyCutOrder; hide Outvoted; hide Evidence;
    DrawingOrderFacts(|boxes|, ops);
    var evidence := Evidence(boxes, ops);
    AmongRange(|boxes|, evidence);
    if UsesDrawing(boxes, ops) {
      OutvotedMeansDifferent(Range(|boxes|), DrawingOrder(|boxes|, ops), XyCutOrder(boxes));
      OutvotedMeansDifferent(Among(Range(|boxes|), evidence), Among(DrawingOrder(|boxes|, ops), evidence),
                             Among(XyCutOrder(boxes), evidence));
    }
  }

  // ---------------------------------------------------------------- when the drawing order wins

  /** How many pairs of elements the two orders put the other way round. */
  function Disagreements(first: seq<nat>, second: seq<nat>): nat {
    |Kendall.Discordant(first, second)|
  }

  /** Drawing and layout agree with each other and not with Docling: on up to five elements they are the
      same order and another one than Docling's; on more, they differ in a twentieth of the pairs at
      most, and either differs from Docling's in a tenth of them at least. */
  predicate ClearVote(d: seq<nat>, p: seq<nat>, x: seq<nat>) {
    var n := |d|;
    if n <= 5 then p == x && p != d
    else
      && 40 * Disagreements(p, x) <= n * (n - 1)
      && 20 * Disagreements(d, p) >= n * (n - 1) && 20 * Disagreements(d, x) >= n * (n - 1)
  }

  lemma RateThresholds(n: nat, discordant: nat)
    requires n >= 2
    ensures Kendall.Rate(n, discordant) >= 0.9 <==> 40 * discordant <= n * (n - 1)
    ensures Kendall.Rate(n, discordant) <= 0.8 <==> 20 * discordant >= n * (n - 1)
  {
    var m := n * (n - 1);
    assert m > 0;
    var share := 4.0 * discordant as real / m as real;
    assert Kendall.Rate(n, discordant) == 1.0 - share;
    assert share * m as real == 4.0 * discordant as real;
    ShareThreshold(share, m, discordant, 0.1);
    ShareThreshold(share, m, discordant, 0.2);
  }

  lemma ShareThreshold(share: real, m: int, discordant: nat, limit: real)
    requires m > 0 && share * m as real == 4.0 * discordant as real
    ensures share <= limit <==> 4.0 * discordant as real <= limit * m as real
    ensures share >= limit <==> 4.0 * discordant as real >= limit * m as real
  {
    if share < limit {
      assert (limit - share) * m as real > 0.0;
    }
    if share > limit {
      assert (share - limit) * m as real > 0.0;
    }
  }

  lemma {:induction false} CountElements(s: seq<nat>)
    requires NoRepeats(s)
    ensures |Elements(s)| == |s|
  {
    if s != [] {
      var init, last := s[..|s| - 1], s[|s| - 1];
      assert s == init + [last];
      CountElements(init);
      assert last !in Elements(init);
      assert Elements(s) == Elements(init) + {last};
    }
  }

  lemma {:induction false} SameSize(ints: set<int>, nats: set<nat>)
    requires forall i: int :: i in ints <==> i >= 0 && i in nats
    ensures |ints| == |nats|
  {
    if ints == {} {
      assert forall i: nat :: i !in nats;
    } else {
      var i := Counting.Pick(ints);
      SameSize(ints - {i}, nats - {i});
    }
  }

  lemma AllShared(first: seq<nat>, second: seq<nat>)
    requires NoRepeats(first) && multiset(first) == multiset(second)
    ensures |Kendall.Shared(first, second)| == |first|
  {
    SameCountsSameElements(first, second);
    CountElements(first);
    SameSize(Kendall.Shared(first, second), Elements(first));
  }

  lemma VoteIsClear(d: seq<nat>, p: seq<nat>, x: seq<nat>)
    requires NoRepeats(d) && multiset(p) == multiset(d) && multiset(x) == multiset(d)
    ensures Outvoted(d, p, x) <==> ClearVote(d, p, x)
  {
    NoRepeatsCounts(d);
    NoRepeatsCounts(p);
    AllShared(d, p);
    AllShared(d, x);
    AllShared(p, x);
    assert |multiset(p)| == |p| && |multiset(d)| == |d|;
    hide NoRepeats; hide Kendall.Shared; hide Kendall.Discordant; hide Kendall.Rate;
    if |d| > 5 {
      RateThresholds(|d|, Disagreements(p, x));
      RateThresholds(|d|, Disagreements(d, p));
      RateThresholds(|d|, Disagreements(d, x));
    }
  }

  lemma SameAmong(order: seq<nat>, other: seq<nat>, evidence: set<nat>)
    requires multiset(order) == multiset(other)
    ensures multiset(Among(order, evidence)) == multiset(Among(other, evidence))
  {
    FilterCounts(order, In(evidence));
    FilterCounts(other, In(evidence));
    assert forall i :: multiset(Among(order, evidence))[i] == multiset(Among(other, evidence))[i];
  }

  /** Docling's order gives way to the drawing order exactly on two clear votes: one over the page, one
      over at least two elements that were drawn and have valid geometry. */
  lemma DrawingIsChosenIff(boxes: PageBoxes, ops: Operators)
    requires forall i | i in ops :: i < |boxes|
    ensures var order, d, p, x := ChooseOrder(boxes, ops), Range(|boxes|), DrawingOrder(|boxes|, ops), XyCutOrder(boxes);
      var evidence := Evidence(boxes, ops);
      && (order != d <==> |evidence| >= 2 && ClearVote(d, p, x) && ClearVote(Among(d, evidence), Among(p, evidence), Among(x, evidence)))
      && (order != d ==> order == p)
  {
    var d, p, x := Range(|boxes|), DrawingOrder(|boxes|, ops), XyCutOrder(boxes);
    var evidence := Evidence(boxes, ops);
    ChosenOrderIsSafe(boxes, ops);
    DrawingOrderFacts(|boxes|, ops);
    XyCutOrderIsPermutation(boxes);
    RangeElements(|boxes|);
    AmongRange(|boxes|, evidence);
    hide DrawingOrder; hide XyCutOrder; hide Among; hide Outvoted; hide ClearVote; hide Evidence; hide Cut; hide AllProper; hide ValidBoxes;
    VoteIsClear(d, p, x);
    SameAmong(p, d, evidence);
    SameAmong(x, d, evidence);
    assert NoRepeats(Among(d, evidence));
    VoteIsClear(Among(d, evidence), Among(p, evidence), Among(x, evidence));
  }
}

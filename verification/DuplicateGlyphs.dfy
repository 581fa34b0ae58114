/** backend/app/pipeline/pdfium_text.py `duplicate_indices`: coincident copies of a glyph, found through
    half-point buckets instead of by comparing every pair. */
module DuplicateGlyphs {

  datatype Box = Box(left: real, bottom: real, right: real, top: real)

  /** `skipped` stands for white space and characters pdfium generated. */
  datatype Glyph = Glyph(text: char, skipped: bool, box: Box)

  // ---------------------------------------------------------------- Python's `round`

  function RoundHalfEven(x: real): int {
    var floor := x.Floor;
    var part := x - floor as real;
    if part < 0.5 then floor
    else if part > 0.5 then floor + 1
    else if floor % 2 == 0 then floor
    else floor + 1
  }

  /** The one way two numbers at most one apart round to numbers two apart. */
  predicate TieSplits(x: real, y: real) {
    y - x == 1.0 && x - x.Floor as real == 0.5 && x.Floor % 2 == 0
  }

  predicate Neighbours(m: int, n: int) {
    -1 <= m - n <= 1
  }

  lemma FloorMoves(x: real, y: real)
    requires 0.0 <= y - x <= 1.0
    ensures x.Floor <= y.Floor <= x.Floor + 1
    ensures y - x == 1.0 ==> y.Floor == x.Floor + 1
  {
    assert (x + 1.0).Floor == x.Floor + 1;
  }

  lemma RoundingKeepsNeighbours(x: real, y: real)
    requires 0.0 <= y - x <= 1.0
    ensures Neighbours(RoundHalfEven(x), RoundHalfEven(y)) <==> !TieSplits(x, y)
  {
    FloorMoves(x, y);
  }

  // ---------------------------------------------------------------- what a duplicate is

  function Abs(x: real): real {
    if x >= 0.0 then x else -x
  }

  predicate EdgesWithin(a: Box, b: Box, limit: real) {
    && Abs(a.left - b.left) <= limit && Abs(a.bottom - b.bottom) <= limit
    && Abs(a.right - b.right) <= limit && Abs(a.top - b.top) <= limit
  }

  predicate EdgesUnder(a: Box, b: Box, limit: real) {
    && Abs(a.left - b.left) < limit && Abs(a.bottom - b.bottom) < limit
    && Abs(a.right - b.right) < limit && Abs(a.top - b.top) < limit
  }

  function Column(b: Box): int {
    RoundHalfEven(b.left * 2.0)
  }

  function Row(b: Box): int {
    RoundHalfEven(b.bottom * 2.0)
  }

  /** Copies the buckets bring together. */
  predicate Coincide(a: Glyph, b: Glyph) {
    && !a.skipped && !b.skipped && a.text == b.text
    && Neighbours(Column(a.box), Column(b.box)) && Neighbours(Row(a.box), Row(b.box))
    && EdgesWithin(a.box, b.box, 0.5)
  }

  lemma CoincideIsSymmetric(a: Glyph, b: Glyph)
    ensures Coincide(a, b) == Coincide(b, a)
  {
  }

  /** The unmarked glyphs with a marked coincident copy, among the first `n`. */
  function Duplicates(glyphs: seq<Glyph>, marked: set<nat>, n: nat): set<nat>
    requires n <= |glyphs|
  {
    set i: nat | i < n && i !in marked && exists j: nat :: j < n && j in marked && Coincide(glyphs[i], glyphs[j])
  }

  // ---------------------------------------------------------------- the scan

  type Key = (char, int, int)

  function KeyOf(g: Glyph): Key {
    (g.text, Column(g.box), Row(g.box))
  }

  type Buckets = map<Key, seq<nat>>

  function BucketAt(buckets: Buckets, k: Key): seq<nat> {
    if k in buckets then buckets[k] else []
  }

  /** Every glyph of the first `n` that counts is in its own bucket, and in no other. */
  ghost predicate Filed(glyphs: seq<Glyph>, n: nat, buckets: Buckets)
    requires n <= |glyphs|
  {
    && (forall k | k in buckets :: forall i | i in buckets[k] :: i < n && !glyphs[i].skipped && KeyOf(glyphs[i]) == k)
    && (forall i | 0 <= i < n && !glyphs[i].skipped :: KeyOf(glyphs[i]) in buckets && i in buckets[KeyOf(glyphs[i])])
  }

  /** What comparing glyph `n` with these earlier ones adds. */
  function Found(glyphs: seq<Glyph>, marked: set<nat>, n: nat, among: set<nat>): set<nat>
    requires n < |glyphs| && forall j | j in among :: j < n
  {
    (set j | j in among && n in marked && j !in marked && EdgesWithin(glyphs[n].box, glyphs[j].box, 0.5))
    + if n !in marked && exists j :: j in among && j in marked && EdgesWithin(glyphs[n].box, glyphs[j].box, 0.5) then {n} else {}
  }

  lemma FoundGrows(glyphs: seq<Glyph>, marked: set<nat>, n: nat, a: set<nat>, b: set<nat>)
    requires n < |glyphs| && forall j | j in a + b :: j < n
    ensures Found(glyphs, marked, n, a + b) == Found(glyphs, marked, n, a) + Found(glyphs, marked, n, b)
  {
  }

  function Elements(s: seq<nat>): (r: set<nat>)
    ensures forall i :: i in r <==> i in s
  {
    set i | i in s
  }

  /** Compare a glyph with one bucket. */
  method ScanBucket(glyphs: seq<Glyph>, marked: set<nat>, n: nat, bucket: seq<nat>, before: set<nat>)
    returns (duplicates: set<nat>)
    requires n < |glyphs| && before !! marked && forall j | j in bucket :: j < n
    ensures duplicates == before + Found(glyphs, marked, n, Elements(bucket)) && duplicates !! marked
  {
    hide EdgesWithin;
    duplicates := before;
    var k := 0;
    assert Elements(bucket[..0]) == {};
    while k < |bucket|
      invariant 0 <= k <= |bucket| && duplicates !! marked
      invariant forall j | j in bucket[..k] :: j < n
      invariant duplicates == before + Found(glyphs, marked, n, Elements(bucket[..k]))
    {
      var previous := bucket[k];
      assert previous in bucket;
      assert bucket[..k + 1] == bucket[..k] + [previous];
      assert Elements(bucket[..k + 1]) == Elements(bucket[..k]) + {previous};
      FoundGrows(glyphs, marked, n, Elements(bucket[..k]), {previous});
      k := k + 1;
      if (n in marked) == (previous in marked) {
        continue;
      }
      if previous !in duplicates && EdgesWithin(glyphs[n].box, glyphs[previous].box, 0.5) {
        if n in marked {
          duplicates := duplicates + {previous};
        } else {
          duplicates := duplicates + {n};
        }
      }
    }
    assert bucket[..k] == bucket;
  }

  /** The earlier glyphs in the nine buckets around glyph `n`, up to offset `step`. */
  function Around(glyphs: seq<Glyph>, n: nat, step: nat): (r: set<nat>)
    requires n < |glyphs|
    ensures forall j | j in r :: j < n
  {
    set j: nat, s: nat | j < n && s < step && !glyphs[j].skipped && KeyOf(glyphs[j]) == NearKey(glyphs[n], s) :: j
  }

  /** The nine offsets, in the order the two loops take them. */
  function NearKey(g: Glyph, step: nat): Key {
    (g.text, Column(g.box) + step / 3 - 1, Row(g.box) + step % 3 - 1)
  }

  lemma AroundGrows(glyphs: seq<Glyph>, n: nat, step: nat, bucket: seq<nat>)
    requires n < |glyphs|
    requires forall i: nat :: i in bucket <==> i < n && !glyphs[i].skipped && KeyOf(glyphs[i]) == NearKey(glyphs[n], step)
    ensures Around(glyphs, n, step + 1) == Around(glyphs, n, step) + Elements(bucket)
  {
    hide NearKey; hide KeyOf;
    forall j ensures j in Around(glyphs, n, step + 1) <==> j in Around(glyphs, n, step) + Elements(bucket) {
    }
  }

  lemma NineCoverTheNeighbours(glyphs: seq<Glyph>, n: nat, j: nat)
    requires j < n < |glyphs|
    ensures j in Around(glyphs, n, 9)
       <==> !glyphs[j].skipped && glyphs[j].text == glyphs[n].text
            && Neighbours(Column(glyphs[n].box), Column(glyphs[j].box)) && Neighbours(Row(glyphs[n].box), Row(glyphs[j].box))
  {
    hide RoundHalfEven;
    var dx, dy := Column(glyphs[j].box) - Column(glyphs[n].box), Row(glyphs[j].box) - Row(glyphs[n].box);
    if -1 <= dx <= 1 && -1 <= dy <= 1 {
      var s := (dx + 1) * 3 + (dy + 1);
      assert s / 3 == dx + 1 && s % 3 == dy + 1;
      assert glyphs[j].text == glyphs[n].text ==> KeyOf(glyphs[j]) == NearKey(glyphs[n], s);
    }
  }

  lemma DuplicatesGrow(glyphs: seq<Glyph>, marked: set<nat>, n: nat)
    requires n < |glyphs|
    ensures Duplicates(glyphs, marked, n + 1)
         == Duplicates(glyphs, marked, n) + if glyphs[n].skipped then {} else Found(glyphs, marked, n, Around(glyphs, n, 9))
  {
    hide EdgesWithin; hide Column; hide Row; hide Around; hide Neighbours;
    forall j: nat | j < n
      ensures Coincide(glyphs[j], glyphs[n]) <==> Coincide(glyphs[n], glyphs[j])
      ensures Coincide(glyphs[n], glyphs[j])
         <==> !glyphs[n].skipped && j in Around(glyphs, n, 9) && EdgesWithin(glyphs[n].box, glyphs[j].box, 0.5)
    {
      CoincideIsSymmetric(glyphs[j], glyphs[n]);
      NineCoverTheNeighbours(glyphs, n, j);
    }
    var found := if glyphs[n].skipped then {} else Found(glyphs, marked, n, Around(glyphs, n, 9));
    hide Coincide;
    forall i ensures i in Duplicates(glyphs, marked, n + 1) <==> i in Duplicates(glyphs, marked, n) + found {
    }
  }

  method FindDuplicates(glyphs: seq<Glyph>, marked: set<nat>) returns (duplicates: set<nat>)
    ensures duplicates == Duplicates(glyphs, marked, |glyphs|)
  {
    hide Found; hide Around; hide KeyOf; hide NearKey; hide Duplicates;
    duplicates := {};
    var buckets: Buckets := map[];
    var n := 0;
    StartsEmpty(glyphs, marked);
    while n < |glyphs|
      invariant 0 <= n <= |glyphs| && duplicates !! marked
      invariant duplicates == Duplicates(glyphs, marked, n) && Filed(glyphs, n, buckets)
    {
      var glyph := glyphs[n];
      DuplicatesGrow(glyphs, marked, n);
      if glyph.skipped {
        FiledSkips(glyphs, n, buckets);
        n := n + 1;
        continue;
      }
      duplicates := ScanAround(glyphs, marked, n, buckets, duplicates);
      FiledOneMore(glyphs, n, buckets);
      buckets := buckets[KeyOf(glyph) := BucketAt(buckets, KeyOf(glyph)) + [n]];
      n := n + 1;
    }
  }

  method ScanAround(glyphs: seq<Glyph>, marked: set<nat>, n: nat, buckets: Buckets, before: set<nat>)
    returns (duplicates: set<nat>)
    requires n < |glyphs| && before !! marked && Filed(glyphs, n, buckets)
    ensures duplicates == before + Found(glyphs, marked, n, Around(glyphs, n, 9)) && duplicates !! marked
  {
    hide Found; hide KeyOf; hide NearKey;
    duplicates := before;
    var step := 0;
    NothingAround(glyphs, marked, n);
    while step < 9
      invariant 0 <= step <= 9 && duplicates !! marked
      invariant duplicates == before + Found(glyphs, marked, n, Around(glyphs, n, step))
    {
      var bucket := BucketAt(buckets, NearKey(glyphs[n], step));
      forall i: nat ensures i in bucket <==> i < n && !glyphs[i].skipped && KeyOf(glyphs[i]) == NearKey(glyphs[n], step) {
        FiledMeans(glyphs, n, buckets, NearKey(glyphs[n], step), i);
      }
      AroundGrows(glyphs, n, step, bucket);
      FoundGrows(glyphs, marked, n, Around(glyphs, n, step), Elements(bucket));
      duplicates := ScanBucket(glyphs, marked, n, bucket, duplicates);
      step := step + 1;
    }
  }

  lemma NothingAround(glyphs: seq<Glyph>, marked: set<nat>, n: nat)
    requires n < |glyphs|
    ensures Around(glyphs, n, 0) == {} && Found(glyphs, marked, n, {}) == {}
  {
  }

  lemma StartsEmpty(glyphs: seq<Glyph>, marked: set<nat>)
    ensures Duplicates(glyphs, marked, 0) == {} && Filed(glyphs, 0, map[])
  {
  }

  lemma FiledSkips(glyphs: seq<Glyph>, n: nat, buckets: Buckets)
    requires n < |glyphs| && Filed(glyphs, n, buckets) && glyphs[n].skipped
    ensures Filed(glyphs, n + 1, buckets)
  {
  }

  lemma FiledOneMore(glyphs: seq<Glyph>, n: nat, buckets: Buckets)
    requires n < |glyphs| && Filed(glyphs, n, buckets) && !glyphs[n].skipped
    ensures Filed(glyphs, n + 1, buckets[KeyOf(glyphs[n]) := BucketAt(buckets, KeyOf(glyphs[n])) + [n]])
  {
    hide KeyOf;
  }

  lemma FiledMeans(glyphs: seq<Glyph>, n: nat, buckets: Buckets, k: Key, i: nat)
    requires n <= |glyphs| && Filed(glyphs, n, buckets)
    ensures i in BucketAt(buckets, k) <==> i < n && !glyphs[i].skipped && KeyOf(glyphs[i]) == k
  {
    hide KeyOf;
  }

  // ---------------------------------------------------------------- what the search promises

  /** The unmarked glyphs with a marked copy whose edges all agree: within the limit, or strictly under it. */
  predicate HasCopy(glyphs: seq<Glyph>, marked: set<nat>, i: nat, strictly: bool)
    requires i < |glyphs|
  {
    i !in marked && exists j: nat ::
      && j < |glyphs| && j in marked && !glyphs[i].skipped && !glyphs[j].skipped && glyphs[i].text == glyphs[j].text
      && if strictly then EdgesUnder(glyphs[i].box, glyphs[j].box, 0.5) else EdgesWithin(glyphs[i].box, glyphs[j].box, 0.5)
  }

  lemma CloseColumnsMeet(x: real, y: real)
    ensures Abs(x - y) < 0.5 ==> Neighbours(RoundHalfEven(x * 2.0), RoundHalfEven(y * 2.0))
    ensures Abs(x - y) <= 0.5 ==>
              (Neighbours(RoundHalfEven(x * 2.0), RoundHalfEven(y * 2.0))
               <==> !TieSplits(x * 2.0, y * 2.0) && !TieSplits(y * 2.0, x * 2.0))
  {
    if Abs(x - y) <= 0.5 {
      if x <= y {
        RoundingKeepsNeighbours(x * 2.0, y * 2.0);
      } else {
        RoundingKeepsNeighbours(y * 2.0, x * 2.0);
      }
    }
  }

  /** Within the limit, two copies come together unless a corner coordinate splits on a rounding tie. */
  lemma CoincideIff(a: Glyph, b: Glyph)
    requires !a.skipped && !b.skipped && a.text == b.text && EdgesWithin(a.box, b.box, 0.5)
    ensures Coincide(a, b)
       <==> !(TieSplits(a.box.left * 2.0, b.box.left * 2.0) || TieSplits(b.box.left * 2.0, a.box.left * 2.0)
              || TieSplits(a.box.bottom * 2.0, b.box.bottom * 2.0) || TieSplits(b.box.bottom * 2.0, a.box.bottom * 2.0))
    ensures EdgesUnder(a.box, b.box, 0.5) ==> Coincide(a, b)
  {
    hide RoundHalfEven; hide TieSplits;
    CloseColumnsMeet(a.box.left, b.box.left);
    CloseColumnsMeet(a.box.bottom, b.box.bottom);
  }

  /** No marked glyph is ever removed; every unmarked one with a marked copy strictly under half a
      point away is; and none without a marked copy within half a point. */
  lemma BetweenTheTwoLimits(glyphs: seq<Glyph>, marked: set<nat>, i: nat)
    requires i < |glyphs|
    ensures var duplicates := Duplicates(glyphs, marked, |glyphs|);
      && (i in marked ==> i !in duplicates)
      && (HasCopy(glyphs, marked, i, true) ==> i in duplicates)
      && (i in duplicates ==> HasCopy(glyphs, marked, i, false))
  {
    hide EdgesWithin; hide EdgesUnder; hide Coincide;
    forall j: nat | j < |glyphs| && !glyphs[i].skipped && !glyphs[j].skipped && glyphs[i].text == glyphs[j].text
      ensures EdgesUnder(glyphs[i].box, glyphs[j].box, 0.5) ==> Coincide(glyphs[i], glyphs[j])
    {
      UnderIsWithin(glyphs[i].box, glyphs[j].box);
      if EdgesWithin(glyphs[i].box, glyphs[j].box, 0.5) {
        CoincideIff(glyphs[i], glyphs[j]);
      }
    }
    forall j: nat | j < |glyphs| && Coincide(glyphs[i], glyphs[j])
      ensures !glyphs[i].skipped && !glyphs[j].skipped && glyphs[i].text == glyphs[j].text && EdgesWithin(glyphs[i].box, glyphs[j].box, 0.5)
    {
      CoincideMeans(glyphs[i], glyphs[j]);
    }
  }

  lemma UnderIsWithin(a: Box, b: Box)
    ensures EdgesUnder(a, b, 0.5) ==> EdgesWithin(a, b, 0.5)
  {
  }

  lemma CoincideMeans(a: Glyph, b: Glyph)
    requires Coincide(a, b)
    ensures !a.skipped && !b.skipped && a.text == b.text && EdgesWithin(a.box, b.box, 0.5)
  {
  }

  /** The same page read in another order: `to` says where each glyph went. */
  predicate Reordered(glyphs: seq<Glyph>, others: seq<Glyph>, to: seq<nat>, marked: set<nat>, otherMarked: set<nat>) {
    && |to| == |glyphs| == |others|
    && (forall i | 0 <= i < |to| :: to[i] < |others| && others[to[i]] == glyphs[i] && (i in marked <==> to[i] in otherMarked))
    && forall k: nat | k < |others| :: k in to
  }

  /** The scan order does not matter: the same glyphs are removed. */
  lemma ScanOrderDoesNotMatter(glyphs: seq<Glyph>, others: seq<Glyph>, to: seq<nat>, marked: set<nat>, otherMarked: set<nat>, i: nat)
    requires Reordered(glyphs, others, to, marked, otherMarked) && i < |glyphs|
    ensures i in Duplicates(glyphs, marked, |glyphs|) <==> to[i] in Duplicates(others, otherMarked, |others|)
  {
    hide Coincide;
    if i in Duplicates(glyphs, marked, |glyphs|) {
      var j: nat :| j < |glyphs| && j in marked && Coincide(glyphs[i], glyphs[j]);
      assert to[j] in otherMarked && Coincide(others[to[i]], others[to[j]]);
    }
    if to[i] in Duplicates(others, otherMarked, |others|) {
      var k: nat :| k < |others| && k in otherMarked && Coincide(others[to[i]], others[k]);
      assert k in to;
      var j :| 0 <= j < |to| && to[j] == k;
      assert j in marked && Coincide(glyphs[i], glyphs[j]);
    }
  }

  /** At exactly half a point a rounding tie can keep two copies apart: left edges at 0.25 and 0.75. */
  lemma ATieCanHideACopy()
    ensures var a, b := Glyph('a', false, Box(0.25, 0.0, 5.0, 8.0)), Glyph('a', false, Box(0.75, 0.0, 5.0, 8.0));
      EdgesWithin(a.box, b.box, 0.5) && !Coincide(a, b) && Duplicates([a, b], {1}, 2) == {}
  {
    var a, b := Glyph('a', false, Box(0.25, 0.0, 5.0, 8.0)), Glyph('a', false, Box(0.75, 0.0, 5.0, 8.0));
    assert RoundHalfEven(0.5) == 0 && RoundHalfEven(1.5) == 2;
    assert a.box.left * 2.0 == 0.5 && b.box.left * 2.0 == 1.5;
    assert !Coincide(a, b);
  }
}

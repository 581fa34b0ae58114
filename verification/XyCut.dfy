/** backend/app/pipeline/reading_order.py `xy_cut_order`: recursive cuts at projection whitespace.
    Coordinates are reals; the thresholds are the source's, without rounding. */
module XyCut {
  import opened Wrappers
  import opened Sorting

  datatype Box = Box(l: real, b: real, r: real, t: real)

  predicate Proper(x: Box) {
    x.r > x.l && x.t > x.b
  }

  /** The boxes with valid geometry, by element index. */
  type Layout = map<nat, Box>

  function At(v: Layout, i: nat): Box {
    if i in v then v[i] else Box(0.0, 0.0, 0.0, 0.0)
  }

  const DEPTH_CAP := 64

  // ---------------------------------------------------------------- projections

  datatype Axis = Across | Down

  function Low(v: Layout, axis: Axis, i: nat): real {
    if axis == Across then At(v, i).l else At(v, i).b
  }

  function High(v: Layout, axis: Axis, i: nat): real {
    if axis == Across then At(v, i).r else At(v, i).t
  }

  type Interval = (real, real)

  predicate IntervalLe(x: Interval, y: Interval) {
    x.0 < y.0 || (x.0 == y.0 && x.1 <= y.1)
  }

  function Projected(v: Layout, indices: seq<nat>, axis: Axis): (s: seq<Interval>)
    ensures |s| == |indices|
    ensures forall k | 0 <= k < |s| :: s[k] == (Low(v, axis, indices[k]), High(v, axis, indices[k]))
  {
    seq(|indices|, k requires 0 <= k < |indices| => (Low(v, axis, indices[k]), High(v, axis, indices[k])))
  }

  function Intervals(v: Layout, indices: seq<nat>, axis: Axis): (s: seq<Interval>)
    ensures |s| == |indices|
  {
    SortedElements(Projected(v, indices, axis), IntervalLe);
    Sorted(Projected(v, indices, axis), IntervalLe)
  }

  function Larger(x: real, y: real): real {
    if x >= y then x else y
  }

  function Lesser(x: real, y: real): real {
    if x <= y then x else y
  }

  /** The whitespace past `end` that none of the intervals reach into. */
  function GapsFrom(end: real, intervals: seq<Interval>): seq<Interval>
    decreases |intervals|
  {
    if intervals == [] then []
    else
      (if intervals[0].0 > end then [(end, intervals[0].0)] else [])
      + GapsFrom(Larger(end, intervals[0].1), intervals[1..])
  }

  function Gaps(v: Layout, indices: seq<nat>, axis: Axis): seq<Interval>
    requires indices != []
  {
    var s := Intervals(v, indices, axis);
    GapsFrom(s[0].1, s[1..])
  }

  /** `_gaps` as its loop. */
  method FindGaps(v: Layout, indices: seq<nat>, axis: Axis) returns (gaps: seq<Interval>)
    requires indices != []
    ensures gaps == Gaps(v, indices, axis)
  {
    var intervals := Intervals(v, indices, axis);
    gaps := [];
    var end := intervals[0].1;
    var k := 1;
    while k < |intervals|
      invariant 1 <= k <= |intervals|
      invariant gaps + GapsFrom(end, intervals[k..]) == GapsFrom(intervals[0].1, intervals[1..])
    {
      assert intervals[k..][1..] == intervals[k + 1..];
      if intervals[k].0 > end {
        gaps := gaps + [(end, intervals[k].0)];
      }
      end := Larger(end, intervals[k].1);
      k := k + 1;
    }
  }

  /** A gap lies clear of every interval after `end`, with one of them beyond it. */
  lemma {:induction false} GapsFromSplit(end: real, s: seq<Interval>, g: Interval)
    requires InOrder(s, IntervalLe) && g in GapsFrom(end, s)
    ensures end <= g.0 < g.1
    ensures forall x | x in s :: x.1 <= g.0 || x.0 >= g.1
    ensures exists x | x in s :: x.0 >= g.1
    decreases |s|
  {
    assert InOrder(s[1..], IntervalLe);
    if g in GapsFrom(Larger(end, s[0].1), s[1..]) {
      GapsFromSplit(Larger(end, s[0].1), s[1..], g);
      assert forall x | x in s :: x == s[0] || x in s[1..];
    } else {
      assert s[0] in s;
      forall x | x in s ensures x.0 >= g.1 {
        var k :| 0 <= k < |s| && s[k] == x;
        assert k == 0 || IntervalLe(s[0], s[k]);
      }
    }
  }

  lemma IntervalLeIsTotal()
    ensures TotalOrder(IntervalLe)
  {
  }

  /** Every gap splits its region in two: each box lies wholly on one side, and neither is empty. */
  lemma GapSplits(v: Layout, indices: seq<nat>, axis: Axis, g: Interval)
    requires indices != [] && g in Gaps(v, indices, axis)
    ensures g.0 < g.1
    ensures forall i | i in indices :: High(v, axis, i) <= g.0 || Low(v, axis, i) >= g.1
    ensures exists i | i in indices :: High(v, axis, i) <= g.0
    ensures exists i | i in indices :: Low(v, axis, i) >= g.1
  {
    var p := Projected(v, indices, axis);
    var s := Intervals(v, indices, axis);
    IntervalLeIsTotal();
    SortedInOrder(p, IntervalLe);
    SortedElements(p, IntervalLe);
    assert InOrder(s[1..], IntervalLe);
    GapsFromSplit(s[0].1, s[1..], g);
    assert s[0] in s;
    forall i | i in indices ensures High(v, axis, i) <= g.0 || Low(v, axis, i) >= g.1 {
      var k :| 0 <= k < |indices| && indices[k] == i;
      assert p[k] in s;
      assert p[k] == s[0] || p[k] in s[1..];
    }
    var before :| 0 <= before < |p| && p[before] == s[0];
    assert indices[before] in indices;
    var x :| x in s[1..] && x.0 >= g.1;
    assert x in s;
    var after :| 0 <= after < |p| && p[after] == x;
    assert indices[after] in indices;
  }

  // ---------------------------------------------------------------- choosing a gutter

  /** Displayed order: higher first, then further left, then the source's order. */
  predicate ReadsBefore(v: Layout, i: nat, j: nat) {
    var x, y := At(v, i), At(v, j);
    x.t > y.t || (x.t == y.t && (x.l < y.l || (x.l == y.l && i <= j)))
  }

  function Reads(v: Layout): (nat, nat) -> bool {
    (i: nat, j: nat) => ReadsBefore(v, i, j)
  }

  function ByPosition(v: Layout, indices: seq<nat>): seq<nat> {
    Sorted(indices, Reads(v))
  }

  function Rightmost(v: Layout, indices: seq<nat>): real
    requires indices != []
  {
    if |indices| == 1 then At(v, indices[0]).r else Larger(At(v, indices[0]).r, Rightmost(v, indices[1..]))
  }

  function Leftmost(v: Layout, indices: seq<nat>): real
    requires indices != []
  {
    if |indices| == 1 then At(v, indices[0]).l else Lesser(At(v, indices[0]).l, Leftmost(v, indices[1..]))
  }

  function Highest(v: Layout, indices: seq<nat>): real
    requires indices != []
  {
    if |indices| == 1 then At(v, indices[0]).t else Larger(At(v, indices[0]).t, Highest(v, indices[1..]))
  }

  function Lowest(v: Layout, indices: seq<nat>): real
    requires indices != []
  {
    if |indices| == 1 then At(v, indices[0]).b else Lesser(At(v, indices[0]).b, Lowest(v, indices[1..]))
  }

  function Width(v: Layout, indices: seq<nat>): real
    requires indices != []
  {
    Rightmost(v, indices) - Leftmost(v, indices)
  }

  function OnLeft(v: Layout, g: Interval): nat -> bool {
    (i: nat) => At(v, i).r <= g.0
  }

  function OnRight(v: Layout, g: Interval): nat -> bool {
    (i: nat) => At(v, i).l >= g.1
  }

  /** Neither: it reaches across the gutter. */
  function Spans(v: Layout, g: Interval): nat -> bool {
    (i: nat) => !(At(v, i).r <= g.0) && !(At(v, i).l >= g.1)
  }

  function OverGap(v: Layout, g: Interval): nat -> bool {
    (i: nat) => At(v, i).b >= g.1
  }

  function UnderGap(v: Layout, g: Interval): nat -> bool {
    (i: nat) => At(v, i).t <= g.0
  }

  function LeftOf(v: Layout, indices: seq<nat>, g: Interval): seq<nat> {
    Filter(indices, OnLeft(v, g))
  }

  function RightOf(v: Layout, indices: seq<nat>, g: Interval): seq<nat> {
    Filter(indices, OnRight(v, g))
  }

  /** The two sides share some vertical extent, so they are columns. */
  predicate SideBySide(v: Layout, first: seq<nat>, second: seq<nat>)
    requires first != [] && second != []
  {
    Lesser(Highest(v, first), Highest(v, second)) > Larger(Lowest(v, first), Lowest(v, second))
  }

  predicate Usable(v: Layout, indices: seq<nat>, g: Interval)
    requires indices != []
  {
    && g.1 - g.0 >= Larger(6.0, 0.02 * Width(v, indices))
    && LeftOf(v, indices, g) != [] && RightOf(v, indices, g) != []
    && SideBySide(v, LeftOf(v, indices, g), RightOf(v, indices, g))
  }

  /** Widest gutter first, then leftmost. */
  predicate GutterLe(x: Interval, y: Interval) {
    x.1 - x.0 > y.1 - y.0 || (x.1 - x.0 == y.1 - y.0 && x.0 <= y.0)
  }

  function FirstUsable(v: Layout, indices: seq<nat>, gutters: seq<Interval>): (g: Option<Interval>)
    requires indices != []
    ensures g.Some? ==> g.value in gutters && Usable(v, indices, g.value)
    ensures g == None ==> forall x | x in gutters :: !Usable(v, indices, x)
  {
    if gutters == [] then None
    else if Usable(v, indices, gutters[0]) then Some(gutters[0])
    else FirstUsable(v, indices, gutters[1..])
  }

  function GutterAmong(v: Layout, indices: seq<nat>, candidates: seq<nat>): (g: Option<Interval>)
    requires indices != []
    ensures g.Some? ==> Usable(v, indices, g.value)
  {
    if |candidates| < 2 then None
    else FirstUsable(v, indices, Sorted(Gaps(v, candidates, Across), GutterLe))
  }

  function Narrow(v: Layout, indices: seq<nat>): seq<nat>
    requires indices != []
  {
    Filter(indices, (i: nat) => At(v, i).r - At(v, i).l < 0.7 * Width(v, indices))
  }

  /** First the unmasked projection, then behind spanning boxes. */
  function Gutter(v: Layout, indices: seq<nat>): (g: Option<Interval>)
    requires indices != []
    ensures g.Some? ==> Usable(v, indices, g.value)
  {
    var whole := GutterAmong(v, indices, indices);
    if whole.Some? then whole else GutterAmong(v, indices, Narrow(v, indices))
  }

  function Spanners(v: Layout, indices: seq<nat>, g: Interval): seq<nat> {
    Filter(ByPosition(v, indices), Spans(v, g))
  }

  function Middle(v: Layout, i: nat): real {
    (At(v, i).b + At(v, i).t) / 2.0
  }

  function Wider(x: Interval, y: Interval): Interval {
    if x.1 - x.0 > y.1 - y.0 || (x.1 - x.0 == y.1 - y.0 && x.1 >= y.1) then x else y
  }

  function Widest(gaps: seq<Interval>): (g: Interval)
    requires gaps != []
    ensures g in gaps
  {
    if |gaps| == 1 then gaps[0] else Wider(gaps[0], Widest(gaps[1..]))
  }

  function Above(v: Layout, indices: seq<nat>, g: Interval): seq<nat> {
    Filter(indices, OverGap(v, g))
  }

  function Below(v: Layout, indices: seq<nat>, g: Interval): seq<nat> {
    Filter(indices, UnderGap(v, g))
  }

  // ---------------------------------------------------------------- which cut is taken

  lemma {:induction false} FirstUsableIsFirst(v: Layout, indices: seq<nat>, gutters: seq<Interval>)
    requires indices != [] && InOrder(gutters, GutterLe) && FirstUsable(v, indices, gutters).Some?
    ensures forall x | x in gutters && Usable(v, indices, x) :: GutterLe(FirstUsable(v, indices, gutters).value, x)
  {
    hide Usable;
    if Usable(v, indices, gutters[0]) {
      forall x | x in gutters ensures GutterLe(gutters[0], x) {
        var k :| 0 <= k < |gutters| && gutters[k] == x;
        assert k == 0 || GutterLe(gutters[0], gutters[k]);
      }
    } else {
      assert InOrder(gutters[1..], GutterLe);
      FirstUsableIsFirst(v, indices, gutters[1..]);
      assert forall x | x in gutters :: x == gutters[0] || x in gutters[1..];
    }
  }

  /** The gutter taken is a gap of the projection, usable, and the widest such, the leftmost of equals;
      none is taken only when none is usable. */
  lemma WidestUsableGutter(v: Layout, indices: seq<nat>, candidates: seq<nat>)
    requires indices != [] && |candidates| >= 2
    ensures match GutterAmong(v, indices, candidates)
      case Some(g) =>
        && g in Gaps(v, candidates, Across) && Usable(v, indices, g)
        && forall x | x in Gaps(v, candidates, Across) && Usable(v, indices, x) :: GutterLe(g, x)
      case None => forall x | x in Gaps(v, candidates, Across) :: !Usable(v, indices, x)
  {
    var gaps := Gaps(v, candidates, Across);
    SortedElements(gaps, GutterLe);
    assert TotalOrder(GutterLe);
    SortedInOrder(gaps, GutterLe);
    hide Gaps; hide Usable; hide Sorted; hide TotalOrder;
    if GutterAmong(v, indices, candidates).Some? {
      FirstUsableIsFirst(v, indices, Sorted(gaps, GutterLe));
    }
  }

  /** A box not nearly as wide as the region: some two edges of it are far enough apart. */
  predicate Slim(v: Layout, indices: seq<nat>, i: nat) {
    exists a, b | a in indices && b in indices :: At(v, i).r - At(v, i).l < 0.7 * (At(v, a).r - At(v, b).l)
  }

  lemma {:induction false} EdgesOf(v: Layout, indices: seq<nat>)
    requires indices != []
    ensures exists a | a in indices :: At(v, a).r == Rightmost(v, indices)
    ensures exists b | b in indices :: At(v, b).l == Leftmost(v, indices)
    ensures forall i | i in indices :: At(v, i).r <= Rightmost(v, indices) && Leftmost(v, indices) <= At(v, i).l
  {
    if |indices| == 1 {
      assert indices[0] in indices;
    } else {
      EdgesOf(v, indices[1..]);
      assert forall i :: i in indices <==> i == indices[0] || i in indices[1..];
    }
  }

  lemma NarrowAreSlim(v: Layout, indices: seq<nat>)
    requires indices != []
    ensures forall i :: i in Narrow(v, indices) <==> i in indices && Slim(v, indices, i)
  {
    EdgesOf(v, indices);
    FilterElements(indices, (i: nat) => At(v, i).r - At(v, i).l < 0.7 * Width(v, indices));
    var a :| a in indices && At(v, a).r == Rightmost(v, indices);
    var b :| b in indices && At(v, b).l == Leftmost(v, indices);
    forall i | i in indices ensures i in Narrow(v, indices) <==> Slim(v, indices, i) {
      if i in Narrow(v, indices) {
        assert At(v, i).r - At(v, i).l < 0.7 * (At(v, a).r - At(v, b).l);
      }
    }
  }

  /** No usable gap when only these boxes are projected. */
  predicate NoneUsable(v: Layout, indices: seq<nat>, candidates: seq<nat>)
    requires indices != []
  {
    |candidates| < 2 || forall x | x in Gaps(v, candidates, Across) :: !Usable(v, indices, x)
  }

  predicate IsWidestUsable(v: Layout, indices: seq<nat>, candidates: seq<nat>, g: Interval)
    requires indices != []
  {
    && |candidates| >= 2 && g in Gaps(v, candidates, Across) && Usable(v, indices, g)
    && forall x | x in Gaps(v, candidates, Across) && Usable(v, indices, x) :: GutterLe(g, x)
  }

  /** The gutter of a region is the widest usable gap between all its boxes; when there is none, the
      widest usable one between its slim boxes. */
  lemma GutterIsChosen(v: Layout, indices: seq<nat>)
    requires indices != []
    ensures forall i :: i in Narrow(v, indices) <==> i in indices && Slim(v, indices, i)
    ensures match Gutter(v, indices)
      case Some(g) =>
        || IsWidestUsable(v, indices, indices, g)
        || (NoneUsable(v, indices, indices) && IsWidestUsable(v, indices, Narrow(v, indices), g))
      case None => NoneUsable(v, indices, indices) && NoneUsable(v, indices, Narrow(v, indices))
  {
    NarrowAreSlim(v, indices);
    if |indices| >= 2 {
      WidestUsableGutter(v, indices, indices);
    }
    if |Narrow(v, indices)| >= 2 {
      WidestUsableGutter(v, indices, Narrow(v, indices));
    }
    hide Gaps; hide Usable; hide Narrow; hide Slim; hide Sorted;
  }

  lemma {:induction false} TopAndBottom(v: Layout, indices: seq<nat>)
    requires indices != []
    ensures exists a | a in indices :: At(v, a).t == Highest(v, indices)
    ensures exists b | b in indices :: At(v, b).b == Lowest(v, indices)
    ensures forall i | i in indices :: At(v, i).t <= Highest(v, indices) && Lowest(v, indices) <= At(v, i).b
  {
    if |indices| == 1 {
      assert indices[0] in indices;
    } else {
      TopAndBottom(v, indices[1..]);
      assert forall i :: i in indices <==> i == indices[0] || i in indices[1..];
    }
  }

  /** Some box of the first reaches higher than some box of the second starts. */
  predicate ReachesInto(v: Layout, first: seq<nat>, second: seq<nat>) {
    exists i, j | i in first && j in second :: At(v, i).t > At(v, j).b
  }

  lemma ReachesIntoIff(v: Layout, first: seq<nat>, second: seq<nat>)
    requires first != [] && second != []
    ensures ReachesInto(v, first, second) <==> Highest(v, first) > Lowest(v, second)
  {
    TopAndBottom(v, first);
    TopAndBottom(v, second);
    var i :| i in first && At(v, i).t == Highest(v, first);
    var j :| j in second && At(v, j).b == Lowest(v, second);
    if Highest(v, first) > Lowest(v, second) {
      assert At(v, i).t > At(v, j).b;
    }
  }

  /** A gap is a gutter when it is six points and a fiftieth of the region wide, and the boxes on its two
      sides, some on each, share a stretch of height. */
  lemma UsableMeans(v: Layout, indices: seq<nat>, g: Interval)
    requires indices != [] && AllProper(v, indices)
    ensures Usable(v, indices, g) <==>
              && g.1 - g.0 >= 6.0
              && (forall a, b | a in indices && b in indices :: At(v, a).r - At(v, b).l <= 50.0 * (g.1 - g.0))
              && LeftOf(v, indices, g) != [] && RightOf(v, indices, g) != []
              && ReachesInto(v, LeftOf(v, indices, g), RightOf(v, indices, g))
              && ReachesInto(v, RightOf(v, indices, g), LeftOf(v, indices, g))
    ensures forall i :: i in LeftOf(v, indices, g) <==> i in indices && At(v, i).r <= g.0
    ensures forall i :: i in RightOf(v, indices, g) <==> i in indices && At(v, i).l >= g.1
  {
    hide Width; hide SideBySide; hide AllProper;
    var left, right := LeftOf(v, indices, g), RightOf(v, indices, g);
    FilterElements(indices, OnLeft(v, g));
    FilterElements(indices, OnRight(v, g));
    WidthIsTheGreatest(v, indices, g.1 - g.0);
    if left != [] && right != [] {
      SubsetProper(v, left, indices);
      SubsetProper(v, right, indices);
      SideBySideMeans(v, left, right);
    }
    hide ReachesInto; hide LeftOf; hide RightOf;
  }

  lemma SubsetProper(v: Layout, part: seq<nat>, whole: seq<nat>)
    requires AllProper(v, whole) && forall i | i in part :: i in whole
    ensures AllProper(v, part)
  {
  }

  lemma WidthIsTheGreatest(v: Layout, indices: seq<nat>, gap: real)
    requires indices != []
    ensures gap >= 0.02 * Width(v, indices) <==>
              forall a, b | a in indices && b in indices :: At(v, a).r - At(v, b).l <= 50.0 * gap
  {
    EdgesOf(v, indices);
    var a :| a in indices && At(v, a).r == Rightmost(v, indices);
    var b :| b in indices && At(v, b).l == Leftmost(v, indices);
    assert At(v, a).r - At(v, b).l == Width(v, indices);
    hide Rightmost; hide Leftmost;
  }

  lemma SideBySideMeans(v: Layout, first: seq<nat>, second: seq<nat>)
    requires first != [] && second != [] && AllProper(v, first) && AllProper(v, second)
    ensures SideBySide(v, first, second) <==> ReachesInto(v, first, second) && ReachesInto(v, second, first)
  {
    ReachesIntoIff(v, first, second);
    ReachesIntoIff(v, second, first);
    TallEnough(v, first);
    TallEnough(v, second);
    hide ReachesInto; hide Highest; hide Lowest; hide AllProper;
  }

  lemma TallEnough(v: Layout, indices: seq<nat>)
    requires indices != [] && AllProper(v, indices)
    ensures Highest(v, indices) > Lowest(v, indices)
  {
    TopAndBottom(v, indices);
    assert Proper(At(v, indices[0])) && indices[0] in indices;
  }

  /** The horizontal gap taken is the widest, the highest of equals. */
  lemma {:induction false} WidestGap(gaps: seq<Interval>)
    requires gaps != []
    ensures Widest(gaps) in gaps
    ensures forall x | x in gaps :: Wider(Widest(gaps), x) == Widest(gaps)
  {
    if |gaps| > 1 {
      WidestGap(gaps[1..]);
      assert forall x | x in gaps :: x == gaps[0] || x in gaps[1..];
    }
  }

  // ---------------------------------------------------------------- every part is smaller

  predicate AllProper(v: Layout, indices: seq<nat>) {
    forall i | i in indices :: Proper(At(v, i))
  }

  lemma PartsLength(a: seq<nat>, b: seq<nat>, c: seq<nat>, whole: seq<nat>)
    requires multiset(a) + multiset(b) + multiset(c) == multiset(whole)
    ensures |a| + |b| + |c| == |whole|
  {
    assert |multiset(a) + multiset(b) + multiset(c)| == |a| + |b| + |c|;
    assert |multiset(whole)| == |whole|;
  }

  /** The two sides of a usable gutter and what spans it are all of the region, each once. */
  lemma GutterParts(v: Layout, indices: seq<nat>, g: Interval)
    requires indices != [] && Usable(v, indices, g) && AllProper(v, indices)
    ensures multiset(LeftOf(v, indices, g)) + multiset(RightOf(v, indices, g)) + multiset(Spanners(v, indices, g)) == multiset(indices)
  {
    SortedCounts(indices, Reads(v));
    FilterInThree(indices, ByPosition(v, indices), OnLeft(v, g), OnRight(v, g), Spans(v, g));
  }

  /** Both sides of a horizontal gap are all of the region, each once. */
  lemma GapParts(v: Layout, indices: seq<nat>, g: Interval)
    requires indices != [] && g in Gaps(v, indices, Down) && AllProper(v, indices)
    ensures multiset(Above(v, indices, g)) + multiset(Below(v, indices, g)) == multiset(indices)
    ensures Above(v, indices, g) != [] && Below(v, indices, g) != []
  {
    GapSplits(v, indices, Down, g);
    hide Gaps;
    FilterInTwo(indices, OverGap(v, g), UnderGap(v, g));
    FilterElements(indices, OverGap(v, g));
    FilterElements(indices, UnderGap(v, g));
    var hi :| hi in indices && Low(v, Down, hi) >= g.1;
    var lo :| lo in indices && High(v, Down, lo) <= g.0;
    assert hi in Above(v, indices, g) && lo in Below(v, indices, g);
  }

  lemma PartOf(v: Layout, a: seq<nat>, whole: seq<nat>)
    requires multiset(a) <= multiset(whole) && AllProper(v, whole)
    ensures AllProper(v, a)
  {
    forall i | i in a ensures i in whole {
      assert i in multiset(a);
    }
  }

  lemma GutterFits(v: Layout, indices: seq<nat>, g: Interval)
    requires indices != [] && Usable(v, indices, g) && AllProper(v, indices)
    ensures var left, right, across := LeftOf(v, indices, g), RightOf(v, indices, g), Spanners(v, indices, g);
      && AllProper(v, left) && AllProper(v, right) && AllProper(v, left + right)
      && |left| < |indices| && |right| < |indices| && |left| + |right| + |across| == |indices|
  {
    var left, right, across := LeftOf(v, indices, g), RightOf(v, indices, g), Spanners(v, indices, g);
    GutterParts(v, indices, g);
    PartsLength(left, right, across, indices);
    PartOf(v, left, indices);
    PartOf(v, right, indices);
  }

  lemma GapFits(v: Layout, indices: seq<nat>, g: Interval)
    requires indices != [] && g in Gaps(v, indices, Down) && AllProper(v, indices)
    ensures AllProper(v, Above(v, indices, g)) && AllProper(v, Below(v, indices, g))
    ensures |Above(v, indices, g)| < |indices| && |Below(v, indices, g)| < |indices|
  {
    GapParts(v, indices, g);
    hide *;
    PartsLength(Above(v, indices, g), Below(v, indices, g), [], indices);
    PartOf(v, Above(v, indices, g), indices);
    PartOf(v, Below(v, indices, g), indices);
  }

  // ---------------------------------------------------------------- the recursion

  function HigherThan(v: Layout, span: nat): nat -> bool {
    (i: nat) => Middle(v, i) > Middle(v, span)
  }

  function NotHigherThan(v: Layout, span: nat): nat -> bool {
    (i: nat) => !(Middle(v, i) > Middle(v, span))
  }

  lemma BandFits(v: Layout, remaining: seq<nat>, span: nat)
    requires AllProper(v, remaining)
    ensures var above, rest := Filter(remaining, HigherThan(v, span)), Filter(remaining, NotHigherThan(v, span));
      && AllProper(v, above) && AllProper(v, rest) && |above| <= |remaining| && |rest| <= |remaining|
      && multiset(above) + multiset(rest) == multiset(remaining)
  {
    var above, rest := Filter(remaining, HigherThan(v, span)), Filter(remaining, NotHigherThan(v, span));
    FilterInTwo(remaining, HigherThan(v, span), NotHigherThan(v, span));
    PartsLength(above, rest, [], remaining);
    PartOf(v, above, remaining);
    PartOf(v, rest, remaining);
  }

  /** How one region is cut: not at all, in two, or into bands between spanning boxes. */
  datatype Plan = Keep | Split(first: seq<nat>, second: seq<nat>) | Banded(spanners: seq<nat>, rest: seq<nat>)

  function PlanFor(v: Layout, indices: seq<nat>): Plan
    requires indices != []
  {
    match Gutter(v, indices)
    case Some(g) =>
      var left, right, across := LeftOf(v, indices, g), RightOf(v, indices, g), Spanners(v, indices, g);
      if across == [] then Split(left, right) else Banded(across, left + right)
    case None =>
      var gaps := Gaps(v, indices, Down);
      if gaps == [] then Keep
      else Split(Above(v, indices, Widest(gaps)), Below(v, indices, Widest(gaps)))
  }

  /** The parts hold every box of the region once, and each part that is cut again is smaller. */
  predicate Fits(v: Layout, indices: seq<nat>, plan: Plan) {
    match plan
    case Keep => true
    case Split(first, second) =>
      && AllProper(v, first) && AllProper(v, second) && |first| < |indices| && |second| < |indices|
      && multiset(first) + multiset(second) == multiset(indices)
    case Banded(spanners, rest) =>
      && AllProper(v, rest) && |rest| < |indices| && multiset(spanners) + multiset(rest) == multiset(indices)
  }

  lemma PlanFits(v: Layout, indices: seq<nat>)
    requires indices != [] && AllProper(v, indices)
    ensures Fits(v, indices, PlanFor(v, indices))
  {
    hide Usable; hide GutterAmong; hide LeftOf; hide RightOf; hide Spanners; hide Above; hide Below; hide Gaps; hide AllProper;
    match Gutter(v, indices)
    case Some(g) =>
      GutterFits(v, indices, g);
      GutterParts(v, indices, g);
    case None =>
      if Gaps(v, indices, Down) != [] {
        GapFits(v, indices, Widest(Gaps(v, indices, Down)));
        GapParts(v, indices, Widest(Gaps(v, indices, Down)));
      }
  }

  /** `cut`, with the levels of recursion still allowed instead of the depth reached. What decreases is
      the number of boxes: the recursion would end without the cap. */
  function Cut(v: Layout, indices: seq<nat>, levels: nat): seq<nat>
    requires AllProper(v, indices)
    decreases |indices|, 0
  {
    if |indices| < 2 then indices
    else if levels == 0 then ByPosition(v, indices)
    else
      PlanFits(v, indices);
      match PlanFor(v, indices)
      case Keep => ByPosition(v, indices)
      case Split(first, second) => Cut(v, first, levels - 1) + Cut(v, second, levels - 1)
      case Banded(spanners, rest) => Bands(v, spanners, rest, levels - 1)
  }

  /** Spanning boxes, highest first, each after everything still waiting whose centre is above its own. */
  function Bands(v: Layout, spanners: seq<nat>, remaining: seq<nat>, levels: nat): seq<nat>
    requires AllProper(v, remaining)
    decreases |remaining|, 1 + |spanners|
  {
    if spanners == [] then Cut(v, remaining, levels)
    else
      BandFits(v, remaining, spanners[0]);
      Cut(v, Filter(remaining, HigherThan(v, spanners[0])), levels)
      + [spanners[0]]
      + Bands(v, spanners[1..], Filter(remaining, NotHigherThan(v, spanners[0])), levels)
  }

  // ---------------------------------------------------------------- nothing lost, nothing repeated

  lemma ByPositionCounts(v: Layout, indices: seq<nat>)
    ensures multiset(ByPosition(v, indices)) == multiset(indices)
  {
    SortedCounts(indices, Reads(v));
  }

  lemma {:induction false} CutIsPermutation(v: Layout, indices: seq<nat>, levels: nat)
    requires AllProper(v, indices)
    ensures multiset(Cut(v, indices, levels)) == multiset(indices)
    decreases |indices|, 0
  {
    hide PlanFor; hide AllProper; hide ByPosition; hide Bands;
    if |indices| >= 2 {
      ByPositionCounts(v, indices);
      PlanFits(v, indices);
      if levels > 0 {
        match PlanFor(v, indices)
        case Keep =>
        case Split(first, second) =>
          CutIsPermutation(v, first, levels - 1);
          CutIsPermutation(v, second, levels - 1);
        case Banded(spanners, rest) =>
          BandsArePermutation(v, spanners, rest, levels - 1);
      }
    }
  }

  lemma {:induction false} BandsArePermutation(v: Layout, spanners: seq<nat>, remaining: seq<nat>, levels: nat)
    requires AllProper(v, remaining)
    ensures multiset(Bands(v, spanners, remaining, levels)) == multiset(spanners) + multiset(remaining)
    decreases |remaining|, 1 + |spanners|
  {
    if spanners == [] {
      CutIsPermutation(v, remaining, levels);
    } else {
      BandFits(v, remaining, spanners[0]);
      assert spanners == [spanners[0]] + spanners[1..];
      CutIsPermutation(v, Filter(remaining, HigherThan(v, spanners[0])), levels);
      BandsArePermutation(v, spanners[1..], Filter(remaining, NotHigherThan(v, spanners[0])), levels);
    }
  }

  /** The cap changes nothing on a page with no more boxes than levels. */
  lemma {:induction false} CapIsSpare(v: Layout, indices: seq<nat>, m: nat, n: nat)
    requires AllProper(v, indices) && |indices| <= m + 1 && m <= n
    ensures Cut(v, indices, m) == Cut(v, indices, n)
    decreases |indices|, 0
  {
    hide PlanFor; hide AllProper;
    if |indices| >= 2 {
      PlanFits(v, indices);
      match PlanFor(v, indices)
      case Keep =>
      case Split(first, second) =>
        CapIsSpare(v, first, m - 1, n - 1);
        CapIsSpare(v, second, m - 1, n - 1);
      case Banded(spanners, rest) =>
        CapIsSpareInBands(v, spanners, rest, m - 1, n - 1);
    }
  }

  lemma {:induction false} CapIsSpareInBands(v: Layout, spanners: seq<nat>, remaining: seq<nat>, m: nat, n: nat)
    requires AllProper(v, remaining) && |remaining| <= m + 1 && m <= n
    ensures Bands(v, spanners, remaining, m) == Bands(v, spanners, remaining, n)
    decreases |remaining|, 1 + |spanners|
  {
    hide AllProper;
    if spanners == [] {
      CapIsSpare(v, remaining, m, n);
    } else {
      BandFits(v, remaining, spanners[0]);
      CapIsSpare(v, Filter(remaining, HigherThan(v, spanners[0])), m, n);
      CapIsSpareInBands(v, spanners[1..], Filter(remaining, NotHigherThan(v, spanners[0])), m, n);
    }
  }

  // ---------------------------------------------------------------- what the order means

  predicate Precedes(order: seq<nat>, i: nat, j: nat) {
    exists a, b :: 0 <= a < b < |order| && order[a] == i && order[b] == j
  }

  lemma PrecedesAcross(before: seq<nat>, after: seq<nat>, i: nat, j: nat)
    requires i in before && j in after
    ensures Precedes(before + after, i, j)
  {
    var a :| 0 <= a < |before| && before[a] == i;
    var b :| 0 <= b < |after| && after[b] == j;
    assert (before + after)[a] == i && (before + after)[|before| + b] == j;
  }

  /** Some spanning box, up to the `p`-th, has its centre below this box's. */
  predicate AboveOneOf(v: Layout, spanners: seq<nat>, p: nat, i: nat)
    requires p < |spanners|
  {
    exists q :: 0 <= q <= p && Middle(v, i) > Middle(v, spanners[q])
  }

  /** A box is read before the `p`-th spanning box when its centre is above that one's or an earlier
      one's, and after it otherwise. */
  lemma {:induction false} BandsInOrder(v: Layout, spanners: seq<nat>, remaining: seq<nat>, levels: nat, i: nat, p: nat)
    requires AllProper(v, remaining) && i in remaining && p < |spanners|
    ensures var order := Bands(v, spanners, remaining, levels);
      if AboveOneOf(v, spanners, p, i) then Precedes(order, i, spanners[p]) else Precedes(order, spanners[p], i)
    decreases |spanners|
  {
    var s := spanners[0];
    var above, rest := Filter(remaining, HigherThan(v, s)), Filter(remaining, NotHigherThan(v, s));
    BandMembers(v, spanners, remaining, levels, i, p);
    BandsUnfold(v, spanners, remaining, levels);
    AboveLater(v, spanners, p, i);
    var head, tail := Cut(v, above, levels), Bands(v, spanners[1..], rest, levels);
    if i !in above && p > 0 {
      BandsInOrder(v, spanners[1..], rest, levels, i, p - 1);
      assert spanners[1..][p - 1] == spanners[p];
    }
    var higher, later := AboveOneOf(v, spanners, p, i), p > 0 && AboveOneOf(v, spanners[1..], p - 1, i);
    hide *;
    OneBand(head, s, tail, i, spanners[p], i in above, p == 0, later);
  }

  /** One band and what follows it: where a box and a spanning box stand. */
  lemma OneBand(head: seq<nat>, s: nat, tail: seq<nat>, i: nat, span: nat, above: bool, first: bool, later: bool)
    requires above ==> i in head && span in [s] + tail
    requires !above ==> i in tail
    requires first ==> span == s
    requires !above && !first ==> if later then Precedes(tail, i, span) else Precedes(tail, span, i)
    ensures above || (!first && later) ==> Precedes(head + [s] + tail, i, span)
    ensures !above && (first || !later) ==> Precedes(head + [s] + tail, span, i)
  {
    hide Precedes;
    if above {
      assert head + [s] + tail == head + ([s] + tail);
      PrecedesAcross(head, [s] + tail, i, span);
    } else if first {
      assert s in head + [s];
      PrecedesAcross(head + [s], tail, s, i);
    } else if later {
      PrecedesAfter(head + [s], tail, i, span);
    } else {
      PrecedesAfter(head + [s], tail, span, i);
    }
  }

  lemma BandsUnfold(v: Layout, spanners: seq<nat>, remaining: seq<nat>, levels: nat)
    requires AllProper(v, remaining) && spanners != []
    ensures var above, rest := Filter(remaining, HigherThan(v, spanners[0])), Filter(remaining, NotHigherThan(v, spanners[0]));
      && AllProper(v, above) && AllProper(v, rest)
      && Bands(v, spanners, remaining, levels) == Cut(v, above, levels) + [spanners[0]] + Bands(v, spanners[1..], rest, levels)
  {
    BandFits(v, remaining, spanners[0]);
    hide AllProper; hide Cut;
  }

  lemma PrecedesAfter(before: seq<nat>, order: seq<nat>, i: nat, j: nat)
    requires Precedes(order, i, j)
    ensures Precedes(before + order, i, j)
  {
    var a, b :| 0 <= a < b < |order| && order[a] == i && order[b] == j;
    assert (before + order)[|before| + a] == i && (before + order)[|before| + b] == j;
  }

  lemma AboveLater(v: Layout, spanners: seq<nat>, p: nat, i: nat)
    requires p < |spanners|
    ensures AboveOneOf(v, spanners, p, i) <==>
      Middle(v, i) > Middle(v, spanners[0]) || (p > 0 && AboveOneOf(v, spanners[1..], p - 1, i))
  {
    hide Middle;
    if AboveOneOf(v, spanners, p, i) {
      var q :| 0 <= q <= p && Middle(v, i) > Middle(v, spanners[q]);
      if q > 0 {
        assert spanners[1..][q - 1] == spanners[q];
      }
    }
    if p > 0 && AboveOneOf(v, spanners[1..], p - 1, i) {
      var q :| 0 <= q <= p - 1 && Middle(v, i) > Middle(v, spanners[1..][q]);
      assert spanners[1..][q] == spanners[q + 1];
    }
  }

  lemma NotBothWays(order: seq<nat>, i: nat, j: nat)
    requires Precedes(order, i, j) && (forall a, b | 0 <= a < b < |order| :: order[a] != order[b])
    ensures !Precedes(order, j, i)
  {
    var a, b :| 0 <= a < b < |order| && order[a] == i && order[b] == j;
    forall c, d | 0 <= c < d < |order| ensures !(order[c] == j && order[d] == i) {
      if order[d] == i {
        assert d == a;
        assert c != b;
      }
    }
  }

  /** With every box listed once, a box is read before a spanning box exactly when its centre is above
      that spanning box's or an earlier one's. */
  lemma HigherBoxesComeFirst(v: Layout, spanners: seq<nat>, remaining: seq<nat>, levels: nat, i: nat, p: nat)
    requires AllProper(v, remaining) && i in remaining && p < |spanners|
    requires forall x: nat :: (multiset(spanners) + multiset(remaining))[x] <= 1
    ensures Precedes(Bands(v, spanners, remaining, levels), i, spanners[p]) <==> AboveOneOf(v, spanners, p, i)
  {
    hide AllProper; hide Cut; hide Precedes; hide AboveOneOf;
    BandsInOrder(v, spanners, remaining, levels, i, p);
    var order := Bands(v, spanners, remaining, levels);
    BandsArePermutation(v, spanners, remaining, levels);
    hide Bands;
    forall a, b | 0 <= a < b < |order| ensures order[a] != order[b] {
      CountedOnce(order, a, b);
    }
    if !AboveOneOf(v, spanners, p, i) {
      NotBothWays(order, spanners[p], i);
    }
  }

  lemma CountedOnce(order: seq<nat>, a: nat, b: nat)
    requires a < b < |order| && multiset(order)[order[a]] <= 1
    ensures order[a] != order[b]
  {
    assert order == order[..b] + [order[b]] + order[b + 1..];
    assert order[..b][a] == order[a];
    assert order[a] in multiset(order[..b]);
  }

  lemma BandMembers(v: Layout, spanners: seq<nat>, remaining: seq<nat>, levels: nat, i: nat, p: nat)
    requires AllProper(v, remaining) && i in remaining && p < |spanners|
    ensures var s := spanners[0];
      var above, rest := Filter(remaining, HigherThan(v, s)), Filter(remaining, NotHigherThan(v, s));
      && AllProper(v, above) && AllProper(v, rest)
      && var tail := Bands(v, spanners[1..], rest, levels);
      && (i in above <==> Middle(v, i) > Middle(v, s)) && (i in above ==> i in Cut(v, above, levels))
      && (i !in above ==> i in rest && i in tail) && spanners[p] in [s] + tail
  {
    hide AllProper; hide Cut; hide Bands;
    var s := spanners[0];
    var above, rest := Filter(remaining, HigherThan(v, s)), Filter(remaining, NotHigherThan(v, s));
    BandFits(v, remaining, s);
    FilterElements(remaining, HigherThan(v, s));
    FilterElements(remaining, NotHigherThan(v, s));
    CutIsPermutation(v, above, levels);
    SameCountsSameElements(Cut(v, above, levels), above);
    BandsArePermutation(v, spanners[1..], rest, levels);
    assert p > 0 ==> spanners[p] == spanners[1..][p - 1];
    var tail := Bands(v, spanners[1..], rest, levels);
    if p > 0 {
      assert spanners[p] in multiset(spanners[1..]) && spanners[p] in multiset(tail);
    }
    if i !in above {
      assert i in rest && i in multiset(rest) && i in multiset(tail);
    }
  }
}

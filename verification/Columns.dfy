/** What the cuts amount to on the two layouts they are for: one column, and two columns side by side. */
module Columns {
  import opened Wrappers
  import opened Sorting
  import opened XyCut

  /** Every box reaches over the vertical line at `x`. */
  predicate OnLine(v: Layout, indices: seq<nat>, x: real) {
    forall i | i in indices :: At(v, i).l <= x <= At(v, i).r
  }

  lemma OnLineMeansNoGutter(v: Layout, indices: seq<nat>, candidates: seq<nat>, x: real)
    requires indices != [] && OnLine(v, candidates, x)
    ensures GutterAmong(v, indices, candidates) == None
  {
    if |candidates| >= 2 {
      var gaps := Gaps(v, candidates, Across);
      if gaps != [] {
        GapSplits(v, candidates, Across, gaps[0]);
        assert false;
      }
    }
  }

  lemma ReadsIsAnOrder(v: Layout)
    ensures TotalOrder(Reads(v)) && Antisymmetric(Reads(v))
  {
  }

  lemma ByPositionInOrder(v: Layout, indices: seq<nat>)
    ensures InOrder(ByPosition(v, indices), Reads(v)) && multiset(ByPosition(v, indices)) == multiset(indices)
  {
    ReadsIsAnOrder(v);
    SortedInOrder(indices, Reads(v));
    ByPositionCounts(v, indices);
  }

  lemma AboveReadsFirst(v: Layout, indices: seq<nat>, g: Interval, i: nat, j: nat)
    requires indices != [] && AllProper(v, indices) && g in Gaps(v, indices, Down)
    requires i in multiset(Above(v, indices, g)) && j in multiset(Below(v, indices, g))
    ensures Reads(v)(i, j)
  {
    GapSplits(v, indices, Down, g);
    FilterElements(indices, OverGap(v, g));
    FilterElements(indices, UnderGap(v, g));
    assert i in Above(v, indices, g) && j in Below(v, indices, g);
  }

  /** Reading what is above a gap by position, then what is below it, is reading the whole by position. */
  lemma StackedByPosition(v: Layout, indices: seq<nat>, g: Interval)
    requires indices != [] && AllProper(v, indices) && g in Gaps(v, indices, Down)
    ensures ByPosition(v, Above(v, indices, g)) + ByPosition(v, Below(v, indices, g)) == ByPosition(v, indices)
  {
    hide Gaps; hide ByPosition; hide Above; hide Below; hide AllProper; hide Reads;
    var a, b := ByPosition(v, Above(v, indices, g)), ByPosition(v, Below(v, indices, g));
    GapParts(v, indices, g);
    ByPositionInOrder(v, Above(v, indices, g));
    ByPositionInOrder(v, Below(v, indices, g));
    ByPositionInOrder(v, indices);
    forall i, j | 0 <= i < |a| && 0 <= j < |b| ensures Reads(v)(a[i], b[j]) {
      assert a[i] in multiset(a) && b[j] in multiset(b);
      AboveReadsFirst(v, indices, g, a[i], b[j]);
    }
    assert InOrder(a + b, Reads(v));
    ReadsIsAnOrder(v);
    OneOrder(a + b, ByPosition(v, indices), Reads(v));
  }

  lemma ShortByPosition(v: Layout, indices: seq<nat>)
    requires |indices| < 2
    ensures ByPosition(v, indices) == indices
  {
    ByPositionInOrder(v, indices);
    ReadsIsAnOrder(v);
    OneOrder(indices, ByPosition(v, indices), Reads(v));
  }

  lemma OneColumnPlan(v: Layout, indices: seq<nat>, x: real)
    requires indices != [] && AllProper(v, indices) && OnLine(v, indices, x)
    ensures var plan := PlanFor(v, indices);
      plan == Keep || exists g :: g in Gaps(v, indices, Down) && plan == Split(Above(v, indices, g), Below(v, indices, g))
  {
    OnLineMeansNoGutter(v, indices, indices, x);
    var narrow := Narrow(v, indices);
    FilterElements(indices, (i: nat) => At(v, i).r - At(v, i).l < 0.7 * Width(v, indices));
    assert OnLine(v, narrow, x);
    OnLineMeansNoGutter(v, indices, narrow, x);
    assert Gutter(v, indices) == None;
  }

  /** A single column is read from top to bottom. */
  lemma {:induction false} OneColumnReadsDown(v: Layout, indices: seq<nat>, x: real, levels: nat)
    requires AllProper(v, indices) && OnLine(v, indices, x)
    ensures Cut(v, indices, levels) == ByPosition(v, indices)
    decreases |indices|
  {
    hide PlanFor; hide Gaps; hide ByPosition;
    if |indices| < 2 {
      ShortByPosition(v, indices);
    } else if levels > 0 {
      OneColumnPlan(v, indices, x);
      PlanFits(v, indices);
      if PlanFor(v, indices) != Keep {
        var g :| g in Gaps(v, indices, Down) && PlanFor(v, indices) == Split(Above(v, indices, g), Below(v, indices, g));
        FilterElements(indices, OverGap(v, g));
        FilterElements(indices, UnderGap(v, g));
        OneColumnReadsDown(v, Above(v, indices, g), x, levels - 1);
        OneColumnReadsDown(v, Below(v, indices, g), x, levels - 1);
        StackedByPosition(v, indices, g);
      }
    }
  }

  // ---------------------------------------------------------------- two columns

  /** Whitespace that parts the intervals is found, at least as wide. */
  lemma {:induction false} GapsFromComplete(end: real, s: seq<Interval>, a: real, b: real) returns (g: Interval)
    requires end <= a < b && InOrder(s, IntervalLe)
    requires forall x | x in s :: x.1 <= a || x.0 >= b
    requires exists x | x in s :: x.0 >= b
    ensures g in GapsFrom(end, s) && g.0 <= a && g.1 >= b
    decreases |s|
  {
    if s[0].0 >= b {
      g := (end, s[0].0);
    } else {
      assert s[0] in s && InOrder(s[1..], IntervalLe);
      assert forall x | x in s :: x == s[0] || x in s[1..];
      g := GapsFromComplete(Larger(end, s[0].1), s[1..], a, b);
    }
  }

  /** Two columns: one on each side of the whitespace between `a` and `b`. */
  predicate TwoColumns(v: Layout, indices: seq<nat>, a: real, b: real, x: real, y: real) {
    && a < b && LeftOf(v, indices, (a, b)) != [] && RightOf(v, indices, (a, b)) != []
    && (forall i | i in indices :: At(v, i).r <= a || At(v, i).l >= b)
    && OnLine(v, LeftOf(v, indices, (a, b)), x) && OnLine(v, RightOf(v, indices, (a, b)), y)
  }

  lemma ColumnGapExists(v: Layout, indices: seq<nat>, a: real, b: real) returns (g: Interval)
    requires AllProper(v, indices) && a < b && LeftOf(v, indices, (a, b)) != [] && RightOf(v, indices, (a, b)) != []
    requires forall i | i in indices :: At(v, i).r <= a || At(v, i).l >= b
    ensures indices != [] && g in Gaps(v, indices, Across) && g.0 <= a && g.1 >= b
  {
    FilterElements(indices, OnLeft(v, (a, b)));
    FilterElements(indices, OnRight(v, (a, b)));
    var left, right := LeftOf(v, indices, (a, b))[0], RightOf(v, indices, (a, b))[0];
    assert left in LeftOf(v, indices, (a, b)) && right in RightOf(v, indices, (a, b));
    g := GapExists(v, indices, a, b, left, right);
  }

  lemma GapExists(v: Layout, indices: seq<nat>, a: real, b: real, left: nat, right: nat) returns (g: Interval)
    requires AllProper(v, indices) && a < b
    requires left in indices && At(v, left).r <= a && right in indices && At(v, right).l >= b
    requires forall i | i in indices :: At(v, i).r <= a || At(v, i).l >= b
    ensures g in Gaps(v, indices, Across) && g.0 <= a && g.1 >= b
  {
    IntervalsPart(v, indices, a, b, left, right);
    var s := Intervals(v, indices, Across);
    hide Intervals;
    g := GapsFromComplete(s[0].1, s[1..], a, b);
  }

  lemma IntervalsPart(v: Layout, indices: seq<nat>, a: real, b: real, left: nat, right: nat)
    requires AllProper(v, indices) && a < b
    requires left in indices && At(v, left).r <= a && right in indices && At(v, right).l >= b
    requires forall i | i in indices :: At(v, i).r <= a || At(v, i).l >= b
    ensures var s := Intervals(v, indices, Across);
      && InOrder(s[1..], IntervalLe) && s[0].1 <= a
      && (forall x | x in s[1..] :: x.1 <= a || x.0 >= b) && (exists x | x in s[1..] :: x.0 >= b)
  {
    var p := Projected(v, indices, Across);
    var s := Intervals(v, indices, Across);
    IntervalLeIsTotal();
    SortedInOrder(p, IntervalLe);
    SortedElements(p, IntervalLe);
    hide Sorted; hide TotalOrder;
    forall x | x in s ensures (x.1 <= a || x.0 >= b) && x.0 < x.1 {
      var k :| 0 <= k < |p| && p[k] == x;
      assert indices[k] in indices;
    }
    var l :| 0 <= l < |indices| && indices[l] == left;
    var r :| 0 <= r < |indices| && indices[r] == right;
    assert p[l] in s && p[r] in s;
    FirstIsLeft(s, p[l], p[r], a, b);
  }

  lemma FirstIsLeft(s: seq<Interval>, l: Interval, r: Interval, a: real, b: real)
    requires InOrder(s, IntervalLe) && a < b && l in s && r in s && l.1 <= a && r.0 >= b
    requires forall x | x in s :: (x.1 <= a || x.0 >= b) && x.0 < x.1
    ensures InOrder(s[1..], IntervalLe) && s[0].1 <= a && r in s[1..]
  {
    var m :| 0 <= m < |s| && s[m] == l;
    assert m == 0 || IntervalLe(s[0], s[m]);
    assert s[0] in s;
    var n :| 0 <= n < |s| && s[n] == r;
    assert n > 0 && s[1..][n - 1] == r;
  }

  /** Any whitespace found between the columns parts them the same way. */
  lemma ColumnsOnEitherSide(v: Layout, indices: seq<nat>, a: real, b: real, x: real, y: real, g: Interval)
    requires AllProper(v, indices) && TwoColumns(v, indices, a, b, x, y) && g in Gaps(v, indices, Across)
    ensures LeftOf(v, indices, g) == LeftOf(v, indices, (a, b)) && RightOf(v, indices, g) == RightOf(v, indices, (a, b))
    ensures Spanners(v, indices, g) == []
  {
    GapSplits(v, indices, Across, g);
    FilterElements(indices, OnLeft(v, (a, b)));
    FilterElements(indices, OnRight(v, (a, b)));
    hide Gaps; hide Filter;
    var i :| i in indices && High(v, Across, i) <= g.0;
    var j :| j in indices && Low(v, Across, j) >= g.1;
    assert x <= g.0 && g.1 <= y by {
      ColumnSides(v, indices, a, b, x, y, g, i, j);
    }
    forall k | k in indices ensures OnLeft(v, g)(k) == OnLeft(v, (a, b))(k) && OnRight(v, g)(k) == OnRight(v, (a, b))(k) {
      assert k in LeftOf(v, indices, (a, b)) || k in RightOf(v, indices, (a, b));
    }
    FilterSame(indices, OnLeft(v, g), OnLeft(v, (a, b)));
    FilterSame(indices, OnRight(v, g), OnRight(v, (a, b)));
    NothingSpans(v, indices, g);
  }

  lemma ColumnSides(v: Layout, indices: seq<nat>, a: real, b: real, x: real, y: real, g: Interval, i: nat, j: nat)
    requires AllProper(v, indices) && TwoColumns(v, indices, a, b, x, y) && g.0 < g.1
    requires forall k | k in indices :: At(v, k).r <= g.0 || At(v, k).l >= g.1
    requires i in indices && At(v, i).r <= g.0 && j in indices && At(v, j).l >= g.1
    ensures x <= g.0 && g.1 <= y
  {
    var left, right := LeftOf(v, indices, (a, b)), RightOf(v, indices, (a, b));
    FilterElements(indices, OnLeft(v, (a, b)));
    FilterElements(indices, OnRight(v, (a, b)));
    assert left[0] in left && right[0] in right;
    assert i in left || i in right;
    assert j in left || j in right;
  }

  lemma NothingSpans(v: Layout, indices: seq<nat>, g: Interval)
    requires forall i | i in indices :: At(v, i).r <= g.0 || At(v, i).l >= g.1
    ensures Spanners(v, indices, g) == []
  {
    SortedElements(indices, Reads(v));
    FilterNone(ByPosition(v, indices), Spans(v, g));
  }

  lemma TwoColumnPlan(v: Layout, indices: seq<nat>, a: real, b: real, x: real, y: real)
    requires AllProper(v, indices) && TwoColumns(v, indices, a, b, x, y) && |indices| >= 2
    requires b - a >= 6.0 && b - a >= 0.02 * Width(v, indices)
    requires SideBySide(v, LeftOf(v, indices, (a, b)), RightOf(v, indices, (a, b)))
    ensures PlanFor(v, indices) == Split(LeftOf(v, indices, (a, b)), RightOf(v, indices, (a, b)))
  {
    var g := ColumnGapExists(v, indices, a, b);
    ColumnsOnEitherSide(v, indices, a, b, x, y, g);
    var gaps := Gaps(v, indices, Across);
    SortedElements(gaps, GutterLe);
    assert Usable(v, indices, g) && g in Sorted(gaps, GutterLe);
    var chosen := GutterAmong(v, indices, indices);
    assert chosen.Some? && chosen.value in gaps;
    ColumnsOnEitherSide(v, indices, a, b, x, y, chosen.value);
  }

  /** Two columns wide enough apart and beside each other are read left column first, each from top to
      bottom, however their boxes were mixed. */
  lemma TwoColumnsReadLeftThenRight(v: Layout, indices: seq<nat>, a: real, b: real, x: real, y: real, levels: nat)
    requires AllProper(v, indices) && TwoColumns(v, indices, a, b, x, y) && |indices| >= 2 && levels >= 1
    requires b - a >= 6.0 && b - a >= 0.02 * Width(v, indices)
    requires SideBySide(v, LeftOf(v, indices, (a, b)), RightOf(v, indices, (a, b)))
    ensures Cut(v, indices, levels) == ByPosition(v, LeftOf(v, indices, (a, b))) + ByPosition(v, RightOf(v, indices, (a, b)))
  {
    hide *;
    TwoColumnPlan(v, indices, a, b, x, y);
    PlanFits(v, indices);
    PlanSplits(v, indices, LeftOf(v, indices, (a, b)), RightOf(v, indices, (a, b)));
    ColumnLines(v, indices, a, b, x, y);
    OneColumnReadsDown(v, LeftOf(v, indices, (a, b)), x, levels - 1);
    OneColumnReadsDown(v, RightOf(v, indices, (a, b)), y, levels - 1);
    CutSplits(v, indices, LeftOf(v, indices, (a, b)), RightOf(v, indices, (a, b)), levels);
  }

  lemma ColumnLines(v: Layout, indices: seq<nat>, a: real, b: real, x: real, y: real)
    requires TwoColumns(v, indices, a, b, x, y)
    ensures OnLine(v, LeftOf(v, indices, (a, b)), x) && OnLine(v, RightOf(v, indices, (a, b)), y)
  {
  }

  lemma PlanSplits(v: Layout, indices: seq<nat>, first: seq<nat>, second: seq<nat>)
    requires indices != [] && PlanFor(v, indices) == Split(first, second) && Fits(v, indices, Split(first, second))
    ensures AllProper(v, first) && AllProper(v, second)
  {
  }

  lemma CutSplits(v: Layout, indices: seq<nat>, first: seq<nat>, second: seq<nat>, levels: nat)
    requires AllProper(v, indices) && |indices| >= 2 && levels >= 1 && PlanFor(v, indices) == Split(first, second)
    requires AllProper(v, first) && AllProper(v, second)
    ensures Cut(v, indices, levels) == Cut(v, first, levels - 1) + Cut(v, second, levels - 1)
  {
    hide PlanFor; hide AllProper;
  }

  // ---------------------------------------------------------------- a heading over two columns

  function NotThis(h: nat): nat -> bool {
    (i: nat) => i != h
  }

  /** The other boxes, in their order. */
  function Others(indices: seq<nat>, h: nat): seq<nat> {
    Filter(indices, NotThis(h))
  }

  /** A heading, listed once, that reaches over both columns of the other boxes, none of which is
      centred above it. */
  predicate Headed(v: Layout, indices: seq<nat>, h: nat, a: real, b: real, x: real, y: real) {
    && AllProper(v, indices) && multiset(indices)[h] == 1
    && TwoColumns(v, Others(indices, h), a, b, x, y)
    && At(v, h).l <= x && y <= At(v, h).r
    && forall i | i in Others(indices, h) :: Middle(v, i) <= Middle(v, h)
  }

  /** At least seven tenths of the region, where every other box is narrower. */
  predicate OnlyItIsWide(v: Layout, indices: seq<nat>, h: nat)
    requires indices != []
  {
    && At(v, h).r - At(v, h).l >= 0.7 * Width(v, indices)
    && forall i | i in Others(indices, h) :: At(v, i).r - At(v, i).l < 0.7 * Width(v, indices)
  }

  lemma OthersAre(indices: seq<nat>, h: nat)
    requires multiset(indices)[h] == 1
    ensures h in indices && forall i :: i in Others(indices, h) <==> i in indices && i != h
  {
    FilterElements(indices, NotThis(h));
    assert h in multiset(indices);
  }

  /** Where the columns are, seen from their line. */
  lemma ColumnsMeet(v: Layout, cols: seq<nat>, a: real, b: real, x: real, y: real)
    requires TwoColumns(v, cols, a, b, x, y)
    ensures forall i | i in cols :: (At(v, i).l <= x <= At(v, i).r <= a) || (b <= At(v, i).l <= y <= At(v, i).r)
    ensures exists i | i in cols :: At(v, i).l <= x <= At(v, i).r <= a
    ensures exists i | i in cols :: b <= At(v, i).l <= y <= At(v, i).r
  {
    var left, right := LeftOf(v, cols, (a, b)), RightOf(v, cols, (a, b));
    FilterElements(cols, OnLeft(v, (a, b)));
    FilterElements(cols, OnRight(v, (a, b)));
    assert left[0] in left && right[0] in right;
  }

  /** The heading hides the whitespace between the columns. */
  lemma HeadingHidesTheGutter(v: Layout, indices: seq<nat>, h: nat, a: real, b: real, x: real, y: real)
    requires indices != [] && Headed(v, indices, h, a, b, x, y)
    ensures GutterAmong(v, indices, indices) == None
  {
    OthersAre(indices, h);
    ColumnsMeet(v, Others(indices, h), a, b, x, y);
    if |indices| >= 2 {
      var gaps := Gaps(v, indices, Across);
      if gaps != [] {
        var g := gaps[0];
        GapSplits(v, indices, Across, g);
        hide Gaps; hide TwoColumns; hide Others;
        NothingParts(v, indices, h, a, b, x, y, g);
        assert false;
      }
    }
  }

  lemma NothingParts(v: Layout, indices: seq<nat>, h: nat, a: real, b: real, x: real, y: real, g: Interval)
    requires h in indices && At(v, h).l <= x <= a < b <= y <= At(v, h).r && g.0 < g.1
    requires forall i | i in indices && i != h :: (At(v, i).l <= x <= At(v, i).r <= a) || (b <= At(v, i).l <= y <= At(v, i).r)
    requires exists i | i in indices :: At(v, i).r <= g.0
    requires exists i | i in indices :: At(v, i).l >= g.1
    ensures exists i | i in indices :: !(At(v, i).r <= g.0 || At(v, i).l >= g.1)
  {
    assert !(At(v, h).r <= g.0 || At(v, h).l >= g.1);
  }

  lemma NarrowAreTheOthers(v: Layout, indices: seq<nat>, h: nat)
    requires indices != [] && multiset(indices)[h] == 1 && OnlyItIsWide(v, indices, h)
    ensures Narrow(v, indices) == Others(indices, h)
  {
    OthersAre(indices, h);
    FilterSame(indices, (i: nat) => At(v, i).r - At(v, i).l < 0.7 * Width(v, indices), NotThis(h));
  }

  /** On either side of the gutter are the columns; the heading alone reaches across. */
  lemma HeadingSpans(v: Layout, indices: seq<nat>, h: nat, a: real, b: real, x: real, y: real, g: Interval)
    requires indices != [] && Headed(v, indices, h, a, b, x, y) && g in Gaps(v, Others(indices, h), Across)
    ensures LeftOf(v, indices, g) == LeftOf(v, Others(indices, h), (a, b))
    ensures RightOf(v, indices, g) == RightOf(v, Others(indices, h), (a, b))
    ensures forall i | i in Others(indices, h) :: At(v, i).r <= g.0 || At(v, i).l >= g.1
    ensures !(At(v, h).r <= g.0) && !(At(v, h).l >= g.1)
  {
    var cols := Others(indices, h);
    OthersAre(indices, h);
    assert AllProper(v, cols);
    ColumnsOnEitherSide(v, cols, a, b, x, y, g);
    GapSplits(v, cols, Across, g);
    ColumnsMeet(v, cols, a, b, x, y);
    var i :| i in cols && High(v, Across, i) <= g.0;
    var j :| j in cols && Low(v, Across, j) >= g.1;
    ColumnSides(v, cols, a, b, x, y, g, i, j);
    hide *;
    SidesOfTheOthers(v, indices, h, g);
  }

  lemma SidesOfTheOthers(v: Layout, indices: seq<nat>, h: nat, g: Interval)
    requires !(At(v, h).r <= g.0) && !(At(v, h).l >= g.1)
    ensures LeftOf(v, indices, g) == LeftOf(v, Others(indices, h), g)
    ensures RightOf(v, indices, g) == RightOf(v, Others(indices, h), g)
  {
    FilterTwice(indices, OnLeft(v, g), NotThis(h));
    FilterTwice(indices, OnRight(v, g), NotThis(h));
  }

  lemma OneSpanner(v: Layout, indices: seq<nat>, h: nat, g: Interval)
    requires indices != [] && AllProper(v, indices) && Usable(v, indices, g) && multiset(indices)[h] == 1
    requires forall i | i in indices && i != h :: At(v, i).r <= g.0 || At(v, i).l >= g.1
    requires !(At(v, h).r <= g.0) && !(At(v, h).l >= g.1)
    ensures Spanners(v, indices, g) == [h]
  {
    var across := Spanners(v, indices, g);
    ByPositionCounts(v, indices);
    FilterCounts(ByPosition(v, indices), Spans(v, g));
    hide Usable; hide ByPosition; hide Filter;
    forall i ensures multiset(across)[i] == multiset([h])[i] {
      assert i in indices <==> i in multiset(indices);
      assert Spans(v, g)(i) <==> !(At(v, i).r <= g.0) && !(At(v, i).l >= g.1);
      assert multiset([h])[i] == if i == h then 1 else 0;
    }
    assert multiset(across) == multiset([h]);
    SingletonIs(across, h);
  }

  lemma SingletonIs(s: seq<nat>, h: nat)
    requires multiset(s) == multiset([h])
    ensures s == [h]
  {
    assert |multiset(s)| == |s| && |multiset([h])| == 1;
    assert s[0] in multiset(s);
  }

  lemma HeadedPlan(v: Layout, indices: seq<nat>, h: nat, a: real, b: real, x: real, y: real)
    requires indices != [] && Headed(v, indices, h, a, b, x, y) && OnlyItIsWide(v, indices, h)
    requires b - a >= 6.0 && b - a >= 0.02 * Width(v, indices)
    requires var cols := Others(indices, h);
      SideBySide(v, LeftOf(v, cols, (a, b)), RightOf(v, cols, (a, b)))
    ensures var cols := Others(indices, h);
      PlanFor(v, indices) == Banded([h], LeftOf(v, cols, (a, b)) + RightOf(v, cols, (a, b)))
  {
    var cols := Others(indices, h);
    OthersAre(indices, h);
    HeadingHidesTheGutter(v, indices, h, a, b, x, y);
    NarrowAreTheOthers(v, indices, h);
    ColumnsMeet(v, cols, a, b, x, y);
    assert AllProper(v, cols);
    var found := ColumnGapExists(v, cols, a, b);
    HeadingSpans(v, indices, h, a, b, x, y, found);
    assert Usable(v, indices, found);
    hide SideBySide; hide Width; hide TwoColumns; hide Headed; hide OnlyItIsWide; hide LeftOf; hide RightOf; hide Others;
    TwoOfThem(cols, v, a, b);
    WidestUsableGutter(v, indices, cols);
    hide Usable; hide Gaps;
    var g := Gutter(v, indices);
    assert g == GutterAmong(v, indices, cols) && g.Some?;
    hide GutterAmong; hide Narrow;
    HeadingSpans(v, indices, h, a, b, x, y, g.value);
    OneSpanner(v, indices, h, g.value);
  }

  lemma TwoOfThem(cols: seq<nat>, v: Layout, a: real, b: real)
    requires a < b && exists i | i in cols :: At(v, i).r <= a
    requires exists i | i in cols :: b <= At(v, i).l
    requires AllProper(v, cols)
    ensures |cols| >= 2
  {
    var i :| i in cols && At(v, i).r <= a;
    var j :| j in cols && b <= At(v, j).l;
    assert Proper(At(v, i)) && i != j;
  }

  lemma {:induction false} WidthOfPart(v: Layout, part: seq<nat>, whole: seq<nat>)
    requires part != [] && whole != [] && forall i | i in part :: i in whole
    ensures Width(v, part) <= Width(v, whole)
  {
    EdgesOf(v, part);
    EdgesOf(v, whole);
  }

  lemma SidesFilter(left: seq<nat>, right: seq<nat>, p: nat -> bool, q: nat -> bool)
    requires forall i | i in left :: p(i) && !q(i)
    requires forall i | i in right :: !p(i) && q(i)
    ensures Filter(left + right, p) == left && Filter(left + right, q) == right
  {
    FilterConcat(left, right, p);
    FilterConcat(left, right, q);
    FilterAll(left, p);
    FilterAll(right, q);
    FilterNone(left, q);
    FilterNone(right, p);
  }

  lemma SidesTogether(v: Layout, cols: seq<nat>, a: real, b: real, x: real, y: real)
    requires AllProper(v, cols) && TwoColumns(v, cols, a, b, x, y)
    ensures var left, right := LeftOf(v, cols, (a, b)), RightOf(v, cols, (a, b));
      && LeftOf(v, left + right, (a, b)) == left && RightOf(v, left + right, (a, b)) == right
      && TwoColumns(v, left + right, a, b, x, y) && AllProper(v, left + right)
      && (forall i | i in left + right :: i in cols) && left + right != []
  {
    var left, right := LeftOf(v, cols, (a, b)), RightOf(v, cols, (a, b));
    FilterElements(cols, OnLeft(v, (a, b)));
    FilterElements(cols, OnRight(v, (a, b)));
    hide Filter;
    forall i | i in cols ensures !(At(v, i).r <= a && At(v, i).l >= b) {
      assert Proper(At(v, i));
    }
    SidesFilter(left, right, OnLeft(v, (a, b)), OnRight(v, (a, b)));
  }

  lemma HeadingComesFirst(v: Layout, h: nat, rest: seq<nat>, levels: nat)
    requires AllProper(v, rest) && forall i | i in rest :: Middle(v, i) <= Middle(v, h)
    ensures Bands(v, [h], rest, levels) == [h] + Cut(v, rest, levels)
  {
    FilterNone(rest, HigherThan(v, h));
    FilterAll(rest, NotHigherThan(v, h));
    BandsUnfold(v, [h], rest, levels);
    NothingToCut(v, levels);
    LastBand(v, rest, levels);
    hide *;
    assert [h][1..] == [];
  }

  lemma LastBand(v: Layout, rest: seq<nat>, levels: nat)
    requires AllProper(v, rest)
    ensures Bands(v, [], rest, levels) == Cut(v, rest, levels)
  {
    hide AllProper; hide Cut;
  }

  lemma NothingToCut(v: Layout, levels: nat)
    ensures AllProper(v, []) && Cut(v, [], levels) == []
  {
  }

  lemma CutBands(v: Layout, indices: seq<nat>, spanners: seq<nat>, rest: seq<nat>, levels: nat)
    requires AllProper(v, indices) && |indices| >= 2 && levels >= 1 && PlanFor(v, indices) == Banded(spanners, rest) && AllProper(v, rest)
    ensures Cut(v, indices, levels) == Bands(v, spanners, rest, levels - 1)
  {
    hide PlanFor; hide AllProper;
  }

  /** A heading wide enough to be masked, over two columns it would otherwise join: the heading is read
      first, then the left column, then the right one, each from top to bottom. */
  lemma HeadingThenColumns(v: Layout, indices: seq<nat>, h: nat, a: real, b: real, x: real, y: real, levels: nat)
    requires indices != [] && Headed(v, indices, h, a, b, x, y) && OnlyItIsWide(v, indices, h) && levels >= 2
    requires b - a >= 6.0 && b - a >= 0.02 * Width(v, indices)
    requires var cols := Others(indices, h);
      SideBySide(v, LeftOf(v, cols, (a, b)), RightOf(v, cols, (a, b)))
    ensures var cols := Others(indices, h);
      Cut(v, indices, levels) == [h] + ByPosition(v, LeftOf(v, cols, (a, b))) + ByPosition(v, RightOf(v, cols, (a, b)))
  {
    hide *;
    HeadedMeans(v, indices, h, a, b, x, y);
    HeadedPlan(v, indices, h, a, b, x, y);
    HeadedCut(v, indices, h, a, b, x, y, levels);
  }

  lemma HeadedMeans(v: Layout, indices: seq<nat>, h: nat, a: real, b: real, x: real, y: real)
    requires Headed(v, indices, h, a, b, x, y)
    ensures var cols := Others(indices, h);
      && AllProper(v, indices) && AllProper(v, cols) && TwoColumns(v, cols, a, b, x, y) && |indices| >= 2
      && (forall i | i in cols :: i in indices && Middle(v, i) <= Middle(v, h))
  {
    var cols := Others(indices, h);
    OthersAre(indices, h);
    assert AllProper(v, cols);
    BothThere(v, cols, a, b, x, y);
  }

  lemma HeadedCut(v: Layout, indices: seq<nat>, h: nat, a: real, b: real, x: real, y: real, levels: nat)
    requires AllProper(v, indices) && |indices| >= 2 && levels >= 2
    requires var cols := Others(indices, h);
      && AllProper(v, cols) && TwoColumns(v, cols, a, b, x, y)
      && (forall i | i in cols :: i in indices && Middle(v, i) <= Middle(v, h))
      && PlanFor(v, indices) == Banded([h], LeftOf(v, cols, (a, b)) + RightOf(v, cols, (a, b)))
    requires b - a >= 6.0 && b - a >= 0.02 * Width(v, indices)
    requires var cols := Others(indices, h);
      LeftOf(v, cols, (a, b)) != [] && RightOf(v, cols, (a, b)) != []
      && SideBySide(v, LeftOf(v, cols, (a, b)), RightOf(v, cols, (a, b)))
    ensures var cols := Others(indices, h);
      Cut(v, indices, levels) == [h] + ByPosition(v, LeftOf(v, cols, (a, b))) + ByPosition(v, RightOf(v, cols, (a, b)))
  {
    hide *;
    var cols := Others(indices, h);
    var left, right := LeftOf(v, cols, (a, b)), RightOf(v, cols, (a, b));
    SidesTogether(v, cols, a, b, x, y);
    WidthOfPart(v, left + right, indices);
    CutBands(v, indices, [h], left + right, levels);
    HeadingComesFirst(v, h, left + right, levels - 1);
    BothThere(v, left + right, a, b, x, y);
    TwoColumnsReadLeftThenRight(v, left + right, a, b, x, y, levels - 1);
    assert [h] + (ByPosition(v, left) + ByPosition(v, right)) == [h] + ByPosition(v, left) + ByPosition(v, right);
  }

  lemma BothThere(v: Layout, cols: seq<nat>, a: real, b: real, x: real, y: real)
    requires AllProper(v, cols) && TwoColumns(v, cols, a, b, x, y)
    ensures |cols| >= 2
  {
    ColumnsMeet(v, cols, a, b, x, y);
    TwoOfThem(cols, v, a, b);
  }
}

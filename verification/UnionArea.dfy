/** backend/app/pipeline/tagger_figure_text.py `_union_area`, and the text-box test that uses it. With
    integer coordinates a box is a set of unit cells and area is their number. */
module UnionArea {
  import opened Wrappers
  import opened Counting
  import opened Sorting

  datatype Box = Box(l: int, b: int, r: int, t: int)

  type Cell = (int, int)

  predicate Holds(x: Box, c: Cell) {
    x.l <= c.0 < x.r && x.b <= c.1 < x.t
  }

  function BoxCells(x: Box): set<Cell> {
    Product(x.l, x.r, Range(x.b, x.t))
  }

  /** What the boxes cover together. */
  function Cells(boxes: seq<Box>): set<Cell> {
    if boxes == [] then {} else Cells(boxes[..|boxes| - 1]) + BoxCells(boxes[|boxes| - 1])
  }

  lemma {:induction false} CellsMeaning(boxes: seq<Box>)
    ensures forall c :: c in Cells(boxes) <==> exists x :: x in boxes && Holds(x, c)
  {
    if boxes != [] {
      var init, last := boxes[..|boxes| - 1], boxes[|boxes| - 1];
      assert boxes == init + [last];
      CellsMeaning(init);
      assert last in boxes;
      forall c ensures c in BoxCells(last) <==> Holds(last, c) {
      }
    }
  }

  /** `_bbox_area`. */
  function Area(x: Box): nat {
    (if x.r > x.l then x.r - x.l else 0) * (if x.t > x.b then x.t - x.b else 0)
  }

  lemma AreaCountsCells(x: Box)
    ensures |BoxCells(x)| == Area(x)
  {
    hide Product; hide Range;
    RangeCount(x.b, x.t);
    if x.l <= x.r {
      ProductCount(x.l, x.r, Range(x.b, x.t));
    } else {
      assert BoxCells(x) == {};
    }
  }

  // ---------------------------------------------------------------- one strip

  type Interval = (int, int)

  predicate IntervalLe(x: Interval, y: Interval) {
    x.0 < y.0 || (x.0 == y.0 && x.1 <= y.1)
  }

  function Covered(intervals: seq<Interval>): set<int> {
    if intervals == [] then {}
    else Covered(intervals[..|intervals| - 1]) + Range(intervals[|intervals| - 1].0, intervals[|intervals| - 1].1)
  }

  lemma {:induction false} CoveredMeaning(intervals: seq<Interval>)
    ensures forall y :: y in Covered(intervals) <==> exists x :: x in intervals && x.0 <= y < x.1
  {
    if intervals != [] {
      var init, last := intervals[..|intervals| - 1], intervals[|intervals| - 1];
      assert intervals == init + [last];
      CoveredMeaning(init);
      assert last in intervals;
    }
  }

  /** The reach of the intervals so far: minus infinity before the first. */
  predicate Reaches(intervals: seq<Interval>, top: Option<int>) {
    && (top == None <==> intervals == [])
    && (top.Some? ==> (exists x :: x in intervals && x.1 == top.value) && forall x | x in intervals :: x.1 <= top.value)
  }

  function Higher(top: Option<int>, y: int): int {
    if top.Some? && top.value > y then top.value else y
  }

  /** A later interval adds just what it has above everything before it. */
  lemma NewPart(init: seq<Interval>, last: Interval, top: Option<int>, y: int)
    requires Reaches(init, top) && forall x | x in init :: x.0 <= last.0
    ensures (y in Covered(init) || last.0 <= y < last.1) <==> (y in Covered(init) || Higher(top, last.0) <= y < last.1)
    ensures !(y in Covered(init) && Higher(top, last.0) <= y)
  {
    CoveredMeaning(init);
    if top.Some? {
      var x :| x in init && x.1 == top.value;
      assert x.0 <= last.0;
    }
  }

  lemma CoverOneMore(init: seq<Interval>, last: Interval, top: Option<int>)
    requires Reaches(init, top) && forall x | x in init :: x.0 <= last.0
    ensures var low := Higher(top, last.0);
      |Covered(init + [last])| == |Covered(init)| + if last.1 > low then last.1 - low else 0
  {
    var low, all := Higher(top, last.0), init + [last];
    assert all[..|init|] == init;
    assert Covered(all) == Covered(init) + Range(last.0, last.1);
    hide Covered; hide Reaches; hide Higher;
    forall y ensures y in Covered(all) <==> y in Covered(init) + Range(low, last.1) {
      NewPart(init, last, top, y);
    }
    forall y | y in Covered(init) ensures y !in Range(low, last.1) {
      NewPart(init, last, top, y);
    }
    DisjointUnion(Covered(init), Range(low, last.1));
    assert Covered(all) == Covered(init) + Range(low, last.1);
    RangeCount(low, last.1);
  }

  lemma ReachesOneMore(init: seq<Interval>, last: Interval, top: Option<int>)
    requires Reaches(init, top)
    ensures Reaches(init + [last], Some(Higher(top, last.1)))
  {
    var all := init + [last];
    assert last in all && forall x | x in init :: x in all;
    assert forall x | x in all :: x == last || x in init;
  }

  lemma EarlierStartsLower(intervals: seq<Interval>, k: nat)
    requires InOrder(intervals, IntervalLe) && k < |intervals|
    ensures forall x | x in intervals[..k] :: x.0 <= intervals[k].0
  {
    forall x | x in intervals[..k] ensures x.0 <= intervals[k].0 {
      var j :| 0 <= j < k && intervals[j] == x;
      assert IntervalLe(intervals[j], intervals[k]);
    }
  }

  lemma NothingCovered()
    ensures |Covered([])| == 0 && Reaches([], None)
  {
  }

  /** The sweep up one strip: the length its intervals cover. */
  method StripHeight(intervals: seq<Interval>) returns (height: nat)
    requires InOrder(intervals, IntervalLe)
    ensures height == |Covered(intervals)|
  {
    hide Covered; hide Higher; hide InOrder;
    var top: Option<int> := None;
    height := 0;
    NothingCovered();
    var k := 0;
    while k < |intervals|
      invariant 0 <= k <= |intervals| && Reaches(intervals[..k], top) && height == |Covered(intervals[..k])|
    {
      var bottom, end := intervals[k].0, intervals[k].1;
      var low := Higher(top, bottom);
      assert intervals[..k + 1] == intervals[..k] + [intervals[k]];
      EarlierStartsLower(intervals, k);
      CoverOneMore(intervals[..k], intervals[k], top);
      ReachesOneMore(intervals[..k], intervals[k], top);
      hide Reaches;
      height := height + if end > low then end - low else 0;
      top := Some(Higher(top, end));
      k := k + 1;
    }
    assert intervals[..k] == intervals;
  }

  // ---------------------------------------------------------------- the whole sweep

  function Edges(boxes: seq<Box>): (s: set<int>)
    ensures forall x | x in boxes :: x.l in s && x.r in s
    ensures forall e | e in s :: exists x :: x in boxes && (e == x.l || e == x.r)
  {
    (set x | x in boxes :: x.l) + (set x | x in boxes :: x.r)
  }

  function Across(left: int, right: int): Box -> bool {
    (x: Box) => x.l < right && x.r > left
  }

  function Sides(boxes: seq<Box>): (s: seq<Interval>)
    ensures |s| == |boxes| && forall k | 0 <= k < |s| :: s[k] == (boxes[k].b, boxes[k].t)
  {
    seq(|boxes|, k requires 0 <= k < |boxes| => (boxes[k].b, boxes[k].t))
  }

  function Intervals(boxes: seq<Box>, left: int, right: int): seq<Interval> {
    Sorted(Sides(Filter(boxes, Across(left, right))), IntervalLe)
  }

  lemma IntervalsFacts(boxes: seq<Box>, left: int, right: int)
    ensures InOrder(Intervals(boxes, left, right), IntervalLe)
    ensures forall y :: y in Covered(Intervals(boxes, left, right))
                   <==> exists x :: x in boxes && x.l < right && x.r > left && x.b <= y < x.t
  {
    var active, intervals := Filter(boxes, Across(left, right)), Intervals(boxes, left, right);
    SortedInOrder(Sides(active), IntervalLe);
    SortedElements(Sides(active), IntervalLe);
    FilterElements(boxes, Across(left, right));
    CoveredMeaning(intervals);
    forall y ensures y in Covered(intervals) <==> exists x :: x in boxes && x.l < right && x.r > left && x.b <= y < x.t {
      if i :| i in intervals && i.0 <= y < i.1 {
        assert i in Sides(active);
        var k :| 0 <= k < |active| && Sides(active)[k] == i;
        assert active[k] in active;
      }
      if x :| x in boxes && x.l < right && x.r > left && x.b <= y < x.t {
        assert x in active;
        var k :| 0 <= k < |active| && active[k] == x;
        assert Sides(active)[k] in Sides(active);
        assert (x.b, x.t) in intervals;
      }
    }
  }

  lemma IntervalsInOrder(boxes: seq<Box>, left: int, right: int)
    ensures InOrder(Intervals(boxes, left, right), IntervalLe)
  {
    IntervalsFacts(boxes, left, right);
  }

  function LeftOf(cells: set<Cell>, x: int): set<Cell> {
    set c | c in cells && c.0 < x
  }

  /** Between neighbouring edges every column holds the same cells. */
  lemma StripCells(boxes: seq<Box>, left: int, right: int)
    requires left < right && forall e | e in Edges(boxes) :: e <= left || e >= right
    ensures |LeftOf(Cells(boxes), right)|
         == |LeftOf(Cells(boxes), left)| + (right - left) * |Covered(Intervals(boxes, left, right))|
  {
    var cells, ys := Cells(boxes), Covered(Intervals(boxes, left, right));
    CellsMeaning(boxes);
    IntervalsFacts(boxes, left, right);
    hide Intervals; hide Covered; hide Cells; hide Edges;
    forall c: Cell | left <= c.0 < right ensures c in cells <==> c.1 in ys {
      if b :| b in boxes && Holds(b, c) {
        assert b.l in Edges(boxes) && b.r in Edges(boxes);
      }
      if b :| b in boxes && b.l < right && b.r > left && b.b <= c.1 < b.t {
        assert b.l in Edges(boxes) && b.r in Edges(boxes);
        assert Holds(b, c);
      }
    }
    StripSplits(cells, left, right, ys);
  }

  lemma StripSplits(cells: set<Cell>, left: int, right: int, ys: set<int>)
    requires left < right && forall c: Cell | left <= c.0 < right :: c in cells <==> c.1 in ys
    ensures |LeftOf(cells, right)| == |LeftOf(cells, left)| + (right - left) * |ys|
  {
    var strip := Product(left, right, ys);
    assert LeftOf(cells, right) == LeftOf(cells, left) + strip;
    DisjointUnion(LeftOf(cells, left), strip);
    ProductCount(left, right, ys);
  }

  lemma EdgesEnclose(boxes: seq<Box>, xs: seq<int>, b: Box)
    requires xs == Ascending(Edges(boxes)) && b in boxes
    ensures xs != [] && xs[0] <= b.l && b.r <= xs[|xs| - 1]
  {
    AscendingIncreases(Edges(boxes));
    hide Ascending; hide Edges; hide Increasing;
    assert b.l in xs && b.r in xs;
    IncreasingEnds(xs, b.l);
    IncreasingEnds(xs, b.r);
  }

  lemma SweepEnds(boxes: seq<Box>, xs: seq<int>)
    requires xs == Ascending(Edges(boxes))
    ensures xs == [] ==> Cells(boxes) == {}
    ensures xs != [] ==> LeftOf(Cells(boxes), xs[0]) == {} && LeftOf(Cells(boxes), xs[|xs| - 1]) == Cells(boxes)
  {
    hide Edges; hide Ascending;
    CellsMeaning(boxes);
    hide Cells;
    forall c | c in Cells(boxes) ensures xs != [] && xs[0] <= c.0 < xs[|xs| - 1] {
      var b :| b in boxes && Holds(b, c);
      EdgesEnclose(boxes, xs, b);
    }
  }

  /** The area of the union is the number of cells some box covers, whatever the overlaps. */
  method FindUnionArea(boxes: seq<Box>) returns (area: nat)
    ensures area == |Cells(boxes)|
  {
    hide Cells; hide Covered; hide Intervals; hide LeftOf; hide Edges; hide Ascending; hide InOrder; hide Increasing;
    var xs := Ascending(Edges(boxes));
    SweepEnds(boxes, xs);
    AscendingIncreases(Edges(boxes));
    area := 0;
    var k := 0;
    while k + 1 < |xs|
      invariant 0 <= k && (xs != [] ==> k < |xs| && area == |LeftOf(Cells(boxes), xs[k])|)
      invariant xs == [] ==> area == 0
    {
      var left, right := xs[k], xs[k + 1];
      assert left in xs;
      IncreasingNeighbours(xs, k, left);
      forall e | e in Edges(boxes) ensures e <= left || e >= right {
        IncreasingNeighbours(xs, k, e);
      }
      StripCells(boxes, left, right);
      IntervalsInOrder(boxes, left, right);
      var height := StripHeight(Intervals(boxes, left, right));
      area := area + (right - left) * height;
      k := k + 1;
    }
  }

  // ---------------------------------------------------------------- what the area promises

  lemma OrderAndCopiesDoNotMatter(boxes: seq<Box>, others: seq<Box>)
    requires forall x :: x in boxes <==> x in others
    ensures Cells(boxes) == Cells(others)
  {
    CellsMeaning(boxes);
    CellsMeaning(others);
  }

  function AreaSum(boxes: seq<Box>): nat {
    if boxes == [] then 0 else AreaSum(boxes[..|boxes| - 1]) + Area(boxes[|boxes| - 1])
  }

  lemma {:induction false} UnionIsAtMostTheSum(boxes: seq<Box>)
    ensures |Cells(boxes)| <= AreaSum(boxes)
  {
    if boxes != [] {
      var init, last := boxes[..|boxes| - 1], boxes[|boxes| - 1];
      UnionIsAtMostTheSum(init);
      AreaCountsCells(last);
      hide BoxCells;
      UnionCount(Cells(init), BoxCells(last));
    }
  }

  lemma UnionCount(a: set<Cell>, b: set<Cell>)
    ensures |a + b| <= |a| + |b|
  {
    assert a + b == a + (b - a);
    DisjointUnion(a, b - a);
    SubsetIsNoLarger(b - a, b);
  }

  /** `_bbox_intersection_box`. */
  function Clip(a: Box, b: Box): Option<Box> {
    var x0, y0 := if a.l >= b.l then a.l else b.l, if a.b >= b.b then a.b else b.b;
    var x1, y1 := if a.r <= b.r then a.r else b.r, if a.t <= b.t then a.t else b.t;
    if x1 <= x0 || y1 <= y0 then None else Some(Box(x0, y0, x1, y1))
  }

  lemma ClipIsIntersection(a: Box, b: Box, c: Cell)
    ensures (Clip(a, b).Some? && Holds(Clip(a, b).value, c)) <==> Holds(a, c) && Holds(b, c)
  {
  }

  function Clipped(glyphs: seq<Box>, figure: Box): seq<Box> {
    if glyphs == [] then []
    else
      var n := |glyphs| - 1;
      Clipped(glyphs[..n], figure)
      + match Clip(glyphs[n], figure) case None => [] case Some(x) => [x]
  }

  lemma {:induction false} ClippedCells(glyphs: seq<Box>, figure: Box)
    ensures Cells(Clipped(glyphs, figure)) == Cells(glyphs) * BoxCells(figure)
  {
    if glyphs != [] {
      var init, last := glyphs[..|glyphs| - 1], glyphs[|glyphs| - 1];
      ClippedCells(init, figure);
      ClipCells(last, figure);
      var rest := Clipped(init, figure);
      match Clip(last, figure)
      case None =>
        assert Clipped(glyphs, figure) == rest;
      case Some(x) =>
        assert (rest + [x])[..|rest|] == rest;
    }
  }

  lemma ClipCells(a: Box, b: Box)
    ensures BoxCells(a) * BoxCells(b) == match Clip(a, b) case None => {} case Some(x) => BoxCells(x)
  {
    forall c ensures c in BoxCells(a) <==> Holds(a, c) { assert c == (c.0, c.1); }
    forall c ensures c in BoxCells(b) <==> Holds(b, c) { assert c == (c.0, c.1); }
    if Clip(a, b).Some? {
      forall c ensures c in BoxCells(Clip(a, b).value) <==> Holds(Clip(a, b).value, c) { assert c == (c.0, c.1); }
    }
  }

  /** The test of `_figure_text_elements`: the cheap sum first, then the union. */
  method IsTextBox(glyphs: seq<Box>, figure: Box) returns (textBox: bool)
    ensures textBox <==> 2 * |Cells(glyphs) * BoxCells(figure)| >= |BoxCells(figure)|
  {
    hide Cells; hide BoxCells; hide Clipped;
    var boxes := Clipped(glyphs, figure);
    ClippedCells(glyphs, figure);
    UnionIsAtMostTheSum(boxes);
    AreaCountsCells(figure);
    textBox := false;
    if 2 * AreaSum(boxes) >= Area(figure) {
      var union := FindUnionArea(boxes);
      textBox := 2 * union >= Area(figure);
    }
  }

  /** The sum test in front of the union changes no answer. */
  lemma SumIsOnlyAPrefilter(boxes: seq<Box>, area: nat)
    ensures (2 * AreaSum(boxes) >= area && 2 * |Cells(boxes)| >= area) <==> 2 * |Cells(boxes)| >= area
  {
    UnionIsAtMostTheSum(boxes);
  }
}

/** Cardinalities of the few set shapes the proofs count. */
module Counting {

  lemma Pick<T>(s: set<T>) returns (x: T)
    requires s != {}
    ensures x in s
  {
    x :| x in s;
  }

  function Paired<T>(s: set<T>, x: T): set<(T, T)> {
    set a | a in s :: (a, x)
  }

  lemma {:induction false} PairedCount<T>(s: set<T>, x: T)
    ensures |Paired(s, x)| == |s|
  {
    if s != {} {
      var y :| y in s;
      PairedCount(s - {y}, x);
      assert Paired(s, x) == Paired(s - {y}, x) + {(y, x)};
    }
  }

  function Flip<T(==)>(pairs: set<(T, T)>): set<(T, T)> {
    set p | p in pairs :: (p.1, p.0)
  }

  lemma {:induction false} FlipCount<T>(pairs: set<(T, T)>)
    ensures |Flip(pairs)| == |pairs|
  {
    if pairs != {} {
      var p :| p in pairs;
      FlipCount(pairs - {p});
      assert Flip(pairs) == Flip(pairs - {p}) + {(p.1, p.0)};
    }
  }

  lemma SubsetIsNoLarger<T>(a: set<T>, b: set<T>)
    requires a <= b
    ensures |a| <= |b|
  {
    assert b == a + (b - a);
  }

  lemma DisjointUnion<T>(a: set<T>, b: set<T>)
    requires a !! b
    ensures |a + b| == |a| + |b|
  {
  }

  lemma {:induction false} LeastExists(s: set<int>) returns (least: int)
    requires s != {}
    ensures least in s && forall j | j in s :: least <= j
    decreases |s|
  {
    var one := Pick(s);
    var rest := s - {one};
    assert forall j | j in s :: j == one || j in rest;
    if rest == {} {
      least := one;
    } else {
      var other := LeastExists(rest);
      least := if other < one then other else one;
    }
  }

  function Least(s: set<int>): (least: int)
    requires s != {}
    ensures least in s && forall j | j in s :: least <= j
  {
    assert exists k :: k in s && forall j | j in s :: k <= j by {
      var k := LeastExists(s);
    }
    var k :| k in s && forall j | j in s :: k <= j;
    k
  }

  /** `sorted` over the elements of a set. */
  function Ascending(s: set<int>): (r: seq<int>)
    ensures forall c :: c in r <==> c in s
  {
    if s == {} then [] else [Least(s)] + Ascending(s - {Least(s)})
  }

  lemma {:induction false} AscendingIncreases(s: set<int>)
    ensures Increasing(Ascending(s))
  {
    if s != {} {
      var rest := s - {Least(s)};
      AscendingIncreases(rest);
      forall j | 0 <= j < |Ascending(rest)| ensures Least(s) < Ascending(rest)[j] {
        assert Ascending(rest)[j] in rest;
      }
    }
  }

  predicate Increasing(r: seq<int>) {
    forall i, j | 0 <= i < j < |r| :: r[i] < r[j]
  }

  lemma IncreasingEnds(r: seq<int>, e: int)
    requires Increasing(r) && e in r
    ensures r[0] <= e <= r[|r| - 1]
  {
    var i :| 0 <= i < |r| && r[i] == e;
    assert i == 0 || r[0] < r[i];
    assert i == |r| - 1 || r[i] < r[|r| - 1];
  }

  lemma IncreasingNeighbours(r: seq<int>, k: nat, e: int)
    requires Increasing(r) && k + 1 < |r| && e in r
    ensures r[k] < r[k + 1] && (e <= r[k] || e >= r[k + 1])
  {
    var i :| 0 <= i < |r| && r[i] == e;
  }

  function Range(lo: int, hi: int): (r: set<int>)
    ensures forall y :: y in r <==> lo <= y < hi
    decreases hi - lo
  {
    if lo < hi then Range(lo, hi - 1) + {hi - 1} else {}
  }

  lemma {:induction false} RangeCount(lo: int, hi: int)
    ensures |Range(lo, hi)| == if lo <= hi then hi - lo else 0
    decreases hi - lo
  {
    if lo < hi {
      RangeCount(lo, hi - 1);
    }
  }

  function Column(x: int, ys: set<int>): (r: set<(int, int)>)
    ensures forall c :: c in r <==> c.0 == x && c.1 in ys
  {
    var r := set y | y in ys :: (x, y);
    assert forall y | y in ys :: (x, y) in r;
    r
  }

  function Product(lo: int, hi: int, ys: set<int>): (r: set<(int, int)>)
    ensures forall c :: c in r <==> lo <= c.0 < hi && c.1 in ys
    decreases hi - lo
  {
    if lo < hi then Product(lo, hi - 1, ys) + Column(hi - 1, ys) else {}
  }

  lemma {:induction false} ColumnCount(x: int, ys: set<int>)
    ensures |Column(x, ys)| == |ys|
  {
    if ys != {} {
      var y := Pick(ys);
      ColumnCount(x, ys - {y});
      assert Column(x, ys) == Column(x, ys - {y}) + {(x, y)};
    }
  }

  function Times(k: nat, n: nat): nat {
    if k == 0 then 0 else Times(k - 1, n) + n
  }

  lemma {:induction false} TimesMultiplies(k: nat, n: nat)
    ensures Times(k, n) == k * n
  {
    if k > 0 {
      TimesMultiplies(k - 1, n);
      assert (k - 1) * n + n == k * n;
    }
  }

  lemma ProductOneMore(lo: int, hi: int, ys: set<int>)
    requires lo < hi
    ensures |Product(lo, hi, ys)| == |Product(lo, hi - 1, ys)| + |ys|
  {
    ColumnCount(hi - 1, ys);
    hide Column;
    DisjointUnion(Product(lo, hi - 1, ys), Column(hi - 1, ys));
  }

  lemma EmptyProduct(lo: int, ys: set<int>)
    ensures |Product(lo, lo, ys)| == 0
  {
  }

  lemma {:induction false} ProductOfWidth(lo: int, width: nat, ys: set<int>)
    ensures |Product(lo, lo + width, ys)| == Times(width, |ys|)
  {
    hide Product;
    if width > 0 {
      ProductOfWidth(lo, width - 1, ys);
      ProductOneMore(lo, lo + width, ys);
      assert lo + (width - 1) == lo + width - 1;
    } else {
      EmptyProduct(lo, ys);
    }
  }

  lemma ProductCount(lo: int, hi: int, ys: set<int>)
    requires lo <= hi
    ensures |Product(lo, hi, ys)| == (hi - lo) * |ys|
  {
    ProductOfWidth(lo, hi - lo, ys);
    TimesMultiplies(hi - lo, |ys|);
  }
}

/** The object store's names. The board compares `jobs/{id}/` and `jobs/{id}/r{n}/` as text; the
    model keeps their parts and shows that both ways of comparing agree. */
module Keys {

  type Id = string

  datatype Key =
    | InputKey(id: Id)
    | FileKey(id: Id, rev: nat, name: string)

  datatype Prefix =
    | JobPrefix(id: Id)
    | RevPrefix(id: Id, rev: nat)

  predicate Covers(p: Prefix, k: Key) {
    match p
    case JobPrefix(id) => k.id == id
    case RevPrefix(id, rev) => k.FileKey? && k.id == id && k.rev == rev
  }

  predicate Contains(p: Prefix, q: Prefix) {
    match p
    case JobPrefix(id) => q.id == id
    case RevPrefix(_, _) => q == p
  }

  function Digit(n: nat): char
    requires n < 10
  {
    ['0', '1', '2', '3', '4', '5', '6', '7', '8', '9'][n]
  }

  /** The decimal text a template string gives a revision number. */
  function Decimal(n: nat): (s: string)
    ensures s != []
    ensures forall i | 0 <= i < |s| :: '0' <= s[i] <= '9'
  {
    if n < 10 then [Digit(n)] else Decimal(n / 10) + [Digit(n % 10)]
  }

  function PrefixText(p: Prefix): string {
    match p
    case JobPrefix(id) => "jobs/" + id + "/"
    case RevPrefix(id, rev) => "jobs/" + id + "/" + "r" + Decimal(rev) + "/"
  }

  function KeyText(k: Key): string {
    match k
    case InputKey(id) => "jobs/" + id + "/" + "input.pdf"
    case FileKey(id, rev, name) => "jobs/" + id + "/" + "r" + Decimal(rev) + "/" + name
  }

  /** A path segment: no slash in it. Job ids are UUIDs. */
  predicate Segment(s: string) {
    '/' !in s
  }

  lemma {:induction false} DecimalInjective(m: nat, n: nat)
    requires Decimal(m) == Decimal(n)
    ensures m == n
  {
    if m < 10 || n < 10 {
      assert |Decimal(m)| == 1 <==> m < 10;
      assert |Decimal(n)| == 1 <==> n < 10;
      assert Decimal(m)[0] == Decimal(n)[0];
    } else {
      var a, b := Decimal(m), Decimal(n);
      assert a[..|a| - 1] == Decimal(m / 10) && b[..|b| - 1] == Decimal(n / 10);
      assert a[|a| - 1] == Digit(m % 10) && b[|b| - 1] == Digit(n % 10);
      DecimalInjective(m / 10, n / 10);
    }
  }

  /** Two texts that each start with a segment and a slash agree as prefixes only on equal segments. */
  lemma SegmentsDecide(a: string, x: string, b: string, y: string)
    requires Segment(a) && Segment(b)
    requires a + "/" + x <= b + "/" + y
    ensures a == b && x <= y
  {
    var s, t := a + "/" + x, b + "/" + y;
    assert s[|a|] == '/' == t[|b|];
    assert t[|a|] == s[|a|];
    assert |b| < |s| ==> s[|b|] == t[|b|];
    assert |a| == |b|;
    forall i | 0 <= i < |a| ensures a[i] == b[i] {
      assert s[i] == a[i] && t[i] == b[i];
    }
    assert a == b;
    assert s[|a| + 1..] == x && t[|a| + 1..] == y;
  }

  function Rest(p: Prefix): string {
    if p.JobPrefix? then "" else "r" + Decimal(p.rev) + "/"
  }

  function KeyRest(k: Key): string {
    if k.InputKey? then "input.pdf" else "r" + Decimal(k.rev) + "/" + k.name
  }

  lemma Regroup(id: string, rest: string)
    ensures "jobs/" + id + "/" + rest == "jobs/" + (id + "/" + rest)
  {
    assert "jobs/" + id + "/" == "jobs/" + (id + "/");
    assert id + "/" + rest == (id + "/") + rest;
  }

  lemma RegroupFile(id: string, r: string, name: string)
    ensures "jobs/" + id + "/" + "r" + r + "/" + name == "jobs/" + id + "/" + ("r" + r + "/" + name)
  {
    var h := "jobs/" + id + "/";
    assert h + "r" + r + "/" + name == h + ("r" + r + "/" + name);
  }

  lemma PrefixSplit(p: Prefix)
    ensures PrefixText(p) == "jobs/" + (p.id + "/" + Rest(p))
  {
    Regroup(p.id, Rest(p));
    if p.RevPrefix? {
      RegroupFile(p.id, Decimal(p.rev), "");
      assert PrefixText(p) + "" == PrefixText(p);
      assert Rest(p) + "" == Rest(p);
    }
  }

  lemma KeySplit(k: Key)
    ensures KeyText(k) == "jobs/" + (k.id + "/" + KeyRest(k))
  {
    Regroup(k.id, KeyRest(k));
    if k.FileKey? {
      RegroupFile(k.id, Decimal(k.rev), k.name);
    }
  }

  lemma PrefixAfterHead(head: string, s: string, t: string)
    ensures head + s <= head + t <==> s <= t
  {
    if head + s <= head + t {
      assert (head + s)[|head|..] == s && (head + t)[|head|..|head| + |s|] == t[..|s|];
    }
    if s <= t {
      assert head + t == (head + s) + t[|s|..];
    }
  }

  /** Deletion by text prefix touches exactly the keys the model says it covers: no revision's
      prefix reaches another revision's files, the input, or another job. */
  lemma CoversIsTextPrefix(p: Prefix, k: Key)
    requires Segment(p.id) && Segment(k.id)
    ensures Covers(p, k) <==> PrefixText(p) <= KeyText(k)
  {
    PrefixSplit(p);
    KeySplit(k);
    PrefixAfterHead("jobs/", p.id + "/" + Rest(p), k.id + "/" + KeyRest(k));
    if PrefixText(p) <= KeyText(k) {
      SegmentsDecide(p.id, Rest(p), k.id, KeyRest(k));
      if p.RevPrefix? {
        assert Rest(p)[0] == 'r' == KeyRest(k)[0];
        assert k.FileKey?;
        RevisionsDecide(p.rev, "", k.rev, k.name);
      }
    }
    if Covers(p, k) {
      if p.RevPrefix? {
        assert KeyRest(k) == Rest(p) + k.name;
      }
      PrefixAfterHead(k.id + "/", Rest(p), KeyRest(k));
    }
  }

  lemma RegroupRevision(r: string, x: string)
    ensures "r" + r + "/" + x == "r" + (r + "/" + x)
  {
    assert "r" + r + "/" + x == ("r" + r) + ("/" + x);
  }

  lemma RevisionsDecide(m: nat, x: string, n: nat, y: string)
    requires "r" + Decimal(m) + "/" + x <= "r" + Decimal(n) + "/" + y
    ensures m == n && x <= y
  {
    hide Decimal;
    RegroupRevision(Decimal(m), x);
    RegroupRevision(Decimal(n), y);
    PrefixAfterHead("r", Decimal(m) + "/" + x, Decimal(n) + "/" + y);
    SegmentsDecide(Decimal(m), x, Decimal(n), y);
    DecimalInjective(m, n);
  }

  /** The same for the registered writes a cleanup record waits for. */
  lemma ContainsIsTextPrefix(p: Prefix, q: Prefix)
    requires Segment(p.id) && Segment(q.id)
    ensures Contains(p, q) <==> PrefixText(p) <= PrefixText(q)
  {
    PrefixSplit(p);
    PrefixSplit(q);
    PrefixAfterHead("jobs/", p.id + "/" + Rest(p), q.id + "/" + Rest(q));
    if PrefixText(p) <= PrefixText(q) {
      SegmentsDecide(p.id, Rest(p), q.id, Rest(q));
      if p.RevPrefix? {
        assert q.RevPrefix?;
        assert Rest(p) == "r" + Decimal(p.rev) + "/" + "" && Rest(q) == "r" + Decimal(q.rev) + "/" + "";
        RevisionsDecide(p.rev, "", q.rev, "");
      }
    }
    if Contains(p, q) {
      PrefixAfterHead(q.id + "/", Rest(p), Rest(q));
    }
  }

  /** Distinct keys have distinct texts, so the structured store is the text-keyed one. */
  lemma KeyTextInjective(j: Key, k: Key)
    requires Segment(j.id) && Segment(k.id)
    requires KeyText(j) == KeyText(k)
    ensures j == k
  {
    KeySplit(j);
    KeySplit(k);
    PrefixAfterHead("jobs/", j.id + "/" + KeyRest(j), k.id + "/" + KeyRest(k));
    PrefixAfterHead("jobs/", k.id + "/" + KeyRest(k), j.id + "/" + KeyRest(j));
    SegmentsDecide(j.id, KeyRest(j), k.id, KeyRest(k));
    SegmentsDecide(k.id, KeyRest(k), j.id, KeyRest(j));
    assert KeyRest(j)[0] == KeyRest(k)[0];
    if j.FileKey? {
      RevisionsDecide(j.rev, j.name, k.rev, k.name);
      RevisionsDecide(k.rev, k.name, j.rev, j.name);
    }
  }
}

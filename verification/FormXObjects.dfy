/** backend/app/pipeline/form_xobjects.py: every drawn Form XObject is given its own stream, so that a
    stream-local MCID names one placement (ISO 32000-1, 14.7.4.2; ISO 14289-1, 7.20). */
module FormXObjects {
  import opened Wrappers
  import opened Keys
  import opened Counting

  type Ref = nat
  type Name = string

  /** A content-stream instruction: `/name Do`, or anything else. */
  datatype Instr = Do(name: Name) | Op(text: string)

  /** A resource dictionary: its XObject names, and the fonts, colour spaces and so on beside them. */
  datatype Resources = Resources(xobjects: map<Name, Ref>, others: string)

  const NO_RESOURCES := Resources(map[], "")

  /** An indirect object: a form, or anything else a name can stand for. */
  datatype Object =
    | Form(attrs: map<string, string>, resources: Option<Resources>, content: seq<Instr>)
    | Other(data: string)

  datatype Page = Page(resources: Option<Resources>, content: seq<Instr>)

  /** The keys a copy does not take over: how the data is encoded, and its old place in the tree. */
  const UNCOPIED: set<string> := {"/Length", "/Filter", "/DecodeParms", "/StructParents"}

  function Copied(attrs: map<string, string>): map<string, string> {
    map k | k in attrs && k !in UNCOPIED :: attrs[k]
  }

  /** A form's own resources, or those of whatever draws it. */
  function Effective(form: Object, outer: Resources): Resources
    requires form.Form?
  {
    form.resources.GetOr(outer)
  }

  // ---------------------------------------------------------------- what is drawn

  /** The recursive expansion of a content stream: every mark in painting order, each form call with
      the expansion of its form. */
  datatype Drawn =
    | Blank
    | Mark(text: string, others: string, rest: Drawn)
    | Picture(ref: Ref, rest: Drawn)
    | Call(ref: Ref, attrs: map<string, string>, body: Drawn, rest: Drawn)

  /** `t` is the expansion of these instructions; there is none when a drawn name does not resolve or
      the nesting does not end. */
  predicate Draws(h: map<Ref, Object>, res: Resources, content: seq<Instr>, t: Drawn)
    decreases t
  {
    if content == [] then t == Blank
    else
      match content[0]
      case Op(text) => t.Mark? && t.text == text && t.others == res.others && Draws(h, res, content[1..], t.rest)
      case Do(name) =>
        && name in res.xobjects && res.xobjects[name] in h
        && var r := res.xobjects[name];
        match h[r]
        case Other(_) => t.Picture? && t.ref == r && Draws(h, res, content[1..], t.rest)
        case Form(attrs, _, body) =>
          && t.Call? && t.ref == r && t.attrs == Copied(attrs)
          && Draws(h, Effective(h[r], res), body, t.body) && Draws(h, res, content[1..], t.rest)
  }

  /** The marks alone, whichever objects they come from. */
  function Marks(t: Drawn): Drawn {
    match t
    case Blank => Blank
    case Mark(text, others, rest) => Mark(text, others, Marks(rest))
    case Picture(ref, rest) => Picture(ref, Marks(rest))
    case Call(_, attrs, body, rest) => Call(0, attrs, Marks(body), Marks(rest))
  }

  function Forms(t: Drawn): set<Ref> {
    match t
    case Blank => {}
    case Mark(_, _, rest) => Forms(rest)
    case Picture(_, rest) => Forms(rest)
    case Call(ref, _, body, rest) => {ref} + Forms(body) + Forms(rest)
  }

  /** How often a form is invoked in the whole expansion. */
  function Invocations(t: Drawn, r: Ref): nat {
    match t
    case Blank => 0
    case Mark(_, _, rest) => Invocations(rest, r)
    case Picture(_, rest) => Invocations(rest, r)
    case Call(ref, _, body, rest) => (if ref == r then 1 else 0) + Invocations(body, r) + Invocations(rest, r)
  }

  /** How deep forms nest. */
  function Height(t: Drawn): nat {
    match t
    case Blank => 0
    case Mark(_, _, rest) => Height(rest)
    case Picture(_, rest) => Height(rest)
    case Call(_, _, body, rest) => if Height(body) + 1 >= Height(rest) then Height(body) + 1 else Height(rest)
  }

  lemma {:induction false} HeightIsOfTheMarks(t: Drawn)
    ensures Height(Marks(t)) == Height(t)
  {
    match t
    case Blank =>
    case Mark(_, _, rest) => HeightIsOfTheMarks(rest);
    case Picture(_, rest) => HeightIsOfTheMarks(rest);
    case Call(_, _, body, rest) =>
      HeightIsOfTheMarks(body);
      HeightIsOfTheMarks(rest);
  }

  /** No form is drawn inside itself. */
  predicate Acyclic(t: Drawn, above: set<Ref>) {
    match t
    case Blank => true
    case Mark(_, _, rest) => Acyclic(rest, above)
    case Picture(_, rest) => Acyclic(rest, above)
    case Call(ref, _, body, rest) => ref !in above && Acyclic(body, above + {ref}) && Acyclic(rest, above)
  }

  /** No form is invoked twice, here or in any form drawn from here. */
  predicate Distinct(t: Drawn) {
    match t
    case Blank => true
    case Mark(_, _, rest) => Distinct(rest)
    case Picture(_, rest) => Distinct(rest)
    case Call(ref, _, body, rest) =>
      ref !in Forms(body) + Forms(rest) && Forms(body) !! Forms(rest) && Distinct(body) && Distinct(rest)
  }

  lemma {:induction false} DistinctMeansOneInvocation(t: Drawn, r: Ref)
    ensures r !in Forms(t) ==> Invocations(t, r) == 0
    ensures Distinct(t) && r in Forms(t) ==> Invocations(t, r) == 1
  {
    match t
    case Blank =>
    case Mark(_, _, rest) => DistinctMeansOneInvocation(rest, r);
    case Picture(_, rest) => DistinctMeansOneInvocation(rest, r);
    case Call(_, _, body, rest) =>
      DistinctMeansOneInvocation(body, r);
      DistinctMeansOneInvocation(rest, r);
  }

  /** A page has at most one expansion. */
  lemma {:induction false} DrawsOneThing(h: map<Ref, Object>, res: Resources, content: seq<Instr>, t: Drawn, u: Drawn)
    requires Draws(h, res, content, t) && Draws(h, res, content, u)
    ensures t == u
    decreases t
  {
    if content != [] {
      DrawsOneThing(h, res, content[1..], t.rest, u.rest);
      if t.Call? {
        var form := h[t.ref];
        DrawsOneThing(h, Effective(form, res), form.content, t.body, u.body);
      }
    }
  }

  // ---------------------------------------------------------------- small facts about expansions

  function Append(t: Drawn, u: Drawn): Drawn {
    match t
    case Blank => u
    case Mark(text, others, rest) => Mark(text, others, Append(rest, u))
    case Picture(ref, rest) => Picture(ref, Append(rest, u))
    case Call(ref, attrs, body, rest) => Call(ref, attrs, body, Append(rest, u))
  }

  lemma {:induction t} AppendFacts(t: Drawn, u: Drawn)
    ensures Marks(Append(t, u)) == Append(Marks(t), Marks(u))
    ensures Append(t, Blank) == t
    ensures Height(Append(t, u)) >= Height(u)
  {
  }

  lemma {:induction t} AppendForms(t: Drawn, u: Drawn)
    ensures Forms(Append(t, u)) == Forms(t) + Forms(u)
  {
  }

  lemma {:induction false} AppendDistinct(t: Drawn, u: Drawn)
    requires Distinct(t) && Distinct(u) && Forms(t) !! Forms(u)
    ensures Distinct(Append(t, u))
  {
    if !t.Blank? {
      AppendDistinct(t.rest, u);
      AppendForms(t.rest, u);
    }
  }

  lemma AppendAssociates(t: Drawn, u: Drawn, v: Drawn)
    ensures Append(Append(t, u), v) == Append(t, Append(u, v))
  {
  }

  lemma {:induction false} DrawsAppend(h: map<Ref, Object>, res: Resources, a: seq<Instr>, ta: Drawn, b: seq<Instr>, tb: Drawn)
    requires Draws(h, res, a, ta) && Draws(h, res, b, tb)
    ensures Draws(h, res, a + b, Append(ta, tb))
    decreases ta
  {
    if a == [] {
      assert a + b == b;
    } else {
      assert (a + b)[1..] == a[1..] + b;
      DrawsAppend(h, res, a[1..], ta.rest, b, tb);
    }
  }

  lemma {:induction false} DrawnFormsExist(h: map<Ref, Object>, res: Resources, content: seq<Instr>, t: Drawn)
    requires Draws(h, res, content, t)
    ensures Forms(t) <= h.Keys
    decreases t
  {
    if content != [] {
      DrawnFormsExist(h, res, content[1..], t.rest);
      if t.Call? {
        DrawnFormsExist(h, Effective(h[t.ref], res), h[t.ref].content, t.body);
      }
    }
  }

  lemma {:induction false} DistinctIsAcyclic(t: Drawn, above: set<Ref>)
    requires Distinct(t) && Forms(t) !! above
    ensures Acyclic(t, above)
  {
    match t
    case Blank =>
    case Mark(_, _, rest) => DistinctIsAcyclic(rest, above);
    case Picture(_, rest) => DistinctIsAcyclic(rest, above);
    case Call(ref, _, body, rest) =>
      DistinctIsAcyclic(body, above + {ref});
      DistinctIsAcyclic(rest, above);
  }

  /** A heap that agrees on everything but one form nothing here invokes draws the same. */
  lemma {:induction false} DrawsInLaterHeap(h: map<Ref, Object>, h2: map<Ref, Object>, o: Ref,
                                            res: Resources, content: seq<Instr>, t: Drawn)
    requires Draws(h, res, content, t)
    requires forall r | r in h && r != o :: r in h2 && h2[r] == h[r]
    requires o in h ==> o !in Forms(t) && h[o].Form?
    ensures Draws(h2, res, content, t)
    decreases t
  {
    if content != [] {
      DrawsInLaterHeap(h, h2, o, res, content[1..], t.rest);
      if t.Call? {
        DrawsInLaterHeap(h, h2, o, Effective(h[t.ref], res), h[t.ref].content, t.body);
      }
    }
  }

  /** Instructions all of whose names resolve, the forms among them carrying their own resources. */
  predicate Settled(h: map<Ref, Object>, xobjects: map<Name, Ref>, used: set<Name>, content: seq<Instr>) {
    forall i | 0 <= i < |content| && content[i].Do? ::
      && content[i].name in xobjects && xobjects[content[i].name] in h
      && (h[xobjects[content[i].name]].Form? ==>
            content[i].name in used && h[xobjects[content[i].name]].resources.Some?)
  }

  lemma {:induction false} SettledIgnoresOtherNames(
      h: map<Ref, Object>, res: Resources, res2: Resources, used: set<Name>, content: seq<Instr>, t: Drawn)
    requires Draws(h, res, content, t) && Settled(h, res.xobjects, used, content) && res2.others == res.others
    requires forall i | 0 <= i < |content| && content[i].Do? ::
               content[i].name in res2.xobjects && res2.xobjects[content[i].name] == res.xobjects[content[i].name]
    ensures Draws(h, res2, content, t)
    decreases t
  {
    if content != [] {
      assert forall i | 0 <= i < |content[1..]| :: content[1..][i] == content[i + 1];
      SettledIgnoresOtherNames(h, res, res2, used, content[1..], t.rest);
      assert content[0] == content[0];
    }
  }

  // ---------------------------------------------------------------- rebinding a name

  /** `c` is a self-contained form that draws `tc`, the marks of whatever `name` stood for. */
  predicate Replaces(h: map<Ref, Object>, res: Resources, name: Name, c: Ref, tc: Drawn, was: Drawn) {
    && c in h && h[c].Form? && h[c].resources.Some?
    && Draws(h, h[c].resources.value, h[c].content, tc)
    && (name in res.xobjects ==>
          var r := res.xobjects[name];
          && r in h && h[r].Form? && Copied(h[r].attrs) == Copied(h[c].attrs)
          && Draws(h, Effective(h[r], res), h[r].content, was) && Marks(was) == Marks(tc))
  }

  /** The expansion once `name` is bound to `c`, here and in every form that inherits the resources. */
  function Rebound(h: map<Ref, Object>, res: Resources, name: Name, c: Ref, tc: Drawn, content: seq<Instr>, t: Drawn): Drawn
    requires Draws(h, res, content, t)
    decreases t
  {
    match t
    case Blank => Blank
    case Mark(text, others, rest) => Mark(text, others, Rebound(h, res, name, c, tc, content[1..], rest))
    case Picture(ref, rest) => Picture(ref, Rebound(h, res, name, c, tc, content[1..], rest))
    case Call(ref, attrs, body, rest) =>
      var after := Rebound(h, res, name, c, tc, content[1..], rest);
      if content[0].name == name then Call(c, attrs, tc, after)
      else if h[ref].resources.Some? then Call(ref, attrs, body, after)
      else Call(ref, attrs, Rebound(h, res, name, c, tc, h[ref].content, body), after)
  }

  /** Binding a name to such a form changes which objects are drawn, but not one mark. */
  lemma {:induction false} RebindKeepsMarks(
      h: map<Ref, Object>, res: Resources, name: Name, c: Ref, tc: Drawn, was: Drawn,
      content: seq<Instr>, t: Drawn, above: set<Ref>)
    requires Draws(h, res, content, t) && Acyclic(t, above)
    requires Replaces(h, res, name, c, tc, was)
    requires Distinct(tc) && c !in Forms(tc) && (Forms(tc) + {c}) !! (above + Forms(t))
    ensures var u := Rebound(h, res, name, c, tc, content, t);
      && Draws(h, res.(xobjects := res.xobjects[name := c]), content, u)
      && Marks(u) == Marks(t) && Acyclic(u, above)
    decreases t
  {
    if content != [] {
      RebindKeepsMarks(h, res, name, c, tc, was, content[1..], t.rest, above);
      if t.Call? {
        if content[0].name == name {
          DrawsOneThing(h, Effective(h[t.ref], res), h[t.ref].content, t.body, was);
          DistinctIsAcyclic(tc, above + {c});
        } else if h[t.ref].resources == None {
          RebindKeepsMarks(h, res, name, c, tc, was, h[t.ref].content, t.body, above + {t.ref});
        }
      }
    }
  }

  // ---------------------------------------------------------------- names

  function Tagged(name: Name, suffix: nat): Name {
    name + "_tag" + Decimal(suffix)
  }

  lemma TaggedIsInjective(name: Name, i: nat, j: nat)
    requires Tagged(name, i) == Tagged(name, j)
    ensures i == j
  {
    assert Tagged(name, i)[|name + "_tag"|..] == Decimal(i);
    assert Tagged(name, j)[|name + "_tag"|..] == Decimal(j);
    DecimalInjective(i, j);
  }

  /** The first tagged name not bound yet. The search ends: each suffix it passes is another bound name. */
  method FreshName(name: Name, xobjects: map<Name, Ref>) returns (free: Name)
    ensures free !in xobjects
    ensures exists suffix: nat :: suffix >= 1 && free == Tagged(name, suffix)
              && forall s: nat | 1 <= s < suffix :: Tagged(name, s) in xobjects
  {
    var suffix := 1;
    ghost var passed: set<Name> := {};
    while Tagged(name, suffix) in xobjects
      invariant suffix >= 1 && |passed| == suffix - 1 && passed <= xobjects.Keys
      invariant forall n | n in passed :: exists s: nat :: 1 <= s < suffix && n == Tagged(name, s)
      invariant forall s: nat | 1 <= s < suffix :: Tagged(name, s) in xobjects
      decreases |xobjects| - suffix
    {
      if Tagged(name, suffix) in passed {
        var s: nat :| 1 <= s < suffix && Tagged(name, suffix) == Tagged(name, s);
        TaggedIsInjective(name, suffix, s);
        assert false;
      }
      passed := passed + {Tagged(name, suffix)};
      SubsetIsNoLarger(passed, xobjects.Keys);
      suffix := suffix + 1;
    }
    return Tagged(name, suffix);
  }

  // ---------------------------------------------------------------- the rewrite

  predicate Extends(h: map<Ref, Object>, h2: map<Ref, Object>) {
    forall r | r in h :: r in h2 && h2[r] == h[r]
  }

  /** Every form invoked is one of those numbered `lo` up to `hi`, and invoked once. */
  predicate New(t: Drawn, lo: Ref, hi: Ref) {
    Distinct(t) && forall r | r in Forms(t) :: lo <= r < hi
  }

  /** The copies made for one page are numbered after those of the pages before it. */
  predicate Numbered(ts: seq<Drawn>, starts: seq<Ref>) {
    && |starts| == |ts| + 1
    && (forall i | 0 <= i < |ts| :: New(ts[i], starts[i], starts[i + 1]))
    && forall i, j | 0 <= i <= j <= |ts| :: starts[i] <= starts[j]
  }

  /** In the whole document, one invocation: on page `i`. */
  predicate OnceOnPage(ts: seq<Drawn>, i: nat, r: Ref)
    requires i < |ts|
  {
    Invocations(ts[i], r) == 1 && forall j | 0 <= j < |ts| && j != i :: Invocations(ts[j], r) == 0
  }

  lemma NumberedMeansOnce(ts: seq<Drawn>, starts: seq<Ref>, i: nat, r: Ref)
    requires Numbered(ts, starts) && i < |ts| && r in Forms(ts[i])
    ensures starts[0] <= r && OnceOnPage(ts, i, r)
  {
    hide Distinct; hide Forms; hide Invocations;
    assert New(ts[i], starts[i], starts[i + 1]) && starts[0] <= starts[i];
    DistinctMeansOneInvocation(ts[i], r);
    forall j | 0 <= j < |ts| && j != i ensures Invocations(ts[j], r) == 0 {
      assert New(ts[j], starts[j], starts[j + 1]);
      assert if i < j then starts[i + 1] <= starts[j] else starts[j + 1] <= starts[i];
      DistinctMeansOneInvocation(ts[j], r);
    }
  }

  /** One instruction further: what is drawn so far grows by what it draws. */
  lemma MoveOn(h: map<Ref, Object>, res: Resources, a: seq<Instr>, done: Drawn, i: Instr, one: Drawn, todo: Drawn)
    requires Draws(h, res, a, done) && Draws(h, res, [i], one)
    ensures Draws(h, res, a + [i], Append(done, one))
    ensures Append(Marks(done), Marks(Append(one, todo))) == Append(Marks(Append(done, one)), Marks(todo))
  {
    DrawsAppend(h, res, a, done, [i], one);
    AppendFacts(one, todo);
    AppendFacts(done, one);
    AppendAssociates(Marks(done), Marks(one), Marks(todo));
  }

  lemma DrawsOneCall(h: map<Ref, Object>, res: Resources, name: Name, c: Ref, drawn: Drawn)
    requires name in res.xobjects && res.xobjects[name] == c && c in h && h[c].Form? && h[c].resources.Some?
    requires Draws(h, h[c].resources.value, h[c].content, drawn)
    ensures Draws(h, res, [Do(name)], Call(c, Copied(h[c].attrs), drawn, Blank))
  {
    assert [Do(name)][1..] == [];
  }

  /** What binding `name` to the new form leaves alone: the prefix already rewritten. */
  lemma PrefixKept(h: map<Ref, Object>, res: Resources, used: set<Name>, a: seq<Instr>, done: Drawn,
                   was: Name, name: Name, c: Ref)
    requires Draws(h, res, a, done) && Settled(h, res.xobjects, used, a)
    requires was in res.xobjects && res.xobjects[was] in h && h[res.xobjects[was]].Form?
    requires (name == was && was !in used) || name !in res.xobjects
    requires c in h && h[c].Form? && h[c].resources.Some?
    ensures Draws(h, res.(xobjects := res.xobjects[name := c]), a, done)
    ensures Settled(h, res.xobjects[name := c], used + {name}, a + [Do(name)])
  {
    forall i | 0 <= i < |a| && a[i].Do? ensures a[i].name != name && a[i].name in res.xobjects {
    }
    SettledIgnoresOtherNames(h, res, res.(xobjects := res.xobjects[name := c]), used, a, done);
  }

  lemma GrowsByOneCall(done: Drawn, c: Ref, attrs: map<string, string>, drawn: Drawn, lo: Ref, hi: Ref)
    requires New(done, lo, c) && New(drawn, c + 1, hi) && lo <= c < hi
    ensures New(Append(done, Call(c, attrs, drawn, Blank)), lo, hi)
  {
    var call := Call(c, attrs, drawn, Blank);
    assert Forms(call) == {c} + Forms(drawn) && Distinct(call);
    AppendForms(done, call);
    AppendDistinct(done, call);
  }

  /** What a list rewritten so far draws once the copy `c` is called next. */
  function WithCall(done: Drawn, c: Ref, attrs: map<string, string>, drawn: Drawn): Drawn {
    Append(done, Call(c, Copied(attrs), drawn, Blank))
  }

  /** The loop's step at a form call: the copy `c` is bound to `name`, and the list redrawn. */
  lemma Rebind(h: map<Ref, Object>, h2: map<Ref, Object>, res: Resources, used: set<Name>,
               a: seq<Instr>, done: Drawn, was: Name, name: Name, c: Ref, drawn: Drawn,
               b: seq<Instr>, todo: Drawn, ancestors: set<Ref>, lo: Ref, hi: Ref)
    requires Extends(h, h2) && Draws(h, res, a, done) && Draws(h, res, [Do(was)] + b, todo)
    requires Settled(h, res.xobjects, used, a) && New(done, lo, c) && Acyclic(todo, ancestors)
    requires todo.Call? && ((name == was && was !in used) || name !in res.xobjects)
    requires c in h2 && h2[c].Form? && h2[c].resources.Some? && h2[c].attrs == Copied(h[todo.ref].attrs)
    requires Draws(h2, h2[c].resources.value, h2[c].content, drawn)
    requires Marks(drawn) == Marks(todo.body) && New(drawn, c + 1, hi)
    requires ancestors <= h.Keys && (forall r | r in h :: r < c) && lo <= c < hi
    ensures Draws(h2, res, b, todo.rest)
    ensures var res2 := res.(xobjects := res.xobjects[name := c]);
      var done2, todo2 := WithCall(done, c, h2[c].attrs, drawn), Rebound(h2, res, name, c, drawn, b, todo.rest);
      && Draws(h2, res2, a + [Do(name)], done2) && Draws(h2, res2, b, todo2)
      && Settled(h2, res2.xobjects, used + {name}, a + [Do(name)])
      && Append(Marks(done2), Marks(todo2)) == Append(Marks(done), Marks(todo))
      && New(done2, lo, hi) && Forms(done2) != {} && Acyclic(todo2, ancestors)
  {
    var res2 := res.(xobjects := res.xobjects[name := c]);
    assert ([Do(was)] + b)[1..] == b;
    assert Copied(Copied(h[todo.ref].attrs)) == Copied(h[todo.ref].attrs);
    DrawnFormsExist(h, res, b, todo.rest);
    DrawsInLaterHeap(h, h2, c, res, a, done);
    DrawsInLaterHeap(h, h2, c, res, b, todo.rest);
    DrawsInLaterHeap(h, h2, c, Effective(h[todo.ref], res), h[todo.ref].content, todo.body);
    var call := Call(c, Copied(h2[c].attrs), drawn, Blank);
    PrefixKept(h2, res, used, a, done, was, name, c);
    RebindKeepsMarks(h2, res, name, c, drawn, todo.body, b, todo.rest, ancestors);
    DrawsOneCall(h2, res2, name, c, drawn);
    MoveOn(h2, res2, a, done, Do(name), call, Rebound(h2, res, name, c, drawn, b, todo.rest));
    GrowsByOneCall(done, c, Copied(h2[c].attrs), drawn, lo, hi);
    AppendForms(done, call);
  }

  lemma {:induction false} HeightFalls(done: Drawn, todo: Drawn, t: Drawn)
    requires Append(Marks(done), Marks(todo)) == Marks(t) && todo.Call?
    ensures Height(todo.body) < Height(t)
  {
    HeightIsOfTheMarks(todo);
    HeightIsOfTheMarks(t);
    AppendFacts(Marks(done), Marks(todo));
    assert Height(todo.body) < Height(todo);
    hide Marks; hide Append; hide Height;
  }

  /** The next thing drawn, by itself. */
  function First(t: Drawn): Drawn
    requires !t.Blank? && !t.Call?
  {
    if t.Mark? then Mark(t.text, t.others, Blank) else Picture(t.ref, Blank)
  }

  /** The loop's step at anything but a form call. */
  lemma Pass(h: map<Ref, Object>, res: Resources, used: set<Name>, a: seq<Instr>, done: Drawn,
             i: Instr, b: seq<Instr>, todo: Drawn, ancestors: set<Ref>, lo: Ref, hi: Ref)
    requires Draws(h, res, a, done) && Draws(h, res, [i] + b, todo) && !todo.Call?
    requires Settled(h, res.xobjects, used, a) && New(done, lo, hi) && Acyclic(todo, ancestors)
    ensures !todo.Blank?
    ensures var done2 := Append(done, First(todo));
      && Draws(h, res, a + [i], done2) && Draws(h, res, b, todo.rest) && Settled(h, res.xobjects, used, a + [i])
      && Append(Marks(done2), Marks(todo.rest)) == Append(Marks(done), Marks(todo))
      && New(done2, lo, hi) && Forms(done2) == Forms(done) && Acyclic(todo.rest, ancestors)
  {
    assert ([i] + b)[1..] == b && [i][1..] == [];
    var one := First(todo);
    assert Append(one, todo.rest) == todo;
    MoveOn(h, res, a, done, i, one, todo.rest);
    AppendForms(done, one);
    AppendDistinct(done, one);
  }

  /** What the next instruction is, read off the expansion still to come. */
  lemma Front(h: map<Ref, Object>, res: Resources, i: Instr, b: seq<Instr>, todo: Drawn, ancestors: set<Ref>)
    requires Draws(h, res, [i] + b, todo) && Acyclic(todo, ancestors)
    ensures i.Do? ==> i.name in res.xobjects && res.xobjects[i.name] in h
    ensures todo.Call? <==> i.Do? && h[res.xobjects[i.name]].Form?
    ensures todo.Call? ==>
              && todo.ref == res.xobjects[i.name] && todo.ref !in ancestors && Acyclic(todo.body, ancestors + {todo.ref})
              && Draws(h, Effective(h[todo.ref], res), h[todo.ref].content, todo.body)
  {
  }

  lemma NothingDrawnYet(h: map<Ref, Object>, res: Resources, t: Drawn, n: Ref)
    ensures Draws(h, res, [], Blank) && New(Blank, n, n) && Settled(h, res.xobjects, {}, []) && Forms(Blank) == {}
    ensures Append(Marks(Blank), Marks(t)) == Marks(t)
  {
  }

  lemma NothingLeft(h: map<Ref, Object>, res: Resources, done: Drawn, todo: Drawn, t: Drawn)
    requires Draws(h, res, [], todo) && Append(Marks(done), Marks(todo)) == Marks(t)
    ensures Marks(done) == Marks(t)
  {
    AppendFacts(Marks(done), Blank);
  }

  datatype Owner = OnPage(page: nat) | InForm(form: Ref)

  class Pdf {
    var objects: map<Ref, Object>
    var next: Ref
    var pages: seq<Page>
    var changed: bool

    predicate Valid()
      reads this
    {
      forall r | r in objects :: r < next
    }

    predicate Owns(owner: Owner)
      reads this
    {
      match owner
      case OnPage(i) => i < |pages|
      case InForm(r) => r in objects && objects[r].Form?
    }

    function Content(owner: Owner): seq<Instr>
      requires Owns(owner)
      reads this
    {
      match owner
      case OnPage(i) => pages[i].content
      case InForm(r) => objects[r].content
    }

    function ResourcesOf(owner: Owner): Resources
      requires Owns(owner)
      reads this
    {
      match owner
      case OnPage(i) => pages[i].resources.GetOr(NO_RESOURCES)
      case InForm(r) => objects[r].resources.GetOr(NO_RESOURCES)
    }

    /** A fresh copy of a form, itself visited: self-contained, and drawing the same marks. */
    method Instance(form: Ref, outer: Resources, ancestors: set<Ref>, ghost body: Drawn)
      returns (c: Ref, ghost drawn: Drawn)
      requires Valid() && ancestors <= objects.Keys && form in objects && objects[form].Form?
      requires Draws(objects, Effective(objects[form], outer), objects[form].content, body)
      requires Acyclic(body, ancestors + {form})
      modifies this
      ensures Valid() && c == old(next) < next && pages == old(pages) && Extends(old(objects), objects)
      ensures c in objects && objects[c].Form? && objects[c].attrs == Copied(objects[form].attrs)
      ensures objects[c].resources.Some? && Draws(objects, objects[c].resources.value, objects[c].content, drawn)
      ensures Marks(drawn) == Marks(body) && New(drawn, c + 1, next)
      decreases Height(body), 1
    {
      c := next;
      next := next + 1;
      var source := objects[form];
      ghost var before := objects;
      DrawnFormsExist(objects, Effective(source, outer), source.content, body);
      objects := objects[c := Form(Copied(source.attrs), source.resources, source.content)];
      DrawsInLaterHeap(before, objects, c, Effective(source, outer), source.content, body);
      drawn := Visit(InForm(c), Effective(source, outer), ancestors + {form}, body);
    }

    /** Give every form this owner draws its own copy, and every form those draw. `t` is what the owner
        draws before; `u` what it draws after: the same marks, from forms that are all new and each
        invoked once. It ends because a form nests less deep than whatever draws it. */
    method Visit(owner: Owner, resources: Resources, ancestors: set<Ref>, ghost t: Drawn) returns (ghost u: Drawn)
      requires Valid() && Owns(owner) && ancestors <= objects.Keys
      requires owner.OnPage? ==> resources == ResourcesOf(owner)
      requires Draws(objects, resources, Content(owner), t) && Acyclic(t, ancestors)
      requires owner.InForm? ==> owner.form !in Forms(t)
      modifies this
      ensures Valid() && old(next) <= next && Owns(owner)
      ensures Extends(if owner.InForm? then old(objects) - {owner.form} else old(objects), objects)
      ensures |pages| == |old(pages)| && forall i | 0 <= i < |pages| && owner != OnPage(i) :: pages[i] == old(pages)[i]
      ensures owner.InForm? ==> objects[owner.form].resources.Some? && objects[owner.form].attrs == old(objects)[owner.form].attrs
      ensures Draws(objects, ResourcesOf(owner), Content(owner), u)
      ensures Marks(u) == Marks(t) && New(u, old(next), next)
      ensures owner.OnPage? && Forms(u) == {} ==> pages == old(pages) && objects == old(objects) && changed == old(changed)
      ensures Forms(u) != {} ==> changed
      decreases Height(t), 0
    {
      hide Draws; hide Acyclic; hide Distinct; hide Marks; hide Forms; hide Settled; hide Append; hide Height;
      hide WithCall; hide Rebound; hide First;
      var instructions := Content(owner);
      var xobjects := resources.xobjects;
      var used: set<Name> := {};
      var touched := false;
      ghost var done, todo := Blank, t;
      var index := 0;
      NothingDrawnYet(objects, resources, t, next);
      assert instructions[..0] == [] && instructions[0..] == instructions && resources.(xobjects := xobjects) == resources;
      while index < |instructions|
        invariant 0 <= index <= |instructions| && Valid() && old(next) <= next && pages == old(pages)
        invariant Extends(old(objects), objects)
        invariant Draws(objects, resources.(xobjects := xobjects), instructions[..index], done)
        invariant Draws(objects, resources.(xobjects := xobjects), instructions[index..], todo)
        invariant Append(Marks(done), Marks(todo)) == Marks(t)
        invariant Acyclic(todo, ancestors) && New(done, old(next), next)
        invariant Settled(objects, xobjects, used, instructions[..index])
        invariant touched <==> Forms(done) != {}
        invariant touched ==> changed
        invariant !touched ==> xobjects == resources.xobjects && instructions == old(Content(owner))
        invariant !touched ==> objects == old(objects) && changed == old(changed)
      {
        var instruction := instructions[index];
        ghost var a, b := instructions[..index], instructions[index + 1..];
        ghost var res := resources.(xobjects := xobjects);
        assert instructions[index..] == [instruction] + b && instructions[..index + 1] == a + [instruction];
        Front(objects, res, instruction, b, todo, ancestors);
        if instruction.Op? || objects[xobjects[instruction.name]].Other? {
          Pass(objects, res, used, a, done, instruction, b, todo, ancestors, old(next), next);
          done, todo := Append(done, First(todo)), todo.rest;
        } else {
          var name := instruction.name;
          var form := xobjects[name];
          // The ancestor check never holds on acyclic input.
          assert form !in ancestors;
          ghost var before := objects;
          HeightFalls(done, todo, t);
          var c; ghost var drawn;
          c, drawn := Instance(form, resources.(xobjects := xobjects), ancestors, todo.body);
          if name in used {
            name := FreshName(name, xobjects);
            instructions := instructions[index := Do(name)];
          }
          assert instructions[..index + 1] == a + [Do(name)] && instructions[index + 1..] == b;
          Rebind(before, objects, res, used, a, done, instruction.name, name, c, drawn,
                 b, todo, ancestors, old(next), next);
          done, todo := WithCall(done, c, objects[c].attrs, drawn), Rebound(objects, res, name, c, drawn, b, todo.rest);
          used := used + {name};
          xobjects := xobjects[name := c];
          touched, changed := true, true;
        }
        index := index + 1;
      }
      assert instructions[..index] == instructions && instructions[index..] == [];
      NothingLeft(objects, resources.(xobjects := xobjects), done, todo, t);
      u := done;
      if touched || owner.InForm? {
        WriteBack(owner, Resources(xobjects, resources.others), instructions, u);
      }
    }

    /** The owner's new resources and content. */
    method WriteBack(owner: Owner, res: Resources, instructions: seq<Instr>, ghost u: Drawn)
      requires Valid() && Owns(owner) && Draws(objects, res, instructions, u)
      requires owner.InForm? ==> owner.form !in Forms(u)
      modifies this
      ensures Valid() && next == old(next) && changed == old(changed) && Owns(owner)
      ensures Draws(objects, res, instructions, u)
      ensures Content(owner) == instructions && ResourcesOf(owner) == res
      ensures owner.InForm? ==>
                && pages == old(pages) && Extends(old(objects) - {owner.form}, objects)
                && objects[owner.form].resources.Some? && objects[owner.form].attrs == old(objects)[owner.form].attrs
      ensures owner.OnPage? ==>
                && objects == old(objects) && |pages| == |old(pages)|
                && forall i | 0 <= i < |pages| && i != owner.page :: pages[i] == old(pages)[i]
    {
      ghost var before := objects;
      match owner
      case OnPage(i) => pages := pages[i := Page(Some(res), instructions)];
      case InForm(r) =>
        objects := objects[r := objects[r].(resources := Some(res), content := instructions)];
        DrawsInLaterHeap(before, objects, r, res, instructions, u);
    }

    /** What page `i` draws. */
    ghost predicate PageDraws(i: nat, t: Drawn)
      requires i < |pages|
      reads this
    {
      Draws(objects, ResourcesOf(OnPage(i)), pages[i].content, t)
    }

    /** Visit each page in turn; `starts` are the stream numbers each page's copies begin at. */
    method VisitPages(ghost before: seq<Drawn>) returns (ghost after: seq<Drawn>, ghost starts: seq<Ref>)
      requires Valid() && |before| == |pages| && !changed
      requires forall i | 0 <= i < |pages| :: PageDraws(i, before[i]) && Acyclic(before[i], {})
      modifies this
      ensures |after| == |pages| == |before| && Numbered(after, starts) && starts[0] == old(next)
      ensures forall i | 0 <= i < |pages| :: PageDraws(i, after[i]) && Marks(after[i]) == Marks(before[i])
      ensures Extends(old(objects), objects)
      ensures changed <==> exists i | 0 <= i < |pages| :: Forms(after[i]) != {}
      ensures !changed ==> pages == old(pages) && objects == old(objects)
    {
      hide Draws; hide Acyclic; hide Distinct; hide Marks; hide Forms; hide New;
      after, starts := [], [next];
      var index := 0;
      while index < |pages|
        invariant 0 <= index <= |pages| == |before| && |after| == index
        invariant Valid() && Extends(old(objects), objects) && Numbered(after, starts)
        invariant starts[0] == old(next) && starts[index] == next
        invariant forall i | index <= i < |pages| :: pages[i] == old(pages)[i]
        invariant forall i | 0 <= i < index :: PageDraws(i, after[i]) && Marks(after[i]) == Marks(before[i])
        invariant changed <==> exists i | 0 <= i < index :: Forms(after[i]) != {}
        invariant !changed ==> pages == old(pages) && objects == old(objects)
      {
        ghost var h := objects;
        DrawsInLaterHeap(old(objects), h, next, ResourcesOf(OnPage(index)), pages[index].content, before[index]);
        ghost var u := Visit(OnPage(index), ResourcesOf(OnPage(index)), {}, before[index]);
        forall i | 0 <= i < index ensures PageDraws(i, after[i]) {
          DrawsInLaterHeap(h, objects, next, ResourcesOf(OnPage(i)), pages[i].content, after[i]);
        }
        after, starts := after + [u], starts + [next];
        index := index + 1;
      }
    }

    /** Every page draws the marks it drew before, and every form drawn anywhere is a new stream with
        exactly one invocation in the whole document. */
    method UniqueFormInstances(ghost before: seq<Drawn>) returns (ghost after: seq<Drawn>)
      requires Valid() && |before| == |pages|
      requires forall i | 0 <= i < |pages| :: PageDraws(i, before[i]) && Acyclic(before[i], {})
      modifies this
      ensures |after| == |pages| == |before|
      ensures forall i | 0 <= i < |pages| :: PageDraws(i, after[i]) && Marks(after[i]) == Marks(before[i])
      ensures forall i, r | 0 <= i < |pages| && r in Forms(after[i]) :: r !in old(objects) && OnceOnPage(after, i, r)
      ensures Extends(old(objects), objects)
      ensures changed <==> exists i | 0 <= i < |pages| :: Forms(after[i]) != {}
      ensures !changed ==> pages == old(pages) && objects == old(objects)
    {
      hide Draws; hide Acyclic; hide Distinct; hide Marks; hide Forms; hide OnceOnPage; hide Numbered;
      changed := false;
      ghost var starts;
      after, starts := VisitPages(before);
      forall i, r | 0 <= i < |pages| && r in Forms(after[i])
        ensures r !in old(objects) && OnceOnPage(after, i, r)
      {
        NumberedMeansOnce(after, starts, i, r);
      }
    }
  }
}

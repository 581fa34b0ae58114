/** What a ToUnicode CMap means when it mixes bfchar and bfrange blocks (section 9.10.3 of ISO 32000-1):
    what `_parse_tounicode_map` of backend/scripts/corpus_benchmark.py makes of such a text. */
module CMapRanges {
  import opened Wrappers
  import opened HexText
  import opened CMapLines
  import opened CMap
  import Keys

  // ---------------------------------------------------------------- texts and what they say

  /** One line of a bfrange block. */
  datatype Rule =
    | Points(start: nat, end: nat, seed: nat)
    | Listed(start: nat, end: nat, texts: seq<Text>)

  datatype Piece =
    | Chars(entries: seq<Entry>)
    | Ranges(rules: seq<Rule>)
    | Loose(line: string)

  /** Code points a UTF-16BE text can spell, whether or not a mapping may hold them. */
  predicate Spellable(n: nat) {
    n <= 0x10FFFF && !IsSurrogate(n)
  }

  predicate Spelled(text: Text) {
    text != [] && forall i | 0 <= i < |text| :: Spellable(text[i])
  }

  predicate ProperRule(rule: Rule) {
    match rule
    case Points(_, _, seed) => Spellable(seed)
    case Listed(_, _, texts) => forall i | 0 <= i < |texts| :: Spelled(texts[i])
  }

  /** Outside the blocks anything may stand that is one line and does not open a block. */
  predicate ProperPiece(p: Piece) {
    match p
    case Chars(entries) => Writable(entries)
    case Ranges(rules) => forall i | 0 <= i < |rules| :: ProperRule(rules[i])
    case Loose(line) => OneLine(line) && !Begins(Cleaned(line))
  }

  /** The text this line gives the code, if it gives it one. */
  function RuleSays(rule: Rule, c: int): Option<Text> {
    if !(rule.start <= c <= rule.end) then None
    else
      match rule
      case Points(start, _, seed) => if ValidCodePoint(seed + (c - start)) then Some([seed + (c - start)]) else None
      case Listed(start, _, texts) =>
        if c - start < |texts| && ValidText(texts[c - start]) then Some(texts[c - start]) else None
  }

  function EntrySays(e: Entry, c: int): Option<Text> {
    if e.0 == c then Some(e.1) else None
  }

  /** The later of two words on a code. */
  function Lastly(earlier: Option<Text>, later: Option<Text>): Option<Text> {
    if later.Some? then later else earlier
  }

  function EntriesSay(entries: seq<Entry>, c: int): Option<Text> {
    if entries == [] then None
    else Lastly(EntriesSay(entries[..|entries| - 1], c), EntrySays(entries[|entries| - 1], c))
  }

  function RulesSay(rules: seq<Rule>, c: int): Option<Text> {
    if rules == [] then None
    else Lastly(RulesSay(rules[..|rules| - 1], c), RuleSays(rules[|rules| - 1], c))
  }

  function PieceSays(p: Piece, c: int): Option<Text> {
    match p
    case Chars(entries) => EntriesSay(entries, c)
    case Ranges(rules) => RulesSay(rules, c)
    case Loose(_) => None
  }

  function PiecesSay(pieces: seq<Piece>, c: int): Option<Text> {
    if pieces == [] then None
    else Lastly(PiecesSay(pieces[..|pieces| - 1], c), PieceSays(pieces[|pieces| - 1], c))
  }

  // ---------------------------------------------------------------- how they are written

  function HexOf(text: Text): (s: string)
    requires Spelled(text)
    ensures IsHex(s)
  {
    EncodeHex(text)
  }

  function HexesOf(texts: seq<Text>): (hexes: seq<string>)
    requires forall i | 0 <= i < |texts| :: Spelled(texts[i])
    ensures |hexes| == |texts| && forall i | 0 <= i < |texts| :: hexes[i] == HexOf(texts[i])
    ensures forall h | h in hexes :: IsHex(h)
  {
    seq(|texts|, i requires 0 <= i < |texts| => HexOf(texts[i]))
  }

  /** Groups side by side, with blanks between. */
  function GroupList(hexes: seq<string>): string {
    if hexes == [] then ""
    else if |hexes| == 1 then Bracketed(hexes[0])
    else Bracketed(hexes[0]) + " " + GroupList(hexes[1..])
  }

  function Ends(start: nat, end: nat, width: nat): string {
    Bracketed(PaddedHex(start, width)) + " " + Bracketed(PaddedHex(end, width))
  }

  function RuleText(rule: Rule, width: nat): string
    requires ProperRule(rule)
  {
    match rule
    case Points(start, end, seed) => Ends(start, end, width) + " " + Bracketed(HexOf([seed]))
    case Listed(start, end, texts) => Ends(start, end, width) + " [" + GroupList(HexesOf(texts)) + "]"
  }

  function RuleTexts(rules: seq<Rule>, width: nat): (lines: seq<string>)
    requires forall i | 0 <= i < |rules| :: ProperRule(rules[i])
    ensures |lines| == |rules| && forall i | 0 <= i < |lines| :: lines[i] == RuleText(rules[i], width)
  {
    seq(|rules|, i requires 0 <= i < |rules| => RuleText(rules[i], width))
  }

  function RangeCount(n: nat): string {
    Keys.Decimal(n) + " beginbfrange"
  }

  function PieceLines(p: Piece, width: nat): seq<string>
    requires ProperPiece(p)
  {
    match p
    case Chars(entries) => BlockLines(entries, width)
    case Ranges(rules) => [RangeCount(|rules|)] + RuleTexts(rules, width) + ["endbfrange"]
    case Loose(line) => [line]
  }

  predicate Proper(pieces: seq<Piece>) {
    forall i | 0 <= i < |pieces| :: ProperPiece(pieces[i])
  }

  function PiecesLines(pieces: seq<Piece>, width: nat): seq<string>
    requires Proper(pieces)
  {
    if pieces == [] then []
    else PiecesLines(pieces[..|pieces| - 1], width) + PieceLines(pieces[|pieces| - 1], width)
  }

  // ---------------------------------------------------------------- reading one range line

  function Look(m: Mapping, c: int): Option<Text> {
    if c in m then Some(m[c]) else None
  }

  /** The mapping after the line's word on each code. */
  ghost predicate RuleHeard(m: Mapping, after: Mapping, rule: Rule) {
    forall c: int :: Look(after, c) == Lastly(Look(m, c), RuleSays(rule, c))
  }

  /** A text in hexadecimal is read back when a mapping may hold it, and passed over otherwise. */
  lemma HexIsRead(text: Text)
    requires Spelled(text)
    ensures HexOf(text) != "" && DecodeHex(HexOf(text)) == if ValidText(text) then Some(text) else None
  {
    FromHexOfBytes(Encode(text));
    EncodedLength(text);
    DecodeOfEncode(text);
  }

  lemma SeedIsRead(seed: nat)
    requires Spellable(seed)
    ensures HexOf([seed]) != "" && Seed(HexOf([seed])) == Some(seed)
  {
    FromHexOfBytes(Encode([seed]));
    EncodedLength([seed]);
    DecodeOfEncode([seed]);
  }

  lemma {:induction false} SkipToGroup(s: string, rest: string)
    requires '<' !in s
    ensures FindHex(s + rest) == FindHex(rest)
  {
    if s == "" {
      assert s + rest == rest;
    } else {
      assert (s + rest)[1..] == s[1..] + rest;
      SkipToGroup(s[1..], rest);
    }
  }

  lemma SkipBlank(rest: string)
    ensures FindHex(" " + rest) == FindHex(rest)
  {
    SkipToGroup(" ", rest);
  }

  lemma NoGroups(s: string)
    requires '<' !in s
    ensures FindHex(s) == []
  {
    SkipToGroup(s, "");
    assert s + "" == s;
  }

  predicate Groups(hexes: seq<string>) {
    forall i | 0 <= i < |hexes| :: hexes[i] != "" && IsHex(hexes[i])
  }

  lemma HexesAreGroups(texts: seq<Text>)
    requires forall i | 0 <= i < |texts| :: Spelled(texts[i])
    ensures Groups(HexesOf(texts))
  {
    hide HexOf; hide Spelled;
    forall i | 0 <= i < |texts| ensures HexesOf(texts)[i] != "" {
      HexIsRead(texts[i]);
    }
  }

  lemma Regroup(a: string, b: string, c: string)
    ensures a + " " + b + c == a + (" " + (b + c))
  {
  }

  lemma {:induction false} FindList(hexes: seq<string>, rest: string)
    requires Groups(hexes)
    ensures FindHex(GroupList(hexes) + rest) == hexes + FindHex(rest)
  {
    hide FindHex; hide Bracketed; hide IsHex;
    if hexes == [] {
      assert GroupList(hexes) + rest == rest;
    } else if |hexes| == 1 {
      FindOne(hexes[0], rest);
    } else {
      var more := GroupList(hexes[1..]);
      Regroup(Bracketed(hexes[0]), more, rest);
      FindOne(hexes[0], " " + (more + rest));
      SkipBlank(more + rest);
      FindList(hexes[1..], rest);
    }
  }

  lemma FindEnds(start: nat, end: nat, width: nat, rest: string)
    ensures FindHex(Ends(start, end, width) + rest) == [PaddedHex(start, width), PaddedHex(end, width)] + FindHex(rest)
  {
    var a, b := PaddedHex(start, width), PaddedHex(end, width);
    hide FindHex; hide PaddedHex;
    var more := " " + (Bracketed(b) + rest);
    assert Ends(start, end, width) + rest == Bracketed(a) + more;
    FindOne(a, more);
    SkipToGroup(" ", Bracketed(b) + rest);
    FindOne(b, rest);
  }

  lemma FindRule(rule: Rule, width: nat)
    requires ProperRule(rule)
    ensures FindHex(RuleText(rule, width))
         == [PaddedHex(rule.start, width), PaddedHex(rule.end, width)]
            + match rule case Points(_, _, seed) => [HexOf([seed])] case Listed(_, _, texts) => HexesOf(texts)
  {
    hide FindHex; hide PaddedHex; hide HexOf; hide Ends;
    match rule
    case Points(start, end, seed) =>
      var group := Bracketed(HexOf([seed]));
      assert RuleText(rule, width) == Ends(start, end, width) + (" " + (group + ""));
      FindEnds(start, end, width, " " + (group + ""));
      SkipToGroup(" ", group + "");
      SeedIsRead(seed);
      FindOne(HexOf([seed]), "");
      NoGroups("");
    case Listed(start, end, texts) =>
      var list := GroupList(HexesOf(texts)) + "]";
      assert RuleText(rule, width) == Ends(start, end, width) + (" [" + list);
      FindEnds(start, end, width, " [" + list);
      SkipToGroup(" [", list);
      HexesAreGroups(texts);
      FindList(HexesOf(texts), "]");
      NoGroups("]");
  }

  /** The characters of a range line. */
  predicate RuleChar(c: char) {
    PairChar(c) || c == '[' || c == ']'
  }

  predicate RuleChars(s: string) {
    forall i | 0 <= i < |s| :: RuleChar(s[i])
  }

  lemma GroupChars(hex: string)
    requires IsHex(hex)
    ensures RuleChars(Bracketed(hex)) && '[' !in Bracketed(hex)
  {
  }

  lemma CharsConcat(a: string, b: string)
    requires RuleChars(a) && RuleChars(b)
    ensures RuleChars(a + b) && ('[' !in a && '[' !in b ==> '[' !in a + b)
  {
  }

  lemma {:induction false} ListChars(hexes: seq<string>)
    requires forall i | 0 <= i < |hexes| :: IsHex(hexes[i])
    ensures RuleChars(GroupList(hexes))
  {
    hide RuleChars; hide Bracketed; hide IsHex;
    BlankChars();
    if hexes != [] {
      GroupChars(hexes[0]);
      if |hexes| > 1 {
        ListChars(hexes[1..]);
        CharsConcat(Bracketed(hexes[0]), " ");
        CharsConcat(Bracketed(hexes[0]) + " ", GroupList(hexes[1..]));
      }
    }
  }

  lemma BlankChars()
    ensures RuleChars("") && RuleChars(" ") && RuleChars(" [") && RuleChars("]") && '[' !in " "
  {
  }

  lemma EndsChars(start: nat, end: nat, width: nat)
    ensures RuleChars(Ends(start, end, width)) && '[' !in Ends(start, end, width)
    ensures |Ends(start, end, width)| > 0 && Ends(start, end, width)[0] == '<'
  {
    var a, b := PaddedHex(start, width), PaddedHex(end, width);
    hide PaddedHex; hide RuleChars;
    GroupChars(a);
    GroupChars(b);
    BlankChars();
    CharsConcat(Bracketed(a), " ");
    CharsConcat(Bracketed(a) + " ", Bracketed(b));
  }

  lemma RuleShape(rule: Rule, width: nat)
    requires ProperRule(rule)
    ensures var line := RuleText(rule, width);
      && RuleChars(line) && |line| > 1 && line[0] == '<'
      && line[|line| - 1] == (if rule.Points? then '>' else ']')
      && ('[' in line && ']' in line <==> rule.Listed?)
  {
    hide RuleChars; hide Ends; hide HexOf;
    EndsChars(rule.start, rule.end, width);
    BlankChars();
    var ends := Ends(rule.start, rule.end, width);
    match rule
    case Points(start, end, seed) =>
      GroupChars(HexOf([seed]));
      CharsConcat(ends, " ");
      CharsConcat(ends + " ", Bracketed(HexOf([seed])));
    case Listed(start, end, texts) =>
      var list := GroupList(HexesOf(texts));
      ListChars(HexesOf(texts));
      CharsConcat(ends, " [");
      CharsConcat(ends + " [", list);
      CharsConcat(ends + " [" + list, "]");
      var line := RuleText(rule, width);
      assert line[|ends| + 1] == '[' && line[|line| - 1] == ']';
  }

  lemma ClosedLine(line: string)
    requires line != "" && line[|line| - 1] in {'>', ']'}
    ensures !Begins(line) && !EndsWith(line, "endbfchar") && !EndsWith(line, "endbfrange")
  {
    OneCharDecides(line, "beginbfchar", 0);
    OneCharDecides(line, "beginbfrange", 0);
    OneCharDecides(line, "endbfchar", 0);
    OneCharDecides(line, "endbfrange", 0);
    hide EndsWith;
  }

  lemma RuleCharsArePlain(line: string)
    requires RuleChars(line) && |line| > 1 && line[0] == '<' && line[|line| - 1] in {'>', ']'}
    ensures Plain(line) && OneLine(line)
  {
    forall i | 0 <= i < |line| ensures line[i] != '%' && !IsBreak(line[i]) {
      assert RuleChar(line[i]);
    }
  }

  lemma RuleIsPlain(rule: Rule, width: nat)
    requires ProperRule(rule)
    ensures var line := RuleText(rule, width);
      && Cleaned(line) == line && line != "" && OneLine(line) && !Begins(line)
      && !EndsWith(line, "endbfchar") && !EndsWith(line, "endbfrange")
  {
    RuleShape(rule, width);
    hide *;
    var line := RuleText(rule, width);
    RuleCharsArePlain(line);
    PlainIsCleaned(line);
    ClosedLine(line);
  }

  lemma PointsHeard(m: Mapping, start: nat, end: nat, seed: nat)
    ensures RuleHeard(m, PutPoints(m, start, seed, Span(start, end)), Points(start, end, seed))
  {
    hide ValidCodePoint;
    forall c: int ensures Look(PutPoints(m, start, seed, Span(start, end)), c) == Lastly(Look(m, c), RuleSays(Points(start, end, seed), c)) {
      RangeMeans(m, start, seed, Span(start, end), c);
    }
  }

  lemma ListSays(m: Mapping, start: nat, end: nat, texts: seq<Text>, c: int)
    requires forall i | 0 <= i < |texts| :: Spelled(texts[i])
    ensures Look(PutTargets(m, start, Take(HexesOf(texts), Span(start, end))), c)
         == Lastly(Look(m, c), RuleSays(Listed(start, end, texts), c))
  {
    var targets := Take(HexesOf(texts), Span(start, end));
    ListMeans(m, start, targets, c);
    if InRange(c, start, |targets|) {
      assert targets[c - start] == HexOf(texts[c - start]);
      HexIsRead(texts[c - start]);
    }
    hide DecodeHex; hide PutTargets; hide ValidText; hide HexOf; hide Spelled;
  }

  lemma ListHeard(m: Mapping, start: nat, end: nat, texts: seq<Text>)
    requires forall i | 0 <= i < |texts| :: Spelled(texts[i])
    ensures RuleHeard(m, PutTargets(m, start, Take(HexesOf(texts), Span(start, end))), Listed(start, end, texts))
  {
    hide DecodeHex; hide PutTargets; hide ValidText; hide HexOf; hide Spelled; hide Lastly; hide Look; hide RuleSays; hide Span;
    forall c: int
      ensures Look(PutTargets(m, start, Take(HexesOf(texts), Span(start, end))), c)
           == Lastly(Look(m, c), RuleSays(Listed(start, end, texts), c))
    {
      ListSays(m, start, end, texts, c);
    }
  }

  lemma RuleStep(m: Mapping, rule: Rule, width: nat)
    requires ProperRule(rule)
    ensures var st := Step(State(BfRange, m), RuleText(rule, width));
      st.mode == BfRange && RuleHeard(m, st.mapping, rule)
    ensures OneLine(RuleText(rule, width))
  {
    RuleIsPlain(rule, width);
    RuleShape(rule, width);
    FindRule(rule, width);
    PaddedHexValue(rule.start, width);
    PaddedHexValue(rule.end, width);
    hide RuleText; hide EndsWith; hide Cleaned; hide FindHex; hide HexValue; hide PaddedHex; hide HexOf; hide RuleChars;
    hide PutPoints; hide PutTargets; hide Span; hide Take; hide Seed; hide OneLine;
    RuleGroups(m, rule, width);
  }

  lemma RuleGroups(m: Mapping, rule: Rule, width: nat)
    requires ProperRule(rule)
    ensures var line := RuleText(rule, width);
      var r := RangeLine(m, line, FindHex(line));
      RuleHeard(m, r, rule)
  {
    RuleShape(rule, width);
    FindRule(rule, width);
    PaddedHexValue(rule.start, width);
    PaddedHexValue(rule.end, width);
    var line := RuleText(rule, width);
    hide RuleText; hide FindHex; hide HexValue; hide PaddedHex; hide HexOf; hide RuleChars;
    hide PutPoints; hide PutTargets; hide Seed; hide RuleSays; hide RuleHeard;
    match rule
    case Points(start, end, seed) =>
      SeedIsRead(seed);
      PointsHeard(m, start, end, seed);
    case Listed(start, end, texts) =>
      assert FindHex(line)[2..] == HexesOf(texts);
      ListHeard(m, start, end, texts);
      if texts == [] {
        assert Take(HexesOf(texts), Span(start, end)) == [];
        assert PutTargets(m, start, []) == m by { PutNone(m, start); }
      }
  }

  lemma PutNone(m: Mapping, start: int)
    ensures PutTargets(m, start, []) == m
  {
  }

  // ---------------------------------------------------------------- reading a whole text

  ghost predicate RulesHeard(m: Mapping, after: Mapping, rules: seq<Rule>) {
    forall c: int :: Look(after, c) == Lastly(Look(m, c), RulesSay(rules, c))
  }

  ghost predicate PieceHeard(m: Mapping, after: Mapping, p: Piece) {
    forall c: int :: Look(after, c) == Lastly(Look(m, c), PieceSays(p, c))
  }

  ghost predicate PiecesHeard(m: Mapping, after: Mapping, pieces: seq<Piece>) {
    forall c: int :: Look(after, c) == Lastly(Look(m, c), PiecesSay(pieces, c))
  }

  lemma OneMoreRule(m: Mapping, mid: Mapping, after: Mapping, rules: seq<Rule>)
    requires rules != [] && RulesHeard(m, mid, rules[..|rules| - 1]) && RuleHeard(mid, after, rules[|rules| - 1])
    ensures RulesHeard(m, after, rules)
  {
    hide RuleSays; hide Look;
  }

  lemma {:induction false} RulesSteps(m: Mapping, rules: seq<Rule>, width: nat)
    requires forall i | 0 <= i < |rules| :: ProperRule(rules[i])
    ensures var st := Steps(State(BfRange, m), RuleTexts(rules, width));
      st.mode == BfRange && RulesHeard(m, st.mapping, rules)
    ensures forall i | 0 <= i < |rules| :: OneLine(RuleTexts(rules, width)[i])
  {
    hide ProperRule; hide RuleText; hide Step; hide OneLine; hide RuleHeard;
    if rules == [] {
      assert RuleTexts(rules, width) == [];
    } else {
      var n := |rules| - 1;
      RulesSteps(m, rules[..n], width);
      assert RuleTexts(rules, width)[..n] == RuleTexts(rules[..n], width);
      var mid := Steps(State(BfRange, m), RuleTexts(rules[..n], width));
      RuleStep(mid.mapping, rules[n], width);
      hide RulesHeard;
      OneMoreRule(m, mid.mapping, Step(mid, RuleText(rules[n], width)).mapping, rules);
    }
  }

  lemma RangeCountIsPlain(n: nat)
    ensures Plain(RangeCount(n)) && OneLine(RangeCount(n))
    ensures EndsWith(RangeCount(n), "beginbfrange") && !EndsWith(RangeCount(n), "beginbfchar")
  {
    var digits, tail := Keys.Decimal(n), " beginbfrange";
    hide Keys.Decimal;
    var line := digits + tail;
    assert forall i | 0 <= i < |tail| :: tail[i] != '%' && !IsBreak(tail[i]);
    assert forall i | 0 <= i < |line| :: line[i] == if i < |digits| then digits[i] else tail[i - |digits|];
    assert forall i | 0 <= i < 12 :: LowerChar(tail[i + 1]) == "beginbfrange"[i];
    OneCharDecides(line, "beginbfchar", 0);
  }

  lemma RangeCountStep(m: Mapping, n: nat)
    ensures Step(State(Outside, m), RangeCount(n)) == State(BfRange, m) && OneLine(RangeCount(n))
  {
    RangeCountIsPlain(n);
    PlainIsCleaned(RangeCount(n));
    hide EndsWith; hide Cleaned; hide RangeCount;
  }

  lemma RangeEndIsPlain()
    ensures Plain("endbfrange") && OneLine("endbfrange") && !Begins("endbfrange") && EndsWith("endbfrange", "endbfrange")
  {
    NotABegin();
  }

  lemma NotABegin()
    ensures !Begins("endbfrange")
  {
    OneCharDecides("endbfrange", "beginbfchar", 0);
    assert |"endbfrange"| < |"beginbfrange"|;
  }

  lemma RangeEndStep(m: Mapping)
    ensures Step(State(BfRange, m), "endbfrange") == State(Outside, m) && OneLine("endbfrange")
  {
    hide Plain; hide OneLine; hide EndsWith; hide Cleaned;
    RangeEndIsPlain();
    PlainIsCleaned("endbfrange");
  }

  lemma RangeBlockSteps(m: Mapping, rules: seq<Rule>, width: nat)
    requires forall i | 0 <= i < |rules| :: ProperRule(rules[i])
    ensures var st := Steps(State(Outside, m), [RangeCount(|rules|)] + RuleTexts(rules, width) + ["endbfrange"]);
      st.mode == Outside && RulesHeard(m, st.mapping, rules)
  {
    hide *;
    var first, lines := [RangeCount(|rules|)], RuleTexts(rules, width);
    StepsAppend(State(Outside, m), first + lines, ["endbfrange"]);
    StepsAppend(State(Outside, m), first, lines);
    StepsOne(State(Outside, m), RangeCount(|rules|));
    RangeCountStep(m, |rules|);
    RulesSteps(m, rules, width);
    var st := Steps(State(BfRange, m), lines);
    StepsOne(st, "endbfrange");
    assert st == State(BfRange, st.mapping);
    RangeEndStep(st.mapping);
  }

  lemma RangeBlockIsWhole(rules: seq<Rule>, width: nat)
    requires forall i | 0 <= i < |rules| :: ProperRule(rules[i])
    ensures forall l | l in [RangeCount(|rules|)] + RuleTexts(rules, width) + ["endbfrange"] :: OneLine(l)
  {
    hide *;
    RangeCountStep(map[], |rules|);
    RulesSteps(map[], rules, width);
    RangeEndStep(map[]);
  }

  lemma {:induction false} EntriesHeard(m: Mapping, entries: seq<Entry>, c: int)
    ensures Look(Put(m, entries), c) == Lastly(Look(m, c), EntriesSay(entries, c))
  {
    if entries != [] {
      EntriesHeard(m, entries[..|entries| - 1], c);
    }
  }

  lemma CharBlockHeard(m: Mapping, entries: seq<Entry>)
    ensures PieceHeard(m, Put(m, entries), Chars(entries))
  {
    hide Put; hide EntriesSay; hide Look; hide Lastly;
    forall c: int ensures Look(Put(m, entries), c) == Lastly(Look(m, c), PieceSays(Chars(entries), c)) {
      EntriesHeard(m, entries, c);
    }
  }

  /** A line that opens no block does nothing outside the blocks. */
  lemma LooseStep(m: Mapping, line: string)
    requires !Begins(Cleaned(line))
    ensures Step(State(Outside, m), line) == State(Outside, m)
  {
    hide EndsWith; hide Cleaned;
  }

  lemma PieceSteps(m: Mapping, p: Piece, width: nat)
    requires ProperPiece(p)
    ensures var st := Steps(State(Outside, m), PieceLines(p, width));
      st.mode == Outside && PieceHeard(m, st.mapping, p)
    ensures forall l | l in PieceLines(p, width) :: OneLine(l)
  {
    hide Steps; hide OneLine; hide BlockLines; hide RangeCount; hide RuleTexts; hide Look; hide Put; hide ProperRule; hide Cleaned;
    match p
    case Chars(entries) =>
      BlockSteps(m, entries, width);
      CharBlockHeard(m, entries);
      hide PieceHeard;
    case Ranges(rules) =>
      RangeBlockSteps(m, rules, width);
      RangeBlockIsWhole(rules, width);
    case Loose(line) =>
      StepsOne(State(Outside, m), line);
      LooseStep(m, line);
  }

  lemma OneMorePiece(m: Mapping, mid: Mapping, after: Mapping, pieces: seq<Piece>)
    requires pieces != [] && PiecesHeard(m, mid, pieces[..|pieces| - 1]) && PieceHeard(mid, after, pieces[|pieces| - 1])
    ensures PiecesHeard(m, after, pieces)
  {
    hide PieceSays; hide Look;
  }

  lemma {:induction false} PiecesSteps(m: Mapping, pieces: seq<Piece>, width: nat)
    requires Proper(pieces)
    ensures var st := Steps(State(Outside, m), PiecesLines(pieces, width));
      st.mode == Outside && PiecesHeard(m, st.mapping, pieces)
    ensures forall l | l in PiecesLines(pieces, width) :: OneLine(l)
  {
    hide ProperPiece; hide PieceLines; hide Step; hide OneLine; hide PieceHeard;
    if pieces == [] {
    } else {
      var n := |pieces| - 1;
      PiecesSteps(m, pieces[..n], width);
      var mid := Steps(State(Outside, m), PiecesLines(pieces[..n], width));
      StepsAppend(State(Outside, m), PiecesLines(pieces[..n], width), PieceLines(pieces[n], width));
      hide Steps; hide PiecesHeard;
      assert mid == State(Outside, mid.mapping);
      PieceSteps(mid.mapping, pieces[n], width);
      OneMorePiece(m, mid.mapping, Steps(mid, PieceLines(pieces[n], width)).mapping, pieces);
    }
  }

  /** A text of bfchar blocks, bfrange blocks and other lines, in any number and order, is read as
      written: each code has the text the last line about it gives. */
  lemma ReadAsWritten(pieces: seq<Piece>, width: nat)
    requires Proper(pieces)
    ensures var m := Parsed(JoinLines(PiecesLines(pieces, width)));
      forall c: int :: Look(m, c) == PiecesSay(pieces, c)
  {
    hide PiecesLines; hide Steps; hide SplitLines; hide JoinLines; hide OneLine; hide ProperPiece;
    var lines := PiecesLines(pieces, width);
    PiecesSteps(map[], pieces, width);
    SplitOfJoin(lines);
    assert Parsed(JoinLines(lines)) == Steps(State(Outside, map[]), lines).mapping;
    hide PiecesSay;
  }
}

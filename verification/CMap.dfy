/** The ToUnicode CMap reader and writer of backend/scripts/corpus_benchmark.py (section 9.10.3 of
    ISO 32000-1): what is written is what is read back. */
module CMap {
  import opened Wrappers
  import opened Counting
  import opened HexText
  import opened CMapLines
  import Keys

  type Mapping = map<int, Text>

  // ---------------------------------------------------------------- reading

  datatype Mode = Outside | BfChar | BfRange

  datatype State = State(mode: Mode, mapping: Mapping)

  predicate Begins(line: string) {
    EndsWith(line, "beginbfchar") || EndsWith(line, "beginbfrange")
  }

  /** A `<code> <text>` line; a text that cannot be decoded is passed over. */
  function CharLine(m: Mapping, groups: seq<string>): Mapping
    requires forall g | g in groups :: IsHex(g)
  {
    if |groups| < 2 then m else PutHex(m, HexValue(groups[0]), groups[1])
  }

  function PutHex(m: Mapping, code: int, hex: string): Mapping
    requires IsHex(hex)
  {
    match DecodeHex(hex)
    case None => m
    case Some(text) => m[code := text]
  }

  function PutTargets(m: Mapping, start: int, targets: seq<string>): Mapping
    requires forall t | t in targets :: IsHex(t)
  {
    if targets == [] then m
    else
      var n := |targets| - 1;
      PutHex(PutTargets(m, start, targets[..n]), start + n, targets[n])
  }

  function PutPoint(m: Mapping, code: int, point: nat): Mapping {
    if ValidCodePoint(point) then m[code := [point]] else m
  }

  function PutPoints(m: Mapping, start: int, seed: nat, span: nat): Mapping {
    if span == 0 then m
    else PutPoint(PutPoints(m, start, seed, span - 1), start + span - 1, seed + span - 1)
  }

  function Span(start: nat, end: nat): nat {
    if end - start + 1 > 0 then end - start + 1 else 0
  }

  function Take(targets: seq<string>, n: nat): seq<string> {
    if n < |targets| then targets[..n] else targets
  }

  /** The one code point a range starts at, when it is one. */
  function Seed(hex: string): Option<nat>
    requires IsHex(hex)
  {
    match FromHex(hex)
    case None => None
    case Some(data) =>
      if |data| % 2 != 0 then None
      else
        match Decode(data)
        case None => None
        case Some(text) => if |text| == 1 then Some(text[0]) else None
  }

  function RangeLine(m: Mapping, line: string, groups: seq<string>): Mapping
    requires forall g | g in groups :: IsHex(g)
  {
    if |groups| < 3 then m
    else
      var start, end := HexValue(groups[0]), HexValue(groups[1]);
      if '[' in line && ']' in line then PutTargets(m, start, Take(groups[2..], Span(start, end)))
      else
        match Seed(groups[2])
        case None => m
        case Some(seed) => PutPoints(m, start, seed, Span(start, end))
  }

  function Step(st: State, raw: string): State {
    var line := Cleaned(raw);
    if line == "" then st
    else if EndsWith(line, "beginbfchar") then st.(mode := BfChar)
    else if EndsWith(line, "beginbfrange") then st.(mode := BfRange)
    else if EndsWith(line, "endbfchar") || EndsWith(line, "endbfrange") then st.(mode := Outside)
    else
      match st.mode
      case Outside => st
      case BfChar => st.(mapping := CharLine(st.mapping, FindHex(line)))
      case BfRange => st.(mapping := RangeLine(st.mapping, line, FindHex(line)))
  }

  function Steps(st: State, lines: seq<string>): State {
    if lines == [] then st else Step(Steps(st, lines[..|lines| - 1]), lines[|lines| - 1])
  }

  /** The mapping a stream's text defines. */
  function Parsed(text: string): Mapping {
    Steps(State(Outside, map[]), SplitLines(text)).mapping
  }

  /** `_parse_tounicode_map`: one pass over the lines, with a mode. */
  method ParseToUnicodeMap(text: string) returns (mapping: Mapping)
    ensures mapping == Parsed(text)
  {
    hide EndsWith; hide Cleaned; hide FindHex; hide SplitLines; hide HexValue; hide DecodeHex;
    mapping := map[];
    var mode := Outside;
    var lines := SplitLines(text);
    var k := 0;
    while k < |lines|
      invariant 0 <= k <= |lines| && State(mode, mapping) == Steps(State(Outside, map[]), lines[..k])
    {
      assert lines[..k + 1][..k] == lines[..k];
      var line := Cleaned(lines[k]);
      k := k + 1;
      if line == "" {
        continue;
      }
      if EndsWith(line, "beginbfchar") {
        mode := BfChar;
        continue;
      }
      if EndsWith(line, "beginbfrange") {
        mode := BfRange;
        continue;
      }
      if EndsWith(line, "endbfchar") || EndsWith(line, "endbfrange") {
        mode := Outside;
        continue;
      }
      if mode == Outside {
        continue;
      }
      var groups := FindHex(line);
      if mode == BfChar {
        mapping := CharLine(mapping, groups);
      } else {
        mapping := ReadRange(mapping, line, groups);
      }
    }
    assert lines[..k] == lines;
  }

  method ReadRange(m: Mapping, line: string, groups: seq<string>) returns (mapping: Mapping)
    requires forall g | g in groups :: IsHex(g)
    ensures mapping == RangeLine(m, line, groups)
  {
    hide HexValue; hide DecodeHex; hide Seed; hide Span; hide PutHex; hide PutPoint;
    mapping := m;
    if |groups| < 3 {
      return;
    }
    var start, end := HexValue(groups[0]), HexValue(groups[1]);
    var offset := 0;
    if '[' in line && ']' in line {
      var targets := Take(groups[2..], Span(start, end));
      while offset < |targets|
        invariant 0 <= offset <= |targets| && mapping == PutTargets(m, start, targets[..offset])
      {
        assert targets[..offset + 1][..offset] == targets[..offset];
        mapping := PutHex(mapping, start + offset, targets[offset]);
        offset := offset + 1;
      }
      assert targets[..offset] == targets;
      return;
    }
    var seed := Seed(groups[2]);
    if seed == None {
      return;
    }
    while offset < Span(start, end)
      invariant 0 <= offset <= Span(start, end) && mapping == PutPoints(m, start, seed.value, offset)
    {
      mapping := PutPoint(mapping, start + offset, seed.value + offset);
      offset := offset + 1;
    }
  }

  // ---------------------------------------------------------------- writing

  function CodeBytes(codeBytes: int): nat {
    if codeBytes in {1, 2, 4} then codeBytes else 2
  }

  function MaxCode(codeBytes: int): nat {
    match CodeBytes(codeBytes)
    case 1 => 0xFF
    case 2 => 0xFFFF
    case _ => 0xFFFF_FFFF
  }

  /** The entries a CMap of this width can hold. */
  function Representable(m: Mapping, codeBytes: int): Mapping {
    map c | c in m && 0 <= c <= MaxCode(codeBytes) && ValidText(m[c]) :: m[c]
  }

  type Entry = (nat, Text)

  predicate Writable(entries: seq<Entry>) {
    forall e | e in entries :: ValidText(e.1)
  }

  function EntriesFor(m: Mapping, codes: seq<int>, codeBytes: int): (entries: seq<Entry>)
    requires forall c | c in codes :: c in m
    ensures Writable(entries)
  {
    if codes == [] then []
    else
      var n := |codes| - 1;
      EntriesFor(m, codes[..n], codeBytes)
      + if codes[n] < 0 || codes[n] > MaxCode(codeBytes) || !ValidText(m[codes[n]]) then [] else [(codes[n], m[codes[n]])]
  }

  function Entries(m: Mapping, codeBytes: int): (entries: seq<Entry>)
    ensures Writable(entries)
  {
    EntriesFor(m, Ascending(m.Keys), codeBytes)
  }

  function EntryLine(e: Entry, width: nat): string
    requires ValidText(e.1)
  {
    Bracketed(PaddedHex(e.0, width)) + " " + Bracketed(EncodeHex(e.1))
  }

  function EntryLines(entries: seq<Entry>, width: nat): (lines: seq<string>)
    requires Writable(entries)
    ensures |lines| == |entries| && forall i | 0 <= i < |lines| :: lines[i] == EntryLine(entries[i], width)
  {
    seq(|entries|, i requires 0 <= i < |entries| => assert entries[i] in entries; EntryLine(entries[i], width))
  }

  const BLOCK := 100

  function CountLine(n: nat): string {
    Keys.Decimal(n) + " beginbfchar"
  }

  function BlockLines(entries: seq<Entry>, width: nat): seq<string>
    requires Writable(entries)
  {
    [CountLine(|entries|)] + EntryLines(entries, width) + ["endbfchar"]
  }

  /** Blocks of at most a hundred entries, as the format demands. */
  function Blocks(entries: seq<Entry>, width: nat): seq<string>
    requires Writable(entries)
  {
    if entries == [] then []
    else if |entries| <= BLOCK then BlockLines(entries, width)
    else
      assert Writable(entries[..BLOCK]) && Writable(entries[BLOCK..]);
      BlockLines(entries[..BLOCK], width) + Blocks(entries[BLOCK..], width)
  }

  function Header(codeBytes: int): seq<string> {
    var width := 2 * CodeBytes(codeBytes);
    ["/CIDInit /ProcSet " + "findresource begin",
     "12 dict begin",
     "begincmap",
     "/CIDSystemInfo << /Registry " + "(Adobe) /Ordering (UCS) " + "/Supplement 0 >> def",
     "/CMapName " + "/Adobe-Identity-UCS def",
     "/CMapType 2 def",
     "1 begincodespacerange",
     Bracketed(Zeros(width)) + " " + Bracketed(PaddedHex(MaxCode(codeBytes), width)),
     "endcodespacerange"]
  }

  function Footer(): seq<string> {
    ["endcmap", "CMapName currentdict " + "/CMap defineresource pop", "end", "end"]
  }

  function Lines(m: Mapping, codeBytes: int): seq<string> {
    Header(codeBytes) + Blocks(Entries(m, codeBytes), 2 * CodeBytes(codeBytes)) + Footer()
  }

  function Rendered(m: Mapping, codeBytes: int): string {
    JoinLines(Lines(m, codeBytes))
  }

  /** `_render_tounicode_cmap`: collect the entries, then write them a block at a time. */
  method RenderToUnicodeCMap(m: Mapping, codeBytes: int) returns (text: string)
    ensures text == Rendered(m, codeBytes)
  {
    var entries := CollectEntries(m, codeBytes);
    var lines := WriteBlocks(Header(codeBytes), entries, 2 * CodeBytes(codeBytes));
    text := JoinLines(lines + Footer());
  }

  method CollectEntries(m: Mapping, codeBytes: int) returns (entries: seq<Entry>)
    ensures entries == Entries(m, codeBytes)
  {
    hide ValidText; hide MaxCode;
    var codes := Ascending(m.Keys);
    entries := [];
    var k := 0;
    while k < |codes|
      invariant 0 <= k <= |codes| && entries == EntriesFor(m, codes[..k], codeBytes)
    {
      assert codes[..k + 1][..k] == codes[..k];
      assert codes[k] in codes;
      if !(codes[k] < 0 || codes[k] > MaxCode(codeBytes) || !ValidText(m[codes[k]])) {
        entries := entries + [(codes[k], m[codes[k]])];
      }
      k := k + 1;
    }
    assert codes[..k] == codes;
  }

  method WriteBlocks(header: seq<string>, entries: seq<Entry>, width: nat) returns (lines: seq<string>)
    requires Writable(entries)
    ensures lines == header + Blocks(entries, width)
  {
    hide ValidText; hide BlockLines;
    lines := header;
    var i := 0;
    while i < |entries|
      invariant 0 <= i <= |entries| && Writable(entries[i..])
      invariant lines + Blocks(entries[i..], width) == header + Blocks(entries, width)
    {
      var end := if i + BLOCK < |entries| then i + BLOCK else |entries|;
      ghost var left := entries[i..];
      assert left[..end - i] == entries[i..end] && left[end - i..] == entries[end..];
      assert Writable(entries[i..end]) && Writable(entries[end..]);
      OneBlock(left, end - i, width);
      ghost var before := lines;
      lines := lines + BlockLines(entries[i..end], width);
      assert lines + Blocks(entries[end..], width) == before + (BlockLines(entries[i..end], width) + Blocks(entries[end..], width));
      i := end;
    }
  }

  lemma OneBlock(entries: seq<Entry>, n: nat, width: nat)
    requires Writable(entries) && entries != [] && n == if BLOCK < |entries| then BLOCK else |entries|
    ensures Writable(entries[..n]) && Writable(entries[n..])
    ensures Blocks(entries, width) == BlockLines(entries[..n], width) + Blocks(entries[n..], width)
  {
    hide ValidText; hide BlockLines;
    assert n == |entries| ==> entries[..n] == entries && entries[n..] == [];
  }

  // ---------------------------------------------------------------- the round trip

  lemma {:induction false} StepsAppend(st: State, a: seq<string>, b: seq<string>)
    ensures Steps(st, a + b) == Steps(Steps(st, a), b)
  {
    hide Step;
    if b == [] {
      assert a + b == a;
    } else {
      var n := |b| - 1;
      assert (a + b)[..|a + b| - 1] == a + b[..n];
      StepsAppend(st, a, b[..n]);
    }
  }

  lemma StepsOne(st: State, line: string)
    ensures Steps(st, [line]) == Step(st, line)
  {
    assert [line][..0] == [];
  }

  /** A line that neither opens nor changes anything outside a block. */
  predicate Idle(line: string) {
    Plain(line) && OneLine(line) && !Begins(line)
  }

  lemma {:induction false} IdleSteps(m: Mapping, lines: seq<string>)
    requires forall i | 0 <= i < |lines| :: Idle(lines[i])
    ensures Steps(State(Outside, m), lines) == State(Outside, m)
  {
    if lines != [] {
      var n := |lines| - 1;
      IdleSteps(m, lines[..n]);
      PlainIsCleaned(lines[n]);
      hide EndsWith; hide Cleaned; hide FindHex;
    }
  }

  lemma OneCharDecides(line: string, suffix: string, k: nat)
    requires k < |line| && k < |suffix| && LowerChar(line[|line| - 1 - k]) != suffix[|suffix| - 1 - k]
    ensures !EndsWith(line, suffix)
  {
  }

  lemma NotBegin(line: string)
    requires line != "" && LowerChar(line[|line| - 1]) != 'r'
    requires LowerChar(line[|line| - 1]) != 'e' || (|line| >= 6 && LowerChar(line[|line| - 6]) != 'f')
    ensures !Begins(line)
  {
    var r := "beginbfrange";
    assert r[6] == 'f' && r[11] == 'e';
    OneCharDecides(line, r, if LowerChar(line[|line| - 1]) != 'e' then 0 else 5);
    OneCharDecides(line, "beginbfchar", 0);
  }

  /** The characters a bracketed pair is made of. */
  predicate PairChar(c: char) {
    IsHexDigit(c) || c == '<' || c == '>' || c == ' '
  }

  lemma PairIsPlain(a: string, b: string)
    requires IsHex(a) && IsHex(b)
    ensures var line := Bracketed(a) + " " + Bracketed(b);
      Plain(line) && OneLine(line) && line[|line| - 1] == '>'
  {
    var line := Bracketed(a) + " " + Bracketed(b);
    forall i | 0 <= i < |line| ensures PairChar(line[i]) {
    }
    forall i | 0 <= i < |line| ensures line[i] != '%' && !IsBreak(line[i]) {
      assert PairChar(line[i]);
    }
  }

  lemma EntryStep(m: Mapping, e: Entry, width: nat)
    requires ValidText(e.1)
    ensures Step(State(BfChar, m), EntryLine(e, width)) == State(BfChar, m[e.0 := e.1])
    ensures OneLine(EntryLine(e, width))
  {
    var a, b := PaddedHex(e.0, width), EncodeHex(e.1);
    HexRoundTrip(e.1);
    PaddedHexValue(e.0, width);
    PairIsPlain(a, b);
    var line := EntryLine(e, width);
    PlainIsCleaned(line);
    FindTwo(a, b);
    OneCharDecides(line, "beginbfchar", 0);
    OneCharDecides(line, "beginbfrange", 0);
    OneCharDecides(line, "endbfchar", 0);
    OneCharDecides(line, "endbfrange", 0);
    hide EndsWith; hide Cleaned; hide FindHex; hide DecodeHex; hide HexValue; hide PaddedHex; hide EncodeHex;
  }

  /** The mapping with these entries written over it, in order. */
  function Put(m: Mapping, entries: seq<Entry>): Mapping {
    if entries == [] then m else Put(m, entries[..|entries| - 1])[entries[|entries| - 1].0 := entries[|entries| - 1].1]
  }

  lemma {:induction false} EntrySteps(m: Mapping, entries: seq<Entry>, width: nat)
    requires Writable(entries)
    ensures Steps(State(BfChar, m), EntryLines(entries, width)) == State(BfChar, Put(m, entries))
    ensures forall i | 0 <= i < |entries| :: OneLine(EntryLines(entries, width)[i])
  {
    hide ValidText; hide EntryLine; hide Step; hide OneLine;
    if entries != [] {
      var n := |entries| - 1;
      assert Writable(entries[..n]) && entries[n] in entries;
      EntrySteps(m, entries[..n], width);
      assert EntryLines(entries, width)[..n] == EntryLines(entries[..n], width);
      EntryStep(Put(m, entries[..n]), entries[n], width);
    }
  }

  lemma CountLineIsPlain(n: nat)
    ensures Plain(CountLine(n)) && OneLine(CountLine(n)) && EndsWith(CountLine(n), "beginbfchar")
  {
    var digits, tail := Keys.Decimal(n), " beginbfchar";
    hide Keys.Decimal;
    var line := digits + tail;
    assert forall i | 0 <= i < |tail| :: tail[i] != '%' && !IsBreak(tail[i]);
    assert forall i | 0 <= i < |line| :: line[i] == if i < |digits| then digits[i] else tail[i - |digits|];
    assert forall i | 0 <= i < 11 :: LowerChar(tail[i + 1]) == "beginbfchar"[i];
  }

  lemma CountStep(m: Mapping, n: nat)
    ensures Step(State(Outside, m), CountLine(n)) == State(BfChar, m) && OneLine(CountLine(n))
  {
    CountLineIsPlain(n);
    PlainIsCleaned(CountLine(n));
    hide EndsWith; hide Cleaned; hide CountLine;
  }

  lemma EndLineIsPlain()
    ensures Plain("endbfchar") && OneLine("endbfchar") && !Begins("endbfchar") && EndsWith("endbfchar", "endbfchar")
  {
  }

  lemma EndStep(m: Mapping)
    ensures Step(State(BfChar, m), "endbfchar") == State(Outside, m) && OneLine("endbfchar")
  {
    hide Plain; hide OneLine; hide EndsWith; hide Cleaned;
    EndLineIsPlain();
    PlainIsCleaned("endbfchar");
  }

  lemma BlockIsThreeParts(entries: seq<Entry>, width: nat)
    requires Writable(entries)
    ensures BlockLines(entries, width) == ([CountLine(|entries|)] + EntryLines(entries, width)) + ["endbfchar"]
  {
    hide CountLine; hide EntryLines;
  }

  lemma BlockLinesAreWhole(entries: seq<Entry>, width: nat)
    requires Writable(entries)
    ensures forall i | 0 <= i < |BlockLines(entries, width)| :: OneLine(BlockLines(entries, width)[i])
  {
    hide *;
    BlockIsThreeParts(entries, width);
    CountStep(map[], |entries|);
    EntrySteps(map[], entries, width);
    EndStep(map[]);
  }

  lemma BlockSteps(m: Mapping, entries: seq<Entry>, width: nat)
    requires Writable(entries)
    ensures Steps(State(Outside, m), BlockLines(entries, width)) == State(Outside, Put(m, entries))
    ensures forall i | 0 <= i < |BlockLines(entries, width)| :: OneLine(BlockLines(entries, width)[i])
  {
    BlockLinesAreWhole(entries, width);
    hide *;
    var first, lines := [CountLine(|entries|)], EntryLines(entries, width);
    BlockIsThreeParts(entries, width);
    StepsAppend(State(Outside, m), first + lines, ["endbfchar"]);
    StepsAppend(State(Outside, m), first, lines);
    StepsOne(State(Outside, m), CountLine(|entries|));
    CountStep(m, |entries|);
    EntrySteps(m, entries, width);
    StepsOne(State(BfChar, Put(m, entries)), "endbfchar");
    EndStep(Put(m, entries));
  }

  lemma {:induction false} PutAppend(m: Mapping, a: seq<Entry>, b: seq<Entry>)
    ensures Put(m, a + b) == Put(Put(m, a), b)
  {
    if b == [] {
      assert a + b == a;
    } else {
      assert (a + b)[..|a + b| - 1] == a + b[..|b| - 1];
      PutAppend(m, a, b[..|b| - 1]);
    }
  }

  lemma {:induction false} BlocksSteps(m: Mapping, entries: seq<Entry>, width: nat)
    requires Writable(entries)
    ensures Steps(State(Outside, m), Blocks(entries, width)) == State(Outside, Put(m, entries))
    ensures forall i | 0 <= i < |Blocks(entries, width)| :: OneLine(Blocks(entries, width)[i])
    decreases |entries|
  {
    hide Step; hide BlockLines; hide ValidText; hide OneLine;
    if entries != [] {
      var n := if BLOCK < |entries| then BLOCK else |entries|;
      OneBlock(entries, n, width);
      BlockSteps(m, entries[..n], width);
      BlocksSteps(Put(m, entries[..n]), entries[n..], width);
      StepsAppend(State(Outside, m), BlockLines(entries[..n], width), Blocks(entries[n..], width));
      assert entries == entries[..n] + entries[n..];
      PutAppend(m, entries[..n], entries[n..]);
      hide *;
    }
  }

  /** Printable text without a comment sign. */
  predicate Tame(s: string) {
    forall i | 0 <= i < |s| :: ' ' <= s[i] <= '~' && s[i] != '%'
  }

  lemma TameConcat(a: string, b: string)
    requires Tame(a) && Tame(b)
    ensures Tame(a + b)
  {
  }

  lemma IdleText(line: string)
    requires line != "" && Tame(line) && line[0] != ' ' && line[|line| - 1] != ' '
    requires LowerChar(line[|line| - 1]) != 'r'
    requires LowerChar(line[|line| - 1]) != 'e' || (|line| >= 6 && LowerChar(line[|line| - 6]) != 'f')
    ensures Idle(line)
  {
    NotBegin(line);
  }

  lemma IdleConcat(a: string, b: string)
    requires a != "" && b != "" && Tame(a) && Tame(b) && a[0] != ' '
    requires b[|b| - 1] != ' ' && LowerChar(b[|b| - 1]) != 'r' && LowerChar(b[|b| - 1]) != 'e'
    ensures Idle(a + b)
  {
    TameConcat(a, b);
    IdleText(a + b);
  }

  lemma ResourceLineIsIdle()
    ensures Idle("/CIDInit /ProcSet " + "findresource begin")
  {
    IdleConcat("/CIDInit /ProcSet ", "findresource begin");
  }

  lemma SystemInfoIsTame()
    ensures Tame("/CIDSystemInfo << /Registry ") && Tame("(Adobe) /Ordering (UCS) ")
  {
  }

  lemma SystemInfoIsIdle()
    ensures Idle("/CIDSystemInfo << /Registry " + "(Adobe) /Ordering (UCS) " + "/Supplement 0 >> def")
  {
    SystemInfoIsTame();
    TameConcat("/CIDSystemInfo << /Registry ", "(Adobe) /Ordering (UCS) ");
    IdleConcat("/CIDSystemInfo << /Registry " + "(Adobe) /Ordering (UCS) ", "/Supplement 0 >> def");
  }

  lemma NameLineIsIdle()
    ensures Idle("/CMapName " + "/Adobe-Identity-UCS def")
  {
    IdleConcat("/CMapName ", "/Adobe-Identity-UCS def");
  }

  lemma DictLineIsIdle()
    ensures Idle("12 dict begin")
  {
    IdleText("12 dict begin");
  }

  lemma BeginLineIsIdle()
    ensures Idle("begincmap")
  {
    IdleText("begincmap");
  }

  lemma TypeLineIsIdle()
    ensures Idle("/CMapType 2 def")
  {
    IdleText("/CMapType 2 def");
  }

  lemma LastShortLinesAreIdle()
    ensures Idle("endcmap") && Idle("end")
  {
    IdleText("endcmap");
    IdleText("end");
  }

  lemma RangeStartIsIdle()
    ensures Idle("1 begincodespacerange")
  {
    IdleText("1 begincodespacerange");
  }

  lemma RangeEndIsIdle()
    ensures Idle("endcodespacerange")
  {
    IdleText("endcodespacerange");
  }

  lemma DefineLineIsIdle()
    ensures Idle("CMapName currentdict " + "/CMap defineresource pop")
  {
    IdleConcat("CMapName currentdict ", "/CMap defineresource pop");
  }

  lemma CodeSpaceIsIdle(a: string, b: string)
    requires IsHex(a) && IsHex(b)
    ensures Idle(Bracketed(a) + " " + Bracketed(b))
  {
    PairIsPlain(a, b);
    NotBegin(Bracketed(a) + " " + Bracketed(b));
  }

  lemma HeaderIsIdle(codeBytes: int)
    ensures forall i | 0 <= i < |Header(codeBytes)| :: Idle(Header(codeBytes)[i])
  {
    hide Idle;
    ResourceLineIsIdle();
    DictLineIsIdle();
    BeginLineIsIdle();
    TypeLineIsIdle();
    SystemInfoIsIdle();
    NameLineIsIdle();
    RangeStartIsIdle();
    RangeEndIsIdle();
    CodeSpaceIsIdle(Zeros(2 * CodeBytes(codeBytes)), PaddedHex(MaxCode(codeBytes), 2 * CodeBytes(codeBytes)));
  }

  lemma FooterIsIdle()
    ensures forall i | 0 <= i < |Footer()| :: Idle(Footer()[i])
  {
    hide Idle;
    LastShortLinesAreIdle();
    DefineLineIsIdle();
  }

  lemma {:induction false} EntriesAre(m: Mapping, codes: seq<int>, codeBytes: int, start: Mapping)
    requires forall c | c in codes :: c in m
    ensures forall c :: c in Put(start, EntriesFor(m, codes, codeBytes))
                   <==> c in start || (c in codes && c in Representable(m, codeBytes))
    ensures forall c | c in codes && c in Representable(m, codeBytes) ::
              Put(start, EntriesFor(m, codes, codeBytes))[c] == m[c]
  {
    hide ValidText; hide MaxCode;
    if codes != [] {
      var n := |codes| - 1;
      EntriesAre(m, codes[..n], codeBytes, start);
      assert forall c | c in codes :: c == codes[n] || c in codes[..n];
      var rest, last := EntriesFor(m, codes[..n], codeBytes), codes[n];
      if last in Representable(m, codeBytes) {
        assert (rest + [(last, m[last])])[..|rest|] == rest;
      } else {
        assert EntriesFor(m, codes, codeBytes) == rest;
      }
    }
  }

  lemma LinesAreWhole(m: Mapping, codeBytes: int)
    ensures forall i | 0 <= i < |Lines(m, codeBytes)| :: OneLine(Lines(m, codeBytes)[i])
  {
    hide Header; hide Footer; hide Blocks; hide Entries; hide OneLine; hide Plain; hide Begins;
    HeaderIsIdle(codeBytes);
    FooterIsIdle();
    BlocksSteps(map[], Entries(m, codeBytes), 2 * CodeBytes(codeBytes));
  }

  /** Reading a rendered CMap gives back every entry of the map that its width can hold and whose text
      is valid, and nothing else. */
  lemma RoundTrip(m: Mapping, codeBytes: int)
    ensures Parsed(Rendered(m, codeBytes)) == Representable(m, codeBytes)
  {
    hide Header; hide Footer; hide Blocks; hide Step; hide SplitLines; hide JoinLines; hide Idle; hide OneLine; hide Representable;
    var entries, width, st := Entries(m, codeBytes), 2 * CodeBytes(codeBytes), State(Outside, map[]);
    LinesAreWhole(m, codeBytes);
    SplitOfJoin(Lines(m, codeBytes));
    HeaderIsIdle(codeBytes);
    IdleSteps(map[], Header(codeBytes));
    StepsAppend(st, Header(codeBytes) + Blocks(entries, width), Footer());
    StepsAppend(st, Header(codeBytes), Blocks(entries, width));
    BlocksSteps(map[], entries, width);
    FooterIsIdle();
    IdleSteps(Put(map[], entries), Footer());
    EntriesAre(m, Ascending(m.Keys), codeBytes, map[]);
    assert Put(map[], entries) == Representable(m, codeBytes) by { hide *; PutIsRepresentable(m, codeBytes); }
  }

  lemma PutIsRepresentable(m: Mapping, codeBytes: int)
    ensures Put(map[], Entries(m, codeBytes)) == Representable(m, codeBytes)
  {
    hide MaxCode; hide ValidText;
    EntriesAre(m, Ascending(m.Keys), codeBytes, map[]);
    var put := Put(map[], EntriesFor(m, Ascending(m.Keys), codeBytes));
    assert forall c :: c in put <==> c in Representable(m, codeBytes);
    assert forall c | c in put :: put[c] == Representable(m, codeBytes)[c];
  }

  // ---------------------------------------------------------------- what the format asks for

  function Power16(n: nat): nat {
    if n == 0 then 1 else 16 * Power16(n - 1)
  }

  lemma {:induction false} HexLength(n: nat, width: nat)
    requires 1 <= width && n < Power16(width)
    ensures |ToHex(n)| <= width
  {
    if n >= 16 {
      HexLength(n / 16, width - 1);
    }
  }

  lemma CodesFit(codeBytes: int)
    ensures MaxCode(codeBytes) + 1 == Power16(2 * CodeBytes(codeBytes))
  {
    assert Power16(2) == 0x100;
    assert Power16(4) == 0x100 * Power16(2);
    assert Power16(6) == 0x100 * Power16(4);
    assert Power16(8) == 0x100 * Power16(6);
  }

  /** The lines are blocks of one to a hundred entries: each says how many follow, lists them, and ends. */
  ghost predicate InBlocks(lines: seq<string>, entries: seq<Entry>, width: nat)
    requires Writable(entries)
    decreases |entries|
  {
    if entries == [] then lines == []
    else exists n: nat :: 1 <= n <= 100 && n <= |entries| && n + 2 <= |lines| && StartsWithBlock(lines, entries, n, width)
  }

  ghost predicate StartsWithBlock(lines: seq<string>, entries: seq<Entry>, n: nat, width: nat)
    requires Writable(entries) && 1 <= n <= |entries| && n + 2 <= |lines|
    decreases |entries|, 0
  {
    assert Writable(entries[n..]);
    && lines[0] == Keys.Decimal(n) + " beginbfchar" && lines[n + 1] == "endbfchar"
    && (forall i | 0 <= i < n :: assert entries[i] in entries; lines[i + 1] == EntryLine(entries[i], width))
    && InBlocks(lines[n + 2..], entries[n..], width)
  }

  lemma {:induction false} BlocksAreShort(entries: seq<Entry>, width: nat)
    requires Writable(entries)
    ensures InBlocks(Blocks(entries, width), entries, width)
    decreases |entries|
  {
    hide EntryLine; hide ValidText;
    if entries != [] {
      var n := if BLOCK < |entries| then BLOCK else |entries|;
      OneBlock(entries, n, width);
      BlocksAreShort(entries[n..], width);
      BlockStarts(entries, n, width);
    }
  }

  lemma BlockStarts(entries: seq<Entry>, n: nat, width: nat)
    requires Writable(entries) && 1 <= n <= 100 && n <= |entries| && Writable(entries[..n]) && Writable(entries[n..])
    requires InBlocks(Blocks(entries[n..], width), entries[n..], width)
    ensures InBlocks(BlockLines(entries[..n], width) + Blocks(entries[n..], width), entries, width)
  {
    hide *;
    var block, more := BlockLines(entries[..n], width), Blocks(entries[n..], width);
    BlockShape(entries, n, width);
    BlockAndRest(block, more, entries, n, width);
    FirstBlock(block + more, entries, n, width);
  }

  lemma BlockShape(entries: seq<Entry>, n: nat, width: nat)
    requires Writable(entries) && 1 <= n <= |entries| && Writable(entries[..n])
    ensures var block := BlockLines(entries[..n], width);
      && |block| == n + 2 && block[0] == Keys.Decimal(n) + " beginbfchar" && block[n + 1] == "endbfchar"
      && forall i | 0 <= i < n :: assert entries[i] in entries; block[i + 1] == EntryLine(entries[i], width)
  {
    hide EntryLine; hide ValidText; hide Keys.Decimal;
    assert forall i | 0 <= i < n :: BlockLines(entries[..n], width)[i + 1] == EntryLines(entries[..n], width)[i];
  }

  lemma BlockAndRest(block: seq<string>, more: seq<string>, entries: seq<Entry>, n: nat, width: nat)
    requires Writable(entries) && 1 <= n <= |entries| && Writable(entries[n..]) && InBlocks(more, entries[n..], width)
    requires |block| == n + 2 && block[0] == Keys.Decimal(n) + " beginbfchar" && block[n + 1] == "endbfchar"
    requires forall i | 0 <= i < n :: assert entries[i] in entries; block[i + 1] == EntryLine(entries[i], width)
    ensures StartsWithBlock(block + more, entries, n, width)
  {
    hide InBlocks; hide EntryLine; hide ValidText; hide Keys.Decimal;
    assert (block + more)[n + 2..] == more;
  }

  lemma FirstBlock(lines: seq<string>, entries: seq<Entry>, n: nat, width: nat)
    requires Writable(entries) && 1 <= n <= 100 && n <= |entries| && n + 2 <= |lines| && StartsWithBlock(lines, entries, n, width)
    ensures InBlocks(lines, entries, width)
  {
    hide StartsWithBlock; hide ValidText;
  }

  /** Every code written has the digits of the declared code space, and lies in it; the entries come in
      blocks of a hundred at most. */
  lemma WrittenToFormat(m: Mapping, codeBytes: int)
    ensures var width, entries := 2 * CodeBytes(codeBytes), Entries(m, codeBytes);
      && Header(codeBytes)[6..9]
         == ["1 begincodespacerange", Bracketed(Zeros(width)) + " " + Bracketed(PaddedHex(MaxCode(codeBytes), width)), "endcodespacerange"]
      && |PaddedHex(MaxCode(codeBytes), width)| == width
      && (forall e | e in entries :: |PaddedHex(e.0, width)| == width && e.0 <= HexValue(PaddedHex(MaxCode(codeBytes), width)))
      && InBlocks(Blocks(entries, width), entries, width)
  {
    var width, entries := 2 * CodeBytes(codeBytes), Entries(m, codeBytes);
    CodesFit(codeBytes);
    HexLength(MaxCode(codeBytes), width);
    PaddedHexValue(MaxCode(codeBytes), width);
    BlocksAreShort(entries, width);
    HeaderSays(codeBytes);
    hide Header; hide Blocks; hide InBlocks;
    forall e | e in entries ensures |PaddedHex(e.0, width)| == width && e.0 <= MaxCode(codeBytes) {
      EntriesInRange(m, Ascending(m.Keys), codeBytes, e);
      HexLength(e.0, width);
    }
  }

  lemma HeaderSays(codeBytes: int)
    ensures var width := 2 * CodeBytes(codeBytes);
      |Header(codeBytes)| == 9 && Header(codeBytes)[6..9]
      == ["1 begincodespacerange", Bracketed(Zeros(width)) + " " + Bracketed(PaddedHex(MaxCode(codeBytes), width)), "endcodespacerange"]
  {
    hide PaddedHex; hide Zeros; hide Bracketed;
  }

  lemma {:induction false} EntriesInRange(m: Mapping, codes: seq<int>, codeBytes: int, e: Entry)
    requires (forall c | c in codes :: c in m) && e in EntriesFor(m, codes, codeBytes)
    ensures e.0 <= MaxCode(codeBytes)
  {
    hide ValidText; hide MaxCode;
    var n := |codes| - 1;
    if e in EntriesFor(m, codes[..n], codeBytes) {
      EntriesInRange(m, codes[..n], codeBytes, e);
    }
  }

  // ---------------------------------------------------------------- the width the caller chooses

  function Negated(s: set<int>): set<int> {
    set c | c in s :: -c
  }

  lemma NegatedElements(s: set<int>)
    ensures forall c | c in s :: -c in Negated(s)
    ensures s != {} ==> Negated(s) != {}
  {
    if s != {} {
      var c := Pick(s);
      assert -c in Negated(s);
    }
  }

  /** `max` over the codes, or zero. */
  function Greatest(m: Mapping): int {
    NegatedElements(m.Keys);
    if m == map[] then 0 else -Least(Negated(m.Keys))
  }

  function WidthFor(m: Mapping): int {
    if Greatest(m) <= 0xFF then 1 else if Greatest(m) <= 0xFFFF then 2 else 4
  }

  lemma GreatestBounds(m: Mapping)
    ensures forall c | c in m :: c <= Greatest(m)
  {
    NegatedElements(m.Keys);
  }

  /** The entries a CMap can hold at all: codes of four bytes, texts with an encoding. */
  function Holdable(m: Mapping): Mapping {
    map c | c in m && 0 <= c < 0x1_0000_0000 && ValidText(m[c]) :: m[c]
  }

  lemma WidthHoldsTheHoldable(m: Mapping)
    ensures Representable(m, WidthFor(m)) == Holdable(m)
  {
    GreatestBounds(m);
    hide Greatest; hide ValidText;
    forall c | c in m && 0 <= c < 0x1_0000_0000 ensures c <= MaxCode(WidthFor(m)) {
      assert c <= Greatest(m);
    }
  }

  /** With the width the caller picks, exactly the codes of 2^32 and more, the negative ones and those
      with an invalid text are dropped. */
  lemma ChosenWidthDropsNothing(m: Mapping)
    ensures Parsed(Rendered(m, WidthFor(m))) == Holdable(m)
  {
    RoundTrip(m, WidthFor(m));
    WidthHoldsTheHoldable(m);
    hide *;
  }

  lemma AllHoldable(m: Mapping)
    requires forall c | c in m :: 0 <= c < 0x1_0000_0000 && ValidText(m[c])
    ensures Holdable(m) == m
  {
    hide ValidText;
  }

  // ---------------------------------------------------------------- what a range line says

  predicate InRange(c: int, start: int, span: nat) {
    start <= c < start + span
  }

  /** A range maps each of its codes to the code point as far from the seed as the code is from the
      start; code points no text may hold are left out, and what they had before stays. */
  lemma {:induction false} RangeMeans(m: Mapping, start: int, seed: nat, span: nat, c: int)
    ensures var r := PutPoints(m, start, seed, span);
      if InRange(c, start, span) && ValidCodePoint(seed + (c - start)) then c in r && r[c] == [seed + (c - start)]
      else (c in r <==> c in m) && (c in m ==> r[c] == m[c])
  {
    hide ValidCodePoint;
    if span > 0 {
      RangeMeans(m, start, seed, span - 1, c);
    }
  }

  /** A range with a list maps its codes to the list's texts, in order. */
  lemma {:induction false} ListMeans(m: Mapping, start: int, targets: seq<string>, c: int)
    requires forall t | t in targets :: IsHex(t)
    ensures var r := PutTargets(m, start, targets);
      if InRange(c, start, |targets|) && DecodeHex(targets[c - start]).Some?
      then c in r && Some(r[c]) == DecodeHex(targets[c - start])
      else (c in r <==> c in m) && (c in m ==> r[c] == m[c])
  {
    hide DecodeHex;
    if targets != [] {
      ListMeans(m, start, targets[..|targets| - 1], c);
    }
  }

  // ---------------------------------------------------------------- reading anything

  predicate Sound(m: Mapping) {
    forall c | c in m :: c >= 0 && ValidText(m[c])
  }

  lemma PutHexSound(m: Mapping, code: int, hex: string)
    requires Sound(m) && code >= 0 && IsHex(hex)
    ensures Sound(PutHex(m, code, hex))
  {
    hide ValidText; hide Decode; hide FromHex;
  }

  lemma {:induction false} PutTargetsSound(m: Mapping, start: int, targets: seq<string>)
    requires Sound(m) && start >= 0 && forall t | t in targets :: IsHex(t)
    ensures Sound(PutTargets(m, start, targets))
  {
    hide Sound; hide PutHex;
    if targets != [] {
      var n := |targets| - 1;
      PutTargetsSound(m, start, targets[..n]);
      PutHexSound(PutTargets(m, start, targets[..n]), start + n, targets[n]);
    }
  }

  lemma {:induction false} PutPointsSound(m: Mapping, start: int, seed: nat, span: nat)
    requires Sound(m) && start >= 0
    ensures Sound(PutPoints(m, start, seed, span))
  {
    if span > 0 {
      PutPointsSound(m, start, seed, span - 1);
    }
  }

  lemma StepSound(st: State, raw: string)
    requires Sound(st.mapping)
    ensures Sound(Step(st, raw).mapping)
  {
    hide Sound; hide PutHex; hide PutTargets; hide PutPoints; hide EndsWith; hide Cleaned; hide HexValue; hide Seed;
    var groups := FindHex(Cleaned(raw));
    hide FindHex;
    if st.mode == BfChar && |groups| >= 2 {
      PutHexSound(st.mapping, HexValue(groups[0]), groups[1]);
    }
    if st.mode == BfRange && |groups| >= 3 {
      var start, span := HexValue(groups[0]), Span(HexValue(groups[0]), HexValue(groups[1]));
      PutTargetsSound(st.mapping, start, Take(groups[2..], span));
      if Seed(groups[2]).Some? {
        PutPointsSound(st.mapping, start, Seed(groups[2]).value, span);
      }
    }
  }

  lemma {:induction false} StepsSound(st: State, lines: seq<string>)
    requires Sound(st.mapping)
    ensures Sound(Steps(st, lines).mapping)
  {
    hide Sound; hide Step;
    if lines != [] {
      StepsSound(st, lines[..|lines| - 1]);
      StepSound(Steps(st, lines[..|lines| - 1]), lines[|lines| - 1]);
    }
  }

  /** Whatever a stream says, what is read from it can be written back and read again unchanged, as
      long as its codes fit in four bytes. */
  lemma RewritingIsStable(text: string)
    ensures var m := Parsed(text);
      Sound(m) && ((forall c | c in m :: c < 0x1_0000_0000) ==> Parsed(Rendered(m, WidthFor(m))) == m)
  {
    assert Sound(map[]);
    StepsSound(State(Outside, map[]), SplitLines(text));
    hide Steps; hide Rendered; hide WidthFor;
    var m := Parsed(text);
    if forall c | c in m :: c < 0x1_0000_0000 {
      hide Parsed; hide ValidText;
      ChosenWidthDropsNothing(m);
      AllHoldable(m);
    }
  }
}

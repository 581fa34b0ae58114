/** The string handling under the ToUnicode parser: lines, comments, blanks, and `<hex>` groups. */
module CMapLines {
  import opened HexText

  // ---------------------------------------------------------------- lines

  /** Where `str.splitlines` breaks Latin-1 text. A carriage return and line feed count as two breaks
      here: the empty line between them is one the parser skips. */
  predicate IsBreak(c: char) {
    c in {'\n', '\r', '\U{0B}', '\U{0C}', '\U{1C}', '\U{1D}', '\U{1E}', '\U{85}'}
  }

  predicate IsBlank(c: char) {
    IsBreak(c) || c in {' ', '\t', '\U{1F}', '\U{A0}'}
  }

  predicate OneLine(s: string) {
    forall i | 0 <= i < |s| :: !IsBreak(s[i])
  }

  function SplitFrom(line: string, text: string): seq<string>
    decreases |text|
  {
    if text == "" then (if line == "" then [] else [line])
    else if IsBreak(text[0]) then [line] + SplitFrom("", text[1..])
    else SplitFrom(line + [text[0]], text[1..])
  }

  function SplitLines(text: string): seq<string> {
    SplitFrom("", text)
  }

  /** `"\n".join(lines + [""])`. */
  function JoinLines(lines: seq<string>): string {
    if lines == [] then "" else lines[0] + "\n" + JoinLines(lines[1..])
  }

  lemma {:induction false} SplitOneLine(line: string, s: string, rest: string)
    requires OneLine(s)
    ensures SplitFrom(line, s + "\n" + rest) == [line + s] + SplitFrom("", rest)
    decreases |s|
  {
    var text := s + "\n" + rest;
    if s == "" {
      assert text[1..] == rest && line + s == line;
    } else {
      assert text[1..] == s[1..] + "\n" + rest;
      SplitOneLine(line + [s[0]], s[1..], rest);
      assert line + [s[0]] + s[1..] == line + s;
    }
  }

  /** Lines written one after another are read back as they were. */
  lemma {:induction false} SplitOfJoin(lines: seq<string>)
    requires forall i | 0 <= i < |lines| :: OneLine(lines[i])
    ensures SplitLines(JoinLines(lines)) == lines
  {
    if lines != [] {
      SplitOneLine("", lines[0], JoinLines(lines[1..]));
      SplitOfJoin(lines[1..]);
      assert "" + lines[0] == lines[0];
    }
  }

  // ---------------------------------------------------------------- comments and blanks

  /** `line.split("%", 1)[0]`. */
  function BeforeComment(line: string): string {
    if line == "" || line[0] == '%' then "" else [line[0]] + BeforeComment(line[1..])
  }

  function StripLeft(s: string): string {
    if s != "" && IsBlank(s[0]) then StripLeft(s[1..]) else s
  }

  function StripRight(s: string): string {
    if s != "" && IsBlank(s[|s| - 1]) then StripRight(s[..|s| - 1]) else s
  }

  function Cleaned(line: string): string {
    StripRight(StripLeft(BeforeComment(line)))
  }

  /** No comment in it, and nothing to strip. */
  predicate Plain(s: string) {
    s != "" && '%' !in s && !IsBlank(s[0]) && !IsBlank(s[|s| - 1])
  }

  lemma {:induction false} NoComment(s: string)
    requires '%' !in s
    ensures BeforeComment(s) == s
  {
    if s != "" {
      NoComment(s[1..]);
      assert [s[0]] + s[1..] == s;
    }
  }

  lemma PlainIsCleaned(s: string)
    requires Plain(s)
    ensures Cleaned(s) == s
  {
    NoComment(s);
  }

  function LowerChar(c: char): char {
    if 'A' <= c <= 'Z' then c - 'A' + 'a' else c
  }

  /** `line.lower().endswith(suffix)`. */
  predicate EndsWith(line: string, suffix: string) {
    && |line| >= |suffix|
    && forall i | 0 <= i < |suffix| :: LowerChar(line[|line| - |suffix| + i]) == suffix[i]
  }

  // ---------------------------------------------------------------- `<hex>` groups

  function HexRun(s: string): (n: nat)
    ensures n <= |s| && IsHex(s[..n]) && (n < |s| ==> !IsHexDigit(s[n]))
  {
    if s == "" || !IsHexDigit(s[0]) then 0 else 1 + HexRun(s[1..])
  }

  /** `re.findall(r"<([0-9A-Fa-f]+)>", line)`: a group is a run of digits closed at once. */
  function FindHex(line: string): (groups: seq<string>)
    ensures forall g | g in groups :: g != "" && IsHex(g)
    decreases |line|
  {
    if line == "" then []
    else if line[0] != '<' then FindHex(line[1..])
    else
      var n := HexRun(line[1..]);
      assert line[1..n + 1] == line[1..][..n];
      if n > 0 && n + 1 < |line| && line[n + 1] == '>' then [line[1..n + 1]] + FindHex(line[n + 2..])
      else FindHex(line[1..])
  }

  function Bracketed(hex: string): string {
    "<" + hex + ">"
  }

  lemma {:induction false} HexRunExact(hex: string, rest: string)
    requires IsHex(hex)
    ensures HexRun(hex + ">" + rest) == |hex|
  {
    var s := hex + ">" + rest;
    if hex == "" {
      assert s[0] == '>';
    } else {
      assert s[1..] == hex[1..] + ">" + rest;
      HexRunExact(hex[1..], rest);
    }
  }

  lemma FindOne(hex: string, rest: string)
    requires hex != "" && IsHex(hex)
    ensures FindHex(Bracketed(hex) + rest) == [hex] + FindHex(rest)
  {
    var line := Bracketed(hex) + rest;
    assert line[1..] == hex + ">" + rest;
    HexRunExact(hex, rest);
    assert line[1..|hex| + 1] == hex && line[|hex| + 2..] == rest;
  }

  /** A line with two groups on it gives both. */
  lemma FindTwo(a: string, b: string)
    requires a != "" && IsHex(a) && b != "" && IsHex(b)
    ensures FindHex(Bracketed(a) + " " + Bracketed(b)) == [a, b]
  {
    var rest := " " + Bracketed(b);
    assert Bracketed(a) + " " + Bracketed(b) == Bracketed(a) + rest;
    FindOne(a, rest);
    assert rest[1..] == Bracketed(b) == Bracketed(b) + "";
    FindOne(b, "");
  }
}

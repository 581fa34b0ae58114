/** Hexadecimal text, and UTF-16BE (section 2 of RFC 2781) written in it: backend/scripts/corpus_benchmark.py
    `_is_valid_unicode_text`, `_decode_tounicode_hex` and the encodings `_render_tounicode_cmap` uses. */
module HexText {
  import opened Wrappers

  // ---------------------------------------------------------------- hexadecimal numbers

  const UPPER := "0123456789ABCDEF"

  predicate IsHexDigit(c: char) {
    '0' <= c <= '9' || 'A' <= c <= 'F' || 'a' <= c <= 'f'
  }

  predicate IsHex(s: string) {
    forall i | 0 <= i < |s| :: IsHexDigit(s[i])
  }

  function DigitValue(c: char): (n: nat)
    requires IsHexDigit(c)
    ensures n < 16
  {
    if c <= '9' then (c - '0') as nat
    else if c <= 'F' then (c - 'A') as nat + 10
    else (c - 'a') as nat + 10
  }

  function DigitOf(n: nat): (c: char)
    requires n < 16
    ensures IsHexDigit(c) && DigitValue(c) == n
  {
    UPPER[n]
  }

  /** `int(s, 16)`. */
  function HexValue(s: string): nat
    requires IsHex(s)
  {
    if s == "" then 0 else HexValue(s[..|s| - 1]) * 16 + DigitValue(s[|s| - 1])
  }

  /** `format(n, "X")`. */
  function ToHex(n: nat): (s: string)
    ensures s != "" && IsHex(s)
  {
    if n < 16 then [DigitOf(n)] else ToHex(n / 16) + [DigitOf(n % 16)]
  }

  /** `format(n, "0{width}X")`. */
  function PaddedHex(n: nat, width: nat): (s: string)
    ensures s != "" && IsHex(s) && |s| >= width
  {
    var s := ToHex(n);
    Zeros(if |s| < width then width - |s| else 0) + s
  }

  function Zeros(n: nat): (s: string)
    ensures |s| == n && IsHex(s)
  {
    seq(n, _ => '0')
  }

  lemma {:induction false} ZerosValue(n: nat, s: string)
    requires IsHex(s)
    ensures IsHex(Zeros(n) + s) && HexValue(Zeros(n) + s) == HexValue(s)
    decreases n, |s|
  {
    if s != "" {
      assert (Zeros(n) + s)[..n + |s| - 1] == Zeros(n) + s[..|s| - 1];
      ZerosValue(n, s[..|s| - 1]);
    } else if n > 0 {
      assert Zeros(n) + s == Zeros(n - 1) + "0";
      assert (Zeros(n - 1) + "0")[..n - 1] == Zeros(n - 1) + "";
      ZerosValue(n - 1, "");
    } else {
      assert Zeros(0) + s == s;
    }
  }

  lemma {:induction false} ToHexValue(n: nat)
    ensures HexValue(ToHex(n)) == n
  {
    if n < 16 {
      assert [DigitOf(n)][..0] == "";
    } else {
      ToHexValue(n / 16);
      assert (ToHex(n / 16) + [DigitOf(n % 16)])[..|ToHex(n / 16)|] == ToHex(n / 16);
    }
  }

  /** Padding never changes the number read back. */
  lemma PaddedHexValue(n: nat, width: nat)
    ensures HexValue(PaddedHex(n, width)) == n
  {
    var s := ToHex(n);
    ToHexValue(n);
    ZerosValue(if |s| < width then width - |s| else 0, s);
  }

  // ---------------------------------------------------------------- bytes

  type Byte = n: nat | n < 256

  /** `bytes.fromhex` on hexadecimal digits: nothing for an odd number of them. */
  function FromHex(s: string): Option<seq<Byte>>
    requires IsHex(s)
  {
    if s == "" then Some([])
    else if |s| == 1 then None
    else
      match FromHex(s[2..])
      case None => None
      case Some(rest) => Some([DigitValue(s[0]) * 16 + DigitValue(s[1])] + rest)
  }

  /** `data.hex().upper()`. */
  function BytesHex(data: seq<Byte>): (s: string)
    ensures IsHex(s) && |s| == 2 * |data|
  {
    if data == [] then "" else [DigitOf(data[0] / 16), DigitOf(data[0] % 16)] + BytesHex(data[1..])
  }

  lemma {:induction false} FromHexOfBytes(data: seq<Byte>)
    ensures FromHex(BytesHex(data)) == Some(data)
  {
    if data != [] {
      var s := BytesHex(data);
      assert s[2..] == BytesHex(data[1..]);
      FromHexOfBytes(data[1..]);
      assert DigitValue(s[0]) * 16 + DigitValue(s[1]) == data[0];
      assert [data[0]] + data[1..] == data;
    }
  }

  // ---------------------------------------------------------------- texts

  /** A text as its code points. */
  type Text = seq<nat>

  predicate IsSurrogate(n: nat) {
    0xD800 <= n <= 0xDFFF
  }

  predicate ValidCodePoint(n: nat) {
    n != 0 && n != 0xFFFE && n != 0xFEFF && n <= 0x10FFFF && !IsSurrogate(n)
  }

  predicate ValidText(text: Text) {
    text != [] && forall i | 0 <= i < |text| :: ValidCodePoint(text[i])
  }

  function UnitBytes(unit: nat): seq<Byte>
    requires unit < 0x10000
  {
    [unit / 256, unit % 256]
  }

  /** One code point in UTF-16BE: one unit, or a surrogate pair. */
  function EncodePoint(n: nat): (data: seq<Byte>)
    requires n <= 0x10FFFF
    ensures |data| == 2 || |data| == 4
  {
    if n < 0x10000 then UnitBytes(n)
    else UnitBytes(0xD800 + (n - 0x10000) / 0x400) + UnitBytes(0xDC00 + (n - 0x10000) % 0x400)
  }

  function Encode(text: Text): seq<Byte>
    requires forall i | 0 <= i < |text| :: text[i] <= 0x10FFFF
  {
    if text == [] then [] else EncodePoint(text[0]) + Encode(text[1..])
  }

  function Unit(data: seq<Byte>): (n: nat)
    requires |data| >= 2
    ensures n < 0x10000
  {
    var high: nat, low: nat := data[0], data[1];
    high * 256 + low
  }

  /** The strict UTF-16BE decoder: a lone surrogate or a half unit is an error. */
  function Decode(data: seq<Byte>): Option<Text> {
    if data == [] then Some([])
    else if |data| == 1 then None
    else
      var unit := Unit(data);
      if !IsSurrogate(unit) then Prepend(unit, Decode(data[2..]))
      else if unit >= 0xDC00 || |data| < 4 then None
      else
        var low := Unit(data[2..]);
        if !(0xDC00 <= low <= 0xDFFF) then None
        else Prepend(0x10000 + (unit - 0xD800) * 0x400 + (low - 0xDC00), Decode(data[4..]))
  }

  function Prepend(n: nat, rest: Option<Text>): Option<Text> {
    match rest
    case None => None
    case Some(text) => Some([n] + text)
  }

  lemma DecodeOnePoint(n: nat, rest: seq<Byte>)
    requires n <= 0x10FFFF && !IsSurrogate(n)
    ensures Decode(EncodePoint(n) + rest) == Prepend(n, Decode(rest))
  {
    var data := EncodePoint(n) + rest;
    if n < 0x10000 {
      assert data[2..] == rest;
      assert Unit(data) == n;
    } else {
      assert data[2..][..2] == UnitBytes(0xDC00 + (n - 0x10000) % 0x400);
      assert Unit(data) == 0xD800 + (n - 0x10000) / 0x400;
      assert Unit(data[2..]) == 0xDC00 + (n - 0x10000) % 0x400;
      assert data[4..] == rest;
    }
  }

  lemma {:induction false} DecodeOfEncode(text: Text)
    requires forall i | 0 <= i < |text| :: text[i] <= 0x10FFFF && !IsSurrogate(text[i])
    ensures Decode(Encode(text)) == Some(text)
  {
    if text != [] {
      DecodeOfEncode(text[1..]);
      DecodeOnePoint(text[0], Encode(text[1..]));
      assert [text[0]] + text[1..] == text;
    }
  }

  function DecodeHex(value: string): Option<Text>
    requires IsHex(value)
  {
    match FromHex(value)
    case None => None
    case Some(data) =>
      if data == [] || |data| % 2 != 0 then None
      else
        match Decode(data)
        case None => None
        case Some(text) => if ValidText(text) then Some(text) else None
  }

  function EncodeHex(text: Text): (s: string)
    requires forall i | 0 <= i < |text| :: text[i] <= 0x10FFFF
    ensures IsHex(s)
  {
    BytesHex(Encode(text))
  }

  lemma {:induction false} EncodedLength(text: Text)
    requires forall i | 0 <= i < |text| :: text[i] <= 0x10FFFF
    ensures |Encode(text)| % 2 == 0 && |Encode(text)| >= 2 * |text|
  {
    if text != [] {
      EncodedLength(text[1..]);
    }
  }

  /** A valid text survives being written in hexadecimal and read back, surrogate pairs included. */
  lemma HexRoundTrip(text: Text)
    requires ValidText(text)
    ensures EncodeHex(text) != "" && DecodeHex(EncodeHex(text)) == Some(text)
  {
    FromHexOfBytes(Encode(text));
    EncodedLength(text);
    DecodeOfEncode(text);
  }
}

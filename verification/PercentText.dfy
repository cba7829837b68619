/**
 * Percent-encoded text: the encoding and decoding of section 2.1 of RFC 3986 over UTF-8, as the language's
 * encodeURIComponent and decodeURIComponent do it, and the form encoding of section 5.2 of the WHATWG URL
 * Standard. A character is a Unicode scalar value.
 */
module PercentText {
  import opened Options
  import opened Texts

  // ── Bytes ──

  /** A character's bytes in UTF-8. */
  function Utf8(c: char): (bytes: seq<nat>)
    ensures 1 <= |bytes| <= 4 && forall i | 0 <= i < |bytes| :: bytes[i] < 256
  {
    var n := c as int;
    if n < 0x80 then [n]
    else if n < 0x800 then [0xC0 + n / 64, 0x80 + n % 64]
    else if n < 0x10000 then [0xE0 + n / 64 / 64, 0x80 + n / 64 % 64, 0x80 + n % 64]
    else [0xF0 + n / 64 / 64 / 64, 0x80 + n / 64 / 64 % 64, 0x80 + n / 64 % 64, 0x80 + n % 64]
  }

  /** How many bytes a character that begins with this one has; 0 for none. */
  function Length(first: nat): nat {
    if first < 0x80 then 1
    else if 0xC0 <= first < 0xE0 then 2
    else if 0xE0 <= first < 0xF0 then 3
    else if 0xF0 <= first < 0xF8 then 4
    else 0
  }

  predicate Follows(b: nat) {
    0x80 <= b < 0xC0
  }

  function Scalar(n: nat, least: nat): Option<char> {
    if least <= n < 0xD800 || (least <= n && 0xE000 <= n < 0x110000) then Some(n as char) else None
  }

  /** The character some bytes are, in its shortest form and no surrogate. */
  function CharOf(bytes: seq<nat>): Option<char>
    requires bytes != []
  {
    var first := bytes[0];
    if |bytes| != Length(first) then None
    else if |bytes| == 1 then Scalar(first, 0)
    else if !Follows(bytes[1]) then None
    else if |bytes| == 2 then Scalar((first - 0xC0) * 64 + (bytes[1] - 0x80), 0x80)
    else if !Follows(bytes[2]) then None
    else if |bytes| == 3 then Scalar(((first - 0xE0) * 64 + (bytes[1] - 0x80)) * 64 + (bytes[2] - 0x80), 0x800)
    else if !Follows(bytes[3]) then None
    else Scalar((((first - 0xF0) * 64 + (bytes[1] - 0x80)) * 64 + (bytes[2] - 0x80)) * 64 + (bytes[3] - 0x80), 0x10000)
  }

  lemma Utf8ComesBack(c: char)
    ensures Length(Utf8(c)[0]) == |Utf8(c)| && CharOf(Utf8(c)) == Some(c)
  {
  }

  // ── One byte ──

  predicate IsHex(c: char) {
    '0' <= c <= '9' || 'A' <= c <= 'F' || 'a' <= c <= 'f'
  }

  function HexOf(n: nat): char
    requires n < 16
  {
    if n < 10 then '0' + n as char else 'A' + (n - 10) as char
  }

  function ValueOf(c: char): nat
    requires IsHex(c)
  {
    if c <= '9' then (c - '0') as nat else if c <= 'F' then (c - 'A') as nat + 10 else (c - 'a') as nat + 10
  }

  function PercentByte(b: nat): string
    requires b < 256
  {
    ['%', HexOf(b / 16), HexOf(b % 16)]
  }

  /** The byte written at the start of a text. */
  function ByteAt(s: string): Option<nat> {
    if |s| < 3 || s[0] != '%' || !IsHex(s[1]) || !IsHex(s[2]) then None
    else Some(16 * ValueOf(s[1]) + ValueOf(s[2]))
  }

  lemma ByteComesBack(b: nat, rest: string)
    requires b < 256
    ensures var s := PercentByte(b) + rest; ByteAt(s) == Some(b) && s[0] == '%' && s[3..] == rest
  {
  }

  // ── Texts ──

  function Percent(bytes: seq<nat>): string
    requires forall i | 0 <= i < |bytes| :: bytes[i] < 256
  {
    if bytes == [] then "" else PercentByte(bytes[0]) + Percent(bytes[1..])
  }

  lemma Regroup(a: string, b: string, c: string)
    ensures a + b + c == a + (b + c)
  {
  }

  lemma PercentFirst(bytes: seq<nat>, rest: string)
    requires bytes != [] && forall i | 0 <= i < |bytes| :: bytes[i] < 256
    ensures Percent(bytes) + rest == PercentByte(bytes[0]) + (Percent(bytes[1..]) + rest)
  {
    assert Percent(bytes) == PercentByte(bytes[0]) + Percent(bytes[1..]);
    hide Percent, PercentByte;
    Regroup(PercentByte(bytes[0]), Percent(bytes[1..]), rest);
  }

  /** The first *n* bytes written at the start of a text. */
  function BytesAt(s: string, n: nat): Option<seq<nat>>
    ensures BytesAt(s, n).Some? ==> |BytesAt(s, n).value| == n && 3 * n <= |s|
  {
    if n == 0 then Some([])
    else
      var first := ByteAt(s);
      if first.None? then None
      else
        var rest := BytesAt(s[3..], n - 1);
        if rest.None? then None else Some([first.value] + rest.value)
  }

  lemma {:induction false} BytesComeBack(bytes: seq<nat>, rest: string)
    requires forall i | 0 <= i < |bytes| :: bytes[i] < 256
    ensures BytesAt(Percent(bytes) + rest, |bytes|) == Some(bytes)
    ensures |Percent(bytes)| == 3 * |bytes|
  {
    if bytes != [] {
      assert |Percent(bytes)| == 3 + |Percent(bytes[1..])|;
      hide ByteAt, PercentByte, Percent;
      PercentFirst(bytes, rest);
      BytesComeBack(bytes[1..], rest);
      ByteComesBack(bytes[0], Percent(bytes[1..]) + rest);
      assert [bytes[0]] + bytes[1..] == bytes;
    }
  }

  /** The text a percent-encoded one stands for: None when a `%` does not begin a character. */
  function Decode(s: string): Option<string>
    decreases |s|
  {
    if s == "" then Some("")
    else if s[0] != '%' then
      var rest := Decode(s[1..]);
      if rest.None? then None else Some([s[0]] + rest.value)
    else
      var first := ByteAt(s);
      if first.None? || Length(first.value) == 0 then None
      else
        var bytes := BytesAt(s, Length(first.value));
        if bytes.None? || CharOf(bytes.value).None? then None
        else
          var rest := Decode(s[3 * |bytes.value|..]);
          if rest.None? then None else Some([CharOf(bytes.value).value] + rest.value)
  }

  lemma DecodePlain(c: char, rest: string)
    requires c != '%' && Decode(rest).Some?
    ensures Decode([c] + rest) == Some([c] + Decode(rest).value)
  {
    assert ([c] + rest)[1..] == rest;
  }

  lemma FirstByte(bytes: seq<nat>, rest: string)
    requires bytes != [] && forall i | 0 <= i < |bytes| :: bytes[i] < 256
    ensures var s := Percent(bytes) + rest; s != "" && s[0] == '%' && ByteAt(s) == Some(bytes[0])
  {
    PercentFirst(bytes, rest);
    hide Percent, PercentByte, ByteAt;
    ByteComesBack(bytes[0], Percent(bytes[1..]) + rest);
  }

  lemma DecodePercent(c: char, rest: string)
    requires Decode(rest).Some?
    ensures Decode(Percent(Utf8(c)) + rest) == Some([c] + Decode(rest).value)
  {
    var bytes := Utf8(c);
    var s := Percent(bytes) + rest;
    hide Utf8, CharOf, Length, BytesAt, ByteAt, Percent;
    Utf8ComesBack(c);
    BytesComeBack(bytes, rest);
    FirstByte(bytes, rest);
    assert s[3 * |bytes|..] == rest;
  }

  predicate IsAlnum(c: char) {
    'A' <= c <= 'Z' || 'a' <= c <= 'z' || '0' <= c <= '9'
  }

  /** What encodeURIComponent leaves as it is. */
  predicate Unreserved(c: char) {
    IsAlnum(c) || c in "-_.!~*'()"
  }

  function EncodeChar(c: char): string {
    if Unreserved(c) then [c] else Percent(Utf8(c))
  }

  function Encode(s: string): string {
    if s == "" then "" else EncodeChar(s[0]) + Encode(s[1..])
  }

  lemma {:induction false} EncodedComesBack(s: string)
    ensures Decode(Encode(s)) == Some(s)
  {
    if s != "" {
      EncodedComesBack(s[1..]);
      hide Decode, Percent, Utf8;
      assert [s[0]] + s[1..] == s;
      if Unreserved(s[0]) {
        DecodePlain(s[0], Encode(s[1..]));
      } else {
        DecodePercent(s[0], Encode(s[1..]));
      }
    }
  }

  // ── Forms ──

  predicate FormKeeps(c: char) {
    IsAlnum(c) || c in "*-._"
  }

  function FormChar(c: char): string {
    if c == ' ' then "+" else if FormKeeps(c) then [c] else Percent(Utf8(c))
  }

  function FormEncode(s: string): string {
    if s == "" then "" else FormChar(s[0]) + FormEncode(s[1..])
  }

  function PlusToSpace(s: string): (t: string)
    ensures |t| == |s|
  {
    seq(|s|, i requires 0 <= i < |s| => if s[i] == '+' then ' ' else s[i])
  }

  function DecodeForm(s: string): Option<string> {
    Decode(PlusToSpace(s))
  }

  lemma {:induction false} PercentChars(bytes: seq<nat>)
    requires forall i | 0 <= i < |bytes| :: bytes[i] < 256
    ensures forall i | 0 <= i < |Percent(bytes)| :: Percent(bytes)[i] == '%' || '0' <= Percent(bytes)[i] <= '9' || 'A' <= Percent(bytes)[i] <= 'F'
  {
    if bytes != [] {
      PercentChars(bytes[1..]);
    }
  }

  lemma NoPlus(s: string)
    requires Free(s, '+')
    ensures PlusToSpace(s) == s
  {
  }

  lemma PlusParts(a: string, b: string)
    ensures PlusToSpace(a + b) == PlusToSpace(a) + PlusToSpace(b)
  {
  }

  lemma FormCharComesBack(c: char, rest: string)
    requires Decode(rest).Some?
    ensures Decode(PlusToSpace(FormChar(c)) + rest) == Some([c] + Decode(rest).value)
  {
    PercentChars(Utf8(c));
    hide Decode, Percent, Utf8;
    if c == ' ' {
      assert PlusToSpace("+") == [' '];
      DecodePlain(' ', rest);
    } else if FormKeeps(c) {
      NoPlus([c]);
      DecodePlain(c, rest);
    } else {
      NoPlus(Percent(Utf8(c)));
      DecodePercent(c, rest);
    }
  }

  lemma {:induction false} FormComesBack(s: string)
    ensures DecodeForm(FormEncode(s)) == Some(s)
  {
    if s != "" {
      FormComesBack(s[1..]);
      hide Decode, FormChar, PlusToSpace;
      PlusParts(FormChar(s[0]), FormEncode(s[1..]));
      FormCharComesBack(s[0], PlusToSpace(FormEncode(s[1..])));
      assert [s[0]] + s[1..] == s;
    } else {
      assert PlusToSpace("") == "";
    }
  }

  /** What an encoded text is made of. */
  predicate EncodedChar(c: char) {
    c == '%' || Unreserved(c)
  }

  predicate FormEncodedChar(c: char) {
    c == '%' || c == '+' || FormKeeps(c)
  }

  lemma {:induction false} EncodedChars(s: string)
    ensures forall i | 0 <= i < |Encode(s)| :: EncodedChar(Encode(s)[i])
    ensures s != "" ==> Encode(s) != ""
  {
    if s != "" {
      EncodedChars(s[1..]);
      PercentChars(Utf8(s[0]));
      PercentNotEmpty(s[0]);
      hide Percent, Utf8;
    }
  }

  lemma PercentNotEmpty(c: char)
    ensures Percent(Utf8(c)) != ""
  {
  }

  lemma {:induction false} FormEncodedChars(s: string)
    ensures forall i | 0 <= i < |FormEncode(s)| :: FormEncodedChar(FormEncode(s)[i])
  {
    if s != "" {
      FormEncodedChars(s[1..]);
      PercentChars(Utf8(s[0]));
      hide Percent, Utf8;
    }
  }

  // ── What decodes, exactly ──

  const LOWER_DIGITS := "0123456789abcdef"
  const UPPER_DIGITS := "0123456789ABCDEF"

  /** *c* is the hexadecimal digit of *n*, in either case. */
  predicate WritesDigit(c: char, n: nat) {
    n < 16 && (c == LOWER_DIGITS[n] || c == UPPER_DIGITS[n])
  }

  /** *p* writes the byte *b*: a percent sign and its two hexadecimal digits. */
  predicate WritesByte(p: string, b: nat) {
    |p| == 3 && p[0] == '%' && WritesDigit(p[1], b / 16) && WritesDigit(p[2], b % 16)
  }

  lemma DigitIs(c: char, n: nat)
    ensures IsHex(c) && ValueOf(c) == n <==> WritesDigit(c, n)
  {
  }

  lemma ByteIs(p: string, b: nat)
    requires |p| == 3
    ensures ByteAt(p) == Some(b) <==> WritesByte(p, b)
  {
    DigitIs(p[1], b / 16);
    DigitIs(p[2], b % 16);
    hide WritesDigit, IsHex, ValueOf;
    if IsHex(p[1]) && IsHex(p[2]) {
      DigitIs(p[1], ValueOf(p[1]));
      DigitIs(p[2], ValueOf(p[2]));
      SmallDigits(p[1], ValueOf(p[1]));
      SmallDigits(p[2], ValueOf(p[2]));
    }
  }

  lemma SmallDigits(c: char, n: nat)
    requires WritesDigit(c, n)
    ensures n < 16
  {
  }

  lemma ByteAtStart(s: string)
    requires |s| >= 3
    ensures ByteAt(s) == ByteAt(s[..3])
  {
  }

  /** *p* writes the bytes one after another. */
  predicate WritesBytes(p: string, bytes: seq<nat>) {
    if bytes == [] then p == "" else |p| >= 3 && WritesByte(p[..3], bytes[0]) && WritesBytes(p[3..], bytes[1..])
  }

  /** *p* writes the character: as it is, but for the percent sign, or as its bytes in UTF-8. */
  predicate WritesChar(p: string, c: char) {
    (p == [c] && c != '%') || WritesBytes(p, Utf8(c))
  }

  /** *s* writes *t*, a character after another. */
  predicate Writes(s: string, t: string)
    decreases |t|
  {
    if t == "" then s == ""
    else exists n :: 0 < n <= |s| && WritesChar(s[..n], t[0]) && Writes(s[n..], t[1..])
  }

  lemma Sixties(high: nat, low: nat)
    requires low < 64
    ensures (high * 64 + low) / 64 == high && (high * 64 + low) % 64 == low
  {
  }

  lemma CharIsItsUtf8(bytes: seq<nat>)
    requires bytes != [] && CharOf(bytes).Some?
    ensures Utf8(CharOf(bytes).value) == bytes
  {
    var first := bytes[0];
    var n := CharOf(bytes).value as int;
    if |bytes| == 2 {
      Sixties(first - 0xC0, bytes[1] - 0x80);
      assert n / 64 == first - 0xC0 && n % 64 == bytes[1] - 0x80;
      assert 0x80 <= n < 0x800;
    } else if |bytes| == 3 {
      var high := (first - 0xE0) * 64 + (bytes[1] - 0x80);
      Sixties(first - 0xE0, bytes[1] - 0x80);
      Sixties(high, bytes[2] - 0x80);
      assert n / 64 == high && n % 64 == bytes[2] - 0x80;
      assert 0x800 <= n < 0x10000;
    } else if |bytes| == 4 {
      FourBytes(bytes);
    }
  }

  lemma FourBytes(bytes: seq<nat>)
    requires |bytes| == 4 && CharOf(bytes).Some?
    ensures Utf8(CharOf(bytes).value) == bytes
  {
    var n := CharOf(bytes).value as int;
    var top := (bytes[0] - 0xF0) * 64 + (bytes[1] - 0x80);
    var high := top * 64 + (bytes[2] - 0x80);
    Sixties(bytes[0] - 0xF0, bytes[1] - 0x80);
    Sixties(top, bytes[2] - 0x80);
    Sixties(high, bytes[3] - 0x80);
    assert n == high * 64 + (bytes[3] - 0x80);
    assert n / 64 == high && n % 64 == bytes[3] - 0x80;
    assert n >= 0x10000;
  }

  lemma PercentLeads(p: string, b: nat)
    requires WritesByte(p, b)
    ensures p != "" && p[0] == '%'
  {
  }

  lemma {:induction false} BytesAreRead(s: string, n: nat)
    requires BytesAt(s, n).Some?
    ensures WritesBytes(s[..3 * n], BytesAt(s, n).value)
  {
    if n > 0 {
      BytesAreRead(s[3..], n - 1);
      ByteAtStart(s);
      ByteIs(s[..3], ByteAt(s).value);
      hide ByteAt, WritesByte;
      assert s[..3 * n][..3] == s[..3] && s[..3 * n][3..] == s[3..][..3 * (n - 1)];
      assert BytesAt(s, n).value[1..] == BytesAt(s[3..], n - 1).value;
    }
  }

  lemma {:induction false} WrittenAreRead(p: string, bytes: seq<nat>, rest: string)
    requires WritesBytes(p, bytes)
    ensures |p| == 3 * |bytes| && BytesAt(p + rest, |bytes|) == Some(bytes)
    ensures bytes != [] ==> p != "" && p[0] == '%' && ByteAt(p + rest) == Some(bytes[0])
  {
    hide ByteAt, WritesByte;
    if bytes != [] {
      WrittenAreRead(p[3..], bytes[1..], rest);
      FirstIsRead(p, bytes[0], rest);
      hide WritesBytes;
      assert (p + rest)[3..] == p[3..] + rest;
      assert [bytes[0]] + bytes[1..] == bytes;
    }
  }

  lemma FirstIsRead(p: string, b: nat, rest: string)
    requires |p| >= 3 && WritesByte(p[..3], b)
    ensures p[0] == '%' && ByteAt(p + rest) == Some(b)
  {
    ByteIs(p[..3], b);
    ByteAtStart(p + rest);
    assert (p + rest)[..3] == p[..3];
    PercentLeads(p[..3], b);
    hide ByteAt, WritesByte;
  }

  lemma DecodesFirst(p: string, c: char, rest: string)
    requires WritesChar(p, c)
    ensures Decode(p + rest) == if Decode(rest).Some? then Some([c] + Decode(rest).value) else None
  {
    hide Utf8, CharOf, Length, ByteAt, BytesAt, WritesBytes;
    Utf8ComesBack(c);
    assert (p + rest)[|p|..] == rest;
    if !(p == [c] && c != '%') {
      WrittenAreRead(p, Utf8(c), rest);
    }
  }

  /** What a text decodes to, exactly: it is the one that it writes, each character as itself or as its UTF-8
      bytes, shortest and no surrogate, in hexadecimal of either case; and a text that writes none decodes to
      none. */
  lemma DecodesExactlyWhen(s: string, t: string)
    ensures Decode(s) == Some(t) <==> Writes(s, t)
  {
    if Decode(s) == Some(t) {
      DecodedIsWritten(s, t);
    }
    if Writes(s, t) {
      WrittenIsDecoded(s, t);
    }
  }

  lemma {:induction false} DecodedIsWritten(s: string, t: string)
    requires Decode(s) == Some(t)
    ensures Writes(s, t)
    decreases |s|
  {
    hide CharOf, Length, Utf8, ByteAt, BytesAt;
    if s != "" {
      if s[0] != '%' {
        DecodedIsWritten(s[1..], t[1..]);
        assert WritesChar(s[..1], t[0]);
        assert Writes(s[1..], t[1..]);
      } else {
        var bytes := BytesAt(s, Length(ByteAt(s).value)).value;
        var n := 3 * |bytes|;
        BytesAreRead(s, |bytes|);
        CharIsItsUtf8(bytes);
        DecodedIsWritten(s[n..], t[1..]);
        assert WritesChar(s[..n], t[0]);
        assert Writes(s[n..], t[1..]);
      }
    }
  }

  lemma {:induction false} WrittenIsDecoded(s: string, t: string)
    requires Writes(s, t)
    ensures Decode(s) == Some(t)
    decreases |t|
  {
    if t != "" {
      hide Decode, WritesChar;
      var n :| 0 < n <= |s| && WritesChar(s[..n], t[0]) && Writes(s[n..], t[1..]);
      WrittenIsDecoded(s[n..], t[1..]);
      DecodesFirst(s[..n], t[0], s[n..]);
      assert s[..n] + s[n..] == s && [t[0]] + t[1..] == t;
    }
  }
}

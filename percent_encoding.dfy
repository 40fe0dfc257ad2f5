/** Percent-encoding (section 2.1 of RFC 3986) as Python's `urllib.parse.quote`
    does it with its default `safe='/'`: the string is encoded as UTF-8 and every
    byte that is not an unreserved character or `/` becomes `%XY` with upper-case
    hexadecimal digits. The connector uses it for the `service=` callback URL of
    the ticket requests. */
module PercentEncoding {

  /** The unreserved characters of section 2.3 of RFC 3986. */
  predicate Unreserved(c: char) {
    ('A' <= c <= 'Z') || ('a' <= c <= 'z') || ('0' <= c <= '9') || c == '-' || c == '.' || c == '_' || c == '~'
  }

  /** The characters `quote` copies unchanged with `safe='/'`. */
  predicate Safe(c: char) {
    Unreserved(c) || c == '/'
  }

  predicate IsByte(b: int) {
    0 <= b < 256
  }

  predicate AllBytes(bs: seq<int>) {
    forall i :: 0 <= i < |bs| ==> IsByte(bs[i])
  }

  /** The digits `quote` writes in an escape: `0-9` and upper-case `A-F`. */
  predicate UpperHexDigit(c: char) {
    ('0' <= c <= '9') || ('A' <= c <= 'F')
  }

  function HexDigit(d: int): (c: char)
    requires 0 <= d < 16
    ensures Unreserved(c) && UpperHexDigit(c)
  {
    if d < 10 then ('0' as int + d) as char else ('A' as int + d - 10) as char
  }

  predicate IsHexDigit(c: char) {
    ('0' <= c <= '9') || ('A' <= c <= 'F') || ('a' <= c <= 'f')
  }

  function HexValue(c: char): (d: int)
    requires IsHexDigit(c)
    ensures 0 <= d < 16
  {
    if '0' <= c <= '9' then c as int - '0' as int
    else if 'A' <= c <= 'F' then c as int - 'A' as int + 10
    else c as int - 'a' as int + 10
  }

  /** `%XY` for one byte. */
  function EscapeByte(b: int): (r: string)
    requires IsByte(b)
    ensures |r| == 3 && r[0] == '%' && UpperHexDigit(r[1]) && UpperHexDigit(r[2])
  {
    ['%', HexDigit(b / 16), HexDigit(b % 16)]
  }

  function EscapeBytes(bs: seq<int>): (r: string)
    requires AllBytes(bs)
    ensures |r| == 3 * |bs|
  {
    if bs == [] then [] else EscapeByte(bs[0]) + EscapeBytes(bs[1..])
  }

  /** The UTF-8 encoding of one Unicode scalar value (RFC 3629). */
  function Utf8(c: char): (bs: seq<int>)
    ensures 1 <= |bs| <= 4 && AllBytes(bs)
    ensures |bs| == 1 <==> c as int < 0x80
    ensures |bs| == 1 ==> bs[0] == c as int
    ensures |bs| > 1 ==> forall i :: 0 <= i < |bs| ==> bs[i] >= 0x80
  {
    var cp := c as int;
    if cp < 0x80 then [cp]
    else if cp < 0x800 then [0xC0 + cp / 64, 0x80 + cp % 64]
    else if cp < 0x10000 then [0xE0 + cp / 4096, 0x80 + (cp / 64) % 64, 0x80 + cp % 64]
    else [0xF0 + cp / 262144, 0x80 + (cp / 4096) % 64, 0x80 + (cp / 64) % 64, 0x80 + cp % 64]
  }

  /** The UTF-8 encoding of a whole string (Python's `s.encode('utf-8')`). */
  function Utf8String(s: string): (bs: seq<int>)
    ensures AllBytes(bs)
  {
    if s == [] then [] else Utf8(s[0]) + Utf8String(s[1..])
  }

  function QuoteChar(c: char): string {
    if Safe(c) then [c] else EscapeBytes(Utf8(c))
  }

  /** `urllib.parse.quote(s)`. */
  function Quote(s: string): string {
    if s == [] then [] else QuoteChar(s[0]) + Quote(s[1..])
  }

  /** Percent-decoding to bytes (`urllib.parse.unquote_to_bytes`): `%XY` with two
      hexadecimal digits is the byte XY; any other character stands for its own
      UTF-8 bytes. */
  function UnquoteToBytes(t: string): (bs: seq<int>)
    ensures AllBytes(bs)
  {
    if t == [] then []
    else if t[0] == '%' && |t| >= 3 && IsHexDigit(t[1]) && IsHexDigit(t[2]) then
      [HexValue(t[1]) * 16 + HexValue(t[2])] + UnquoteToBytes(t[3..])
    else Utf8(t[0]) + UnquoteToBytes(t[1..])
  }

  /** Quoting distributes over concatenation, character by character. */
  lemma {:induction false} QuoteAppend(a: string, b: string)
    ensures Quote(a + b) == Quote(a) + Quote(b)
  {
    if a != [] {
      assert (a + b)[0] == a[0];
      assert (a + b)[1..] == a[1..] + b;
      QuoteAppend(a[1..], b);
    } else {
      assert a + b == b;
    }
  }

  /** Every character of `s` is safe. */
  predicate AllSafe(s: string) {
    s == [] || (Safe(s[0]) && AllSafe(s[1..]))
  }

  /** A string made only of safe characters is its own quotation. */
  lemma {:induction false} QuoteKeepsSafe(s: string)
    requires AllSafe(s)
    ensures Quote(s) == s
  {
    if s != [] {
      QuoteKeepsSafe(s[1..]);
    }
  }

  /** Appending safe text to a string appends it unchanged to the quotation. */
  lemma QuoteAppendSafe(a: string, b: string)
    requires AllSafe(b)
    ensures Quote(a + b) == Quote(a) + b
  {
    QuoteAppend(a, b);
    QuoteKeepsSafe(b);
  }

  lemma EscapeBytesCons(bs: seq<int>, rest: string)
    requires AllBytes(bs) && bs != []
    ensures AllBytes(bs[1..])
    ensures EscapeBytes(bs) + rest == EscapeByte(bs[0]) + (EscapeBytes(bs[1..]) + rest)
  {
    var tail := bs[1..];
    forall i | 0 <= i < |tail| ensures IsByte(tail[i]) {
      assert tail[i] == bs[i + 1];
    }
  }

  /** Well-formed escaped text: safe characters, and `%` only as the start of an
      escape `%XY` with two upper-case hexadecimal digits. */
  predicate WellEscaped(t: string)
    decreases |t|
  {
    if t == [] then true
    else if t[0] == '%' then |t| >= 3 && UpperHexDigit(t[1]) && UpperHexDigit(t[2]) && WellEscaped(t[3..])
    else Safe(t[0]) && WellEscaped(t[1..])
  }

  lemma {:induction false} WellEscapedConcat(a: string, b: string)
    requires WellEscaped(a) && WellEscaped(b)
    ensures WellEscaped(a + b)
    decreases |a|
  {
    if a == [] {
      assert a + b == b;
    } else if a[0] == '%' {
      WellEscapedConcat(a[3..], b);
      assert (a + b)[3..] == a[3..] + b;
      assert (a + b)[0] == '%' && (a + b)[1] == a[1] && (a + b)[2] == a[2];
    } else {
      WellEscapedConcat(a[1..], b);
      assert (a + b)[1..] == a[1..] + b;
      assert (a + b)[0] == a[0];
    }
  }

  /** Well-formed escaped text holds only safe characters and `%`: no `&`, `=`,
      `?`, `#` or space, so it stays a single query parameter value. */
  lemma {:induction false} WellEscapedChars(t: string)
    requires WellEscaped(t)
    ensures forall i :: 0 <= i < |t| ==> Safe(t[i]) || t[i] == '%'
    decreases |t|
  {
    if t != [] {
      var k := if t[0] == '%' then 3 else 1;
      WellEscapedChars(t[k..]);
      forall i | k <= i < |t| ensures Safe(t[i]) || t[i] == '%' {
        assert t[i] == t[k..][i - k];
      }
    }
  }

  lemma {:induction false} EscapeBytesOutput(bs: seq<int>)
    requires AllBytes(bs)
    ensures WellEscaped(EscapeBytes(bs))
  {
    if bs != [] {
      var head := EscapeByte(bs[0]);
      EscapeBytesCons(bs, []);
      EscapeBytesOutput(bs[1..]);
      assert head[3..] == [];
      assert WellEscaped(head);
      WellEscapedConcat(head, EscapeBytes(bs[1..]));
      assert EscapeBytes(bs) == head + EscapeBytes(bs[1..]);
    }
  }

  /** A quotation is well-formed escaped text. */
  lemma {:induction false} QuoteOutputIsSafe(s: string)
    ensures WellEscaped(Quote(s))
  {
    if s != [] {
      QuoteOutputIsSafe(s[1..]);
      var head := QuoteChar(s[0]);
      if !Safe(s[0]) {
        EscapeBytesOutput(Utf8(s[0]));
      } else {
        assert head[1..] == [];
      }
      assert WellEscaped(head);
      WellEscapedConcat(head, Quote(s[1..]));
      assert Quote(s) == head + Quote(s[1..]);
    }
  }

  lemma HexRoundTrip(d: int)
    requires 0 <= d < 16
    ensures IsHexDigit(HexDigit(d)) && HexValue(HexDigit(d)) == d
  {
  }

  lemma UnquoteEscapeByte(b: int, rest: string)
    requires IsByte(b)
    ensures UnquoteToBytes(EscapeByte(b) + rest) == [b] + UnquoteToBytes(rest)
  {
    HexRoundTrip(b / 16);
    HexRoundTrip(b % 16);
    var t := EscapeByte(b) + rest;
    assert t[0] == '%' && t[1] == HexDigit(b / 16) && t[2] == HexDigit(b % 16);
    assert t[3..] == rest;
  }

  lemma {:induction false} UnquoteEscapeBytes(bs: seq<int>, rest: string)
    requires AllBytes(bs)
    ensures UnquoteToBytes(EscapeBytes(bs) + rest) == bs + UnquoteToBytes(rest)
  {
    if bs == [] {
      assert EscapeBytes(bs) + rest == rest;
    } else {
      var b, tail, decoded := bs[0], bs[1..], UnquoteToBytes(rest);
      EscapeBytesCons(bs, rest);
      UnquoteEscapeByte(b, EscapeBytes(tail) + rest);
      UnquoteEscapeBytes(tail, rest);
      assert [b] + (tail + decoded) == ([b] + tail) + decoded;
      assert [b] + tail == bs;
    }
  }

  /** Percent-decoding undoes quoting: it gives back the UTF-8 bytes of the
      original string. */
  lemma {:induction false} UnquoteQuote(s: string)
    ensures UnquoteToBytes(Quote(s)) == Utf8String(s)
  {
    if s != [] {
      var c := s[0];
      UnquoteQuote(s[1..]);
      if Safe(c) {
        var t := Quote(s);
        assert t == [c] + Quote(s[1..]);
        assert t[0] == c && c != '%';
        assert t[1..] == Quote(s[1..]);
      } else {
        UnquoteEscapeBytes(Utf8(c), Quote(s[1..]));
      }
    }
  }
}

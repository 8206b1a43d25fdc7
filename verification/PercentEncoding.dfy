/** `urllib.parse.quote(value, safe="")`: UTF-8 (RFC 3629), then percent-encoding (section 2.1 of RFC 3986). */
module PercentEncoding {

  type Byte = b: nat | b < 256

  function Utf8(c: char): (r: seq<Byte>)
    ensures 1 <= |r| <= 4
  {
    var n := c as int;
    if n < 0x80 then [n]
    else if n < 0x800 then [0xC0 + n / 64, 0x80 + n % 64]
    else if n < 0x1_0000 then [0xE0 + n / 4096, 0x80 + n / 64 % 64, 0x80 + n % 64]
    else [0xF0 + n / 26_2144, 0x80 + n / 4096 % 64, 0x80 + n / 64 % 64, 0x80 + n % 64]
  }

  function Encode(s: string): seq<Byte> {
    if s == "" then [] else Utf8(s[0]) + Encode(s[1..])
  }

  /** The value of a continuation byte. */
  function Low(b: Byte): int { b - 0x80 }

  function Scalar(n: int): char {
    if 0 <= n < 0xD800 || 0xE000 <= n < 0x11_0000 then n as char else '\U{fffd}'
  }

  /** How many bytes a character takes that starts with `b`. */
  function Width(b: Byte): (w: nat)
    ensures 1 <= w <= 4
  {
    if b < 0xC0 then 1 else if b < 0xE0 then 2 else if b < 0xF0 then 3 else 4
  }

  function FirstChar(bs: seq<Byte>): char
    requires bs != [] && Width(bs[0]) <= |bs|
  {
    match Width(bs[0])
    case 1 => Scalar(bs[0])
    case 2 => Scalar((bs[0] - 0xC0) * 64 + Low(bs[1]))
    case 3 => Scalar((bs[0] - 0xE0) * 4096 + Low(bs[1]) * 64 + Low(bs[2]))
    case _ => Scalar((bs[0] - 0xF0) * 26_2144 + Low(bs[1]) * 4096 + Low(bs[2]) * 64 + Low(bs[3]))
  }

  function Decode(bs: seq<Byte>): string {
    if bs == [] then ""
    else if |bs| < Width(bs[0]) then "\U{fffd}"
    else [FirstChar(bs)] + Decode(bs[Width(bs[0])..])
  }

  /** A number from its base-64 digits. */
  lemma Digits(n: nat)
    ensures n / 64 * 64 + n % 64 == n
    ensures n / 4096 * 4096 + n / 64 % 64 * 64 + n % 64 == n
  {
    assert n / 4096 == n / 64 / 64;
  }

  lemma FourDigits(n: nat)
    ensures n / 26_2144 * 26_2144 + n / 4096 % 64 * 4096 + n / 64 % 64 * 64 + n % 64 == n
  {
    Digits(n);
    assert n / 26_2144 == n / 4096 / 64;
  }

  lemma CharRoundTrip(c: char, rest: seq<Byte>)
    ensures var bs := Utf8(c) + rest; Width(bs[0]) == |Utf8(c)| && FirstChar(bs) == c
  {
    var n := c as int;
    if n < 0x800 {
      ShortRoundTrip(c, rest);
    } else if n < 0x1_0000 {
      MiddleRoundTrip(c, rest);
    } else {
      LongRoundTrip(c, rest);
    }
  }

  lemma ShortRoundTrip(c: char, rest: seq<Byte>)
    requires c as int < 0x800
    ensures var bs := Utf8(c) + rest; Width(bs[0]) == |Utf8(c)| && FirstChar(bs) == c
  {
    Digits(c as int);
  }

  lemma MiddleRoundTrip(c: char, rest: seq<Byte>)
    requires 0x800 <= c as int < 0x1_0000
    ensures var bs := Utf8(c) + rest; Width(bs[0]) == |Utf8(c)| && FirstChar(bs) == c
  {
    var n, bs := c as int, Utf8(c) + rest;
    Digits(n);
    assert bs[0] == 0xE0 + n / 4096 && bs[1] == 0x80 + n / 64 % 64 && bs[2] == 0x80 + n % 64;
  }

  lemma LongRoundTrip(c: char, rest: seq<Byte>)
    requires 0x1_0000 <= c as int
    ensures var bs := Utf8(c) + rest; Width(bs[0]) == |Utf8(c)| && FirstChar(bs) == c
  {
    var n, bs := c as int, Utf8(c) + rest;
    FourDigits(n);
    assert bs[0] == 0xF0 + n / 26_2144 && bs[1] == 0x80 + n / 4096 % 64;
    assert bs[2] == 0x80 + n / 64 % 64 && bs[3] == 0x80 + n % 64;
  }

  lemma {:induction false} Utf8RoundTrip(s: string)
    ensures Decode(Encode(s)) == s
  {
    if s != "" {
      var c, rest := Utf8(s[0]), Encode(s[1..]);
      CharRoundTrip(s[0], rest);
      assert (c + rest)[|c|..] == rest;
      Utf8RoundTrip(s[1..]);
    }
  }

  // ------------------------------------------------------------------ percent

  /** The unreserved characters of section 2.3 of RFC 3986. */
  predicate Unreserved(c: char) {
    'A' <= c <= 'Z' || 'a' <= c <= 'z' || '0' <= c <= '9' || c in "-._~"
  }

  const HEX := "0123456789ABCDEF"

  function QuoteByte(b: Byte): (r: string)
    ensures r != ""
  {
    if b < 0x80 && Unreserved(b as char) then [b as char] else ['%', HEX[b / 16], HEX[b % 16]]
  }

  function QuoteBytes(bs: seq<Byte>): string {
    if bs == [] then "" else QuoteByte(bs[0]) + QuoteBytes(bs[1..])
  }

  function Quote(s: string): string { QuoteBytes(Encode(s)) }

  /** The value of a hexadecimal digit, upper or lower case. */
  function HexValue(c: char): (r: int)
    ensures r < 16
  {
    if '0' <= c <= '9' then c as int - '0' as int
    else if 'A' <= c <= 'F' then c as int - 'A' as int + 10
    else if 'a' <= c <= 'f' then c as int - 'a' as int + 10
    else -1
  }

  /** `urllib.parse.unquote_to_bytes`: a `%` that does not introduce two digits stands for itself. */
  function UnquoteBytes(t: string): seq<Byte> {
    if t == "" then []
    else if t[0] == '%' && |t| >= 3 && HexValue(t[1]) >= 0 && HexValue(t[2]) >= 0 then
      [HexValue(t[1]) * 16 + HexValue(t[2])] + UnquoteBytes(t[3..])
    else Utf8(t[0]) + UnquoteBytes(t[1..])
  }

  function Unquote(t: string): string { Decode(UnquoteBytes(t)) }

  lemma HexRoundTrip(n: nat)
    requires n < 16
    ensures HexValue(HEX[n]) == n
  {
    assert HEX == ['0', '1', '2', '3', '4', '5', '6', '7', '8', '9', 'A', 'B', 'C', 'D', 'E', 'F'];
  }

  /** One encoded byte in front is read back. */
  lemma ByteRoundTrip(b: Byte, rest: string)
    ensures UnquoteBytes(QuoteByte(b) + rest) == [b] + UnquoteBytes(rest)
  {
    if b < 0x80 && Unreserved(b as char) {
      PlainByte(b as char, rest);
    } else {
      EscapedByte(b, rest);
    }
  }

  lemma PlainByte(c: char, rest: string)
    requires Unreserved(c)
    ensures UnquoteBytes([c] + rest) == [c as int] + UnquoteBytes(rest)
  {
    hide HexValue;
    assert ([c] + rest)[1..] == rest && Utf8(c) == [c as int];
  }

  lemma EscapedByte(b: Byte, rest: string)
    ensures UnquoteBytes(['%', HEX[b / 16], HEX[b % 16]] + rest) == [b] + UnquoteBytes(rest)
  {
    hide HexValue, Utf8;
    var t := ['%', HEX[b / 16], HEX[b % 16]] + rest;
    HexRoundTrip(b / 16);
    HexRoundTrip(b % 16);
    assert t[3..] == rest && t[1] == HEX[b / 16] && t[2] == HEX[b % 16];
  }

  lemma {:induction false} BytesRoundTrip(bs: seq<Byte>)
    ensures UnquoteBytes(QuoteBytes(bs)) == bs
  {
    hide QuoteByte;
    if bs != [] {
      BytesRoundTrip(bs[1..]);
      ByteRoundTrip(bs[0], QuoteBytes(bs[1..]));
      assert bs == [bs[0]] + bs[1..];
    }
  }

  /** Decoding gives back what was encoded, for every string. */
  lemma QuoteRoundTrip(s: string)
    ensures Unquote(Quote(s)) == s
  {
    BytesRoundTrip(Encode(s));
    Utf8RoundTrip(s);
  }

  lemma Regrouped<T>(a: seq<T>, b: seq<T>, c: seq<T>)
    ensures (a + b) + c == a + (b + c)
  {
  }

  lemma QuoteStep(b: Byte, bs: seq<Byte>)
    ensures QuoteBytes([b] + bs) == QuoteByte(b) + QuoteBytes(bs)
  {
    assert ([b] + bs)[1..] == bs;
  }

  lemma EncodeStep(c: char, s: string)
    ensures Encode([c] + s) == Utf8(c) + Encode(s)
  {
    assert ([c] + s)[1..] == s;
  }

  /** Text behind an encoded value is decoded behind it. */
  lemma {:induction false} BytesInFront(bs: seq<Byte>, t: string)
    ensures UnquoteBytes(QuoteBytes(bs) + t) == bs + UnquoteBytes(t)
  {
    if bs == [] {
      assert QuoteBytes(bs) + t == t;
    } else {
      hide QuoteByte, UnquoteBytes, QuoteBytes;
      var b, rest := bs[0], bs[1..];
      assert bs == [b] + rest;
      QuoteStep(b, rest);
      BytesInFront(rest, t);
      ByteRoundTrip(b, QuoteBytes(rest) + t);
      Regrouped(QuoteByte(b), QuoteBytes(rest), t);
      Regrouped([b], rest, UnquoteBytes(t));
    }
  }

  lemma {:induction false} CharsInFront(s: string, bs: seq<Byte>)
    ensures Decode(Encode(s) + bs) == s + Decode(bs)
  {
    if s == "" {
      assert Encode(s) + bs == bs;
    } else {
      hide Encode, Decode, Utf8;
      var c, rest := s[0], s[1..];
      assert s == [c] + rest;
      EncodeStep(c, rest);
      CharsInFront(rest, bs);
      CharInFront(c, Encode(rest) + bs);
      Regrouped(Utf8(c), Encode(rest), bs);
      Regrouped([c], rest, Decode(bs));
    }
  }

  lemma CharInFront(c: char, rest: seq<Byte>)
    ensures Decode(Utf8(c) + rest) == [c] + Decode(rest)
  {
    hide Utf8, FirstChar, Width;
    CharRoundTrip(c, rest);
    assert (Utf8(c) + rest)[|Utf8(c)|..] == rest;
  }

  /** What is written behind an encoded value is read behind the value. */
  lemma UnquoteInFront(s: string, t: string)
    ensures Unquote(Quote(s) + t) == s + Unquote(t)
  {
    hide QuoteBytes, UnquoteBytes, Encode, Decode;
    BytesInFront(Encode(s), t);
    CharsInFront(s, UnquoteBytes(t));
  }

  /** Text that is not empty decodes to text that is not empty. */
  lemma UnquotePresent(t: string)
    requires t != ""
    ensures Unquote(t) != ""
  {
    var bs := UnquoteBytes(t);
    hide FirstChar, Width, HexValue, Utf8;
    assert bs != [];
  }

  predicate Encoded(t: string) { forall c | c in t :: Unreserved(c) || c == '%' }

  /** An encoded value holds no delimiter: only unreserved characters and percent signs. */
  lemma {:induction false} QuoteAlphabet(bs: seq<Byte>)
    ensures Encoded(QuoteBytes(bs))
    ensures bs != [] ==> QuoteBytes(bs) != ""
  {
    if bs != [] {
      HexIsUnreserved(bs[0] / 16);
      HexIsUnreserved(bs[0] % 16);
      QuoteAlphabet(bs[1..]);
    }
  }

  lemma HexIsUnreserved(n: nat)
    requires n < 16
    ensures Unreserved(HEX[n])
  {
    assert HEX == ['0', '1', '2', '3', '4', '5', '6', '7', '8', '9', 'A', 'B', 'C', 'D', 'E', 'F'];
  }
}

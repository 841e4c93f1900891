/** `encodeURIComponent`: every character outside the unreserved set is
    written as the percent-escaped bytes of its UTF-8 encoding, with
    upper-case hexadecimal digits; and the reading back of such a text. */
module JsUri {
  import opened Wrappers

  type Byte = x: int | 0 <= x < 256

  /** The characters `encodeURIComponent` leaves as they are. */
  predicate Unreserved(c: char) {
    ('A' <= c <= 'Z') || ('a' <= c <= 'z') || ('0' <= c <= '9')
    || c == '-' || c == '_' || c == '.' || c == '!' || c == '~' || c == '*' || c == '\'' || c == '(' || c == ')'
  }

  const HexDigits := "0123456789ABCDEF"

  /** The value of an upper-case hexadecimal digit, if `c` is one. */
  function HexValue(c: char): (r: Option<nat>)
    ensures r.Some? ==> r.value < 16 && HexDigits[r.value] == c
  {
    if '0' <= c <= '9' then Some(c as int - '0' as int)
    else if 'A' <= c <= 'F' then Some(c as int - 'A' as int + 10)
    else None
  }

  lemma HexValueOfDigit(d: nat)
    requires d < 16
    ensures HexValue(HexDigits[d]) == Some(d)
  {
  }

  /** `%` followed by the two hexadecimal digits of `b`. */
  function Escape(b: Byte): (r: string)
    ensures |r| == 3 && r[0] == '%'
  {
    ['%', HexDigits[b / 16], HexDigits[b % 16]]
  }

  /** The escapes of a run of bytes, one after another. */
  function EscapeAll(bytes: seq<Byte>): (r: string)
    ensures |r| == 3 * |bytes|
  {
    if bytes == [] then [] else Escape(bytes[0]) + EscapeAll(bytes[1..])
  }

  /** The UTF-8 encoding of one character (a Unicode scalar value). */
  function Utf8(c: char): (r: seq<Byte>)
    ensures 1 <= |r| <= 4
    ensures c as int < 0x80 <==> |r| == 1
  {
    var n := c as int;
    if n < 0x80 then [n]
    else if n < 0x800 then [0xC0 + n / 64, 0x80 + n % 64]
    else if n < 0x10000 then [0xE0 + n / 4096, 0x80 + (n / 64) % 64, 0x80 + n % 64]
    else [0xF0 + n / 262144, 0x80 + (n / 4096) % 64, 0x80 + (n / 64) % 64, 0x80 + n % 64]
  }

  /** The UTF-8 encoding of a text. */
  function Utf8All(s: string): (r: seq<Byte>)
    ensures |r| >= |s|
  {
    if s == [] then [] else Utf8(s[0]) + Utf8All(s[1..])
  }

  /** `encodeURIComponent` of one character. */
  function EncodeChar(c: char): (r: string)
    ensures Unreserved(c) ==> r == [c]
    ensures !Unreserved(c) ==> r == EscapeAll(Utf8(c))
  {
    if Unreserved(c) then [c] else EscapeAll(Utf8(c))
  }

  /** `encodeURIComponent(s)`: only unreserved characters and `%` escapes
      remain, so the result never contains a query delimiter (`&`, `=`, `#`,
      `+`, `?`) or white space. */
  function EncodeUriComponent(s: string): (r: string)
    ensures |r| >= |s|
    ensures forall i :: 0 <= i < |r| ==> Unreserved(r[i]) || r[i] == '%'
  {
    if s == [] then []
    else
      var head := EncodeChar(s[0]);
      EscapeAllAlphabet(Utf8(s[0]));
      head + EncodeUriComponent(s[1..])
  }

  lemma {:induction false} EscapeAllAlphabet(bytes: seq<Byte>)
    ensures forall i :: 0 <= i < |EscapeAll(bytes)| ==> Unreserved(EscapeAll(bytes)[i]) || EscapeAll(bytes)[i] == '%'
  {
    if bytes != [] {
      EscapeAllAlphabet(bytes[1..]);
      var e := Escape(bytes[0]);
      assert forall i :: 0 <= i < 3 ==> Unreserved(e[i]) || e[i] == '%';
    }
  }

  /** A text made only of unreserved characters is left unchanged. */
  lemma {:induction false} EncodeUnreservedIsIdentity(s: string)
    requires forall i :: 0 <= i < |s| ==> Unreserved(s[i])
    ensures EncodeUriComponent(s) == s
  {
    if s != [] {
      EncodeUnreservedIsIdentity(s[1..]);
      assert s == [s[0]] + s[1..];
    }
  }

  /** Reading percent escapes back into bytes: an unreserved character stands
      for its own code, `%` and two upper-case hexadecimal digits for the byte
      they spell; anything else is malformed. */
  function PercentDecode(s: string): (r: Option<seq<Byte>>)
    decreases |s|
  {
    if s == [] then Some([])
    else if s[0] == '%' then
      if |s| < 3 || HexValue(s[1]).None? || HexValue(s[2]).None? then None
      else match PercentDecode(s[3..])
        case None => None
        case Some(rest) => Some([HexValue(s[1]).value * 16 + HexValue(s[2]).value] + rest)
    else if Unreserved(s[0]) then
      match PercentDecode(s[1..])
      case None => None
      case Some(rest) => Some([s[0] as int] + rest)
    else None
  }

  lemma DecodeEscape(b: Byte, t: string)
    ensures PercentDecode(Escape(b) + t) ==
      if PercentDecode(t).Some? then Some([b] + PercentDecode(t).value) else None
  {
    var hi, lo := b / 16, b % 16;
    assert b == hi * 16 + lo;
    var s := Escape(b) + t;
    assert s[0] == '%' && s[1] == HexDigits[hi] && s[2] == HexDigits[lo] && s[3..] == t;
    HexValueOfDigit(hi);
    HexValueOfDigit(lo);
    DecodeEscapeStep(s, hi, lo);
  }

  lemma DecodeEscapeStep(s: string, hi: nat, lo: nat)
    requires |s| >= 3 && s[0] == '%' && HexValue(s[1]) == Some(hi) && HexValue(s[2]) == Some(lo)
    ensures PercentDecode(s) ==
      if PercentDecode(s[3..]).Some? then Some([hi * 16 + lo] + PercentDecode(s[3..]).value) else None
  {
  }

  lemma {:induction false} DecodeEscapes(bytes: seq<Byte>, rest: string)
    ensures PercentDecode(EscapeAll(bytes) + rest) ==
      if PercentDecode(rest).Some? then Some(bytes + PercentDecode(rest).value) else None
  {
    var d := PercentDecode(rest);
    if bytes != [] {
      var head := Escape(bytes[0]);
      var t := EscapeAll(bytes[1..]) + rest;
      assert EscapeAll(bytes) == head + EscapeAll(bytes[1..]);
      assert EscapeAll(bytes) + rest == head + t;
      DecodeEscapes(bytes[1..], rest);
      assert PercentDecode(t) == if d.Some? then Some(bytes[1..] + d.value) else None;
      DecodeEscape(bytes[0], t);
      if d.Some? {
        ConsAppend(bytes, d.value);
      }
    } else {
      assert EscapeAll(bytes) + rest == rest;
      if d.Some? {
        assert bytes + d.value == d.value;
      }
    }
  }

  /** A non-empty byte run is its first byte followed by the others. */
  lemma ConsAppend(bytes: seq<Byte>, tail: seq<Byte>)
    requires bytes != []
    ensures [bytes[0]] + (bytes[1..] + tail) == bytes + tail
  {
    assert bytes == [bytes[0]] + bytes[1..];
  }

  /** Decoding the escapes of `encodeURIComponent(s)` yields exactly the
      UTF-8 bytes of `s`. */
  lemma {:induction false} DecodeOfEncode(s: string)
    ensures PercentDecode(EncodeUriComponent(s)) == Some(Utf8All(s))
  {
    if s != [] {
      var c := s[0];
      var tail := EncodeUriComponent(s[1..]);
      DecodeOfEncode(s[1..]);
      if Unreserved(c) {
        assert ([c] + tail)[1..] == tail;
      } else {
        DecodeEscapes(Utf8(c), tail);
      }
    }
  }

  /** A continuation byte of UTF-8 (`10xxxxxx`). */
  predicate Continuation(b: Byte) {
    0x80 <= b < 0xC0
  }

  /** Whether `n` is a Unicode scalar value, that is, a `char`. */
  predicate IsScalar(n: int) {
    (0 <= n < 0xD800) || (0xE000 <= n < 0x110000)
  }

  /** The first character encoded at the head of `bytes` and the number of
      bytes it takes; `None` for a malformed or overlong sequence. */
  function DecodeOne(bytes: seq<Byte>): (r: Option<(char, nat)>)
    requires |bytes| > 0
    ensures r.Some? ==> 1 <= r.value.1 <= |bytes|
  {
    var b0: int := bytes[0];
    if b0 < 0x80 then Some((b0 as char, 1))
    else if 0xC0 <= b0 < 0xE0 && |bytes| >= 2 && Continuation(bytes[1]) then
      var n: int := (b0 - 0xC0) * 64 + (bytes[1] as int - 0x80);
      if 0x80 <= n then Some((n as char, 2)) else None
    else if 0xE0 <= b0 < 0xF0 && |bytes| >= 3 && Continuation(bytes[1]) && Continuation(bytes[2]) then
      var n: int := (b0 - 0xE0) * 4096 + (bytes[1] as int - 0x80) * 64 + (bytes[2] as int - 0x80);
      if 0x800 <= n && IsScalar(n) then Some((n as char, 3)) else None
    else if 0xF0 <= b0 < 0xF8 && |bytes| >= 4 && Continuation(bytes[1]) && Continuation(bytes[2]) && Continuation(bytes[3]) then
      var n: int := (b0 - 0xF0) * 262144 + (bytes[1] as int - 0x80) * 4096 + (bytes[2] as int - 0x80) * 64 + (bytes[3] as int - 0x80);
      if 0x10000 <= n && IsScalar(n) then Some((n as char, 4)) else None
    else None
  }

  /** Reading UTF-8 bytes back into a text; `None` when they are malformed. */
  function DecodeUtf8(bytes: seq<Byte>): (r: Option<string>)
    decreases |bytes|
  {
    if bytes == [] then Some([])
    else match DecodeOne(bytes)
      case None => None
      case Some((c, k)) =>
        match DecodeUtf8(bytes[k..])
        case None => None
        case Some(rest) => Some([c] + rest)
  }

  /** The encoding of a character is read back as that character, whatever
      follows it. */
  lemma DecodeOneOfUtf8(c: char, rest: seq<Byte>)
    ensures DecodeOne(Utf8(c) + rest) == Some((c, |Utf8(c)|))
  {
    var n := c as int;
    var e := Utf8(c);
    var bytes := e + rest;
    assert bytes[..|e|] == e;
    if n < 0x80 {
    } else if n < 0x800 {
      Split2(n);
    } else if n < 0x10000 {
      Split3(n);
    } else {
      Split4(n);
    }
  }

  lemma Split2(n: int)
    requires 0x80 <= n < 0x800
    ensures (n / 64) * 64 + n % 64 == n && 0 <= n / 64 < 32
  {
  }

  lemma Split3(n: int)
    requires 0x800 <= n < 0x10000
    ensures (n / 4096) * 4096 + ((n / 64) % 64) * 64 + n % 64 == n && 0 <= n / 4096 < 16
  {
  }

  lemma Split4(n: int)
    requires 0x10000 <= n < 0x110000
    ensures (n / 262144) * 262144 + ((n / 4096) % 64) * 4096 + ((n / 64) % 64) * 64 + n % 64 == n
    ensures 0 <= n / 262144 < 8
  {
    var a, q := n / 262144, n / 4096;
    var b, rq := q % 64, n % 4096;
    assert n == q * 4096 + rq && 0 <= rq < 4096;
    assert q == (q / 64) * 64 + b && 0 <= b < 64;
    assert q / 64 == a;
    var p := n / 64;
    var c, d := p % 64, n % 64;
    assert n == p * 64 + d && p == (p / 64) * 64 + c;
    assert p / 64 == q;
    assert rq == c * 64 + d;
  }

  /** Reading back the UTF-8 encoding of a text gives the text. */
  lemma {:induction false} DecodeUtf8OfUtf8All(s: string)
    ensures DecodeUtf8(Utf8All(s)) == Some(s)
  {
    if s != [] {
      var e := Utf8(s[0]);
      var bytes := Utf8All(s);
      DecodeOneOfUtf8(s[0], Utf8All(s[1..]));
      assert bytes[|e|..] == Utf8All(s[1..]);
      DecodeUtf8OfUtf8All(s[1..]);
      assert [s[0]] + s[1..] == s;
    }
  }

  /** The reading back of `encodeURIComponent`'s output, as
      `decodeURIComponent` does it: percent escapes read as bytes, the bytes
      read as UTF-8. Escapes with lower-case hexadecimal digits and unescaped
      reserved characters, which `decodeURIComponent` also accepts, are read
      as malformed here. */
  function DecodeUriComponent(s: string): (r: Option<string>) {
    match PercentDecode(s)
    case None => None
    case Some(bytes) => DecodeUtf8(bytes)
  }

  /** `decodeURIComponent(encodeURIComponent(s)) == s` for every text. */
  lemma DecodeUriOfEncode(s: string)
    ensures DecodeUriComponent(EncodeUriComponent(s)) == Some(s)
  {
    DecodeOfEncode(s);
    DecodeUtf8OfUtf8All(s);
  }
}

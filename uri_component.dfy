/**
 * JavaScript's `encodeURIComponent`, used to put the client's uuid into the
 * trafficlight URLs: every character outside the unescaped set (ASCII
 * letters, digits and `-_.!~*'()`) is written as the `%XX` escapes of its
 * UTF-8 bytes (RFC 3629), with upper-case hexadecimal digits.
 */
module UriComponent {
  import opened Common

  /** The characters `encodeURIComponent` copies unchanged. */
  predicate Unescaped(c: char) {
    ('A' <= c <= 'Z') || ('a' <= c <= 'z') || ('0' <= c <= '9') || c in "-_.!~*'()"
  }

  /** The value of a hexadecimal digit of either case. */
  function HexValue(c: char): Option<nat> {
    if '0' <= c <= '9' then Some(c as int - '0' as int)
    else if 'A' <= c <= 'F' then Some(c as int - 'A' as int + 10)
    else if 'a' <= c <= 'f' then Some(c as int - 'a' as int + 10)
    else None
  }

  /** The upper-case hexadecimal digit for `n`; reading it back gives `n`. */
  function HexDigit(n: nat): (c: char)
    requires n < 16
    ensures HexValue(c) == Some(n) && Unescaped(c)
  {
    if n < 10 then ('0' as int + n) as char else ('A' as int + n - 10) as char
  }

  /** The UTF-8 encoding of one Unicode scalar value. */
  function Utf8(c: char): (r: seq<byte>)
    ensures 1 <= |r| <= 4
    ensures |r| == 1 <==> c as int < 0x80
    ensures |r| == 1 ==> r[0] == c as int
  {
    var n := c as int;
    if n < 0x80 then [n]
    else if n < 0x800 then [0xC0 + n / 0x40, 0x80 + n % 0x40]
    else if n < 0x10000 then [0xE0 + n / 0x1000, 0x80 + (n / 0x40) % 0x40, 0x80 + n % 0x40]
    else [0xF0 + n / 0x40000, 0x80 + (n / 0x1000) % 0x40, 0x80 + (n / 0x40) % 0x40, 0x80 + n % 0x40]
  }

  /** The UTF-8 bytes of a whole string. */
  function Utf8Bytes(s: string): seq<byte> {
    if s == [] then [] else Utf8(s[0]) + Utf8Bytes(s[1..])
  }

  /** `%XX` for every byte. */
  function Escapes(bs: seq<byte>): (r: string)
    ensures |r| == 3 * |bs|
  {
    if bs == [] then [] else ['%', HexDigit(bs[0] / 16), HexDigit(bs[0] % 16)] + Escapes(bs[1..])
  }

  function EncodeChar(c: char): string {
    if Unescaped(c) then [c] else Escapes(Utf8(c))
  }

  /**
   * `encodeURIComponent(s)`. The result only holds unescaped characters and
   * `%`, so in particular no `/`, `?` or `#`; a string made of unescaped
   * characters only (a uuid from `crypto.randomUUID`, say) comes back as it is.
   */
  function EncodeURIComponent(s: string): (r: string)
    ensures forall i :: 0 <= i < |r| ==> Unescaped(r[i]) || r[i] == '%'
    ensures (forall i :: 0 <= i < |s| ==> Unescaped(s[i])) ==> r == s
  {
    if s == [] then []
    else
      var head := EncodeChar(s[0]);
      assert forall i :: 0 <= i < |head| ==> Unescaped(head[i]) || head[i] == '%' by {
        if !Unescaped(s[0]) { EscapesAlphabet(Utf8(s[0])); }
      }
      head + EncodeURIComponent(s[1..])
  }

  lemma {:induction false} EscapesAlphabet(bs: seq<byte>)
    ensures forall i :: 0 <= i < |Escapes(bs)| ==> Unescaped(Escapes(bs)[i]) || Escapes(bs)[i] == '%'
  {
    if bs != [] {
      EscapesAlphabet(bs[1..]);
    }
  }

  /**
   * Reading back percent-encoded text as bytes: `%XX` gives the byte XX, any
   * other ASCII character its own code; anything else is malformed.
   */
  function PercentDecode(t: string): Option<seq<byte>>
  {
    if t == [] then Some([])
    else if t[0] == '%' then
      if |t| >= 3 && HexValue(t[1]).Some? && HexValue(t[2]).Some? then
        match PercentDecode(t[3..])
        case None => None
        case Some(rest) => Some([HexValue(t[1]).value * 16 + HexValue(t[2]).value] + rest)
      else None
    else if (t[0] as int) < 0x80 then
      match PercentDecode(t[1..])
      case None => None
      case Some(rest) => Some([t[0] as int] + rest)
    else None
  }

  function Prepend(bs: seq<byte>, r: Option<seq<byte>>): Option<seq<byte>> {
    match r
    case None => None
    case Some(rest) => Some(bs + rest)
  }

  /** One `%XX` escape reads back as its byte, in front of whatever the rest reads as. */
  lemma DecodeEscape(b: byte, more: string)
    ensures PercentDecode(['%', HexDigit(b / 16), HexDigit(b % 16)] + more) == Prepend([b], PercentDecode(more))
  {
    var t := ['%', HexDigit(b / 16), HexDigit(b % 16)] + more;
    assert t[0] == '%' && t[3..] == more;
    assert HexValue(t[1]) == Some(b / 16) && HexValue(t[2]) == Some(b % 16);
    assert (b / 16) * 16 + b % 16 == b;
  }

  lemma PrependTwice(a: seq<byte>, b: seq<byte>, r: Option<seq<byte>>)
    ensures Prepend(a, Prepend(b, r)) == Prepend(a + b, r)
  {
    match r
    case None =>
    case Some(x) => assert a + (b + x) == (a + b) + x;
  }

  /** `Escapes` of a non-empty run, followed by `rest`, starts with the first byte's escape. */
  lemma EscapesCons(bs: seq<byte>, rest: string)
    requires bs != []
    ensures Escapes(bs) + rest == ['%', HexDigit(bs[0] / 16), HexDigit(bs[0] % 16)] + (Escapes(bs[1..]) + rest)
  {
  }

  /** `[b]` in front of the rest of a non-empty run is the run. */
  lemma HeadTail(bs: seq<byte>)
    requires bs != []
    ensures [bs[0]] + bs[1..] == bs
  {
  }

  /** One step of `EscapesDecode`: the first escape reads back as the first byte. */
  lemma EscapesDecodeStep(bs: seq<byte>, rest: string)
    requires bs != []
    requires PercentDecode(Escapes(bs[1..]) + rest) == Prepend(bs[1..], PercentDecode(rest))
    ensures PercentDecode(Escapes(bs) + rest) == Prepend(bs, PercentDecode(rest))
  {
    EscapesCons(bs, rest);
    DecodeEscape(bs[0], Escapes(bs[1..]) + rest);
    PrependTwice([bs[0]], bs[1..], PercentDecode(rest));
    HeadTail(bs);
  }

  /** A run of escapes reads back as the bytes it escapes, whatever follows it. */
  lemma {:induction false} EscapesDecode(bs: seq<byte>, rest: string)
    ensures PercentDecode(Escapes(bs) + rest) == Prepend(bs, PercentDecode(rest))
  {
    if bs != [] {
      EscapesDecode(bs[1..], rest);
      EscapesDecodeStep(bs, rest);
    } else {
      assert Escapes(bs) + rest == rest;
      match PercentDecode(rest)
      case None =>
      case Some(r) => assert bs + r == r;
    }
  }

  /** An unescaped character reads back as its own one-byte code. */
  lemma DecodeUnescaped(c: char, more: string)
    requires Unescaped(c)
    ensures PercentDecode([c] + more) == Prepend(Utf8(c), PercentDecode(more))
  {
    assert c != '%' && (c as int) < 0x80;
    assert ([c] + more)[1..] == more;
  }

  /**
   * Percent-decoding undoes `encodeURIComponent`: the encoded text reads back
   * as exactly the UTF-8 bytes of the original string.
   */
  lemma {:induction false} EncodeThenDecode(s: string)
    ensures PercentDecode(EncodeURIComponent(s)) == Some(Utf8Bytes(s))
  {
    if s != [] {
      var c := s[0];
      var tail := EncodeURIComponent(s[1..]);
      EncodeThenDecode(s[1..]);
      assert EncodeURIComponent(s) == EncodeChar(c) + tail;
      if Unescaped(c) {
        DecodeUnescaped(c, tail);
      } else {
        EscapesDecode(Utf8(c), tail);
      }
      PrependTwice(Utf8(c), [], Some(Utf8Bytes(s[1..])));
    }
  }
}

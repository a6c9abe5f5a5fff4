/**
 * PHP's rawurlencode(): every character outside A-Z a-z 0-9 - _ . ~ is
 * written as %XX for each byte of its UTF-8 encoding, with upper-case hex.
 */
module PercentEncoding {

  /** The characters rawurlencode leaves as they are (RFC 3986 unreserved). */
  predicate Unreserved(c: char) {
    ('A' <= c <= 'Z') || ('a' <= c <= 'z') || ('0' <= c <= '9') || c == '-' || c == '_' || c == '.' || c == '~'
  }

  predicate IsByte(b: int) { 0 <= b < 256 }

  /** The UTF-8 encoding of one Unicode scalar value. */
  function Utf8(c: char): (bs: seq<int>)
    ensures 1 <= |bs| <= 4
    ensures forall i :: 0 <= i < |bs| ==> IsByte(bs[i])
    ensures c as int < 0x80 <==> bs == [c as int]
  {
    var n := c as int;
    if n < 0x80 then [n]
    else if n < 0x800 then [0xC0 + n / 64, 0x80 + n % 64]
    else if n < 0x10000 then [0xE0 + n / 4096, 0x80 + (n / 64) % 64, 0x80 + n % 64]
    else [0xF0 + n / 262144, 0x80 + (n / 4096) % 64, 0x80 + (n / 64) % 64, 0x80 + n % 64]
  }

  function Utf8String(s: string): (bs: seq<int>)
    ensures forall i :: 0 <= i < |bs| ==> IsByte(bs[i])
  {
    if s == [] then [] else Utf8(s[0]) + Utf8String(s[1..])
  }

  function HexDigit(d: int): (c: char)
    requires 0 <= d < 16
    ensures ('0' <= c <= '9') || ('A' <= c <= 'F')
  {
    if d < 10 then ('0' as int + d) as char else ('A' as int + d - 10) as char
  }

  /** %XX for each byte, upper-case hex. */
  function PercentBytes(bs: seq<int>): (r: string)
    requires forall i :: 0 <= i < |bs| ==> IsByte(bs[i])
    ensures |r| == 3 * |bs|
  {
    if bs == [] then ""
    else
      assert IsByte(bs[0]);
      ['%', HexDigit(bs[0] / 16), HexDigit(bs[0] % 16)] + PercentBytes(bs[1..])
  }

  function EncodeChar(c: char): string {
    if Unreserved(c) then [c] else PercentBytes(Utf8(c))
  }

  /** rawurlencode(s) */
  function RawUrlEncode(s: string): (r: string)
  {
    if s == [] then "" else EncodeChar(s[0]) + RawUrlEncode(s[1..])
  }

  /** Characters that can appear in rawurlencode's output. */
  predicate UrlSafe(r: string) {
    forall i :: 0 <= i < |r| ==> Unreserved(r[i]) || r[i] == '%'
  }

  lemma {:induction false} PercentBytesSafe(bs: seq<int>)
    requires forall i :: 0 <= i < |bs| ==> IsByte(bs[i])
    ensures UrlSafe(PercentBytes(bs))
  {
    if bs != [] { PercentBytesSafe(bs[1..]); }
  }

  /** The output of rawurlencode holds only unreserved characters and '%'. */
  lemma {:induction false} RawUrlEncodeSafe(s: string)
    ensures UrlSafe(RawUrlEncode(s))
  {
    if s != [] {
      RawUrlEncodeSafe(s[1..]);
      if !Unreserved(s[0]) { PercentBytesSafe(Utf8(s[0])); }
    }
  }

  // ---------------------------------------------------------------------------
  // Decoding, the inverse of rawurlencode on bytes

  function HexValue(c: char): int {
    if '0' <= c <= '9' then c as int - '0' as int
    else if 'A' <= c <= 'F' then c as int - 'A' as int + 10
    else if 'a' <= c <= 'f' then c as int - 'a' as int + 10
    else 0
  }

  /** rawurldecode, read as the byte sequence it denotes. */
  function PercentDecode(r: string): seq<int>
  {
    if r == [] then []
    else if r[0] == '%' && |r| >= 3 then [HexValue(r[1]) * 16 + HexValue(r[2])] + PercentDecode(r[3..])
    else [r[0] as int] + PercentDecode(r[1..])
  }

  lemma {:induction false} DecodePercentBytes(bs: seq<int>, rest: string)
    requires forall i :: 0 <= i < |bs| ==> IsByte(bs[i])
    ensures PercentDecode(PercentBytes(bs) + rest) == bs + PercentDecode(rest)
  {
    if bs != [] {
      var b := bs[0];
      assert IsByte(b);
      var t := PercentBytes(bs[1..]) + rest;
      var r := PercentBytes(bs) + rest;
      assert r == ['%', HexDigit(b / 16), HexDigit(b % 16)] + t;
      assert HexValue(HexDigit(b / 16)) == b / 16;
      assert HexValue(HexDigit(b % 16)) == b % 16;
      assert r[0] == '%' && r[1] == HexDigit(b / 16) && r[2] == HexDigit(b % 16);
      assert r[3..] == t;
      assert (b / 16) * 16 + b % 16 == b;
      assert PercentDecode(r) == [b] + PercentDecode(t);
      DecodePercentBytes(bs[1..], rest);
      assert bs == [b] + bs[1..];
      assert PercentDecode(r) == [b] + (bs[1..] + PercentDecode(rest));
      assert [b] + (bs[1..] + PercentDecode(rest)) == ([b] + bs[1..]) + PercentDecode(rest);
    } else {
      assert PercentBytes(bs) + rest == rest;
    }
  }

  /** Decoding the output of rawurlencode gives the UTF-8 bytes of the input. */
  lemma {:induction false} RawUrlEncodeRoundTrip(s: string)
    ensures PercentDecode(RawUrlEncode(s)) == Utf8String(s)
  {
    if s != [] {
      var c := s[0];
      RawUrlEncodeRoundTrip(s[1..]);
      if Unreserved(c) {
        assert RawUrlEncode(s) == [c] + RawUrlEncode(s[1..]);
        assert ([c] + RawUrlEncode(s[1..]))[1..] == RawUrlEncode(s[1..]);
      } else {
        DecodePercentBytes(Utf8(c), RawUrlEncode(s[1..]));
      }
    }
  }
}

/**
 * `encodeURIComponent`, as the market-price page applies it to each query
 * value, and a `decodeURIComponent` reference that undoes it: characters
 * outside the unreserved set become the UTF-8 bytes of their code point,
 * each written `%XX` with upper-case hex digits.
 */
module UriComponent {
  import opened Wrappers
  import opened Text

  /** The characters `encodeURIComponent` leaves alone: `A-Z a-z 0-9 - _ . ! ~ * ' ( )`. */
  predicate Unreserved(c: char) {
    || ('A' <= c <= 'Z') || ('a' <= c <= 'z') || ('0' <= c <= '9')
    || c == '-' || c == '_' || c == '.' || c == '!' || c == '~' || c == '*'
    || c == '\'' || c == '(' || c == ')'
  }

  predicate IsHexDigit(c: char) {
    ('0' <= c <= '9') || ('A' <= c <= 'F') || ('a' <= c <= 'f')
  }

  /** The digits `encodeURIComponent` writes: `0`-`9` and upper-case `A`-`F`. */
  predicate IsUpperHexDigit(c: char) {
    ('0' <= c <= '9') || ('A' <= c <= 'F')
  }

  /** An upper-case hex digit. */
  function HexDigit(n: int): (c: char)
    requires 0 <= n < 16
    ensures IsHexDigit(c) && IsUpperHexDigit(c)
  {
    if n < 10 then ('0' as int + n) as char else ('A' as int + n - 10) as char
  }

  /** The value of a hex digit, either case. */
  function HexValue(c: char): (n: int)
    requires IsHexDigit(c)
    ensures 0 <= n < 16
  {
    if '0' <= c <= '9' then c as int - '0' as int
    else if 'A' <= c <= 'F' then c as int - 'A' as int + 10
    else c as int - 'a' as int + 10
  }

  /** The UTF-8 bytes of a code point (RFC 3629, section 3). */
  function Utf8(c: char): (bytes: seq<int>)
    ensures 1 <= |bytes| <= 4
    ensures forall k :: 0 <= k < |bytes| ==> 0 <= bytes[k] < 256
    ensures |bytes| == 1 <==> c as int < 0x80
  {
    var cp := c as int;
    if cp < 0x80 then [cp]
    else if cp < 0x800 then [0xC0 + cp / 64, 0x80 + cp % 64]
    else if cp < 0x10000 then [0xE0 + cp / 4096, 0x80 + (cp / 64) % 64, 0x80 + cp % 64]
    else [0xF0 + cp / 262144, 0x80 + (cp / 4096) % 64, 0x80 + (cp / 64) % 64, 0x80 + cp % 64]
  }

  /** One byte as `%XX`. */
  function PercentByte(b: int): (t: string)
    requires 0 <= b < 256
    ensures |t| == 3 && t[0] == '%' && IsHexDigit(t[1]) && IsHexDigit(t[2])
    ensures IsUpperHexDigit(t[1]) && IsUpperHexDigit(t[2])
    ensures 16 * HexValue(t[1]) + HexValue(t[2]) == b
  {
    ['%', HexDigit(b / 16), HexDigit(b % 16)]
  }

  function PercentBytes(bytes: seq<int>): (t: string)
    requires forall k :: 0 <= k < |bytes| ==> 0 <= bytes[k] < 256
    ensures |t| == 3 * |bytes|
  {
    if bytes == [] then [] else PercentByte(bytes[0]) + PercentBytes(bytes[1..])
  }

  /** Escaped bytes are written with `%` and hex digits only. */
  lemma {:induction false} PercentBytesAlphabet(bytes: seq<int>)
    requires forall k :: 0 <= k < |bytes| ==> 0 <= bytes[k] < 256
    ensures forall i :: 0 <= i < |PercentBytes(bytes)| ==>
              PercentBytes(bytes)[i] == '%' || IsHexDigit(PercentBytes(bytes)[i])
  {
    if bytes != [] {
      PercentBytesAlphabet(bytes[1..]);
      var head, tail := PercentByte(bytes[0]), PercentBytes(bytes[1..]);
      assert forall i :: 3 <= i < |head + tail| ==> (head + tail)[i] == tail[i - 3];
    }
  }

  function EncodeChar(c: char): string {
    if Unreserved(c) then [c] else PercentBytes(Utf8(c))
  }

  /** `encodeURIComponent(s)`. */
  function Encode(s: string): (e: string)
    ensures |e| >= |s|
  {
    if s == [] then [] else EncodeChar(s[0]) + Encode(s[1..])
  }

  /** A character `encodeURIComponent` can emit: unreserved, `%` or a hex digit. */
  predicate UriChar(c: char) {
    Unreserved(c) || c == '%' || IsHexDigit(c)
  }

  predicate AllUriChars(t: string) {
    forall i :: 0 <= i < |t| ==> UriChar(t[i])
  }

  lemma AllUriCharsConcat(a: string, b: string)
    requires AllUriChars(a) && AllUriChars(b)
    ensures AllUriChars(a + b)
  {
    forall i | 0 <= i < |a + b| ensures UriChar((a + b)[i]) {
      if i >= |a| {
        assert (a + b)[i] == b[i - |a|];
      }
    }
  }

  /** An encoded value is written with unreserved characters, `%` and hex digits only. */
  lemma {:induction false} EncodeAlphabet(s: string)
    ensures AllUriChars(Encode(s))
  {
    if s != [] {
      EncodeAlphabet(s[1..]);
      if !Unreserved(s[0]) {
        PercentBytesAlphabet(Utf8(s[0]));
      }
      AllUriCharsConcat(EncodeChar(s[0]), Encode(s[1..]));
    }
  }

  /** The query-string delimiters `&`, `=`, `#` and `+` are not among those characters. */
  lemma UriCharsAvoidDelimiters(t: string)
    requires AllUriChars(t)
    ensures '&' !in t && '=' !in t && '#' !in t && '+' !in t
  {
    forall i | 0 <= i < |t| ensures t[i] != '&' && t[i] != '=' && t[i] != '#' && t[i] != '+' {
      assert UriChar(t[i]);
    }
  }

  /** An encoded value never contains the query-string delimiters `&`, `=`, `#` or `+`. */
  lemma EncodeAvoidsDelimiters(s: string)
    ensures '&' !in Encode(s) && '=' !in Encode(s) && '#' !in Encode(s) && '+' !in Encode(s)
  {
    EncodeAlphabet(s);
    UriCharsAvoidDelimiters(Encode(s));
  }


  /** `Some(head + t)` for `Some(t)`; a failure stays a failure. */
  function Prepend<T>(head: seq<T>, tail: Option<seq<T>>): Option<seq<T>> {
    match tail
    case Some(t) => Some(head + t)
    case None => None
  }

  lemma PrependPrepend<T>(a: seq<T>, b: seq<T>, tail: Option<seq<T>>)
    ensures Prepend(a, Prepend(b, tail)) == Prepend(a + b, tail)
  {
    if tail.Some? {
      assert a + (b + tail.value) == (a + b) + tail.value;
    }
  }

  /**
   * The first step of `decodeURIComponent`: the bytes a string stands for.
   * `%XX` is the byte `XX`; any other character stands for its own UTF-8
   * bytes; a `%` without two hex digits after it is malformed.
   */
  function Unescape(s: string): Option<seq<int>>
    decreases |s|
  {
    if s == [] then Some([])
    else if s[0] == '%' then
      if 3 <= |s| && IsHexDigit(s[1]) && IsHexDigit(s[2])
      then Prepend([16 * HexValue(s[1]) + HexValue(s[2])], Unescape(s[3..]))
      else None
    else Prepend(Utf8(s[0]), Unescape(s[1..]))
  }

  predicate IsContinuation(b: int) {
    0x80 <= b < 0xC0
  }

  /** A decoded code point, if it is a Unicode scalar value that is not written overlong. */
  function Scalar(cp: int, least: int, width: nat): Option<(char, nat)> {
    if least <= cp && 0 <= cp && (cp < 0xD800 || 0xE000 <= cp < 0x110000)
    then Some((cp as char, width))
    else None
  }

  /** The character the UTF-8 sequence at the start of `bytes` encodes, and how many bytes it takes. */
  function DecodeScalar(bytes: seq<int>): (r: Option<(char, nat)>)
    requires bytes != []
    ensures r.Some? ==> 0 < r.value.1 <= |bytes|
  {
    var b0 := bytes[0];
    if 0 <= b0 < 0x80 then Some((b0 as char, 1))
    else if 0xC0 <= b0 < 0xE0 && 2 <= |bytes| && IsContinuation(bytes[1]) then
      Scalar((b0 - 0xC0) * 64 + (bytes[1] - 0x80), 0x80, 2)
    else if 0xE0 <= b0 < 0xF0 && 3 <= |bytes| && IsContinuation(bytes[1]) && IsContinuation(bytes[2]) then
      Scalar((b0 - 0xE0) * 4096 + (bytes[1] - 0x80) * 64 + (bytes[2] - 0x80), 0x800, 3)
    else if 0xF0 <= b0 < 0xF8 && 4 <= |bytes|
            && IsContinuation(bytes[1]) && IsContinuation(bytes[2]) && IsContinuation(bytes[3]) then
      Scalar((b0 - 0xF0) * 262144 + (bytes[1] - 0x80) * 4096 + (bytes[2] - 0x80) * 64 + (bytes[3] - 0x80),
             0x10000, 4)
    else None
  }

  /** The second step of `decodeURIComponent`: UTF-8 bytes to characters; `None` for an invalid sequence. */
  function Utf8Decode(bytes: seq<int>): Option<string>
    decreases |bytes|
  {
    if bytes == [] then Some([])
    else
      match DecodeScalar(bytes)
      case None => None
      case Some((c, n)) => Prepend([c], Utf8Decode(bytes[n..]))
  }

  /** `decodeURIComponent(s)`; `None` where it would throw `URIError`. */
  function Decode(s: string): Option<string> {
    match Unescape(s)
    case Some(bytes) => Utf8Decode(bytes)
    case None => None
  }

  /** The UTF-8 bytes of a whole string. */
  function Utf8Encode(s: string): seq<int> {
    if s == [] then [] else Utf8(s[0]) + Utf8Encode(s[1..])
  }

  /** One `%XX` escape unescapes to its byte, ahead of whatever follows it. */
  lemma UnescapePercentByte(b: int, after: string)
    requires 0 <= b < 256
    ensures Unescape(PercentByte(b) + after) == Prepend([b], Unescape(after))
  {
    var pb := PercentByte(b);
    var t := pb + after;
    assert t[0] == '%' && t[1] == pb[1] && t[2] == pb[2];
    assert t[3..] == after;
  }

  /** Escaped bytes unescape to themselves, ahead of whatever follows them. */
  lemma {:induction false} UnescapePercentBytes(bytes: seq<int>, rest: string)
    requires forall k :: 0 <= k < |bytes| ==> 0 <= bytes[k] < 256
    ensures Unescape(PercentBytes(bytes) + rest) == Prepend(bytes, Unescape(rest))
  {
    if bytes != [] {
      UnescapePercentBytes(bytes[1..], rest);
      UnescapeStep(bytes, rest);
    } else {
      assert PercentBytes(bytes) + rest == rest;
      PrependNothing(Unescape(rest));
    }
  }

  lemma PrependNothing<T>(tail: Option<seq<T>>)
    ensures Prepend([], tail) == tail
  {
    if tail.Some? {
      assert [] + tail.value == tail.value;
    }
  }

  /** The inductive step of `UnescapePercentBytes`: one more escaped byte in front. */
  lemma UnescapeStep(bytes: seq<int>, rest: string)
    requires bytes != []
    requires forall k :: 0 <= k < |bytes| ==> 0 <= bytes[k] < 256
    requires Unescape(PercentBytes(bytes[1..]) + rest) == Prepend(bytes[1..], Unescape(rest))
    ensures Unescape(PercentBytes(bytes) + rest) == Prepend(bytes, Unescape(rest))
  {
    var after := PercentBytes(bytes[1..]) + rest;
    calc {
      Unescape(PercentBytes(bytes) + rest);
      { assert PercentBytes(bytes) == PercentByte(bytes[0]) + PercentBytes(bytes[1..]);
        ConcatAssoc(PercentByte(bytes[0]), PercentBytes(bytes[1..]), rest); }
      Unescape(PercentByte(bytes[0]) + after);
      { UnescapePercentByte(bytes[0], after); }
      Prepend([bytes[0]], Unescape(after));
      Prepend([bytes[0]], Prepend(bytes[1..], Unescape(rest)));
      { PrependPrepend([bytes[0]], bytes[1..], Unescape(rest)); }
      Prepend([bytes[0]] + bytes[1..], Unescape(rest));
      { assert [bytes[0]] + bytes[1..] == bytes; }
      Prepend(bytes, Unescape(rest));
    }
  }

  /** Unescaping an encoded string gives the UTF-8 bytes of the original. */
  lemma {:induction false} UnescapeEncode(s: string)
    ensures Unescape(Encode(s)) == Some(Utf8Encode(s))
  {
    if s != [] {
      UnescapeEncode(s[1..]);
      var head, tail := EncodeChar(s[0]), Encode(s[1..]);
      if Unreserved(s[0]) {
        assert (head + tail)[1..] == tail;
      } else {
        UnescapePercentBytes(Utf8(s[0]), tail);
      }
    }
  }

  /** A code point is the sum of its six-bit groups. */
  lemma SixBitGroups(cp: int)
    requires 0 <= cp
    ensures (cp / 262144) * 262144 + ((cp / 4096) % 64) * 4096 + ((cp / 64) % 64) * 64 + cp % 64 == cp
  {
    var q1, r0 := cp / 64, cp % 64;
    var q2, r1 := q1 / 64, q1 % 64;
    var q3, r2 := q2 / 64, q2 % 64;
    assert cp == 64 * q1 + r0 && q1 == 64 * q2 + r1 && q2 == 64 * q3 + r2;
    assert cp == 4096 * q2 + 64 * r1 + r0;
    assert cp / 4096 == q2;
    assert cp == 262144 * q3 + 4096 * r2 + 64 * r1 + r0;
    assert cp / 262144 == q3;
  }

  lemma DecodeTwoBytes(c: char, rest: seq<int>)
    requires 0x80 <= c as int < 0x800
    ensures DecodeScalar(Utf8(c) + rest) == Some((c, 2))
  {
    var cp := c as int;
    var t := Utf8(c) + rest;
    assert t[0] == 0xC0 + cp / 64 && t[1] == 0x80 + cp % 64;
  }

  lemma DecodeThreeBytes(c: char, rest: seq<int>)
    requires 0x800 <= c as int < 0x10000
    ensures DecodeScalar(Utf8(c) + rest) == Some((c, 3))
  {
    var cp := c as int;
    var t := Utf8(c) + rest;
    var g0, g1, g2 := cp / 4096, (cp / 64) % 64, cp % 64;
    ThreeGroups(cp);
    assert t[0] == 0xE0 + g0 && t[1] == 0x80 + g1 && t[2] == 0x80 + g2;
    assert DecodeScalar(t) == Scalar(g0 * 4096 + g1 * 64 + g2, 0x800, 3);
  }

  /** A code point below 0x10000 is the sum of its three UTF-8 groups. */
  lemma ThreeGroups(cp: int)
    requires 0 <= cp < 0x10000
    ensures 0 <= cp / 4096 < 16 && 0 <= (cp / 64) % 64 < 64 && 0 <= cp % 64 < 64
    ensures (cp / 4096) * 4096 + ((cp / 64) % 64) * 64 + cp % 64 == cp
  {
    SixBitGroups(cp);
  }

  lemma DecodeFourBytes(c: char, rest: seq<int>)
    requires 0x10000 <= c as int
    ensures DecodeScalar(Utf8(c) + rest) == Some((c, 4))
  {
    var cp := c as int;
    var t := Utf8(c) + rest;
    assert t[0] == 0xF0 + cp / 262144 && t[1] == 0x80 + (cp / 4096) % 64;
    assert t[2] == 0x80 + (cp / 64) % 64 && t[3] == 0x80 + cp % 64;
    SixBitGroups(cp);
  }

  /** The UTF-8 bytes of one character decode back to it, taking exactly those bytes. */
  lemma DecodeScalarUtf8(c: char, rest: seq<int>)
    ensures DecodeScalar(Utf8(c) + rest) == Some((c, |Utf8(c)|))
  {
    var cp := c as int;
    if cp < 0x80 {
      assert (Utf8(c) + rest)[0] == cp;
    } else if cp < 0x800 {
      DecodeTwoBytes(c, rest);
    } else if cp < 0x10000 {
      DecodeThreeBytes(c, rest);
    } else {
      DecodeFourBytes(c, rest);
    }
  }

  /** UTF-8 decoding undoes UTF-8 encoding. */
  lemma {:induction false} Utf8DecodeEncode(s: string)
    ensures Utf8Decode(Utf8Encode(s)) == Some(s)
  {
    if s != [] {
      Utf8DecodeEncode(s[1..]);
      var head, tail := Utf8(s[0]), Utf8Encode(s[1..]);
      DecodeScalarUtf8(s[0], tail);
      assert (head + tail)[|head|..] == tail;
      assert [s[0]] + s[1..] == s;
    }
  }

  /** Decoding undoes encoding: `decodeURIComponent(encodeURIComponent(s)) === s`. */
  lemma DecodeEncode(s: string)
    ensures Decode(Encode(s)) == Some(s)
  {
    UnescapeEncode(s);
    Utf8DecodeEncode(s);
  }
}

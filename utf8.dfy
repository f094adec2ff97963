/** UTF-8, as Python's strict 'utf-8' codec applies it: `str.encode('utf-8')`
    gives the byte length the upload reply reports and the bytes the content
    hash is taken over, and `bytes.decode('utf-8')` decides whether downloaded
    data is echoed as text or reported as binary. A Dafny `char` is a Unicode
    scalar value, so the strings modelled here are Python strs without lone
    surrogates: on them encoding is total, while on a str holding a lone
    surrogate Python's encoder raises, which is not modelled. Decoding
    rejects exactly the ill-formed sequences (overlong forms, encoded
    surrogates, values past U+10FFFF, truncated or stray continuation
    bytes). */
module Utf8 {
  import opened Wrappers

  type Byte = b: int | 0 <= b < 256

  predicate IsCont(b: Byte) { 0x80 <= b <= 0xBF }

  /** The encoding of one scalar value: one to four bytes. */
  function EncodeChar(c: char): (bs: seq<Byte>)
    ensures 1 <= |bs| <= 4
  {
    var cp := c as int;
    if cp < 0x80 then [cp]
    else if cp < 0x800 then [0xC0 + cp / 64, 0x80 + cp % 64]
    else if cp < 0x1_0000 then [0xE0 + cp / 4096, 0x80 + (cp / 64) % 64, 0x80 + cp % 64]
    else [0xF0 + cp / 262144, 0x80 + (cp / 4096) % 64, 0x80 + (cp / 64) % 64, 0x80 + cp % 64]
  }

  /** `s.encode('utf-8')`. */
  function Encode(s: string): (bs: seq<Byte>)
    ensures |s| <= |bs| <= 4 * |s|
  {
    if |s| == 0 then [] else EncodeChar(s[0]) + Encode(s[1..])
  }

  /** A string of ASCII characters encodes to one byte per character, each
      its code point. */
  lemma {:induction false} EncodeAscii(s: string)
    requires forall i :: 0 <= i < |s| ==> s[i] < 128 as char
    ensures |Encode(s)| == |s|
    ensures forall i :: 0 <= i < |s| ==> Encode(s)[i] == s[i] as int
  {
    if |s| > 0 {
      EncodeAscii(s[1..]);
      assert Encode(s) == [s[0] as int] + Encode(s[1..]);
    }
  }

  /** The allowed range of the second byte of a three-byte sequence led by b0
      (no overlong forms after 0xE0, no surrogates after 0xED). */
  predicate SecondOf3(b0: Byte, b1: Byte) {
    if b0 == 0xE0 then 0xA0 <= b1 <= 0xBF
    else if b0 == 0xED then 0x80 <= b1 <= 0x9F
    else IsCont(b1)
  }

  /** The allowed range of the second byte of a four-byte sequence led by b0
      (no overlong forms after 0xF0, nothing past U+10FFFF after 0xF4). */
  predicate SecondOf4(b0: Byte, b1: Byte) {
    if b0 == 0xF0 then 0x90 <= b1 <= 0xBF
    else if b0 == 0xF4 then 0x80 <= b1 <= 0x8F
    else IsCont(b1)
  }

  /** The first scalar value of a non-empty byte sequence and the number of
      bytes it takes, or None when the sequence does not start well-formed. */
  function DecodeFirst(bs: seq<Byte>): (r: Option<(char, nat)>)
    requires |bs| > 0
    ensures r.Some? ==> 1 <= r.value.1 <= |bs| && r.value.1 <= 4
  {
    var b0: int := bs[0];
    if b0 < 0x80 then Some((b0 as char, 1))
    else if 0xC2 <= b0 <= 0xDF then
      if |bs| >= 2 && IsCont(bs[1])
      then Some((((b0 - 0xC0) * 64 + (bs[1] as int - 0x80)) as char, 2))
      else None
    else if 0xE0 <= b0 <= 0xEF then
      if |bs| >= 3 && SecondOf3(b0, bs[1]) && IsCont(bs[2])
      then Some((((b0 - 0xE0) * 4096 + (bs[1] as int - 0x80) * 64 + (bs[2] as int - 0x80)) as char, 3))
      else None
    else if 0xF0 <= b0 <= 0xF4 then
      if |bs| >= 4 && SecondOf4(b0, bs[1]) && IsCont(bs[2]) && IsCont(bs[3])
      then Some((((b0 - 0xF0) * 262144 + (bs[1] as int - 0x80) * 4096 + (bs[2] as int - 0x80) * 64 + (bs[3] as int - 0x80)) as char, 4))
      else None
    else None
  }

  /** `bs.decode('utf-8')`: the decoded string, or None where Python raises
      UnicodeDecodeError. */
  function Decode(bs: seq<Byte>): Option<string>
    decreases |bs|
  {
    if |bs| == 0 then Some([])
    else
      match DecodeFirst(bs)
      case None => None
      case Some((c, n)) =>
        match Decode(bs[n..])
        case None => None
        case Some(rest) => Some([c] + rest)
  }

  /** Decoding the encoding of one character, whatever follows it, yields
      that character and consumes exactly its encoding. */
  lemma DecodeFirstOfEncoded(c: char, rest: seq<Byte>)
    ensures DecodeFirst(EncodeChar(c) + rest) == Some((c, |EncodeChar(c)|))
  {
    var cp := c as int;
    if cp < 0x80 {
    } else if cp < 0x800 {
      DecodeFirstOfEncoded2(c, rest);
    } else if cp < 0x1_0000 {
      DecodeFirstOfEncoded3(c, rest);
    } else {
      DecodeFirstOfEncoded4(c, rest);
    }
  }

  lemma DecodeFirstOfEncoded2(c: char, rest: seq<Byte>)
    requires 0x80 <= c as int < 0x800
    ensures DecodeFirst(EncodeChar(c) + rest) == Some((c, 2))
  {
    var cp := c as int;
    var hi, lo := cp / 64, cp % 64;
    assert cp == hi * 64 + lo && 2 <= hi < 32 && 0 <= lo < 64;
    var bs := EncodeChar(c) + rest;
    assert bs[0] == 0xC0 + hi && bs[1] == 0x80 + lo;
  }

  lemma DecodeFirstOfEncoded3(c: char, rest: seq<Byte>)
    requires 0x800 <= c as int < 0x1_0000
    ensures DecodeFirst(EncodeChar(c) + rest) == Some((c, 3))
  {
    var cp := c as int;
    var q := cp / 64;
    var top, mid, lo := cp / 4096, q % 64, cp % 64;
    assert cp == q * 64 + lo && q == top * 64 + mid;
    assert 0 <= top < 16 && 0 <= mid < 64 && 0 <= lo < 64;
    assert cp == top * 4096 + mid * 64 + lo;
    var bs := EncodeChar(c) + rest;
    assert bs[0] == 0xE0 + top && bs[1] == 0x80 + mid && bs[2] == 0x80 + lo;
  }

  lemma DecodeFirstOfEncoded4(c: char, rest: seq<Byte>)
    requires 0x1_0000 <= c as int
    ensures DecodeFirst(EncodeChar(c) + rest) == Some((c, 4))
  {
    var cp := c as int;
    var q1 := cp / 64;
    var q2 := q1 / 64;
    var top, hi, mid, lo := cp / 262144, q2 % 64, q1 % 64, cp % 64;
    assert cp == q1 * 64 + lo && q1 == q2 * 64 + mid && q2 == top * 64 + hi;
    assert cp / 4096 == q2;
    assert cp < 0x11_0000;
    assert 0 <= top <= 4 && 0 <= hi < 64 && 0 <= mid < 64 && 0 <= lo < 64;
    assert cp == top * 262144 + hi * 4096 + mid * 64 + lo;
    var bs := EncodeChar(c) + rest;
    assert bs[0] == 0xF0 + top && bs[1] == 0x80 + hi && bs[2] == 0x80 + mid && bs[3] == 0x80 + lo;
  }

  /** Round trip: every string decodes back from its UTF-8 encoding. */
  lemma {:induction false} DecodeEncode(s: string)
    ensures Decode(Encode(s)) == Some(s)
  {
    if |s| > 0 {
      var e := EncodeChar(s[0]);
      var rest := Encode(s[1..]);
      DecodeFirstOfEncoded(s[0], rest);
      assert (e + rest)[|e|..] == rest;
      DecodeEncode(s[1..]);
      assert [s[0]] + s[1..] == s;
    }
  }

  /** A well-formed leading sequence is the encoding of the character it
      decodes to: decoding never accepts two spellings of one character. */
  lemma EncodedOfDecodeFirst(bs: seq<Byte>)
    requires |bs| > 0 && DecodeFirst(bs).Some?
    ensures EncodeChar(DecodeFirst(bs).value.0) == bs[..DecodeFirst(bs).value.1]
  {
    var b0 := bs[0];
    if b0 < 0x80 {
    } else if b0 <= 0xDF {
      EncodedOfDecodeFirst2(bs);
    } else if b0 <= 0xEF {
      EncodedOfDecodeFirst3(bs);
    } else {
      EncodedOfDecodeFirst4(bs);
    }
  }

  lemma EncodedOfDecodeFirst2(bs: seq<Byte>)
    requires |bs| > 0 && 0x80 <= bs[0] <= 0xDF && DecodeFirst(bs).Some?
    ensures EncodeChar(DecodeFirst(bs).value.0) == bs[..2]
  {
    var hi, lo := bs[0] as int - 0xC0, bs[1] as int - 0x80;
    var cp := DecodeFirst(bs).value.0 as int;
    assert cp == hi * 64 + lo && 0 <= lo < 64;
    assert cp / 64 == hi && cp % 64 == lo;
  }

  lemma EncodedOfDecodeFirst3(bs: seq<Byte>)
    requires |bs| > 0 && 0xE0 <= bs[0] <= 0xEF && DecodeFirst(bs).Some?
    ensures EncodeChar(DecodeFirst(bs).value.0) == bs[..3]
  {
    var top, mid, lo := bs[0] as int - 0xE0, bs[1] as int - 0x80, bs[2] as int - 0x80;
    var cp := DecodeFirst(bs).value.0 as int;
    assert cp == top * 4096 + mid * 64 + lo && 0 <= mid < 64 && 0 <= lo < 64;
    var q := top * 64 + mid;
    assert cp == q * 64 + lo;
    assert cp / 64 == q && cp % 64 == lo;
    assert q / 64 == top && q % 64 == mid;
    assert cp / 4096 == top;
  }

  lemma EncodedOfDecodeFirst4(bs: seq<Byte>)
    requires |bs| > 0 && 0xF0 <= bs[0] && DecodeFirst(bs).Some?
    ensures EncodeChar(DecodeFirst(bs).value.0) == bs[..4]
  {
    var top, hi := bs[0] as int - 0xF0, bs[1] as int - 0x80;
    var mid, lo := bs[2] as int - 0x80, bs[3] as int - 0x80;
    var cp := DecodeFirst(bs).value.0 as int;
    assert cp == top * 262144 + hi * 4096 + mid * 64 + lo;
    assert 0 <= hi < 64 && 0 <= mid < 64 && 0 <= lo < 64;
    var q2 := top * 64 + hi;
    var q1 := q2 * 64 + mid;
    assert cp == q1 * 64 + lo;
    assert cp / 64 == q1 && cp % 64 == lo;
    assert q1 / 64 == q2 && q1 % 64 == mid;
    assert q2 / 64 == top && q2 % 64 == hi;
    assert cp / 4096 == q2 && cp / 262144 == top;
  }

  /** The converse round trip: bytes that decode are exactly the encoding of
      the decoded string. */
  lemma {:induction false} EncodeDecode(bs: seq<Byte>)
    requires Decode(bs).Some?
    ensures Encode(Decode(bs).value) == bs
    decreases |bs|
  {
    if |bs| > 0 {
      var c := DecodeFirst(bs).value.0;
      var n := DecodeFirst(bs).value.1;
      EncodedOfDecodeFirst(bs);
      EncodeDecode(bs[n..]);
      var s := Decode(bs).value;
      assert s == [c] + Decode(bs[n..]).value;
      assert s[0] == c && s[1..] == Decode(bs[n..]).value;
      assert bs == bs[..n] + bs[n..];
    }
  }
}

/** UTF-8 as Python's `str.encode('utf-8')` and `bytes.decode('utf-8',
    errors='ignore')` implement it (the well-formed byte sequences of table
    3-7 of the Unicode Standard, chapter 3). Characters are Unicode scalar
    values, so encoding never fails; decoding skips every byte that does not
    begin a well-formed sequence. */
module Utf8 {
  import opened Wrappers

  type Byte = b: int | 0 <= b < 256

  predicate IsContinuation(b: Byte) {
    0x80 <= b < 0xC0
  }

  /** The UTF-8 encoding of one character: one to four bytes by code point range. */
  function EncodeChar(c: char): (bs: seq<Byte>)
    ensures 1 <= |bs| <= 4
    ensures |bs| == 1 <==> (c as int) < 0x80
  {
    var cp := c as int;
    if cp < 0x80 then [cp]
    else if cp < 0x800 then [0xC0 + cp / 64, 0x80 + cp % 64]
    else if cp < 0x10000 then [0xE0 + cp / 4096, 0x80 + (cp / 64) % 64, 0x80 + cp % 64]
    else [0xF0 + cp / 262144, 0x80 + (cp / 4096) % 64, 0x80 + (cp / 64) % 64, 0x80 + cp % 64]
  }

  /** `s.encode('utf-8')`. */
  function Encode(s: string): (bs: seq<Byte>)
    ensures |bs| >= |s|
  {
    if s == [] then [] else EncodeChar(s[0]) + Encode(s[1..])
  }

  /** One decoded character and the number of bytes it took. */
  datatype Decoded = Decoded(c: char, len: nat)

  /** The character that a well-formed sequence at the front of `bs` encodes,
      or None when `bs` does not begin with one. */
  function DecodeOne(bs: seq<Byte>): (r: Option<Decoded>)
    ensures r.Some? ==> 1 <= r.value.len <= |bs|
  {
    if bs == [] then None
    else
      var b0 := bs[0];
      if b0 < 0x80 then Some(Decoded(b0 as char, 1))
      else if 0xC2 <= b0 <= 0xDF then
        if 2 <= |bs| && IsContinuation(bs[1]) then
          Some(Decoded(((b0 as int - 0xC0) * 64 + (bs[1] as int - 0x80)) as char, 2))
        else None
      else if 0xE0 <= b0 <= 0xEF then
        var lo := if b0 == 0xE0 then 0xA0 else 0x80;
        var hi := if b0 == 0xED then 0x9F else 0xBF;
        if 3 <= |bs| && lo <= bs[1] <= hi && IsContinuation(bs[2]) then
          Some(Decoded(((b0 as int - 0xE0) * 4096 + (bs[1] as int - 0x80) * 64 + (bs[2] as int - 0x80)) as char, 3))
        else None
      else if 0xF0 <= b0 <= 0xF4 then
        var lo := if b0 == 0xF0 then 0x90 else 0x80;
        var hi := if b0 == 0xF4 then 0x8F else 0xBF;
        if 4 <= |bs| && lo <= bs[1] <= hi && IsContinuation(bs[2]) && IsContinuation(bs[3]) then
          Some(Decoded(((b0 as int - 0xF0) * 262144 + (bs[1] as int - 0x80) * 4096 + (bs[2] as int - 0x80) * 64 + (bs[3] as int - 0x80)) as char, 4))
        else None
      else None
  }

  /** `bs.decode('utf-8', errors='ignore')`: well-formed sequences become their
      characters, every other byte is dropped. */
  function DecodeIgnore(bs: seq<Byte>): string
    decreases |bs|
  {
    if bs == [] then []
    else match DecodeOne(bs)
      case Some(d) => [d.c] + DecodeIgnore(bs[d.len..])
      case None => DecodeIgnore(bs[1..])
  }

  /** A two-byte encoding decodes back to its character. */
  lemma DecodeTwoBytes(c: char, rest: seq<Byte>)
    requires 0x80 <= c as int < 0x800
    ensures DecodeOne(EncodeChar(c) + rest) == Some(Decoded(c, 2))
  {
    var cp := c as int;
    var bs := EncodeChar(c) + rest;
    assert bs[0] == 0xC0 + cp / 64 && bs[1] == 0x80 + cp % 64;
  }

  /** A three-byte encoding decodes back to its character: the lead byte E0
      only with a second byte of at least A0 (no overlong form), ED only with
      one of at most 9F (no surrogate). */
  lemma DecodeThreeBytes(c: char, rest: seq<Byte>)
    requires 0x800 <= c as int < 0x10000
    ensures DecodeOne(EncodeChar(c) + rest) == Some(Decoded(c, 3))
  {
    var cp := c as int;
    var bs := EncodeChar(c) + rest;
    var q, m, l := cp / 4096, (cp / 64) % 64, cp % 64;
    assert cp / 64 == 64 * q + m;
    assert cp == 4096 * q + 64 * m + l;
    assert bs[0] == 0xE0 + q && bs[1] == 0x80 + m && bs[2] == 0x80 + l;
  }

  /** A four-byte encoding decodes back to its character: the lead byte F0
      only with a second byte of at least 90, F4 only with one of at most 8F. */
  lemma DecodeFourBytes(c: char, rest: seq<Byte>)
    requires 0x10000 <= c as int
    ensures DecodeOne(EncodeChar(c) + rest) == Some(Decoded(c, 4))
  {
    var cp := c as int;
    var bs := EncodeChar(c) + rest;
    var q, m2, m, l := cp / 262144, (cp / 4096) % 64, (cp / 64) % 64, cp % 64;
    assert cp / 4096 == 64 * q + m2;
    assert cp / 64 == 4096 * q + 64 * m2 + m;
    assert cp == 262144 * q + 4096 * m2 + 64 * m + l;
    assert bs[0] == 0xF0 + q && bs[1] == 0x80 + m2 && bs[2] == 0x80 + m && bs[3] == 0x80 + l;
  }

  /** Decoding the encoding of a character gives that character back, whatever follows. */
  lemma DecodeEncodedChar(c: char, rest: seq<Byte>)
    ensures DecodeOne(EncodeChar(c) + rest) == Some(Decoded(c, |EncodeChar(c)|))
  {
    var cp := c as int;
    if cp < 0x80 {
      assert (EncodeChar(c) + rest)[0] == cp;
    } else if cp < 0x800 {
      DecodeTwoBytes(c, rest);
    } else if cp < 0x10000 {
      DecodeThreeBytes(c, rest);
    } else {
      DecodeFourBytes(c, rest);
    }
  }

  /** Decoding an encoded character followed by more bytes yields that
      character, then whatever the bytes after it decode to. */
  lemma DecodeAfterChar(c: char, tail: seq<Byte>)
    ensures DecodeIgnore(EncodeChar(c) + tail) == [c] + DecodeIgnore(tail)
  {
    var e := EncodeChar(c);
    DecodeEncodedChar(c, tail);
    assert (e + tail)[|e|..] == tail;
  }

  /** Continuation bytes alone decode to nothing. */
  lemma {:induction false} ContinuationsDecodeEmpty(bs: seq<Byte>)
    requires forall i :: 0 <= i < |bs| ==> IsContinuation(bs[i])
    ensures DecodeIgnore(bs) == []
  {
    if bs != [] {
      ContinuationsDecodeEmpty(bs[1..]);
    }
  }

  /** A cut-off encoding of a character decodes to nothing: the lead byte lacks
      its continuation bytes, and those alone are dropped too. */
  lemma PartialCharDecodesEmpty(c: char, j: nat)
    requires j < |EncodeChar(c)|
    ensures DecodeIgnore(EncodeChar(c)[..j]) == []
  {
    var bs := EncodeChar(c)[..j];
    if j > 0 {
      assert DecodeOne(bs) == None;
      ContinuationsDecodeEmpty(bs[1..]);
    }
  }

  /** The longest prefix of `s` whose encoding fits in `limit` bytes. */
  function FittingPrefix(s: string, limit: nat): (p: string)
    ensures |p| <= |s| && p == s[..|p|]
    ensures |Encode(p)| <= limit
    ensures |p| < |s| ==> |Encode(p)| + |EncodeChar(s[|p|])| > limit
  {
    if s == [] || |EncodeChar(s[0])| > limit then []
    else
      var p := [s[0]] + FittingPrefix(s[1..], limit - |EncodeChar(s[0])|);
      assert p[0] == s[0] && p[1..] == FittingPrefix(s[1..], limit - |EncodeChar(s[0])|);
      p
  }

  /** A string whose encoding fits in `limit` bytes fits whole. */
  lemma {:induction false} FittingPrefixWhole(s: string, limit: nat)
    requires |Encode(s)| <= limit
    ensures FittingPrefix(s, limit) == s
  {
    if s != [] {
      FittingPrefixWhole(s[1..], limit - |EncodeChar(s[0])|);
    }
  }

  /** Decoding the first `limit` bytes of an encoding, dropping what is cut
      off, gives exactly the longest prefix that fits in `limit` bytes. */
  lemma {:induction false} DecodeEncodedPrefix(s: string, limit: nat)
    requires limit <= |Encode(s)|
    ensures DecodeIgnore(Encode(s)[..limit]) == FittingPrefix(s, limit)
  {
    if s != [] {
      var e := EncodeChar(s[0]);
      var rest := Encode(s[1..]);
      assert Encode(s) == e + rest;
      if |e| <= limit {
        var tail := rest[..limit - |e|];
        assert Encode(s)[..limit] == e + tail;
        DecodeAfterChar(s[0], tail);
        DecodeEncodedPrefix(s[1..], limit - |e|);
      } else {
        assert Encode(s)[..limit] == e[..limit];
        PartialCharDecodesEmpty(s[0], limit);
      }
    }
  }

  /** Round trip: decoding an encoding gives the string back. */
  lemma DecodeEncode(s: string)
    ensures DecodeIgnore(Encode(s)) == s
  {
    DecodeEncodedPrefix(s, |Encode(s)|);
    FittingPrefixWhole(s, |Encode(s)|);
    assert Encode(s)[..|Encode(s)|] == Encode(s);
  }
}

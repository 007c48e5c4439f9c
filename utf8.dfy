/**
 * The UTF-8 encoding behind the private `Data.append(_ string:)` extension
 * (APIClient.swift:4-8): a string is appended as its UTF-8 bytes. A Swift
 * string is a sequence of Unicode scalar values, exactly what a Dafny `char`
 * is, so `string.data(using: .utf8)` never fails and the `if let` never skips.
 */
module Utf8 {
  import opened Wrappers

  type byte = x: int | 0 <= x < 256

  /** The bytes of one scalar value, shortest form. */
  function EncodeChar(c: char): (r: seq<byte>)
    ensures 1 <= |r| <= 4
    ensures |r| == if c as int < 0x80 then 1 else if c as int < 0x800 then 2 else if c as int < 0x10000 then 3 else 4
    ensures (|r| == 1) <==> (c as int < 0x80)
    ensures |r| == 1 ==> r[0] == c as int
    ensures forall k :: 1 <= k < |r| ==> 0x80 <= r[k] < 0xC0
    ensures r[0] < 0x80 || 0xC0 <= r[0] < 0xF8
  {
    var cp := c as int;
    if cp < 0x80 then [cp]
    else if cp < 0x800 then [0xC0 + cp / 64, 0x80 + cp % 64]
    else if cp < 0x10000 then [0xE0 + cp / 4096, 0x80 + (cp / 64) % 64, 0x80 + cp % 64]
    else [0xF0 + cp / 262144, 0x80 + (cp / 4096) % 64, 0x80 + (cp / 64) % 64, 0x80 + cp % 64]
  }

  /** The bytes of a whole string. */
  function Encode(s: string): (r: seq<byte>)
    ensures |s| <= |r| <= 4 * |s|
  {
    if s == [] then [] else EncodeChar(s[0]) + Encode(s[1..])
  }

  /** Number of bytes a sequence starting with lead byte `b` takes. */
  function SequenceLength(b: byte): nat
  {
    if b < 0x80 then 1 else if b < 0xE0 then 2 else if b < 0xF0 then 3 else 4
  }

  predicate IsScalar(cp: int)
  {
    0 <= cp < 0xD800 || 0xE000 <= cp < 0x11_0000
  }

  /**
   * Reads one scalar value off the front of `bs`, with the number of bytes
   * it took; None for a truncated or malformed sequence.
   */
  function DecodeFirst(bs: seq<byte>): (r: Option<(char, nat)>)
    requires bs != []
    ensures r.Some? ==> 1 <= r.value.1 <= |bs|
  {
    var n := SequenceLength(bs[0]);
    if n > |bs| || (bs[0] >= 0x80 && bs[0] < 0xC0) || bs[0] >= 0xF8 then None
    else if exists k :: 1 <= k < n && !(0x80 <= bs[k] < 0xC0) then None
    else
      var cp :=
        if n == 1 then bs[0] as int
        else if n == 2 then (bs[0] as int - 0xC0) * 64 + (bs[1] as int - 0x80)
        else if n == 3 then
          ((bs[0] as int - 0xE0) * 64 + (bs[1] as int - 0x80)) * 64 + (bs[2] as int - 0x80)
        else
          (((bs[0] as int - 0xF0) * 64 + (bs[1] as int - 0x80)) * 64 + (bs[2] as int - 0x80)) * 64
          + (bs[3] as int - 0x80);
      if IsScalar(cp) then Some((cp as char, n)) else None
  }

  /** The inverse of Encode on the bytes it produces. */
  function Decode(bs: seq<byte>): Option<string>
    decreases |bs|
  {
    if bs == [] then Some([])
    else match DecodeFirst(bs)
      case None => None
      case Some((c, n)) =>
        match Decode(bs[n..])
        case None => None
        case Some(rest) => Some([c] + rest)
  }

  /** Encoding distributes over concatenation, so successive appends equal one append. */
  lemma {:induction false} EncodeConcat(a: string, b: string)
    ensures Encode(a + b) == Encode(a) + Encode(b)
  {
    if a == [] {
      assert a + b == b;
    } else {
      assert (a + b)[0] == a[0];
      assert (a + b)[1..] == a[1..] + b;
      EncodeConcat(a[1..], b);
    }
  }

  /** A string of ASCII characters is encoded one byte per character. */
  lemma {:induction false} EncodeAscii(s: string)
    requires forall k :: 0 <= k < |s| ==> s[k] as int < 0x80
    ensures |Encode(s)| == |s|
    ensures forall k :: 0 <= k < |s| ==> Encode(s)[k] == s[k] as int
  {
    if s != [] {
      EncodeAscii(s[1..]);
    }
  }

  /** Arithmetic behind the continuation bytes: peeling six bits off twice. */
  lemma SplitSixBits(n: nat)
    ensures n == (n / 64) * 64 + n % 64
    ensures n / 4096 == (n / 64) / 64
    ensures n / 64 == (n / 4096) * 64 + (n / 64) % 64
  {
  }

  /** The first scalar value of an encoding is read back whatever follows it. */
  lemma DecodeFirstEncodeChar(c: char, rest: seq<byte>)
    ensures DecodeFirst(EncodeChar(c) + rest) == Some((c, |EncodeChar(c)|))
  {
    var cp := c as int;
    var e := EncodeChar(c);
    var bs := e + rest;
    assert bs[..|e|] == e;
    assert forall k :: 0 <= k < |e| ==> bs[k] == e[k];
    if cp < 0x80 {
    } else if cp < 0x800 {

    } else if cp < 0x10000 {
      SplitSixBits(cp);
    } else {
      SplitSixBits(cp);
      SplitSixBits(cp / 64);
      assert cp / 262144 == (cp / 64) / 4096;
    }
  }

  /** Round trip: decoding an encoded string gives the string back. */
  lemma {:induction false} DecodeEncode(s: string)
    ensures Decode(Encode(s)) == Some(s)
  {
    if s != [] {
      var e := EncodeChar(s[0]);
      var bs := Encode(s);
      assert bs == e + Encode(s[1..]);
      DecodeFirstEncodeChar(s[0], Encode(s[1..]));
      assert bs[|e|..] == Encode(s[1..]);
      DecodeEncode(s[1..]);
      assert [s[0]] + s[1..] == s;
    }
  }

  /** Hence encoding is injective: distinct strings give distinct bytes. */
  lemma EncodeInjective(a: string, b: string)
    requires Encode(a) == Encode(b)
    ensures a == b
  {
    DecodeEncode(a);
    DecodeEncode(b);
  }
}

/**
 * Lower-case hexadecimal text of a byte string, as `hex.EncodeToString`
 * produces it for a transaction's first signature.
 */
module Hex {

  newtype byte = x: int | 0 <= x < 256

  const Digits: string := "0123456789abcdef"

  predicate IsHexDigit(c: char)
  {
    '0' <= c <= '9' || 'a' <= c <= 'f'
  }

  /** The value of one lower-case hex digit. */
  function DigitValue(c: char): (v: nat)
    requires IsHexDigit(c)
    ensures v < 16 && Digits[v] == c
  {
    if c <= '9' then (c - '0') as nat else (c - 'a') as nat + 10
  }

  /** Two digits per byte, high nibble first. */
  function Encode(bs: seq<byte>): (s: string)
    ensures |s| == 2 * |bs|
    ensures forall i :: 0 <= i < |s| ==> IsHexDigit(s[i])
  {
    if bs == [] then []
    else [Digits[bs[0] as int / 16], Digits[bs[0] as int % 16]] + Encode(bs[1..])
  }

  /** Reads back two digits per byte; meaningful on even-length digit strings. */
  function Decode(s: string): (bs: seq<byte>)
    requires |s| % 2 == 0
    requires forall i :: 0 <= i < |s| ==> IsHexDigit(s[i])
    ensures 2 * |bs| == |s|
  {
    if s == [] then []
    else [(DigitValue(s[0]) * 16 + DigitValue(s[1])) as byte] + Decode(s[2..])
  }

  /** Decoding the encoding gives back the bytes, so distinct signatures get distinct hashes. */
  lemma {:induction false} DecodeEncode(bs: seq<byte>)
    ensures Decode(Encode(bs)) == bs
  {
    if bs != [] {
      var rest := Encode(bs[1..]);
      assert Encode(bs) == [Digits[bs[0] as int / 16], Digits[bs[0] as int % 16]] + rest;
      DecodeHead(bs[0], rest);
      DecodeEncode(bs[1..]);
    }
  }

  /** The two digits of one byte in front of a digit string decode back to that byte. */
  lemma DecodeHead(b: byte, rest: string)
    requires |rest| % 2 == 0
    requires forall i :: 0 <= i < |rest| ==> IsHexDigit(rest[i])
    ensures var s := [Digits[b as int / 16], Digits[b as int % 16]] + rest;
      forall i :: 0 <= i < |s| ==> IsHexDigit(s[i])
    ensures Decode([Digits[b as int / 16], Digits[b as int % 16]] + rest) == [b] + Decode(rest)
  {
    var hi, lo := b as int / 16, b as int % 16;
    var s := [Digits[hi], Digits[lo]] + rest;
    DigitRoundTrip(hi);
    DigitRoundTrip(lo);
    assert s[2..] == rest;
    assert forall i :: 2 <= i < |s| ==> s[i] == rest[i - 2];
  }

  lemma DigitRoundTrip(v: nat)
    requires v < 16
    ensures IsHexDigit(Digits[v]) && DigitValue(Digits[v]) == v
  {
  }

  /** Encoding is injective. */
  lemma EncodeInjective(a: seq<byte>, b: seq<byte>)
    requires Encode(a) == Encode(b)
    ensures a == b
  {
    DecodeEncode(a);
    DecodeEncode(b);
  }
}

/**
 * Lowercase hexadecimal text of a byte string, as Go's
 * `hex.EncodeToString` writes it: the base16 alphabet of section 8 of
 * RFC 4648 in lower case, two characters per byte, high nibble first.
 */
module Hex {
  import opened GoTypes

  /** The lowercase alphabet "0123456789abcdef", as ASCII codes. */
  const HexTable: seq<byte> := [48, 49, 50, 51, 52, 53, 54, 55, 56, 57, 97, 98, 99, 100, 101, 102]

  /** The character for a nibble: '0'..'9' then 'a'..'f'. */
  function Digit(v: nat): (b: byte)
    requires v < 16
    ensures IsLowerHex(b) && Value(b) == v
  {
    if v < 10 then 48 + v else 97 + (v - 10)
  }

  predicate IsLowerHex(b: byte) {
    48 <= b <= 57 || 97 <= b <= 102
  }

  /** The nibble a lowercase hex character stands for. */
  function Value(b: byte): (v: nat)
    requires IsLowerHex(b)
    ensures v < 16
  {
    if b <= 57 then b - 48 else b - 97 + 10
  }

  /** Digit renders a nibble as the entry of Go's `hextable` at that index. */
  lemma DigitIsHexTable(v: nat)
    requires v < 16
    ensures Digit(v) == HexTable[v]
  {
    var b := Digit(v);
    if v < 10 {
      assert b == 48 + v;
    } else {
      assert b == 97 + (v - 10);
    }
  }

  lemma DigitOfValue(b: byte)
    requires IsLowerHex(b)
    ensures Digit(Value(b)) == b
  {
  }

  predicate AllLowerHex(s: seq<byte>) {
    forall i :: 0 <= i < |s| ==> IsLowerHex(s[i])
  }

  function Encode(bs: seq<byte>): (r: seq<byte>)
    ensures |r| == 2 * |bs|
    ensures AllLowerHex(r)
  {
    if bs == [] then [] else [Digit(bs[0] / 16), Digit(bs[0] % 16)] + Encode(bs[1..])
  }

  /** Hex decoding of lowercase text of even length (the inverse of Encode). */
  function Decode(s: seq<byte>): seq<byte>
    requires |s| % 2 == 0 && AllLowerHex(s)
  {
    if s == [] then [] else [Value(s[0]) * 16 + Value(s[1])] + Decode(s[2..])
  }

  /** The nibble of `bs` that character `i` of its hex text renders. */
  function Nibble(bs: seq<byte>, i: nat): nat
    requires i < 2 * |bs|
  {
    if i % 2 == 0 then bs[i / 2] / 16 else bs[i / 2] % 16
  }

  /** Character `i` of the hex text renders nibble `i` of the input. */
  lemma {:induction false} EncodeAt(bs: seq<byte>, i: nat)
    requires i < 2 * |bs|
    ensures Encode(bs)[i] == Digit(Nibble(bs, i))
  {
    if i >= 2 {
      EncodeAt(bs[1..], i - 2);
    }
  }

  lemma {:induction false} DecodeEncode(bs: seq<byte>)
    ensures Decode(Encode(bs)) == bs
  {
    if bs != [] {
      var r := Encode(bs);
      assert r[2..] == Encode(bs[1..]);
      DecodeEncode(bs[1..]);
    }
  }

  lemma {:induction false} EncodeDecode(s: seq<byte>)
    requires |s| % 2 == 0 && AllLowerHex(s)
    ensures Encode(Decode(s)) == s
    decreases |s|
  {
    if s != [] {
      var hi, lo := Value(s[0]), Value(s[1]);
      var rest := Decode(s[2..]);
      assert Decode(s) == [hi * 16 + lo] + rest;
      SplitByte(hi, lo);
      DigitOfValue(s[0]);
      DigitOfValue(s[1]);
      EncodeCons(hi * 16 + lo, rest);
      EncodeDecode(s[2..]);
      assert s == [s[0], s[1]] + s[2..];
    }
  }

  lemma EncodeCons(x: byte, rest: seq<byte>)
    ensures Encode([x] + rest) == [Digit(x / 16), Digit(x % 16)] + Encode(rest)
  {
    assert ([x] + rest)[1..] == rest;
  }

  lemma SplitByte(hi: nat, lo: nat)
    requires hi < 16 && lo < 16
    ensures (hi * 16 + lo) / 16 == hi && (hi * 16 + lo) % 16 == lo
  {
  }
}

/**
 * Bytes as the sensor's bus delivers them, and the big-endian reading of a
 * byte sequence that the driver's conversion computes.
 */
module Bytes {
  /** One byte on the bus: an integer in 0..255, as a Python `bytearray` element. */
  newtype byte = x: int | 0 <= x < 256

  /** 256 to the power n. */
  function Pow256(n: nat): (p: nat)
    ensures p >= 1
  {
    if n == 0 then 1 else 256 * Pow256(n - 1)
  }

  /** Big-endian value of `s`, built from the left as the driver's loop does. */
  function BigEndian(s: seq<byte>): nat
  {
    if |s| == 0 then 0 else BigEndian(s[..|s| - 1]) * 256 + s[|s| - 1] as int
  }

  /** Reference definition: the sum of s[i] * 256^(n-1-i). */
  function WeightedSum(s: seq<byte>): nat
  {
    if |s| == 0 then 0 else s[0] as int * Pow256(|s| - 1) + WeightedSum(s[1..])
  }

  /** The n-byte big-endian encoding of v. */
  function ToBigEndian(v: nat, n: nat): (s: seq<byte>)
    requires v < Pow256(n)
    ensures |s| == n
  {
    if n == 0 then [] else ToBigEndian(v / 256, n - 1) + [(v % 256) as byte]
  }

  /** Illuminance in lux for a raw register value: the sensor's scale factor is 1.2. */
  function Lux(raw: int): real
  {
    raw as real / 1.2
  }

  lemma {:induction false} WeightedSumSnoc(s: seq<byte>, b: byte)
    ensures WeightedSum(s + [b]) == WeightedSum(s) * 256 + b as int
    decreases |s|
  {
    if |s| == 0 {
      assert s + [b] == [b];
      assert [b][1..] == [];
    } else {
      var t := s[1..];
      assert (s + [b])[0] == s[0];
      assert (s + [b])[1..] == t + [b];
      WeightedSumSnoc(t, b);
      calc {
        WeightedSum(s + [b]);
        s[0] as int * Pow256(|s|) + WeightedSum(t + [b]);
        s[0] as int * (256 * Pow256(|s| - 1)) + WeightedSum(t) * 256 + b as int;
        (s[0] as int * Pow256(|s| - 1) + WeightedSum(t)) * 256 + b as int;
        WeightedSum(s) * 256 + b as int;
      }
    }
  }

  /** The left fold the driver computes is the positional sum Σ s[i]·256^(n-1-i). */
  lemma {:induction false} BigEndianIsWeightedSum(s: seq<byte>)
    ensures BigEndian(s) == WeightedSum(s)
    decreases |s|
  {
    if |s| > 0 {
      var p := s[..|s| - 1];
      assert s == p + [s[|s| - 1]];
      BigEndianIsWeightedSum(p);
      WeightedSumSnoc(p, s[|s| - 1]);
    }
  }

  /** An n-byte big-endian value fits in n bytes. */
  lemma {:induction false} BigEndianBound(s: seq<byte>)
    ensures BigEndian(s) < Pow256(|s|)
    decreases |s|
  {
    if |s| > 0 {
      var p := s[..|s| - 1];
      BigEndianBound(p);
      assert BigEndian(p) <= Pow256(|p|) - 1;
      assert BigEndian(p) * 256 <= Pow256(|p|) * 256 - 256;
    }
  }

  /** Two bytes decode as hi*256 + lo, a value in 0..65535. */
  lemma TwoBytes(hi: byte, lo: byte)
    ensures BigEndian([hi, lo]) == hi as int * 256 + lo as int
    ensures 0 <= BigEndian([hi, lo]) <= 65535
  {
    var s: seq<byte> := [hi, lo];
    assert s[..1] == [hi];
    assert [hi][..0] == [];
    assert BigEndian([hi]) == hi as int;
    assert BigEndian(s) == BigEndian([hi]) * 256 + lo as int;
  }

  /** Decoding undoes encoding. */
  lemma {:induction false} DecodeEncode(v: nat, n: nat)
    requires v < Pow256(n)
    ensures BigEndian(ToBigEndian(v, n)) == v
    decreases n
  {
    if n > 0 {
      var s := ToBigEndian(v, n);
      var p := ToBigEndian(v / 256, n - 1);
      assert s[..|s| - 1] == p;
      DecodeEncode(v / 256, n - 1);
    }
  }

  /** Encoding undoes decoding: the bytes are recovered from their value. */
  lemma {:induction false} EncodeDecode(s: seq<byte>)
    ensures BigEndian(s) < Pow256(|s|)
    ensures ToBigEndian(BigEndian(s), |s|) == s
    decreases |s|
  {
    BigEndianBound(s);
    if |s| > 0 {
      var p := s[..|s| - 1];
      var v := BigEndian(s);
      assert v / 256 == BigEndian(p);
      assert v % 256 == s[|s| - 1] as int;
      EncodeDecode(p);
      assert s == p + [s[|s| - 1]];
    }
  }

  /** The whole two-byte register range maps to 0..54612.5 lux, in order. */
  lemma LuxRange(raw: int, raw': int)
    requires 0 <= raw <= raw' <= 65535
    ensures 0.0 <= Lux(raw) <= Lux(raw') <= 54612.5
  {
  }

  /** Worked values: raw 256 is 640/3 lux, raw 0 is 0 lux, raw 65535 is 54612.5 lux. */
  lemma LuxExamples()
    ensures Lux(BigEndian([0x01, 0x00])) == 640.0 / 3.0
    ensures Lux(BigEndian([0x00, 0x00])) == 0.0
    ensures Lux(BigEndian([0xFF, 0xFF])) == 54612.5
  {
    TwoBytes(0x01, 0x00);
    TwoBytes(0x00, 0x00);
    TwoBytes(0xFF, 0xFF);
  }
}

/** Bytes, little-endian integers and two's complement, as used by
    System.IO.BinaryReader and the CodeX DataReader (both little-endian). */
module Bytes {

  newtype byte = x: int | 0 <= x < 256

  /** 256^n */
  function Pow256(n: nat): (r: nat)
    ensures r >= 1
    ensures n >= 1 ==> r >= 256 && r % 2 == 0
  {
    if n == 0 then 1 else 256 * Pow256(n - 1)
  }

  /** Unsigned value of a little-endian byte string. */
  function LeValue(s: seq<byte>): (v: nat)
    ensures v < Pow256(|s|)
  {
    if s == [] then 0 else s[0] as nat + 256 * LeValue(s[1..])
  }

  /** The n-byte little-endian encoding of v (v must fit). */
  function LeBytes(v: nat, n: nat): (s: seq<byte>)
    requires v < Pow256(n)
    ensures |s| == n
  {
    if n == 0 then [] else [(v % 256) as byte] + LeBytes(v / 256, n - 1)
  }

  lemma {:induction false} LeRoundTrip(v: nat, n: nat)
    requires v < Pow256(n)
    ensures LeValue(LeBytes(v, n)) == v
  {
    if n > 0 {
      LeRoundTrip(v / 256, n - 1);
      var s := LeBytes(v, n);
      assert s[1..] == LeBytes(v / 256, n - 1);
    }
  }

  lemma {:induction false} LeBytesOfValue(s: seq<byte>)
    ensures LeBytes(LeValue(s), |s|) == s
  {
    if s != [] {
      var w := LeValue(s[1..]);
      LeBytesOfValue(s[1..]);
      SplitLowByte(s[0] as nat, w);
      assert LeBytes(LeValue(s), |s|) == [s[0]] + LeBytes(w, |s| - 1);
      assert s == [s[0]] + s[1..];
    }
  }

  /** a + 256 * w splits back into its low byte a and the rest w. */
  lemma SplitLowByte(a: nat, w: nat)
    requires a < 256
    ensures (a + 256 * w) % 256 == a && (a + 256 * w) / 256 == w
  {
  }

  /** Two's-complement reading of an n-byte unsigned value. */
  function ToSigned(v: nat, n: nat): (x: int)
    requires 1 <= n && v < Pow256(n)
    ensures -(Pow256(n) / 2) <= x < Pow256(n) / 2
    ensures (x < 0) == (v >= Pow256(n) / 2)
  {
    if v < Pow256(n) / 2 then v else v - Pow256(n)
  }

  /** The n-byte unsigned pattern that stores the signed value x. */
  function FromSigned(x: int, n: nat): (v: nat)
    requires 1 <= n && -(Pow256(n) / 2) <= x < Pow256(n) / 2
    ensures v < Pow256(n)
  {
    if x >= 0 then x else x + Pow256(n)
  }

  lemma SignedRoundTrip(x: int, n: nat)
    requires 1 <= n && -(Pow256(n) / 2) <= x < Pow256(n) / 2
    ensures ToSigned(FromSigned(x, n), n) == x
  {
  }

  lemma SignedRoundTripBack(v: nat, n: nat)
    requires 1 <= n && v < Pow256(n)
    ensures FromSigned(ToSigned(v, n), n) == v
  {
  }

  /** The low 16 bits of an integer, as the C# cast `(ushort)` keeps them. */
  function Low16(x: int): (v: nat)
    ensures v < 65536
    ensures 0 <= x < 65536 ==> v == x
    ensures (x - v) % 65536 == 0
  {
    x % 65536
  }

  /** The low 8 bits of an integer, as the C# cast `(byte)` keeps them. */
  function Low8(x: int): (v: nat)
    ensures v < 256
    ensures 0 <= x < 256 ==> v == x
    ensures (x - v) % 256 == 0
  {
    x % 256
  }

  /** An integer reduced to 32-bit two's complement, as unchecked C# `int`
      arithmetic does (`20 * IndexCount` wraps on overflow). */
  function WrapInt32(x: int): (r: int)
    ensures -0x8000_0000 <= r < 0x8000_0000
    ensures -0x8000_0000 <= x < 0x8000_0000 ==> r == x
    ensures (x - r) % 0x1_0000_0000 == 0
  {
    var u := x % 0x1_0000_0000;
    if u < 0x8000_0000 then u else u - 0x1_0000_0000
  }
}

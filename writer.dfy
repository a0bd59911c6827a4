/** The writing side of the binary format: System.IO.BinaryWriter emits
    integers little-endian, keeping the low n bytes of the value, and the
    CodeX `WriteStringNullTerminated` helper emits one byte per character
    followed by a zero byte. `ByteWriter` is the writer over a growing
    buffer; the lemmas say that the readers of `Cursor` give back what the
    writer put down. */
module Writer {
  import opened Wrappers
  import opened Bytes
  import opened Cursor

  /** Byte i of the little-endian form of x: the base-256 digit of weight
      256^i (Euclidean division, so a negative x gives its two's
      complement digits). */
  function ByteOf(x: int, i: nat): byte
    decreases i
  {
    if i == 0 then (x % 256) as byte else ByteOf(x / 256, i - 1)
  }

  /** The n-byte little-endian encoding of x, wrapped modulo 256^n (the
      casts `(int)`, `(uint)` of the source keep the same low bytes). */
  function Encode(x: int, n: nat): (s: seq<byte>)
    ensures |s| == n
  {
    seq(n, i requires 0 <= i < n => ByteOf(x, i))
  }

  /** One byte per character (its low 8 bits) and a terminating zero. */
  function StringZ(s: string): (b: seq<byte>)
    ensures |b| == |s| + 1 && b[|s|] == 0
    ensures forall i :: 0 <= i < |s| ==> b[i] as int == s[i] as int % 256
  {
    seq(|s| + 1, i requires 0 <= i <= |s| => if i < |s| then (s[i] as int % 256) as byte else 0)
  }

  /** A string the zero-terminated form stores exactly: no character is
      zero and every character fits in a byte. */
  predicate ByteString(s: string)
  {
    forall i :: 0 <= i < |s| ==> 0 < s[i] as int < 256
  }

  /** The first byte is the low digit and the rest encode x / 256. */
  lemma EncodeTail(x: int, n: nat)
    requires 1 <= n
    ensures Encode(x, n)[0] as int == x % 256
    ensures Encode(x, n)[1..] == Encode(x / 256, n - 1)
  {
    var s, t := Encode(x, n), Encode(x / 256, n - 1);
    forall i | 0 <= i < n - 1
      ensures s[i + 1] == t[i]
    {
    }
  }

  lemma {:induction false} EncodeUnsigned(v: int, n: nat)
    requires 0 <= v < Pow256(n)
    ensures LeValue(Encode(v, n)) == v
  {
    if n > 0 {
      EncodeTail(v, n);
      EncodeUnsigned(v / 256, n - 1);
    }
  }

  /** A negative value is stored as its complement to 256^n. */
  lemma {:induction false} EncodeNegative(x: int, n: nat)
    requires 1 <= n && -(Pow256(n) / 2) <= x < 0
    ensures LeValue(Encode(x, n)) == x + Pow256(n)
    decreases n
  {
    var s := Encode(x, n);
    EncodeTail(x, n);
    if n == 1 {
      assert Pow256(1) == 256;
      assert s[1..] == [];
    } else {
      assert Pow256(n) == 256 * Pow256(n - 1);
      EncodeNegative(x / 256, n - 1);
    }
  }

  lemma EncodeSigned(x: int, n: nat)
    requires 1 <= n && -(Pow256(n) / 2) <= x < Pow256(n) / 2
    ensures LeValue(Encode(x, n)) == FromSigned(x, n)
  {
    if x < 0 {
      EncodeNegative(x, n);
    } else {
      EncodeUnsigned(x, n);
    }
  }

  /** Splitting a window of the data that holds a + b. */
  lemma SliceSplit(d: seq<byte>, p: nat, a: seq<byte>, b: seq<byte>)
    requires p + |a| + |b| <= |d| && d[p..p + |a| + |b|] == a + b
    ensures d[p..p + |a|] == a
    ensures d[p + |a|..p + |a| + |b|] == b
  {
    assert d[p..p + |a|] == d[p..p + |a| + |b|][..|a|];
    assert d[p + |a|..p + |a| + |b|] == d[p..p + |a| + |b|][|a|..];
  }

  /** A signed read gives back the value written in its range. */
  lemma ReadIntOfEncode(d: seq<byte>, p: nat, x: int, n: nat)
    requires 1 <= n && -(Pow256(n) / 2) <= x < Pow256(n) / 2
    requires p + n <= |d| && d[p..p + n] == Encode(x, n)
    ensures ReadInt(d, p, n) == Ok(Parsed(x, p + n))
  {
    UIntAtValue(d, p, n);
    EncodeSigned(x, n);
    var r := ReadInt(d, p, n);
    SignedRoundTrip(r.value.value, n);
    SignedRoundTrip(x, n);
  }

  /** An unsigned read gives back the value written in its range. */
  lemma ReadUIntOfEncode(d: seq<byte>, p: nat, v: int, n: nat)
    requires 0 <= v < Pow256(n)
    requires p + n <= |d| && d[p..p + n] == Encode(v, n)
    ensures ReadUInt(d, p, n) == Ok(Parsed(v, p + n))
  {
    UIntAtValue(d, p, n);
    EncodeUnsigned(v, n);
  }

  lemma IntAtOfEncode(d: seq<byte>, p: nat, x: int, n: nat)
    requires 1 <= n && -(Pow256(n) / 2) <= x < Pow256(n) / 2
    requires p + n <= |d| && d[p..p + n] == Encode(x, n)
    ensures IntAt(d, p, n) == x
  {
    UIntAtValue(d, p, n);
    EncodeSigned(x, n);
    SignedRoundTrip(x, n);
  }

  lemma UIntAtOfEncode(d: seq<byte>, p: nat, v: int, n: nat)
    requires 0 <= v < Pow256(n)
    requires p + n <= |d| && d[p..p + n] == Encode(v, n)
    ensures UIntAt(d, p, n) == v
  {
    UIntAtValue(d, p, n);
    EncodeUnsigned(v, n);
  }

  /** The middle part of a window of the data that holds pre + x + post. */
  lemma Window(d: seq<byte>, p: nat, pre: seq<byte>, x: seq<byte>, post: seq<byte>)
    requires p + |pre| + |x| + |post| <= |d| && d[p..p + |pre| + |x| + |post|] == pre + x + post
    ensures d[p + |pre|..p + |pre| + |x|] == x
  {
    var w := d[p..p + |pre| + |x| + |post|];
    forall k | 0 <= k < |x|
      ensures d[p + |pre| + k] == x[k]
    {
      assert w[|pre| + k] == d[p + |pre| + k];
      assert (pre + x + post)[|pre| + k] == x[k];
    }
  }

  /** Reading from character j of a stored string gives the rest of it. */
  lemma {:induction false} ReadStringZFrom(d: seq<byte>, p: nat, s: string, j: nat)
    requires j <= |s| && p + |s| + 1 <= |d| && d[p + |s|] == 0
    requires forall i :: 0 <= i < |s| ==> 0 < s[i] as int < 256 && d[p + i] as int == s[i] as int
    ensures ReadStringZ(d, p + j) == Ok(Parsed(s[j..], p + |s| + 1))
    decreases |s| - j
  {
    if j < |s| {
      ReadStringZFrom(d, p, s, j + 1);
      assert s[j..] == [s[j]] + s[j + 1..];
      assert d[p + j] as int as char == s[j];
    }
  }

  /** Reading a zero-terminated string gives back a string without zeros. */
  lemma ReadStringZOfStringZ(d: seq<byte>, p: nat, s: string)
    requires ByteString(s)
    requires p + |s| + 1 <= |d| && d[p..p + |s| + 1] == StringZ(s)
    ensures ReadStringZ(d, p) == Ok(Parsed(s, p + |s| + 1))
  {
    var z := StringZ(s);
    assert d[p + |s|] == z[|s|];
    forall i | 0 <= i < |s|
      ensures d[p + i] as int == s[i] as int
    {
      assert d[p + i] == z[i];
    }
    ReadStringZFrom(d, p, s, 0);
  }

  /** A growing output buffer (a BinaryWriter over a MemoryStream). */
  class ByteWriter {
    var written: seq<byte>

    constructor ()
      ensures written == []
    {
      written := [];
    }

    /** Write(long) / Write(int) / Write(uint) / Write(byte): n bytes. */
    method WriteInt(x: int, n: nat)
      modifies this
      ensures written == old(written) + Encode(x, n)
    {
      written := written + Encode(x, n);
    }

    method WriteStringNullTerminated(s: string)
      modifies this
      ensures written == old(written) + StringZ(s)
    {
      written := written + StringZ(s);
    }
  }
}

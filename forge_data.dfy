/** ForgeDataReader (FORGE/ForgeData.cs): a DataReader with three extra
    vector reads whose components are integers (int16 or byte). The reader
    owns a buffer and a position that every read advances. */
module ForgeData {
  import opened Wrappers
  import opened Bytes
  import opened Cursor

  /** The byte order a reader is opened with; little-endian unless the caller says otherwise. */
  datatype Endianness = LittleEndian | BigEndian

  /** The largest position a MemoryStream accepts (int.MaxValue). */
  const MaxStreamPosition: nat := 0x7FFF_FFFF

  datatype Vec2i = Vec2i(x: int, y: int)
  datatype Vec3i = Vec3i(x: int, y: int, z: int)
  datatype Vec4b = Vec4b(x: nat, y: nat, z: nat, w: nat)

  function Reverse(s: seq<byte>): (r: seq<byte>)
    ensures |r| == |s|
  {
    if s == [] then [] else Reverse(s[1..]) + [s[0]]
  }

  /** The int16 stored at p in the given byte order. */
  function Int16At(d: seq<byte>, p: nat, e: Endianness): (v: int)
    requires p + 2 <= |d|
    ensures -32768 <= v < 32768
  {
    var raw := if e == LittleEndian then d[p..p + 2] else Reverse(d[p..p + 2]);
    ToSigned(LeValue(raw), 2)
  }

  /** ReadVector2AsInt16: two int16s, X then Y, kept as exact integers. */
  function Vector2AsInt16(d: seq<byte>, p: nat, e: Endianness): (r: Result<Parsed<Vec2i>>)
    ensures r.Ok? <==> p + 4 <= |d|
    ensures r.Ok? ==> r.value.next == p + 4
    ensures r.Ok? ==> r.value.value == Vec2i(Int16At(d, p, e), Int16At(d, p + 2, e))
  {
    if p + 4 <= |d| then Ok(Parsed(Vec2i(Int16At(d, p, e), Int16At(d, p + 2, e)), p + 4))
    else Fail(EndOfStream)
  }

  /** ReadVector3AsInt16: three int16s in X, Y, Z stream order. */
  function Vector3AsInt16(d: seq<byte>, p: nat, e: Endianness): (r: Result<Parsed<Vec3i>>)
    ensures r.Ok? <==> p + 6 <= |d|
    ensures r.Ok? ==> r.value.next == p + 6
    ensures r.Ok? ==> r.value.value == Vec3i(Int16At(d, p, e), Int16At(d, p + 2, e), Int16At(d, p + 4, e))
  {
    if p + 6 <= |d| then Ok(Parsed(Vec3i(Int16At(d, p, e), Int16At(d, p + 2, e), Int16At(d, p + 4, e)), p + 6))
    else Fail(EndOfStream)
  }

  /** ReadVector4AsByte: four unsigned bytes X, Y, Z, W. */
  function Vector4AsByte(d: seq<byte>, p: nat): (r: Result<Parsed<Vec4b>>)
    ensures r.Ok? <==> p + 4 <= |d|
    ensures r.Ok? ==> r.value.next == p + 4
    ensures r.Ok? ==> r.value.value == Vec4b(d[p] as nat, d[p + 1] as nat, d[p + 2] as nat, d[p + 3] as nat)
  {
    if p + 4 <= |d| then Ok(Parsed(Vec4b(d[p] as nat, d[p + 1] as nat, d[p + 2] as nat, d[p + 3] as nat), p + 4))
    else Fail(EndOfStream)
  }

  /** Every int16 vector component is a sign-extended 16-bit value and every
      byte component lies in 0..255. */
  lemma ComponentRanges(d: seq<byte>, p: nat, e: Endianness)
    ensures Vector2AsInt16(d, p, e).Ok? ==>
      var v := Vector2AsInt16(d, p, e).value.value;
      -32768 <= v.x <= 32767 && -32768 <= v.y <= 32767
    ensures Vector3AsInt16(d, p, e).Ok? ==>
      var v := Vector3AsInt16(d, p, e).value.value;
      -32768 <= v.x <= 32767 && -32768 <= v.y <= 32767 && -32768 <= v.z <= 32767
    ensures Vector4AsByte(d, p).Ok? ==>
      var v := Vector4AsByte(d, p).value.value;
      v.x <= 255 && v.y <= 255 && v.z <= 255 && v.w <= 255
  {
  }

  /** In little-endian order an int16 is the two's complement of its low byte
      plus 256 times its high byte. */
  lemma LittleEndianInt16(d: seq<byte>, p: nat)
    requires p + 2 <= |d|
    ensures FromSigned(Int16At(d, p, LittleEndian), 2) == d[p] as nat + 256 * d[p + 1] as nat
  {
    var s := d[p..p + 2];
    assert s[1..][1..] == [];
    assert LeValue(s) == d[p] as nat + 256 * d[p + 1] as nat;
    assert Pow256(2) == 65536;
    SignedRoundTripBack(LeValue(s), 2);
  }

  class ForgeDataReader {
    const data: seq<byte>
    const endianness: Endianness
    var pos: nat

    /** A reader at position 0; little-endian unless told otherwise. */
    constructor (input: seq<byte>, order: Endianness := LittleEndian)
      ensures data == input && endianness == order && pos == 0
    {
      data := input;
      endianness := order;
      pos := 0;
    }

    /** ReadInt16: advances by 2, or fails at the end leaving the position. */
    method ReadInt16() returns (r: Result<int>)
      modifies this
      ensures r.Ok? <==> old(pos) + 2 <= |data|
      ensures r.Ok? ==> r.value == Int16At(data, old(pos), endianness) && pos == old(pos) + 2
      ensures r.Fail? ==> pos == old(pos)
    {
      if pos + 2 <= |data| {
        r := Ok(Int16At(data, pos, endianness));
        pos := pos + 2;
      } else {
        r := Fail(EndOfStream);
      }
    }

    /** ReadByte: advances by 1, or fails at the end leaving the position. */
    method ReadByte() returns (r: Result<nat>)
      modifies this
      ensures r.Ok? <==> old(pos) + 1 <= |data|
      ensures r.Ok? ==> r.value == data[old(pos)] as nat && pos == old(pos) + 1
      ensures r.Fail? ==> pos == old(pos)
    {
      if pos + 1 <= |data| {
        r := Ok(data[pos] as nat);
        pos := pos + 1;
      } else {
        r := Fail(EndOfStream);
      }
    }

    method ReadVector2AsInt16() returns (r: Result<Vec2i>)
      modifies this
      ensures Vector2AsInt16(data, old(pos), endianness).Ok? ==>
        r == Ok(Vector2AsInt16(data, old(pos), endianness).value.value) &&
        pos == Vector2AsInt16(data, old(pos), endianness).value.next
      ensures Vector2AsInt16(data, old(pos), endianness).Fail? ==>
        r.Fail? && pos == (if old(pos) + 2 <= |data| then old(pos) + 2 else old(pos))
    {
      var x :- ReadInt16();
      var y :- ReadInt16();
      r := Ok(Vec2i(x, y));
    }

    method ReadVector3AsInt16() returns (r: Result<Vec3i>)
      modifies this
      ensures Vector3AsInt16(data, old(pos), endianness).Ok? ==>
        r == Ok(Vector3AsInt16(data, old(pos), endianness).value.value) &&
        pos == Vector3AsInt16(data, old(pos), endianness).value.next
      ensures Vector3AsInt16(data, old(pos), endianness).Fail? ==>
        r.Fail? &&
        pos == (if old(pos) + 4 <= |data| then old(pos) + 4
                else if old(pos) + 2 <= |data| then old(pos) + 2 else old(pos))
    {
      var x :- ReadInt16();
      var y :- ReadInt16();
      var z :- ReadInt16();
      r := Ok(Vec3i(x, y, z));
    }

    method ReadVector4AsByte() returns (r: Result<Vec4b>)
      modifies this
      ensures Vector4AsByte(data, old(pos)).Ok? ==>
        r == Ok(Vector4AsByte(data, old(pos)).value.value) && pos == old(pos) + 4
      ensures Vector4AsByte(data, old(pos)).Fail? ==>
        r.Fail? && pos == (if old(pos) <= |data| then |data| else old(pos))
    {
      var x :- ReadByte();
      var y :- ReadByte();
      var z :- ReadByte();
      var w :- ReadByte();
      r := Ok(Vec4b(x, y, z, w));
    }

    /** `_ = ReadInt16()` and the like, n bytes' worth, values dropped:
        fails at the end of the data. */
    method SkipBytes(n: nat) returns (r: Result<()>)
      modifies this
      ensures r.Ok? <==> old(pos) + n <= |data|
      ensures r.Ok? ==> pos == old(pos) + n
    {
      if pos + n > |data| {
        return Fail(EndOfStream);
      }
      pos := pos + n;
      r := Ok(());
    }

    /** `BaseStream.Position += n`: a MemoryStream refuses a position beyond
        int.MaxValue, and accepts any other, even past the end. */
    method Jump(n: nat) returns (r: Result<()>)
      modifies this
      ensures r.Ok? <==> old(pos) + n <= MaxStreamPosition
      ensures r.Ok? ==> pos == old(pos) + n
    {
      if pos + n > MaxStreamPosition {
        return Fail(PositionOutOfRange);
      }
      pos := pos + n;
      r := Ok(());
    }
  }
}

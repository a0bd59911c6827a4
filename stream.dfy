/** A .NET BinaryReader over a MemoryStream: a fixed buffer and a position
    that reads advance. Fixed-width reads past the end fail (the
    EndOfStreamException) and leave the position where it was; ReadBytes
    returns what is left when fewer bytes remain than were asked for. */
module Stream {
  import opened Wrappers
  import opened Bytes
  import opened Cursor

  class ByteReader {
    const data: seq<byte>
    var position: nat

    constructor (input: seq<byte>)
      ensures data == input && position == 0
    {
      data := input;
      position := 0;
    }

    method ReadByte() returns (r: Result<nat>)
      modifies this
      ensures old(position) + 1 <= |data| ==>
        r == Ok(UIntAt(data, old(position), 1)) && position == old(position) + 1
      ensures old(position) + 1 > |data| ==> r == Fail(EndOfStream) && position == old(position)
    {
      var v := ReadU8(data, position);
      if v.Ok? {
        r := Ok(v.value.value);
        position := v.value.next;
      } else {
        r := Fail(v.error);
      }
    }

    method ReadInt16() returns (r: Result<int>)
      modifies this
      ensures old(position) + 2 <= |data| ==>
        r == Ok(IntAt(data, old(position), 2)) && position == old(position) + 2
      ensures old(position) + 2 > |data| ==> r == Fail(EndOfStream) && position == old(position)
    {
      var v := ReadI16(data, position);
      if v.Ok? {
        r := Ok(v.value.value);
        position := v.value.next;
      } else {
        r := Fail(v.error);
      }
    }

    method ReadInt32() returns (r: Result<int>)
      modifies this
      ensures old(position) + 4 <= |data| ==>
        r == Ok(IntAt(data, old(position), 4)) && position == old(position) + 4
      ensures old(position) + 4 > |data| ==> r == Fail(EndOfStream) && position == old(position)
    {
      var v := ReadI32(data, position);
      if v.Ok? {
        r := Ok(v.value.value);
        position := v.value.next;
      } else {
        r := Fail(v.error);
      }
    }

    method ReadInt64() returns (r: Result<int>)
      modifies this
      ensures old(position) + 8 <= |data| ==>
        r == Ok(IntAt(data, old(position), 8)) && position == old(position) + 8
      ensures old(position) + 8 > |data| ==> r == Fail(EndOfStream) && position == old(position)
    {
      var v := ReadI64(data, position);
      if v.Ok? {
        r := Ok(v.value.value);
        position := v.value.next;
      } else {
        r := Fail(v.error);
      }
    }

    /** BinaryReader.ReadBytes: a negative count fails, a count past the end
        returns only the bytes that are left. */
    method ReadBytes(count: int) returns (r: Result<seq<byte>>)
      modifies this
      ensures ReadBytesClamped(data, old(position), count).Ok? ==>
        r == Ok(ReadBytesClamped(data, old(position), count).value.value) &&
        position == ReadBytesClamped(data, old(position), count).value.next
      ensures ReadBytesClamped(data, old(position), count).Fail? ==> r == Fail(NegativeLength) && position == old(position)
    {
      var v := ReadBytesClamped(data, position, count);
      if v.Ok? {
        r := Ok(v.value.value);
        position := v.value.next;
      } else {
        r := Fail(v.error);
      }
    }

    method ReadUInt32() returns (r: Result<nat>)
      modifies this
      ensures old(position) + 4 <= |data| ==>
        r == Ok(UIntAt(data, old(position), 4)) && position == old(position) + 4
      ensures old(position) + 4 > |data| ==> r == Fail(EndOfStream) && position == old(position)
    {
      var v := ReadU32(data, position);
      if v.Ok? {
        r := Ok(v.value.value);
        position := v.value.next;
      } else {
        r := Fail(v.error);
      }
    }

    method ReadUInt64() returns (r: Result<nat>)
      modifies this
      ensures old(position) + 8 <= |data| ==>
        r == Ok(UIntAt(data, old(position), 8)) && position == old(position) + 8
      ensures old(position) + 8 > |data| ==> r == Fail(EndOfStream) && position == old(position)
    {
      var v := ReadU64(data, position);
      if v.Ok? {
        r := Ok(v.value.value);
        position := v.value.next;
      } else {
        r := Fail(v.error);
      }
    }

    method ReadStringNullTerminated() returns (r: Result<string>)
      modifies this
      ensures ReadStringZ(data, old(position)).Ok? ==>
        r == Ok(ReadStringZ(data, old(position)).value.value) &&
        position == ReadStringZ(data, old(position)).value.next
      ensures ReadStringZ(data, old(position)).Fail? ==> r == Fail(EndOfStream) && position == old(position)
    {
      var v := ReadStringZ(data, position);
      if v.Ok? {
        r := Ok(v.value.value);
        position := v.value.next;
      } else {
        r := Fail(v.error);
      }
    }

    /** `BaseStream.Position = x`: a negative position throws; any other
        position is accepted, even one past the end. */
    method SetPosition(x: int) returns (r: Result<()>)
      modifies this
      ensures x < 0 ==> r == Fail(NegativeLength) && position == old(position)
      ensures x >= 0 ==> r == Ok(()) && position == x
    {
      if x < 0 {
        return Fail(NegativeLength);
      }
      position := x;
      r := Ok(());
    }
  }
}

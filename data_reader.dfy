/** The CodeX DataReader over a MemoryStream, as the resource loaders use it:
    a fixed buffer and a position. Every read is one of the Cursor readers
    applied at the position; a read that fails leaves the position alone,
    and `Position += n` never fails. */
module DataStream {
  import opened Wrappers
  import opened Bytes
  import opened Cursor

  class DataReader {
    const data: seq<byte>
    var position: nat

    constructor (input: seq<byte>)
      ensures data == input && position == 0
    {
      data := input;
      position := 0;
    }

    /** Reads one record with the given reader and moves past it. */
    method Read<T>(item: (seq<byte>, nat) -> Result<Parsed<T>>) returns (r: Result<T>)
      modifies this
      ensures item(data, old(position)).Ok? ==>
        r == Ok(item(data, old(position)).value.value) && position == item(data, old(position)).value.next
      ensures item(data, old(position)).Fail? ==>
        r == Fail(item(data, old(position)).error) && position == old(position)
    {
      var x := item(data, position);
      if x.Ok? {
        r := Ok(x.value.value);
        position := x.value.next;
      } else {
        r := Fail(x.error);
      }
    }

    /** `new T[n]` filled by n reads in a row, as the resource loaders' array
        loops do; a failing read stops the loop where it failed. */
    method ReadArray<T>(n: nat, item: (seq<byte>, nat) -> Result<Parsed<T>>, init: T) returns (r: Result<array<T>>)
      modifies this
      ensures r.Ok? <==> ReadMany(data, old(position), n, item).Ok?
      ensures r.Ok? ==>
        && fresh(r.value) && r.value[..] == ReadMany(data, old(position), n, item).value.value
        && position == ReadMany(data, old(position), n, item).value.next
    {
      ghost var start := position;
      var arr := new T[n](_ => init);
      ghost var pos: seq<nat> := [position];
      var i := 0;
      while i < n
        invariant i <= n && |pos| == i + 1 && pos[0] == start && pos[i] == position
        invariant forall k :: 0 <= k < i ==> ReadsTo(item, data, pos[k], arr[k], pos[k + 1])
        modifies arr, this
      {
        var x := item(data, position);
        if x.Fail? {
          ReadManyFailAfter(data, pos, arr[..i], n - i, item);
          return Fail(x.error);
        }
        arr[i] := x.value.value;
        position := x.value.next;
        pos := pos + [position];
        i := i + 1;
      }
      ReadManySteps(data, pos, arr[..], item);
      r := Ok(arr);
    }

    /** A 32-bit count, then `new T[count]` filled by that many reads. */
    method ReadCountedArray<T>(item: (seq<byte>, nat) -> Result<Parsed<T>>, init: T) returns (r: Result<array<T>>)
      modifies this
      ensures r.Fail? ==> ReadCounted(data, old(position), item).Fail?
      ensures r.Ok? ==> fresh(r.value) && ReadCounted(data, old(position), item) == Ok(Parsed(r.value[..], position))
    {
      ghost var p := position;
      var n :- Read(ReadCount);
      r := ReadArray(n, item, init);
      if r.Fail? {
        ReadCountedFails(data, p, n, item);
      } else {
        ReadCountedOf(data, p, n, r.value[..], position, item);
      }
    }

    /** ReadBytes(n): exactly n bytes. */
    method ReadData(n: int) returns (r: Result<seq<byte>>)
      modifies this
      ensures ReadBytes(data, old(position), n).Ok? ==>
        r == Ok(ReadBytes(data, old(position), n).value.value) && position == ReadBytes(data, old(position), n).value.next
      ensures ReadBytes(data, old(position), n).Fail? ==> r.Fail? && position == old(position)
    {
      var x := ReadBytes(data, position, n);
      if x.Fail? {
        return Fail(x.error);
      }
      r := Ok(x.value.value);
      position := x.value.next;
    }

    /** `BaseStream.Position += delta`; fails only below zero. */
    method Skip(delta: int) returns (r: Result<()>)
      modifies this
      ensures Seek(old(position), delta).Ok? ==> r.Ok? && position == old(position) + delta
      ensures Seek(old(position), delta).Fail? ==> r == Fail(NegativeLength) && position == old(position)
    {
      var q :- Seek(position, delta);
      position := q;
      r := Ok(());
    }

    /** `BaseStream.Position = x`; a negative x fails. */
    method SetPosition(x: int) returns (r: Result<()>)
      modifies this
      ensures x >= 0 ==> r.Ok? && position == x
      ensures x < 0 ==> r == Fail(NegativeLength) && position == old(position)
    {
      if x < 0 {
        return Fail(NegativeLength);
      }
      position := x;
      r := Ok(());
    }

    /** `new T[slots]` of nulls, then `count` iterations that each store the
        next record read; the store past the end throws. */
    method ReadIntoArray<T>(slots: nat, count: int, item: (seq<byte>, nat) -> Result<Parsed<T>>)
      returns (r: Result<array<Option<T>>>)
      modifies this
      ensures r.Fail? ==> ReadIntoSlots(data, old(position), slots, count, item).Fail?
      ensures r.Ok? ==> fresh(r.value) && ReadIntoSlots(data, old(position), slots, count, item) == Ok(Parsed(r.value[..], position))
    {
      ghost var start := position;
      ghost var filled := SlotsFilled(slots, count);
      var arr := new Option<T>[slots](_ => None);
      ghost var pos: seq<nat> := [start];
      ghost var vals: seq<T> := [];
      var i := 0;
      while i < count
        invariant i == |vals| <= filled && |pos| == i + 1 && pos[0] == start && pos[i] == position
        invariant forall k :: 0 <= k < i ==> ReadsTo(item, data, pos[k], vals[k], pos[k + 1])
        invariant arr[..] == Padded(vals, slots)
        modifies arr, this
      {
        if i == arr.Length {
          ReadManySteps(data, pos, vals, item);
          return Fail(IndexOutOfRange);
        }
        var x := item(data, position);
        if x.Fail? {
          ReadManyFailAfter(data, pos, vals, filled - i, item);
          return Fail(x.error);
        }
        arr[i] := Some(x.value.value);
        position := x.value.next;
        vals := vals + [x.value.value];
        pos := pos + [position];
        i := i + 1;
      }
      ReadManySteps(data, pos, vals, item);
      r := Ok(arr);
    }
  }
}

/** ForgeCellData (Resources/ForgeCellData.cs): a grid cell's list of object
    references. The resource header is always read (and not kept), 0xE bytes
    are skipped, then a count-prefixed array of unchecked file references and
    two trailing integers follow. */
module CellData {
  import opened Wrappers
  import opened Bytes
  import opened Cursor
  import opened ForgeObjects
  import opened DataStream

  /** The fields of a ForgeCellData once Read has finished. */
  datatype Cell = Cell(objects: seq<FileReference>, numberOfObjectsToActivate: int, ownerRelatedIndex: int)

  /** ForgeCellData.Read as a function of the bytes and the start position:
      the header, 0xE skipped bytes, then the body. */
  function ParseCellData(d: seq<byte>, p: nat): (r: Result<Parsed<Cell>>)
  {
    var h :- ReadResourceHeader(d, p);
    ReadCellBody(d, h.next + 0xE)
  }

  /** The part of a cell after the skipped bytes: the counted objects and the
      two trailing integers. */
  function ReadCellBody(d: seq<byte>, q: nat): (r: Result<Parsed<Cell>>)
  {
    var objects :- ReadCounted(d, q, ReadReference);
    var activate :- ReadI32(d, objects.next);
    var owner :- ReadI64(d, activate.next);
    Ok(Parsed(Cell(objects.value, activate.value, owner.value), owner.next))
  }

  /** After the header, a cell consumes 14 skipped bytes, the count, ten bytes
      per object and the 4 + 8 trailer bytes; the objects are the count's
      worth of unchecked references read right after the count. */
  lemma CellDataLayout(d: seq<byte>, p: nat)
    requires ParseCellData(d, p).Ok?
    ensures var h := ReadResourceHeader(d, p).value.value;
      var c := ParseCellData(d, p).value;
      var n := |c.value.objects|;
      var start := p + 12 + h.nameSize + 14;
      && ReadCount(d, start) == Ok(Parsed(n, start + 4))
      && ReadMany(d, start + 4, n, ReadReference) == Ok(Parsed(c.value.objects, start + 4 + 10 * n))
      && c.next == start + 4 + 10 * n + 12
  {
    var h := ReadResourceHeader(d, p).value;
    var start := h.next + 14;
    var objects := ReadCounted(d, start, ReadReference).value;
    var activate := ReadI32(d, objects.next).value;
    var owner := ReadI64(d, activate.next).value;
    ReadManyAdvance(d, start + 4, |objects.value|, ReadReference, 10);
  }

  /** The C# object: Read fills the fields and the Objects array in place. */
  class ForgeCellData {
    var numberOfObjects: int
    var objects: array?<FileReference>
    var numberOfObjectsToActivate: int
    var ownerRelatedIndex: int

    constructor ()
      ensures numberOfObjects == 0 && objects == null
      ensures numberOfObjectsToActivate == 0 && ownerRelatedIndex == 0
    {
      numberOfObjects := 0;
      objects := null;
      numberOfObjectsToActivate := 0;
      ownerRelatedIndex := 0;
    }

    /** The fields as a Cell value. */
    function Fields(): Cell
      reads this, objects
      requires objects != null
    {
      Cell(objects[..], numberOfObjectsToActivate, ownerRelatedIndex)
    }

    method Read(reader: DataReader) returns (r: Result<()>)
      modifies this, reader
      ensures r.Fail? ==> ParseCellData(reader.data, old(reader.position)).Fail?
      ensures r.Ok? ==>
        && objects != null && fresh(objects) && numberOfObjects == objects.Length
        && ParseCellData(reader.data, old(reader.position)) == Ok(Parsed(Fields(), reader.position))
    {
      var h :- reader.Read(ReadResourceHeader);
      var _ := reader.Skip(0xE);
      r := ReadBody(reader);
    }

    /** Everything Read does after the skipped bytes. */
    method ReadBody(reader: DataReader) returns (r: Result<()>)
      modifies this, reader
      ensures r.Fail? ==> ReadCellBody(reader.data, old(reader.position)).Fail?
      ensures r.Ok? ==>
        && objects != null && fresh(objects) && numberOfObjects == objects.Length
        && ReadCellBody(reader.data, old(reader.position)) == Ok(Parsed(Fields(), reader.position))
    {
      var arr :- reader.ReadCountedArray(ReadReference, FileReference(0, 0, 0));
      var activate :- reader.Read(ReadI32);
      var owner :- reader.Read(ReadI64);
      numberOfObjects, objects := arr.Length, arr;
      numberOfObjectsToActivate, ownerRelatedIndex := activate, owner;
      r := Ok(());
    }
  }
}

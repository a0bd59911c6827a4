/** The small self-describing headers that prefix almost every FORGE record
    (FORGE/ForgeFile.cs): file references, base objects, objects and the two
    pointer kinds, plus the 12-byte resource header followed by a name.
    Fields that a reader does not reach keep their C# default, zero. */
module ForgeObjects {
  import opened Wrappers
  import opened Bytes
  import opened Cursor

  /** ForgeFileReference: a count byte, a managed flag byte and a file ID. */
  datatype FileReference = FileReference(num: nat, isManaged: nat, fileId: int)

  /** ForgeBaseObject: three unsigned 32-bit words. */
  datatype BaseObject = BaseObject(baseId: nat, unknown4: nat, unknown8: nat)

  /** ForgeObject: a count byte followed by a base object. */
  datatype ForgeObject = ForgeObject(num: nat, base: BaseObject)

  /** ForgeBaseObjectPtr: a file reference followed by the file type tag. */
  datatype BaseObjectPtr = BaseObjectPtr(reference: FileReference, fileType: nat)

  /** ForgeObjectPtr: a count byte and a file ID (IsManagedObject is never read). */
  datatype ObjectPtr = ObjectPtr(num: nat, fileId: int)

  /** ForgeDataHeader: resource type tag, file size, name length and name. */
  datatype ResourceHeader = ResourceHeader(resourceType: nat, fileSize: int, nameSize: int, fileName: string)

  const NoBase := BaseObject(0, 0, 0)

  /** ForgeFileReference.Read: with `check`, a nonzero first byte ends the record. */
  function ReadFileReference(d: seq<byte>, p: nat, check: bool): (r: Result<Parsed<FileReference>>)
    ensures r.Ok? <==> p + 1 <= |d| && ((check && d[p] != 0) || p + 10 <= |d|)
    ensures r.Ok? ==> r.value.value.num == d[p] as nat
    ensures r.Ok? ==> r.value.next == p + (if check && d[p] != 0 then 1 else 10)
    ensures r.Ok? && check && d[p] != 0 ==> r.value.value == FileReference(d[p] as nat, 0, 0)
  {
    var num :- ReadU8(d, p);
    if check && num.value != 0 then Ok(Parsed(FileReference(num.value, 0, 0), num.next))
    else
      var managed :- ReadU8(d, num.next);
      var id :- ReadI64(d, managed.next);
      Ok(Parsed(FileReference(num.value, managed.value, id.value), id.next))
  }

  /** ForgeBaseObject.Read: always 12 bytes. */
  function ReadBaseObject(d: seq<byte>, p: nat): (r: Result<Parsed<BaseObject>>)
    ensures r.Ok? <==> p + 12 <= |d|
    ensures r.Ok? ==> r.value.next == p + 12
  {
    var a :- ReadU32(d, p);
    var b :- ReadU32(d, a.next);
    var c :- ReadU32(d, b.next);
    Ok(Parsed(BaseObject(a.value, b.value, c.value), c.next))
  }

  /** ForgeObject.Read: with `check`, a count byte of 3 ends the record. */
  function ReadForgeObject(d: seq<byte>, p: nat, check: bool): (r: Result<Parsed<ForgeObject>>)
    ensures r.Ok? <==> p + 1 <= |d| && ((check && d[p] == 3) || p + 13 <= |d|)
    ensures r.Ok? ==> r.value.value.num == d[p] as nat
    ensures r.Ok? ==> r.value.next == p + (if check && d[p] == 3 then 1 else 13)
  {
    var num :- ReadU8(d, p);
    if check && num.value == 3 then Ok(Parsed(ForgeObject(3, NoBase), num.next))
    else
      var b :- ReadBaseObject(d, num.next);
      Ok(Parsed(ForgeObject(num.value, b.value), b.next))
  }

  /** ForgeBaseObjectPtr.Read: with `check` and a nonzero first byte, the
      position moves by `newOffset` and FileType is left unset. */
  function ReadBaseObjectPtr(d: seq<byte>, p: nat, check: bool, newOffset: int): (r: Result<Parsed<BaseObjectPtr>>)
    ensures r.Ok? <==> (p + 1 <= |d| &&
      (if check && d[p] != 0 then 1 + p + newOffset >= 0 else p + 14 <= |d|))
    ensures r.Ok? ==> r.value.value.reference.num == d[p] as nat
    ensures r.Ok? ==> r.value.next == p + (if check && d[p] != 0 then 1 + newOffset else 14)
    ensures r.Ok? && check && d[p] != 0 ==> r.value.value.fileType == 0
  {
    var fr :- ReadFileReference(d, p, check);
    if check && fr.value.num != 0 then
      var q :- Seek(fr.next, newOffset);
      Ok(Parsed(BaseObjectPtr(fr.value, 0), q))
    else
      var t :- ReadU32(d, fr.next);
      Ok(Parsed(BaseObjectPtr(fr.value, t.value), t.next))
  }

  /** ForgeObjectPtr.Read: with `check`, a count byte of 0 moves the position
      by `newOffset` and one of 3 ends the record; otherwise a file ID follows. */
  function ReadObjectPtr(d: seq<byte>, p: nat, check: bool, newOffset: int): (r: Result<Parsed<ObjectPtr>>)
    ensures r.Ok? <==> (p + 1 <= |d| &&
      (if check && d[p] == 0 then 1 + p + newOffset >= 0
       else (check && d[p] == 3) || p + 9 <= |d|))
    ensures r.Ok? ==> r.value.value.num == d[p] as nat
    ensures r.Ok? ==> (r.value.next ==
      p + (if check && d[p] == 0 then 1 + newOffset else if check && d[p] == 3 then 1 else 9))
  {
    var num :- ReadU8(d, p);
    if check && num.value == 0 then
      var q :- Seek(num.next, newOffset);
      Ok(Parsed(ObjectPtr(0, 0), q))
    else if check && num.value == 3 then Ok(Parsed(ObjectPtr(3, 0), num.next))
    else
      var id :- ReadI64(d, num.next);
      Ok(Parsed(ObjectPtr(num.value, id.value), id.next))
  }

  /** The 12-byte resource header (tag, size, name length) and the name. */
  function ReadResourceHeader(d: seq<byte>, p: nat): (r: Result<Parsed<ResourceHeader>>)
    ensures r.Ok? ==> r.value.value.nameSize >= 0
    ensures r.Ok? ==> r.value.next == p + 12 + r.value.value.nameSize
    ensures r.Ok? ==> |r.value.value.fileName| == r.value.value.nameSize
    ensures r.Ok? ==> ReadU32(d, p).Ok? && r.value.value.resourceType == ReadU32(d, p).value.value
  {
    var tag :- ReadU32(d, p);
    var size :- ReadI32(d, tag.next);
    var nameSize :- ReadI32(d, size.next);
    var name :- ReadChars(d, nameSize.next, nameSize.value);
    Ok(Parsed(ResourceHeader(tag.value, size.value, nameSize.value, name.value), name.next))
  }

  /** A file reference read without check: always 10 bytes. */
  function ReadReference(d: seq<byte>, p: nat): (r: Result<Parsed<FileReference>>)
    ensures r.Ok? <==> p + 10 <= |d|
    ensures r.Ok? ==> r.value.next == p + 10
  {
    ReadFileReference(d, p, false)
  }

  /** A base object pointer read without check: always 14 bytes. */
  function ReadPtr(d: seq<byte>, p: nat): (r: Result<Parsed<BaseObjectPtr>>)
    ensures r.Ok? <==> p + 14 <= |d|
    ensures r.Ok? ==> r.value.next == p + 14
  {
    ReadBaseObjectPtr(d, p, false, 0)
  }

  /** A ForgeObject read without check: always 13 bytes. */
  function ReadObject(d: seq<byte>, p: nat): (r: Result<Parsed<ForgeObject>>)
    ensures r.Ok? <==> p + 13 <= |d|
    ensures r.Ok? ==> r.value.next == p + 13
  {
    ReadForgeObject(d, p, false)
  }

  /** A ForgeObjectPtr read without check: always 9 bytes. */
  function ReadHandle(d: seq<byte>, p: nat): (r: Result<Parsed<ObjectPtr>>)
    ensures r.Ok? <==> p + 9 <= |d|
    ensures r.Ok? ==> r.value.next == p + 9
  {
    ReadObjectPtr(d, p, false, 0)
  }

  /** The resource header that several readers take only when `skipHeader`
      is false; a skipped header reads nothing. */
  function ReadOptionalHeader(d: seq<byte>, p: nat, skipHeader: bool): (r: Result<Parsed<Option<ResourceHeader>>>)
    ensures skipHeader ==> r == Ok(Parsed(None, p))
    ensures !skipHeader ==> (r.Ok? <==> ReadResourceHeader(d, p).Ok?)
    ensures !skipHeader && r.Ok? ==>
      r.value == Parsed(Some(ReadResourceHeader(d, p).value.value), ReadResourceHeader(d, p).value.next)
  {
    if skipHeader then Ok(Parsed(None, p))
    else
      var h :- ReadResourceHeader(d, p);
      Ok(Parsed(Some(h.value), h.next))
  }

  /** Unchecked headers are flat layouts; these are their field sequences. */
  const BaseObjectL: Layout := [U32, U32, U32]
  const FileReferenceL: Layout := [U8, U8, I64]
  const ForgeObjectL: Layout := [U8, U32, U32, U32]
  const BaseObjectPtrL: Layout := [U8, U8, I64, U32]
  const ObjectPtrL: Layout := [U8, I64]
  const Vec2L: Layout := [F32, F32]
  const Vec3L: Layout := [F32, F32, F32]
  const Vec4L: Layout := [F32, F32, F32, F32]
  const Mat4L: Layout := [F32, F32, F32, F32, F32, F32, F32, F32, F32, F32, F32, F32, F32, F32, F32, F32]

  /** The unchecked readers consume exactly their layouts' sizes. */
  lemma HeaderLayoutSizes()
    ensures Size(BaseObjectL) == 12 && Size(FileReferenceL) == 10 && Size(ForgeObjectL) == 13
    ensures Size(BaseObjectPtrL) == 14 && Size(ObjectPtrL) == 9
    ensures Size(Vec2L) == 8 && Size(Vec3L) == 12 && Size(Vec4L) == 16 && Size(Mat4L) == 64
  {
  }

  /** ReadBoolean: one byte, true when it is not zero. */
  function ReadFlag(d: seq<byte>, p: nat): (r: Result<Parsed<bool>>)
    ensures r.Ok? <==> p + 1 <= |d|
    ensures r.Ok? ==> r.value.next == p + 1 && (r.value.value <==> d[p] != 0)
  {
    ReadBool(d, p)
  }

  /** n booleans in a row, one byte each. */
  function ReadFlags(d: seq<byte>, p: nat, n: nat): (r: Result<Parsed<seq<bool>>>)
    ensures r.Ok? <==> n == 0 || p + n <= |d|
    ensures r.Ok? ==> r.value.next == p + n && |r.value.value| == n
  {
    ReadManyFits(d, p, n, ReadFlag, 1);
    ReadMany(d, p, n, ReadFlag)
  }

  /** n ReadSingle calls in a row, each kept as its raw 32-bit word. */
  function ReadFloats(d: seq<byte>, p: nat, n: nat): (r: Result<Parsed<seq<nat>>>)
    ensures r.Ok? <==> n == 0 || p + 4 * n <= |d|
    ensures r.Ok? ==> r.value.next == p + 4 * n && |r.value.value| == n
  {
    ReadManyFits(d, p, n, ReadU32, 4);
    ReadMany(d, p, n, ReadU32)
  }

  /** n unchecked file references in a row, ten bytes each. */
  function ReadReferences(d: seq<byte>, p: nat, n: nat): (r: Result<Parsed<seq<FileReference>>>)
    ensures r.Ok? <==> n == 0 || p + 10 * n <= |d|
    ensures r.Ok? ==> r.value.next == p + 10 * n && |r.value.value| == n
  {
    ReadManyFits(d, p, n, ReadReference, 10);
    ReadMany(d, p, n, ReadReference)
  }

  /** ReadMatrix4x4: sixteen raw float words, 64 bytes. */
  function ReadMatrix(d: seq<byte>, p: nat): (r: Result<Parsed<seq<nat>>>)
    ensures r.Ok? <==> p + 64 <= |d|
    ensures r.Ok? ==> r.value.next == p + 64 && |r.value.value| == 16
  {
    ReadFloats(d, p, 16)
  }

  /** ReadVector3: three raw float words, 12 bytes. */
  function ReadVector3(d: seq<byte>, p: nat): (r: Result<Parsed<seq<int>>>)
    ensures r.Ok? <==> p + 12 <= |d|
    ensures r.Ok? ==> r.value.next == p + 12 && |r.value.value| == 3
  {
    ReachOfGapless(Vec3L);
    ReadFields(d, p, Vec3L)
  }

  /** ReadVector4: four raw float words, 16 bytes. */
  function ReadVector4(d: seq<byte>, p: nat): (r: Result<Parsed<seq<int>>>)
    ensures r.Ok? <==> p + 16 <= |d|
    ensures r.Ok? ==> r.value.next == p + 16 && |r.value.value| == 4
  {
    ReachOfGapless(Vec4L);
    ReadFields(d, p, Vec4L)
  }
}

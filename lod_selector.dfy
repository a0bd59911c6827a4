/** ForgeLODSelector (Resources/ForgeLODSelector.cs): an optional resource
    header, a 25-byte prefix, exactly five LOD descriptors and an 11-byte
    trailer of flags. Each descriptor has a 53-byte fixed part followed by a
    counted array of material references and a counted array of bone IDs. */
module LodSelector {
  import opened Wrappers
  import opened Bytes
  import opened Cursor
  import opened ForgeObjects
  import opened DataStream

  const DescriptorCount: nat := 5

  /** SwitchDistance, TransitionZoneSide, FadeTimeMultiplier (raw float
      words), FakeType, Optional, ForceIncludeInFake, ShaderLOD. */
  const DescriptorScalarsL: Layout := [F32, F32, F32, I32, Flag, Flag, I32]

  /** DescriptorMask, Generated, HasHighOverdraw, MaxCullingDistance,
      EstimatedMemoryUsage. */
  const SelectorScalarsL: Layout := [U8, Flag, Flag, F32, U32]

  /** TransitionToEmptyLOD … ExcludeFromGridLODDistance (ten flags), then
      RenderOrderPriorityHint. */
  const TrailerL: Layout := [Flag, Flag, Flag, Flag, Flag, Flag, Flag, Flag, Flag, Flag, U8]

  /** The part of a descriptor before its material count. */
  datatype DescriptorHead = DescriptorHead(base: BaseObject, obj: FileReference, scalars: seq<int>, streamObjectHandle: ObjectPtr)

  datatype LodDescriptor = LodDescriptor(head: DescriptorHead, materials: seq<FileReference>, boneIds: seq<nat>)
  {
    /** The mesh the descriptor names directly. */
    function Object(): FileReference { head.obj }
    /** The mesh the descriptor names through its stream handle. */
    function StreamObjectHandle(): ObjectPtr { head.streamObjectHandle }
  }

  const NoDescriptor := LodDescriptor(DescriptorHead(NoBase, FileReference(0, 0, 0), [], ObjectPtr(0, 0)), [], [])

  function ReadDescriptorHead(d: seq<byte>, p: nat): (r: Result<Parsed<DescriptorHead>>)
  {
    var base :- ReadBaseObject(d, p);
    var obj :- ReadReference(d, base.next);
    var scalars :- ReadFields(d, obj.next, DescriptorScalarsL);
    var handle :- ReadObjectPtr(d, scalars.next, false, 0);
    Ok(Parsed(DescriptorHead(base.value, obj.value, scalars.value, handle.value), handle.next))
  }

  /** LODDescriptor.Read as a function of the bytes and the position. */
  function ReadDescriptor(d: seq<byte>, p: nat): (r: Result<Parsed<LodDescriptor>>)
  {
    var head :- ReadDescriptorHead(d, p);
    var arrays :- ReadDescriptorArrays(d, head.next);
    Ok(Parsed(LodDescriptor(head.value, arrays.value.0, arrays.value.1), arrays.next))
  }

  /** The material references and the bone IDs, each count-prefixed. */
  function ReadDescriptorArrays(d: seq<byte>, q: nat): (r: Result<Parsed<(seq<FileReference>, seq<nat>)>>)
  {
    var materials :- ReadCounted(d, q, ReadReference);
    var bones :- ReadCounted(d, materials.next, U32Item);
    Ok(Parsed((materials.value, bones.value), bones.next))
  }

  /** The fixed part of a descriptor is 53 bytes and is read exactly when
      they are there. */
  lemma DescriptorHeadLayout(d: seq<byte>, p: nat)
    ensures ReadDescriptorHead(d, p).Ok? <==> p + 53 <= |d|
    ensures ReadDescriptorHead(d, p).Ok? ==> ReadDescriptorHead(d, p).value.next == p + 53
    ensures ReadDescriptorHead(d, p).Ok? ==> |ReadDescriptorHead(d, p).value.value.scalars| == 7
  {
    assert Size(DescriptorScalarsL) == 22 && Count(DescriptorScalarsL) == 7;
    ReachOfGapless(DescriptorScalarsL);
  }

  /** The materials and bone IDs are count-prefixed arrays, each of exactly
      its count's length, ending after 4 + 10 bytes per material and 4 + 4
      bytes per bone. */
  lemma ArraysLayout(d: seq<byte>, m: nat)
    requires ReadDescriptorArrays(d, m).Ok?
    ensures var x := ReadDescriptorArrays(d, m).value;
      var b := m + 4 + 10 * |x.value.0|;
      && ReadCount(d, m) == Ok(Parsed(|x.value.0|, m + 4))
      && ReadCount(d, b) == Ok(Parsed(|x.value.1|, b + 4))
      && x.next == b + 4 + 4 * |x.value.1|
  {
    ReadCountedAdvance(d, m, ReadReference, 10);
    var b := ReadCounted(d, m, ReadReference).value.next;
    ReadCountedAdvance(d, b, U32Item, 4);
  }

  /** A descriptor is its 53-byte fixed part followed by the two arrays,
      laid out as ArraysLayout states. */
  lemma DescriptorArrays(d: seq<byte>, p: nat)
    requires ReadDescriptor(d, p).Ok?
    ensures ReadDescriptorArrays(d, p + 53).Ok?
    ensures ReadDescriptor(d, p).value.value.materials == ReadDescriptorArrays(d, p + 53).value.value.0
    ensures ReadDescriptor(d, p).value.value.boneIds == ReadDescriptorArrays(d, p + 53).value.value.1
    ensures ReadDescriptor(d, p).value.next == ReadDescriptorArrays(d, p + 53).value.next
  {
    DescriptorHeadLayout(d, p);
  }

  /** The prefix after the header is 25 bytes: the pointer and five scalars. */
  function ReadPrefix(d: seq<byte>, p: nat): (r: Result<Parsed<(BaseObjectPtr, seq<int>)>>)
  {
    var ptr :- ReadPtr(d, p);
    var scalars :- ReadFields(d, ptr.next, SelectorScalarsL);
    Ok(Parsed((ptr.value, scalars.value), scalars.next))
  }

  lemma PrefixLayout(d: seq<byte>, p: nat)
    ensures ReadPrefix(d, p).Ok? <==> p + 25 <= |d|
    ensures ReadPrefix(d, p).Ok? ==> ReadPrefix(d, p).value.next == p + 25
  {
    assert Size(SelectorScalarsL) == 11;
    ReachOfGapless(SelectorScalarsL);
  }

  function ReadTrailer(d: seq<byte>, p: nat): (r: Result<Parsed<seq<int>>>)
  {
    ReadFields(d, p, TrailerL)
  }

  /** The trailer is 11 bytes: ten flags and a byte. */
  lemma TrailerLayout(d: seq<byte>, p: nat)
    ensures ReadFields(d, p, TrailerL).Ok? <==> p + 11 <= |d|
    ensures ReadFields(d, p, TrailerL).Ok? ==>
      ReadFields(d, p, TrailerL).value.next == p + 11 && |ReadFields(d, p, TrailerL).value.value| == 11
  {
    assert Size(TrailerL) == 11 && Count(TrailerL) == 11;
    ReachOfGapless(TrailerL);
  }

  /** The five descriptors, in order. */
  function ReadDescriptors(d: seq<byte>, p: nat): (r: Result<Parsed<seq<LodDescriptor>>>)
    ensures r.Ok? ==> |r.value.value| == DescriptorCount
  {
    ReadMany(d, p, DescriptorCount, ReadDescriptor)
  }

  datatype Selector = Selector(ptr: BaseObjectPtr, scalars: seq<int>, descriptors: seq<LodDescriptor>, trailer: seq<int>)

  /** Everything after the optional header. */
  function ReadSelectorBody(d: seq<byte>, q: nat): (r: Result<Parsed<Selector>>)
  {
    var prefix :- ReadPrefix(d, q);
    var tail :- ReadSelectorTail(d, prefix.next);
    Ok(Parsed(Selector(prefix.value.0, prefix.value.1, tail.value.0, tail.value.1), tail.next))
  }

  /** The descriptors and the trailer. */
  function ReadSelectorTail(d: seq<byte>, q: nat): (r: Result<Parsed<(seq<LodDescriptor>, seq<int>)>>)
  {
    var descs :- ReadDescriptors(d, q);
    var trailer :- ReadTrailer(d, descs.next);
    Ok(Parsed((descs.value, trailer.value), trailer.next))
  }

  /** ForgeLODSelector.Read as a function: the header it reads (if any) and
      the selector. */
  function ParseLodSelector(d: seq<byte>, p: nat, skipHeader: bool): (r: Result<Parsed<(Option<ResourceHeader>, Selector)>>)
  {
    var h :- ReadOptionalHeader(d, p, skipHeader);
    var s :- ReadSelectorBody(d, h.next);
    Ok(Parsed((h.value, s.value), s.next))
  }

  /** The body consumes the 25-byte prefix, the five descriptors and the
      11-byte trailer; every descriptor is the one read where the previous
      one ends. */
  lemma SelectorLayout(d: seq<byte>, q: nat)
    requires ReadSelectorBody(d, q).Ok?
    ensures var s := ReadSelectorBody(d, q).value;
      && ReadDescriptors(d, q + 25).Ok?
      && ReadDescriptors(d, q + 25).value.value == s.value.descriptors
      && ReadDescriptors(d, q + 25).value.next + 11 == s.next
      && |s.value.descriptors| == DescriptorCount && |s.value.trailer| == 11
  {
    PrefixLayout(d, q);
    var prefix := ReadPrefix(d, q).value;
    assert prefix.next == q + 25;
    var descs := ReadDescriptors(d, q + 25).value;
    TrailerLayout(d, descs.next);
    var trailer := ReadTrailer(d, descs.next).value;
    assert ReadSelectorBody(d, q).value == Parsed(Selector(prefix.value.0, prefix.value.1, descs.value, trailer.value), descs.next + 11);
  }

  /** The header is read, and returned, exactly when `skipHeader` is false. */
  lemma HeaderChoice(d: seq<byte>, p: nat)
    ensures ParseLodSelector(d, p, true).Ok? ==> ParseLodSelector(d, p, true).value.value.0 == None
    ensures ParseLodSelector(d, p, true).Ok? <==> ReadSelectorBody(d, p).Ok?
    ensures ParseLodSelector(d, p, false).Ok? ==>
      ReadResourceHeader(d, p).Ok? &&
      ParseLodSelector(d, p, false).value.value.0 == Some(ReadResourceHeader(d, p).value.value) &&
      ReadSelectorBody(d, ReadResourceHeader(d, p).value.next).Ok?
  {
  }

  /** LODDescriptor.Read on a DataReader: the fixed part, then the material
      and bone loops. */
  method ReadLodDescriptor(reader: DataReader) returns (r: Result<LodDescriptor>)
    modifies reader
    ensures r.Fail? ==> ReadDescriptor(reader.data, old(reader.position)).Fail?
    ensures r.Ok? ==> ReadDescriptor(reader.data, old(reader.position)) == Ok(Parsed(r.value, reader.position))
  {
    var head :- reader.Read(ReadDescriptorHead);
    var arrays :- ReadArrays(reader);
    r := Ok(LodDescriptor(head, arrays.0, arrays.1));
  }

  method ReadArrays(reader: DataReader) returns (r: Result<(seq<FileReference>, seq<nat>)>)
    modifies reader
    ensures r.Fail? ==> ReadDescriptorArrays(reader.data, old(reader.position)).Fail?
    ensures r.Ok? ==> ReadDescriptorArrays(reader.data, old(reader.position)) == Ok(Parsed(r.value, reader.position))
  {
    var materials :- reader.ReadCountedArray(ReadReference, FileReference(0, 0, 0));
    var bones :- reader.ReadCountedArray(U32Item, 0);
    r := Ok((materials[..], bones[..]));
  }

  /** ForgeLODSelector.Read on a DataReader: the prefix, the loop over the
      five-element LODDescs array and the trailer. */
  method ReadSelector(reader: DataReader) returns (r: Result<Selector>)
    modifies reader
    ensures r.Fail? ==> ReadSelectorBody(reader.data, old(reader.position)).Fail?
    ensures r.Ok? ==> ReadSelectorBody(reader.data, old(reader.position)) == Ok(Parsed(r.value, reader.position))
  {
    var prefix :- reader.Read(ReadPrefix);
    var tail :- ReadTail(reader);
    r := Ok(Selector(prefix.0, prefix.1, tail.0, tail.1));
  }

  method ReadTail(reader: DataReader) returns (r: Result<(seq<LodDescriptor>, seq<int>)>)
    modifies reader
    ensures r.Fail? ==> ReadSelectorTail(reader.data, old(reader.position)).Fail?
    ensures r.Ok? ==> ReadSelectorTail(reader.data, old(reader.position)) == Ok(Parsed(r.value, reader.position))
  {
    var descs :- ReadDescriptorArray(reader);
    var flags :- reader.Read(ReadTrailer);
    r := Ok((descs[..], flags));
  }

  method ReadDescriptorArray(reader: DataReader) returns (r: Result<array<LodDescriptor>>)
    modifies reader
    ensures r.Fail? ==> ReadDescriptors(reader.data, old(reader.position)).Fail?
    ensures r.Ok? ==> fresh(r.value) && ReadDescriptors(reader.data, old(reader.position)) == Ok(Parsed(r.value[..], reader.position))
  {
    var descs := new LodDescriptor[DescriptorCount](_ => NoDescriptor);
    ghost var pos: seq<nat> := [reader.position];
    var i := 0;
    while i < DescriptorCount
      invariant i <= DescriptorCount && |pos| == i + 1 && pos[0] == old(reader.position) && pos[i] == reader.position
      invariant StepsTo(ReadDescriptor, reader.data, pos, descs[..i])
      modifies descs, reader
    {
      ghost var done := descs[..i];
      var x := ReadNextDescriptor(reader, pos, done);
      if x.Fail? {
        return Fail(x.error);
      }
      descs[i] := x.value;
      assert descs[..i + 1] == done + [x.value];
      pos := pos + [reader.position];
      i := i + 1;
    }
    assert descs[..] == descs[..DescriptorCount];
    ReadManySteps(reader.data, pos, descs[..], ReadDescriptor);
    r := Ok(descs);
  }

  /** One turn of the descriptor loop: the next descriptor, read where the
      ones before it stopped. */
  method ReadNextDescriptor(reader: DataReader, ghost pos: seq<nat>, ghost done: seq<LodDescriptor>) returns (x: Result<LodDescriptor>)
    requires StepsTo(ReadDescriptor, reader.data, pos, done) && |done| < DescriptorCount && pos[|done|] == reader.position
    modifies reader
    ensures x.Fail? ==> ReadDescriptors(reader.data, pos[0]).Fail?
    ensures x.Ok? ==> StepsTo(ReadDescriptor, reader.data, pos + [reader.position], done + [x.value])
  {
    x := ReadLodDescriptor(reader);
    if x.Fail? {
      ReadManyStopsAt(reader.data, pos, done, DescriptorCount, ReadDescriptor);
    } else {
      StepsToExtend(ReadDescriptor, reader.data, pos, done, x.value, reader.position);
    }
  }

  /** ForgeLODSelector.Read: the header is read and kept only when
      `skipHeader` is false. */
  method ReadLodSelector(reader: DataReader, skipHeader: bool) returns (r: Result<(Option<ResourceHeader>, Selector)>)
    modifies reader
    ensures r.Fail? ==> ParseLodSelector(reader.data, old(reader.position), skipHeader).Fail?
    ensures r.Ok? ==> ParseLodSelector(reader.data, old(reader.position), skipHeader) == Ok(Parsed(r.value, reader.position))
  {
    var header: Option<ResourceHeader> := None;
    if !skipHeader {
      var h :- reader.Read(ReadResourceHeader);
      header := Some(h);
    }
    var s :- ReadSelector(reader);
    r := Ok((header, s));
  }
}

/** The visual records of Resources/ForgeEntityGroup.cs that make up a
    classic component's LODSelectorInstance: shader constants and their
    container, static permutations, bounding volumes, LOD constants and the
    per-LOD graphic object instance data. */
module VisualRecords {
  import opened Wrappers
  import opened Bytes
  import opened Cursor
  import opened ForgeObjects

  // ---------------------------------------------------------------------
  // Shader constants

  const LayoutObjectCount: nat := 7

  /** VisualShaderConstants: a base object, the DataLayout enum word, the
      Default, Collection, UI, Character, Skin, Cloth and Metal layout base
      objects, and 16 data bytes. */
  datatype ShaderConstants = ShaderConstants(base: BaseObject, dataLayout: nat, layouts: seq<BaseObject>, data: seq<byte>)

  function ReadShaderConstants(d: seq<byte>, p: nat): (r: Result<Parsed<ShaderConstants>>)
    ensures r.Ok? <==> p + 116 <= |d|
    ensures r.Ok? ==> r.value.next == p + 116
    ensures r.Ok? ==> |r.value.value.layouts| == LayoutObjectCount && |r.value.value.data| == 16
  {
    var base :- ReadBaseObject(d, p);
    var layout :- ReadU32(d, base.next);
    var layouts :- ReadLayoutObjects(d, layout.next);
    var data :- ReadBytes(d, layouts.next, 16);
    Ok(Parsed(ShaderConstants(base.value, layout.value, layouts.value, data.value), data.next))
  }

  /** The seven layout base objects, 84 bytes. */
  function ReadLayoutObjects(d: seq<byte>, p: nat): (r: Result<Parsed<seq<BaseObject>>>)
    ensures r.Ok? <==> p + 84 <= |d|
    ensures r.Ok? ==> r.value.next == p + 84 && |r.value.value| == LayoutObjectCount
  {
    ReadManyFits(d, p, LayoutObjectCount, ReadBaseObject, 12);
    ReadMany(d, p, LayoutObjectCount, ReadBaseObject)
  }

  /** VisualShaderConstantsContainer: a nonzero check byte marks an invalid
      object and ends the record; otherwise 12 bytes are skipped and a
      count follows, and a count of zero or less skips one more byte and
      reads no arrays. */
  datatype ConstantsContainer =
    | InvalidConstants(checkByte: nat)
    | NoConstants(numShaderConstants: int)
    | SharedConstants(unique: seq<ShaderConstants>, indirections: seq<int>)
  {
    /** The check byte the container started with. */
    function CheckByte(): nat { if InvalidConstants? then checkByte else 0 }
  }

  function ReadConstantsContainer(d: seq<byte>, p: nat): (r: Result<Parsed<ConstantsContainer>>)
    ensures p < |d| && d[p] != 0 ==> r == Ok(Parsed(InvalidConstants(d[p] as nat), p + 1))
    ensures p < |d| && d[p] == 0 && p + 17 <= |d| && IntAt(d, p + 13, 4) <= 0 ==>
      r == Ok(Parsed(NoConstants(IntAt(d, p + 13, 4)), p + 18))
    ensures r.Ok? ==> p < |d| && r.value.value.CheckByte() == d[p] as nat
    ensures r.Ok? && r.value.value.SharedConstants? ==>
      p + 17 <= |d| && |r.value.value.unique| == IntAt(d, p + 13, 4) > 0
  {
    var check :- ReadU8(d, p);
    if check.value != 0 then Ok(Parsed(InvalidConstants(check.value), check.next))
    else
      var num :- ReadI32(d, check.next + 0xC);
      if num.value <= 0 then Ok(Parsed(NoConstants(num.value), num.next + 1))
      else
        var unique :- ReadMany(d, num.next, num.value, ReadShaderConstants);
        var indirections :- ReadCounted(d, unique.next, ReadI32);
        Ok(Parsed(SharedConstants(unique.value, indirections.value), indirections.next))
  }

  // ---------------------------------------------------------------------
  // Static permutations

  /** VisualStaticPermutationsArray: a base object and counted references. */
  datatype PermutationsArray = PermutationsArray(base: BaseObject, permutations: seq<FileReference>)

  function ReadPermutationsArray(d: seq<byte>, p: nat): (r: Result<Parsed<PermutationsArray>>)
    ensures r.Ok? ==> r.value.next == p + 16 + 10 * |r.value.value.permutations|
  {
    var base :- ReadBaseObject(d, p);
    ReadCountedAdvance(d, base.next, ReadReference, 10);
    var refs :- ReadCounted(d, base.next, ReadReference);
    Ok(Parsed(PermutationsArray(base.value, refs.value), refs.next))
  }

  /** VisualStaticPermutationsContainer: a checked ForgeObject (a count byte
      of 3 ends the record), counted permutation arrays, a hash and counted
      16-bit instance indices. */
  datatype StaticPermutations = StaticPermutations(obj: ForgeObject, arrays: seq<PermutationsArray>, hash: nat, instances: seq<nat>)

  const NoPermutations := StaticPermutations(ForgeObject(3, NoBase), [], 0, [])

  function ReadStaticPermutations(d: seq<byte>, p: nat): (r: Result<Parsed<StaticPermutations>>)
    ensures p < |d| && d[p] == 3 ==> r == Ok(Parsed(NoPermutations, p + 1))
    ensures r.Ok? ==> p < |d| && r.value.value.obj.num == d[p] as nat
  {
    var obj :- ReadForgeObject(d, p, true);
    if obj.value.num == 3 then Ok(Parsed(NoPermutations, obj.next))
    else
      var arrays :- ReadCounted(d, obj.next, ReadPermutationsArray);
      var hash :- ReadU32(d, arrays.next);
      var instances :- ReadCounted(d, hash.next, ReadU16);
      Ok(Parsed(StaticPermutations(obj.value, arrays.value, hash.value, instances.value), instances.next))
  }

  // ---------------------------------------------------------------------
  // Fixed-size records

  /** BoundingVolume: a base object, a minimum and a maximum corner and the
      volume type (AABB, SPHERE or OOBB). */
  datatype BoundingVolume = BoundingVolume(base: BaseObject, min: seq<int>, max: seq<int>, volumeType: int)

  function ReadBoundingVolume(d: seq<byte>, p: nat): (r: Result<Parsed<BoundingVolume>>)
    ensures r.Ok? <==> p + 40 <= |d|
    ensures r.Ok? ==> r.value.next == p + 40
  {
    var base :- ReadBaseObject(d, p);
    var min :- ReadVector3(d, base.next);
    var max :- ReadVector3(d, min.next);
    var kind :- ReadI32(d, max.next);
    Ok(Parsed(BoundingVolume(base.value, min.value, max.value, kind.value), kind.next))
  }

  /** InstanceLODConsts: a base object, DistanceScale, SwitchIn/OutDistance,
      SwitchIn/OutFadeRange (raw float words) and LODLevel. */
  datatype LodConsts = LodConsts(base: BaseObject, distances: seq<nat>, lodLevel: int)

  function ReadLodConsts(d: seq<byte>, p: nat): (r: Result<Parsed<LodConsts>>)
    ensures r.Ok? <==> p + 36 <= |d|
    ensures r.Ok? ==> r.value.next == p + 36 && |r.value.value.distances| == 5
  {
    var base :- ReadBaseObject(d, p);
    var distances :- ReadFloats(d, base.next, 5);
    var level :- ReadI32(d, distances.next);
    Ok(Parsed(LodConsts(base.value, distances.value, level.value), level.next))
  }

  /** MeshInstanceMaterialInfo: 13 skipped bytes, two unchecked object
      pointers and a reference. */
  datatype MaterialInfo = MaterialInfo(graphicObjectInstance: ObjectPtr, meshMaterial: ObjectPtr, instanceMaterial: FileReference)

  function ReadMaterialInfo(d: seq<byte>, p: nat): (r: Result<Parsed<MaterialInfo>>)
    ensures r.Ok? <==> p + 41 <= |d|
    ensures r.Ok? ==> r.value.next == p + 41
  {
    var instance :- ReadHandle(d, p + 0xD);
    var material :- ReadHandle(d, instance.next);
    var reference :- ReadReference(d, material.next);
    Ok(Parsed(MaterialInfo(instance.value, material.value, reference.value), reference.next))
  }

  /** CompiledMeshInstance: 13 skipped bytes, the vertex format, a count of
      streams (each stream reads nothing, but a negative count fails the
      allocation), the platform and SDK versions and the mesh hash. */
  datatype CompiledMeshInstance = CompiledMeshInstance(vertexFormat: nat, numStreams: nat, platformVersion: int,
                                                       sdkVersion: int, meshHash: nat)

  function ReadCompiledMeshInstance(d: seq<byte>, p: nat): (r: Result<Parsed<CompiledMeshInstance>>)
    ensures r.Ok? <==> p + 34 <= |d| && IntAt(d, p + 14, 4) >= 0
    ensures r.Ok? ==> r.value.next == p + 34 && r.value.value.numStreams == IntAt(d, p + 14, 4)
  {
    var format :- ReadU8(d, p + 0xD);
    var streams :- ReadCount(d, format.next);
    var platform :- ReadI32(d, streams.next);
    var sdk :- ReadI32(d, platform.next);
    var hash :- ReadU64(d, sdk.next);
    Ok(Parsed(CompiledMeshInstance(format.value, streams.value, platform.value, sdk.value, hash.value), hash.next))
  }

  // ---------------------------------------------------------------------
  // Graphic object instance data and the LOD selector instance

  /** GraphicObjectInstanceData: its shader constants container, and only
      when that container's check byte is 0, the rest of the record. */
  datatype GraphicInstanceData =
    | InvalidInstance(constants: ConstantsContainer)
    | GraphicInstance(constants: ConstantsContainer, rest: InstanceRest)

  /** The part of a GraphicObjectInstanceData after its constants. */
  datatype InstanceRest = InstanceRest(permutations: StaticPermutations, bv: BoundingVolume, lodConsts: LodConsts,
                                       mesh: FileReference, compiled: CompiledMeshInstance, materials: seq<MaterialInfo>)

  function ReadInstanceRest(d: seq<byte>, p: nat): (r: Result<Parsed<InstanceRest>>)
  {
    var permutations :- ReadStaticPermutations(d, p);
    var bv :- ReadBoundingVolume(d, permutations.next);
    var consts :- ReadLodConsts(d, bv.next);
    var mesh :- ReadReference(d, consts.next);
    var compiled :- ReadCompiledMeshInstance(d, mesh.next);
    var materials :- ReadCounted(d, compiled.next, ReadMaterialInfo);
    Ok(Parsed(InstanceRest(permutations.value, bv.value, consts.value, mesh.value, compiled.value, materials.value),
              materials.next))
  }

  function ReadGraphicInstance(d: seq<byte>, p: nat): (r: Result<Parsed<GraphicInstanceData>>)
    ensures p < |d| && d[p] != 0 ==> r == Ok(Parsed(InvalidInstance(InvalidConstants(d[p] as nat)), p + 1))
    ensures r.Ok? ==> p < |d| && (r.value.value.InvalidInstance? <==> d[p] != 0)
  {
    var constants :- ReadConstantsContainer(d, p);
    if constants.value.CheckByte() != 0 then Ok(Parsed(InvalidInstance(constants.value), constants.next))
    else
      var rest :- ReadInstanceRest(d, constants.next);
      Ok(Parsed(GraphicInstance(constants.value, rest.value), rest.next))
  }

  const LodInstanceCount: nat := 5

  /** LODSelectorInstance: counted instance matrices, a shader constants
      container, static permutations, the original bounding volume, the LOD
      constants, the selector pointer and exactly five graphic object
      instance data records. */
  datatype SelectorInstance = SelectorInstance(matrices: seq<seq<nat>>, constants: ConstantsContainer,
                                               permutations: StaticPermutations, bv: BoundingVolume,
                                               lodConsts: LodConsts, selector: ObjectPtr,
                                               lodData: seq<GraphicInstanceData>)

  /** The instance up to its LOD constants. */
  datatype InstanceHead = InstanceHead(matrices: seq<seq<nat>>, constants: ConstantsContainer,
                                       permutations: StaticPermutations, bv: BoundingVolume)

  function ReadInstanceHead(d: seq<byte>, p: nat): (r: Result<Parsed<InstanceHead>>)
    ensures r.Ok? ==> ReadCount(d, p).Ok? && |r.value.value.matrices| == ReadCount(d, p).value.value
  {
    var matrices :- ReadCounted(d, p, ReadMatrix);
    var constants :- ReadConstantsContainer(d, matrices.next);
    var permutations :- ReadStaticPermutations(d, constants.next);
    var bv :- ReadBoundingVolume(d, permutations.next);
    Ok(Parsed(InstanceHead(matrices.value, constants.value, permutations.value, bv.value), bv.next))
  }

  /** The five LOD instance data records. */
  function ReadLodInstances(d: seq<byte>, p: nat): (r: Result<Parsed<seq<GraphicInstanceData>>>)
    ensures r.Ok? ==> |r.value.value| == LodInstanceCount
  {
    ReadMany(d, p, LodInstanceCount, ReadGraphicInstance)
  }

  function ReadSelectorInstance(d: seq<byte>, p: nat): (r: Result<Parsed<SelectorInstance>>)
    ensures r.Ok? ==> |r.value.value.lodData| == LodInstanceCount
    ensures r.Ok? ==> ReadCount(d, p).Ok? && |r.value.value.matrices| == ReadCount(d, p).value.value
  {
    var head :- ReadInstanceHead(d, p);
    var consts :- ReadLodConsts(d, head.next);
    var selector :- ReadHandle(d, consts.next);
    var lods :- ReadLodInstances(d, selector.next);
    var h := head.value;
    Ok(Parsed(SelectorInstance(h.matrices, h.constants, h.permutations, h.bv, consts.value, selector.value, lods.value),
              lods.next))
  }

  // ---------------------------------------------------------------------
  // Properties

  /** When all five LOD records start with a nonzero check byte, each takes
      exactly one byte. */
  lemma InvalidLodsTakeOneByteEach(d: seq<byte>, p: nat)
    requires p + LodInstanceCount <= |d|
    requires forall i :: p <= i < p + LodInstanceCount ==> d[i] != 0
    ensures ReadLodInstances(d, p).Ok?
    ensures ReadLodInstances(d, p).value.next == p + LodInstanceCount
    ensures forall i :: 0 <= i < LodInstanceCount ==>
      ReadLodInstances(d, p).value.value[i] == InvalidInstance(InvalidConstants(d[p + i] as nat))
  {
    forall q | p <= q < p + LodInstanceCount
      ensures ReadGraphicInstance(d, q) == Ok(Parsed(InvalidInstance(InvalidConstants(d[q] as nat)), q + 1))
    {
      InvalidLodTakesOneByte(d, q);
    }
    InvalidRun(d, p, LodInstanceCount, ReadGraphicInstance);
  }

  /** The invalid instances of n nonzero check bytes, one per byte. */
  function InvalidInstances(d: seq<byte>, p: nat, n: nat): (r: seq<GraphicInstanceData>)
    requires p + n <= |d|
    ensures |r| == n
  {
    seq(n, i requires 0 <= i < n => InvalidInstance(InvalidConstants(d[p + i] as nat)))
  }

  /** A run of n records that each take one byte and are the invalid
      instance of that byte. */
  lemma {:induction false} InvalidRun(d: seq<byte>, p: nat, n: nat, item: (seq<byte>, nat) -> Result<Parsed<GraphicInstanceData>>)
    requires p + n <= |d|
    requires forall q :: p <= q < p + n ==> item(d, q) == Ok(Parsed(InvalidInstance(InvalidConstants(d[q] as nat)), q + 1))
    ensures ReadMany(d, p, n, item) == Ok(Parsed(InvalidInstances(d, p, n), p + n))
    decreases n
  {
    if n > 0 {
      InvalidRun(d, p + 1, n - 1, item);
      assert InvalidInstances(d, p, n) == [InvalidInstance(InvalidConstants(d[p] as nat))] + InvalidInstances(d, p + 1, n - 1);
    }
  }

  /** A LOD record whose check byte is nonzero is that one byte. */
  lemma InvalidLodTakesOneByte(d: seq<byte>, q: nat)
    requires q < |d| && d[q] != 0
    ensures ReadGraphicInstance(d, q) == Ok(Parsed(InvalidInstance(InvalidConstants(d[q] as nat)), q + 1))
  {
  }

  /** VisualAutoResizer: a nonzero check byte ends it after one byte; a zero
      check byte leads to data the reader does not know and it throws. */
  function ReadAutoResizer(d: seq<byte>, p: nat): (r: Result<Parsed<nat>>)
    ensures r.Ok? <==> p < |d| && d[p] != 0
    ensures r.Ok? ==> r.value == Parsed(d[p] as nat, p + 1)
    ensures p < |d| && d[p] == 0 ==> r == Fail(NotImplemented)
  {
    var check :- ReadU8(d, p);
    if check.value != 0 then Ok(check) else Fail(NotImplemented)
  }
}

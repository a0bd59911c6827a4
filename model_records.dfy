/** The records a ForgeModel is built from (Resources/ForgeModel.cs): data
    buffers, primitive descriptions, instancing data, bones and the two
    skin-wrap meshes. Floats are kept as their raw 32-bit words. */
module ModelRecords {
  import opened Wrappers
  import opened Bytes
  import opened Cursor
  import opened ForgeObjects

  // ---------------------------------------------------------------------
  // ForgeDataBuffer

  /** Size as stored, Offset (the stream position just after Size) and the
      bytes read. */
  datatype DataBuffer = DataBuffer(size: int, offset: nat, buffer: seq<byte>)

  const EmptyBuffer := DataBuffer(0, 0, [])

  /** A negative size reads no bytes. */
  function Max0(n: int): (m: nat)
    ensures m == if n < 0 then 0 else n
  {
    if n < 0 then 0 else n
  }

  /** ForgeDataBuffer.Read: an int32 size, then max(size, 0) bytes; the
      offset is where those bytes start. */
  function ReadDataBuffer(d: seq<byte>, p: nat): (r: Result<Parsed<DataBuffer>>)
    ensures r.Ok? <==> p + 4 <= |d| && p + 4 + Max0(IntAt(d, p, 4)) <= |d|
    ensures r.Ok? ==>
      var b := r.value.value;
      && b.size == IntAt(d, p, 4) && b.offset == p + 4
      && |b.buffer| == Max0(b.size) && r.value.next == p + 4 + |b.buffer|
      && b.buffer == d[p + 4..r.value.next]
  {
    var size :- ReadI32(d, p);
    var bytes :- ReadBytes(d, size.next, Max0(size.value));
    Ok(Parsed(DataBuffer(size.value, size.next, bytes.value), bytes.next))
  }

  // ---------------------------------------------------------------------
  // Fixed-size records

  /** ClusteredPrimitiveInfo: a base object, then ClusterCount, IndexStart
      and VertexStart as int32s. */
  datatype PrimitiveInfo = PrimitiveInfo(base: BaseObject, clusterCount: int, indexStart: int, vertexStart: int)

  const NoPrimitiveInfo := PrimitiveInfo(NoBase, 0, 0, 0)

  function ReadPrimitiveInfo(d: seq<byte>, p: nat): (r: Result<Parsed<PrimitiveInfo>>)
    ensures r.Ok? <==> p + 24 <= |d|
    ensures r.Ok? ==> r.value.next == p + 24 && r.value.value.indexStart == IntAt(d, p + 16, 4)
  {
    var base :- ReadBaseObject(d, p);
    var clusters :- ReadI32(d, base.next);
    var start :- ReadI32(d, clusters.next);
    var vertex :- ReadI32(d, start.next);
    Ok(Parsed(PrimitiveInfo(base.value, clusters.value, start.value, vertex.value), vertex.next))
  }

  /** MeshPrimitive: a base object, then MinIndex, IsUsingDepthOnlyBuffers,
      NumVertices, StartIndex, PrimitiveCount and Type as uint32s. */
  datatype MeshPrimitive = MeshPrimitive(base: BaseObject, minIndex: nat, isUsingDepthOnlyBuffers: nat, numVertices: nat,
                                         startIndex: nat, primitiveCount: nat, primitiveType: nat)

  const NoMeshPrimitive := MeshPrimitive(NoBase, 0, 0, 0, 0, 0, 0)

  function ReadMeshPrimitive(d: seq<byte>, p: nat): (r: Result<Parsed<MeshPrimitive>>)
    ensures r.Ok? <==> p + 36 <= |d|
    ensures r.Ok? ==> r.value.next == p + 36
    ensures r.Ok? ==> r.value.value.numVertices == UIntAt(d, p + 20, 4) && r.value.value.primitiveCount == UIntAt(d, p + 28, 4)
  {
    var base :- ReadBaseObject(d, p);
    var minIndex :- ReadU32(d, base.next);
    var depthOnly :- ReadU32(d, minIndex.next);
    var vertices :- ReadU32(d, depthOnly.next);
    var start :- ReadU32(d, vertices.next);
    var count :- ReadU32(d, start.next);
    var kind :- ReadU32(d, count.next);
    Ok(Parsed(MeshPrimitive(base.value, minIndex.value, depthOnly.value, vertices.value, start.value, count.value, kind.value),
              kind.next))
  }

  /** ForgeMeshInstancingData: a base object, ShadowCaster, then
      SubMeshIndex, MaterialType, NumVertices and RenderingMask as uint16s,
      then an unchecked material pointer. */
  datatype Instancing = Instancing(base: BaseObject, shadowCaster: bool, subMeshIndex: nat, materialType: nat,
                                   numVertices: nat, renderingMask: nat, material: ObjectPtr)

  const NoInstancing := Instancing(NoBase, false, 0, 0, 0, 0, ObjectPtr(0, 0))

  function ReadInstancing(d: seq<byte>, p: nat): (r: Result<Parsed<Instancing>>)
    ensures r.Ok? <==> p + 30 <= |d|
    ensures r.Ok? ==> r.value.next == p + 30 && r.value.value.numVertices == UIntAt(d, p + 17, 2)
  {
    var base :- ReadBaseObject(d, p);
    var shadow :- ReadFlag(d, base.next);
    var subMesh :- ReadU16(d, shadow.next);
    var material :- ReadU16(d, subMesh.next);
    var vertices :- ReadU16(d, material.next);
    var mask :- ReadU16(d, vertices.next);
    var ptr :- ReadHandle(d, mask.next);
    Ok(Parsed(Instancing(base.value, shadow.value, subMesh.value, material.value, vertices.value, mask.value, ptr.value),
              ptr.next))
  }

  /** MeshBone: a base object, the uint32 BoneID, the inverse initial
      matrix and IsUsedBySubMeshes. */
  datatype MeshBone = MeshBone(base: BaseObject, boneId: nat, initialMatrixInverse: seq<nat>, isUsedBySubMeshes: bool)

  function ReadMeshBone(d: seq<byte>, p: nat): (r: Result<Parsed<MeshBone>>)
    ensures r.Ok? <==> p + 81 <= |d|
    ensures r.Ok? ==> r.value.next == p + 81 && r.value.value.boneId == UIntAt(d, p + 12, 4)
  {
    var base :- ReadBaseObject(d, p);
    var id :- ReadU32(d, base.next);
    var matrix :- ReadMatrix(d, id.next);
    var used :- ReadFlag(d, matrix.next);
    Ok(Parsed(MeshBone(base.value, id.value, matrix.value, used.value), used.next))
  }

  // ---------------------------------------------------------------------
  // SkinWrapProxyMesh

  /** SkinWrapProxyMeshTriangle: a base object and thirteen floats (the
      plane normal and constant, then three edge perpendiculars). */
  datatype ProxyTriangle = ProxyTriangle(base: BaseObject, plane: seq<nat>)

  function ReadProxyTriangle(d: seq<byte>, p: nat): (r: Result<Parsed<ProxyTriangle>>)
    ensures r.Ok? <==> p + 64 <= |d|
    ensures r.Ok? ==> r.value.next == p + 64 && |r.value.value.plane| == 13
  {
    var base :- ReadBaseObject(d, p);
    var floats :- ReadFloats(d, base.next, 13);
    Ok(Parsed(ProxyTriangle(base.value, floats.value), floats.next))
  }

  /** SkinWrapProxyMeshTarget: a base object, the int32 ID and a counted
      array of uint16 offsets. */
  datatype ProxyTarget = ProxyTarget(base: BaseObject, id: int, offsets: seq<nat>)

  function ReadProxyTarget(d: seq<byte>, p: nat): (r: Result<Parsed<ProxyTarget>>)
    ensures r.Ok? ==> p + 20 <= |d| && ReadCount(d, p + 16).Ok?
    ensures r.Ok? ==> |r.value.value.offsets| == ReadCount(d, p + 16).value.value
    ensures r.Ok? ==> r.value.next == p + 20 + 2 * |r.value.value.offsets|
  {
    var base :- ReadBaseObject(d, p);
    var id :- ReadI32(d, base.next);
    var offsets :- ReadCounted(d, id.next, ReadU16);
    ReadCountedAdvance(d, id.next, ReadU16, 2);
    Ok(Parsed(ProxyTarget(base.value, id.value, offsets.value), offsets.next))
  }

  /** The proxy mesh: a ForgeObject read with check, and when its count
      byte is not 3, six counted arrays. */
  datatype SkinWrapProxy =
    | ProxyStub(obj: ForgeObject)
    | Proxy(obj: ForgeObject, vertices: seq<seq<int>>, normals: seq<seq<int>>, indices: seq<nat>,
            projectedNormals: seq<nat>, triangles: seq<ProxyTriangle>, targets: seq<ProxyTarget>)

  /** Vertices, Normals, Indices and ProjectedNormals. */
  function ReadProxyGeometry(d: seq<byte>, p: nat): (r: Result<Parsed<(seq<seq<int>>, seq<seq<int>>, seq<nat>, seq<nat>)>>)
  {
    var vertices :- ReadCounted(d, p, ReadVector3);
    var normals :- ReadCounted(d, vertices.next, ReadVector3);
    var indices :- ReadCounted(d, normals.next, ReadU16);
    var projected :- ReadCounted(d, indices.next, ReadU32);
    Ok(Parsed((vertices.value, normals.value, indices.value, projected.value), projected.next))
  }

  /** SkinWrapProxyMesh.Read. */
  function ReadSkinWrapProxy(d: seq<byte>, p: nat): (r: Result<Parsed<SkinWrapProxy>>)
    ensures r.Ok? ==> p < |d|
    ensures r.Ok? ==> (r.value.value.ProxyStub? <==> d[p] == 3)
    ensures r.Ok? && d[p] == 3 ==> r.value.next == p + 1
  {
    var obj :- ReadForgeObject(d, p, true);
    if obj.value.num == 3 then Ok(Parsed(ProxyStub(obj.value), obj.next))
    else ReadProxyBody(d, obj.next, obj.value)
  }

  /** The six arrays after the proxy's ForgeObject. */
  function ReadProxyBody(d: seq<byte>, p: nat, obj: ForgeObject): (r: Result<Parsed<SkinWrapProxy>>)
    ensures r.Ok? ==> r.value.value.Proxy?
  {
    var geometry :- ReadProxyGeometry(d, p);
    var triangles :- ReadCounted(d, geometry.next, ReadProxyTriangle);
    var targets :- ReadCounted(d, triangles.next, ReadProxyTarget);
    var (vertices, normals, indices, projected) := geometry.value;
    Ok(Parsed(Proxy(obj, vertices, normals, indices, projected, triangles.value, targets.value), targets.next))
  }

  // ---------------------------------------------------------------------
  // SkinWrapLayerMesh

  /** SkinWrapLayerMeshPackedWeightIndicesArray: a base object, then the
      formats and the indices, each an int32 length and that many bytes. */
  datatype WeightIndices = WeightIndices(base: BaseObject, formats: seq<byte>, indices: seq<byte>)

  function ReadWeightIndices(d: seq<byte>, p: nat): (r: Result<Parsed<WeightIndices>>)
  {
    var base :- ReadBaseObject(d, p);
    var numFormats :- ReadI32(d, base.next);
    var formats :- ReadBytes(d, numFormats.next, numFormats.value);
    var numIndices :- ReadI32(d, formats.next);
    var indices :- ReadBytes(d, numIndices.next, numIndices.value);
    Ok(Parsed(WeightIndices(base.value, formats.value, indices.value), indices.next))
  }

  /** SkinWrapLayerMeshPackedWeightsArray: a base object, then an int32
      length and that many weight bytes. */
  datatype PackedWeights = PackedWeights(base: BaseObject, weights: seq<byte>)

  function ReadPackedWeights(d: seq<byte>, p: nat): (r: Result<Parsed<PackedWeights>>)
  {
    var base :- ReadBaseObject(d, p);
    var n :- ReadI32(d, base.next);
    var weights :- ReadBytes(d, n.next, n.value);
    Ok(Parsed(PackedWeights(base.value, weights.value), weights.next))
  }

  /** The layer mesh: a ForgeObject read with check, and when its count
      byte is not 3, the three float arrays, the index data, the weight
      index arrays and the Weights array of NumWeights slots. */
  datatype SkinWrapLayer =
    | LayerStub(obj: ForgeObject)
    | Layer(obj: ForgeObject, floatsX: seq<nat>, floatsY: seq<nat>, floatsZ: seq<nat>, indexData: seq<byte>,
            weightIndices: seq<WeightIndices>, weights: seq<Option<PackedWeights>>)

  /** FloatsX, FloatsY, FloatsZ and the index data. */
  function ReadLayerFloats(d: seq<byte>, p: nat): (r: Result<Parsed<(seq<nat>, seq<nat>, seq<nat>, seq<byte>)>>)
  {
    var xs :- ReadCounted(d, p, ReadU32);
    var ys :- ReadCounted(d, xs.next, ReadU32);
    var zs :- ReadCounted(d, ys.next, ReadU32);
    var n :- ReadI32(d, zs.next);
    var indexData :- ReadBytes(d, n.next, n.value);
    Ok(Parsed((xs.value, ys.value, zs.value, indexData.value), indexData.next))
  }

  /** The weight index arrays, then NumWeights and the Weights loop, which
      runs once per weight index array. */
  function ReadLayerWeights(d: seq<byte>, p: nat): (r: Result<Parsed<(seq<WeightIndices>, seq<Option<PackedWeights>>)>>)
  {
    var indices :- ReadCounted(d, p, ReadWeightIndices);
    var numWeights :- ReadCount(d, indices.next);
    var weights :- ReadIntoSlots(d, numWeights.next, numWeights.value, |indices.value|, ReadPackedWeights);
    Ok(Parsed((indices.value, weights.value), weights.next))
  }

  /** SkinWrapLayerMesh.Read. */
  function ReadSkinWrapLayer(d: seq<byte>, p: nat): (r: Result<Parsed<SkinWrapLayer>>)
    ensures r.Ok? ==> p < |d|
    ensures r.Ok? ==> (r.value.value.LayerStub? <==> d[p] == 3)
    ensures r.Ok? && d[p] == 3 ==> r.value.next == p + 1
  {
    var obj :- ReadForgeObject(d, p, true);
    if obj.value.num == 3 then Ok(Parsed(LayerStub(obj.value), obj.next))
    else ReadLayerBody(d, obj.next, obj.value)
  }

  /** The arrays after the layer's ForgeObject. */
  function ReadLayerBody(d: seq<byte>, p: nat, obj: ForgeObject): (r: Result<Parsed<SkinWrapLayer>>)
    ensures r.Ok? ==> r.value.value.Layer?
  {
    var floats :- ReadLayerFloats(d, p);
    var weights :- ReadLayerWeights(d, floats.next);
    var (xs, ys, zs, indexData) := floats.value;
    Ok(Parsed(Layer(obj, xs, ys, zs, indexData, weights.value.0, weights.value.1), weights.next))
  }

  /** The Weights loop is bounded by the number of weight index arrays, not
      by NumWeights: when there are more index arrays than weight slots the
      layer fails, and otherwise exactly the first |WeightIndices| slots
      are filled. */
  lemma LayerWeightsFilled(d: seq<byte>, p: nat, indices: seq<WeightIndices>, q: nat)
    requires ReadCounted(d, p, ReadWeightIndices) == Ok(Parsed(indices, q))
    requires ReadCount(d, q).Ok?
    ensures ReadCount(d, q).value.value < |indices| ==> ReadLayerWeights(d, p).Fail?
    ensures ReadLayerWeights(d, p).Ok? ==>
      var w := ReadLayerWeights(d, p).value.value;
      && w.0 == indices && |w.1| == ReadCount(d, q).value.value
      && forall i :: 0 <= i < |w.1| ==> (w.1[i].Some? <==> i < |indices|)
  {
    var n := ReadCount(d, q).value;
    assert n.next == q + 4;
  }

  // ---------------------------------------------------------------------
  // ForgeClusteredMeshData, ForgeMeshData and ForgeCompiledMesh

  /** The clustered mesh's scalars before its bounds: Version,
      VertexFormat, the stored VertexStride, VertexStrideDynamic,
      VertexStrideIndexWeight, VertexStridePrecompute and ClusterCount. */
  datatype ClusteredHead = ClusteredHead(obj: ForgeObject, version: nat, vertexFormat: nat, storedStride: nat,
                                         strideDynamic: nat, strideIndexWeight: nat, stridePrecompute: nat,
                                         clusterCount: nat)

  function ReadClusteredHead(d: seq<byte>, p: nat): (r: Result<Parsed<ClusteredHead>>)
    ensures r.Ok? <==> p + 38 <= |d|
    ensures r.Ok? ==> r.value.next == p + 38
    ensures r.Ok? ==> r.value.value.storedStride == UIntAt(d, p + 18, 4) && r.value.value.strideDynamic == UIntAt(d, p + 22, 4)
  {
    var obj :- ReadObject(d, p);
    var version :- ReadU32(d, obj.next);
    var format :- ReadU8(d, version.next);
    var stride :- ReadU32(d, format.next);
    var dynamic :- ReadU32(d, stride.next);
    var indexWeight :- ReadU32(d, dynamic.next);
    var precompute :- ReadU32(d, indexWeight.next);
    var clusters :- ReadU32(d, precompute.next);
    Ok(Parsed(ClusteredHead(obj.value, version.value, format.value, stride.value, dynamic.value, indexWeight.value,
                            precompute.value, clusters.value), clusters.next))
  }

  /** Center, HalfExtend and IsFixedClusterSize. */
  function ReadClusterBounds(d: seq<byte>, p: nat): (r: Result<Parsed<(seq<int>, seq<int>, bool)>>)
  {
    var center :- ReadVector3(d, p);
    var half :- ReadVector3(d, center.next);
    var fixed :- ReadFlag(d, half.next);
    Ok(Parsed((center.value, half.value, fixed.value), fixed.next))
  }

  /** The clustered mesh as Read leaves it. VertexStride is the stride
      after the final replacement; the eight buffers are VertexBuffer0-3,
      IndexBuffer, ClusteredDescData, ClusterBitMask and PrimitiveDescData. */
  datatype ClusteredMeshData = ClusteredMeshData(head: ClusteredHead, vertexStride: nat, center: seq<int>,
                                                 halfExtend: seq<int>, isFixedClusterSize: bool,
                                                 drawPrimitives: seq<PrimitiveInfo>, buffers: seq<DataBuffer>)
  {
    function VertexBuffer(i: nat): DataBuffer
    {
      if i < 4 && i < |buffers| then buffers[i] else EmptyBuffer
    }

    function IndexBuffer(): DataBuffer
    {
      if 4 < |buffers| then buffers[4] else EmptyBuffer
    }
  }

  /** The last statement of Read: a stored stride of 8 or 16 is replaced by
      the dynamic stride. */
  function FinalStride(stored: nat, dynamic: nat): nat
  {
    if stored != 8 && stored != 16 then stored else dynamic
  }

  function ReadClusteredMeshData(d: seq<byte>, p: nat): (r: Result<Parsed<ClusteredMeshData>>)
    ensures r.Ok? ==> |r.value.value.buffers| == 8
  {
    var head :- ReadClusteredHead(d, p);
    var bounds :- ReadClusterBounds(d, head.next);
    var primitives :- ReadCounted(d, bounds.next, ReadPrimitiveInfo);
    var buffers :- ReadMany(d, primitives.next, 8, ReadDataBuffer);
    var h := head.value;
    Ok(Parsed(ClusteredMeshData(h, FinalStride(h.storedStride, h.strideDynamic), bounds.value.0, bounds.value.1,
                                bounds.value.2, primitives.value, buffers.value), buffers.next))
  }

  /** The stride a clustered mesh ends up with, in terms of its bytes: the
      stored one at offset 18 unless it is 8 or 16, and then the dynamic one
      at offset 22. */
  lemma ClusteredStride(d: seq<byte>, p: nat, c: ClusteredMeshData, next: nat)
    requires ReadClusteredMeshData(d, p) == Ok(Parsed(c, next))
    ensures p + 38 <= |d|
    ensures var stored, dynamic := UIntAt(d, p + 18, 4), UIntAt(d, p + 22, 4);
      c.vertexStride == if stored == 8 || stored == 16 then dynamic else stored
  {
    var head := ReadClusteredHead(d, p).value.value;
    assert c.head == head && c.vertexStride == FinalStride(head.storedStride, head.strideDynamic);
  }

  /** IsIndexBuffer32bit, then VertexFormat, the four stride bytes,
      NbBonesPerVertex, NbBlendShapes, NbSkinWrapWeights, NbFaceIndices and
      FaceIndicesStartOffset. */
  const MeshDataScalarsL: Layout := [Flag, U8, U8, U8, U8, U8, U8, U8, U8, U8, U8]

  /** ForgeMeshData: the five buffers are VertexBuffer0-3 and IndexBuffer. */
  datatype MeshData = MeshData(base: BaseObject, scalars: seq<int>, standardPrimitives: seq<MeshPrimitive>,
                               buffers: seq<DataBuffer>)

  function ReadMeshData(d: seq<byte>, p: nat): (r: Result<Parsed<MeshData>>)
    ensures r.Ok? ==> |r.value.value.buffers| == 5
  {
    var base :- ReadBaseObject(d, p);
    var scalars :- ReadFields(d, base.next, MeshDataScalarsL);
    var primitives :- ReadCounted(d, scalars.next, ReadMeshPrimitive);
    var buffers :- ReadMany(d, primitives.next, 5, ReadDataBuffer);
    Ok(Parsed(MeshData(base.value, scalars.value, primitives.value, buffers.value), buffers.next))
  }

  /** ForgeCompiledMesh: the data bytes, the clustered and standard mesh
      data, the instancing records, PlatformVersion, SDKVersion and
      QuantizationFactor. */
  datatype CompiledMesh = CompiledMesh(obj: ForgeObject, data: seq<nat>, clustered: ClusteredMeshData, meshData: MeshData,
                                       instancing: seq<Instancing>, versions: seq<int>)

  /** PlatformVersion, SDKVersion and QuantizationFactor. */
  const CompiledTailL: Layout := [U32, U32, F32]

  function ReadCompiledMesh(d: seq<byte>, p: nat): (r: Result<Parsed<CompiledMesh>>)
  {
    var obj :- ReadObject(d, p);
    var data :- ReadCounted(d, obj.next, ReadU8);
    var clustered :- ReadClusteredMeshData(d, data.next);
    var meshData :- ReadMeshData(d, clustered.next);
    var instancing :- ReadCounted(d, meshData.next, ReadInstancing);
    var tail :- ReadFields(d, instancing.next, CompiledTailL);
    Ok(Parsed(CompiledMesh(obj.value, data.value, clustered.value, meshData.value, instancing.value, tail.value), tail.next))
  }
}

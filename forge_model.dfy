/** ForgeModel.Read and CreateMeshes (Resources/ForgeModel.cs:152-347): the
    model record around the compiled mesh, and the meshes built from its
    draw primitives. A mesh keeps the int16 positions and texture
    coordinates ReadVertexData reads, before scaling; the float vertex buffer, normals,
    layout objects and shaders CreateMeshes builds from them are not part
    of this model. */
module ForgeModel {
  import opened Wrappers
  import opened Bytes
  import opened Cursor
  import opened ForgeObjects
  import opened ForgeData
  import opened DataStream
  import opened ModelRecords
  import opened VertexSlots
  import opened VertexSemantics
  import opened ModelGeometry
  import opened IndexData
  import opened Chains

  // ---------------------------------------------------------------------
  // CreateMeshes

  /** One mesh of the model: VertexCount, VertexStride, the semantic code of
      its layout, the vertex data, Indices and Name. */
  datatype Mesh = Mesh(vertexCount: nat, vertexStride: nat, semantics: seq<char>, positions: seq<Vec3i>,
                       texcoords: seq<Vec2i>, indices: seq<nat>, name: string)

  const NoMesh := Mesh(0, 0, [], [], [], [], [])

  /** `Header?.FileName ?? string.Empty`. */
  function MeshName(header: Option<ResourceHeader>): string
  {
    if header.Some? then header.value.fileName else ""
  }

  /** The number of vertices instancing entry i declares (0 past the end). */
  function VertexCountAt(c: CompiledMesh, i: nat): nat
  {
    if i < |c.instancing| then c.instancing[i].numVertices else 0
  }

  /** One iteration of the CreateMeshes loop: the vertex data from the
      running offset, the index data, the bounds test CalculateNormals makes
      on the last partial triangle, and the mesh with the offset the next
      iteration starts from. */
  function MeshAt(c: CompiledMesh, name: string, i: nat, offset: nat): (r: Result<(Mesh, nat)>)
  {
    var v :- VertexDataOf(c.clustered, c.meshData, c.instancing, offset, i);
    var indices :- IndexDataOf(c.clustered, c.meshData, i);
    var _ :- TrianglesInBounds(indices, |v.positions|);
    Ok((Mesh(c.instancing[i].numVertices, LayoutStride(v.semantics), v.semantics, v.positions, v.texcoords,
             indices, name), v.offset))
  }

  /** What one mesh holds: as many positions as the instancing entry
      declares, texture coordinates for none or all of them (so building the
      vertex buffer never indexes past them), the index data of the draw
      primitive, and a stride of 16 bytes plus 12 for normals and 8 for
      texture coordinates. */
  lemma MeshShape(c: CompiledMesh, name: string, i: nat, offset: nat)
    requires c.clustered.vertexStride < 0x1_0000_0000
    requires MeshAt(c, name, i, offset).Ok?
    ensures var m := MeshAt(c, name, i, offset).value.0;
      var stride, n := c.clustered.vertexStride, VertexCountAt(c, i);
      && i < |c.instancing| && m.vertexCount == n && |m.positions| == n
      && (|m.texcoords| == 0 || |m.texcoords| == n)
      && m.vertexStride == 16 + (if HasNormal(stride) && n > 0 then 12 else 0)
                              + (if (stride == 12 || HasTexcoord(stride)) && n > 0 then 8 else 0)
      && IndexDataOf(c.clustered, c.meshData, i) == Ok(m.indices)
      && m.name == name
  {
    VertexDataSemantics(c.clustered, c.meshData, c.instancing, offset, i);
  }

  /** The offset the next iteration starts from: one vertex width per
      vertex on. */
  lemma MeshNext(c: CompiledMesh, name: string, i: nat, offset: nat)
    requires c.clustered.vertexStride < 0x1_0000_0000
    requires MeshAt(c, name, i, offset).Ok?
    ensures MeshAt(c, name, i, offset).value.1 == offset + VertexCountAt(c, i) * VertexWidth(c.clustered.vertexStride)
  {
    VertexDataSemantics(c.clustered, c.meshData, c.instancing, offset, i);
  }

  /** MeshAt as the step of a chain over the draw primitives. */
  function MeshStep(c: CompiledMesh, name: string): (nat, nat) -> Result<(Mesh, nat)>
  {
    (i, offset) => MeshAt(c, name, i, offset)
  }

  /** The vertex bytes draw primitive i takes up. */
  function VertexBytes(c: CompiledMesh): nat -> nat
  {
    i => VertexCountAt(c, i) * VertexWidth(c.clustered.vertexStride)
  }

  /** Every step of the chain moves the vertex offset on by the vertex bytes
      of its draw primitive. */
  lemma MeshStepsAdvance(c: CompiledMesh, name: string)
    requires c.clustered.vertexStride < 0x1_0000_0000
    ensures Advances(MeshStep(c, name), VertexBytes(c))
  {
    forall i: nat, offset: nat | MeshStep(c, name)(i, offset).Ok?
      ensures MeshStep(c, name)(i, offset).value.1 == offset + VertexBytes(c)(i)
    {
      MeshNext(c, name, i, offset);
    }
  }

  /** CreateMeshes: no draw primitives is invalid data; otherwise one mesh
      per draw primitive, the first read from offset 0 and each later one
      from where the previous one stopped. */
  function CreateMeshesOf(c: CompiledMesh, header: Option<ResourceHeader>): (r: Result<seq<Mesh>>)
    ensures |c.clustered.drawPrimitives| == 0 ==> r == Fail(InvalidData)
    ensures r.Ok? ==> |r.value| == |c.clustered.drawPrimitives| > 0
  {
    if |c.clustered.drawPrimitives| == 0 then Fail(InvalidData)
    else Chain(|c.clustered.drawPrimitives|, 0, 0, MeshStep(c, MeshName(header)))
  }

  /** Through CreateMeshes, mesh k is named after the header and read from
      one running vertex offset: the vertex bytes of all the draw primitives
      before it, whichever vertex buffer each of them chose. */
  lemma CreateMeshesAt(c: CompiledMesh, header: Option<ResourceHeader>, k: nat)
    requires c.clustered.vertexStride < 0x1_0000_0000
    requires CreateMeshesOf(c, header).Ok?
    requires k < |CreateMeshesOf(c, header).value|
    ensures MeshStep(c, MeshName(header))(k, Span(VertexBytes(c), 0, k)).Ok?
    ensures CreateMeshesOf(c, header).value[k] == MeshStep(c, MeshName(header))(k, Span(VertexBytes(c), 0, k)).value.0
  {
    var name := MeshName(header);
    assert Advances(MeshStep(c, name), VertexBytes(c)) by {
      MeshStepsAdvance(c, name);
    }
    ChainFromStart(|c.clustered.drawPrimitives|, MeshStep(c, name), VertexBytes(c), k);
  }

  /** The body of the CreateMeshes loop. */
  method ReadMesh(c: CompiledMesh, name: string, i: nat, offset: nat) returns (r: Result<(Mesh, nat)>)
    ensures r.Fail? ==> MeshAt(c, name, i, offset).Fail?
    ensures r.Ok? ==> r == MeshAt(c, name, i, offset)
  {
    var v :- ReadVertexData(c.clustered, c.meshData, c.instancing, offset, i);
    var indices :- ReadIndexData(c.clustered, c.meshData, i);
    var _ :- TrianglesInBounds(indices[..], |v.positions|);
    r := Ok((Mesh(c.instancing[i].numVertices, LayoutStride(v.semantics), v.semantics, v.positions, v.texcoords,
                  indices[..], name), v.offset));
  }

  /** CreateMeshes: the Meshes array filled one draw primitive at a time,
      each iteration starting at the offset the previous one stopped at. */
  method CreateMeshes(c: CompiledMesh, header: Option<ResourceHeader>) returns (r: Result<array<Mesh>>)
    ensures r.Fail? ==> CreateMeshesOf(c, header).Fail?
    ensures r.Ok? ==> fresh(r.value) && CreateMeshesOf(c, header) == Ok(r.value[..])
  {
    if |c.clustered.drawPrimitives| == 0 {
      return Fail(InvalidData);
    }
    var name := MeshName(header);
    ghost var step := MeshStep(c, name);
    var meshes := new Mesh[|c.clustered.drawPrimitives|](_ => NoMesh);
    var vertexOffset := 0;
    var i := 0;
    assert CreateMeshesOf(c, header) == Chain(meshes.Length, i, vertexOffset, step);
    assert meshes[..i] == [];
    PrependNothing(Chain(meshes.Length, i, vertexOffset, step));
    while i < meshes.Length
      invariant i <= meshes.Length == |c.clustered.drawPrimitives|
      invariant CreateMeshesOf(c, header) == Prepend(meshes[..i], Chain(meshes.Length, i, vertexOffset, step))
      modifies meshes
    {
      var m := ReadMesh(c, name, i, vertexOffset);
      if m.Fail? {
        return Fail(m.error);
      }
      ChainStep(meshes.Length, i, vertexOffset, step, m.value.0, m.value.1);
      PrependTwice(meshes[..i], [m.value.0], Chain(meshes.Length, i + 1, m.value.1, step));
      meshes[i] := m.value.0;
      assert meshes[..i + 1] == meshes[..i] + [m.value.0];
      vertexOffset := m.value.1;
      i := i + 1;
    }
    assert Chain(meshes.Length, i, vertexOffset, step) == Ok([]);
    assert meshes[..i] + [] == meshes[..];
    r := Ok(meshes);
  }

  // ---------------------------------------------------------------------
  // ForgeModel.Read

  /** DescriptorMask, Generated, HasHighOverdraw, MaxCullingDistance and
      EstimatedMemoryUsage. */
  const ModelScalarsL: Layout := [U8, Flag, Flag, F32, I32]

  function ReadModelScalars(d: seq<byte>, p: nat): (r: Result<Parsed<seq<int>>>)
    ensures r.Ok? <==> p + 11 <= |d|
    ensures r.Ok? ==> r.value.next == p + 11 && |r.value.value| == 5
  {
    ModelScalarsLayout();
    ReadFields(d, p, ModelScalarsL)
  }

  /** The model up to the skin-wrap meshes: BaseObjectPtrModel, the scalars,
      and the bones. SubMeshes and BlendShapesIDs are always empty. */
  datatype ModelHead = ModelHead(ptr: BaseObjectPtr, scalars: seq<int>, bones: seq<MeshBone>)

  const NoBone := MeshBone(NoBase, 0, [], false)

  /** BaseObjectPtrModel and the scalars: 25 bytes. */
  function ReadModelPrefix(d: seq<byte>, p: nat): (r: Result<Parsed<(BaseObjectPtr, seq<int>)>>)
    ensures r.Ok? <==> p + 25 <= |d|
    ensures r.Ok? ==> r.value.next == p + 25
  {
    var ptr :- ReadPtr(d, p);
    var scalars :- ReadModelScalars(d, ptr.next);
    Ok(Parsed((ptr.value, scalars.value), scalars.next))
  }

  /** SubMeshes, Bones and BlendShapesIDs; only the bones can be non-empty. */
  function ReadModelArrays(d: seq<byte>, p: nat): (r: Result<Parsed<seq<MeshBone>>>)
  {
    var subMeshes :- ReadCounted(d, p, ReadUnknownData);
    var bones :- ReadCounted(d, subMeshes.next, ReadMeshBone);
    var blendShapes :- ReadCounted(d, bones.next, ReadUnknownData);
    Ok(Parsed(bones.value, blendShapes.next))
  }

  function ReadModelHead(d: seq<byte>, p: nat): (r: Result<Parsed<ModelHead>>)
  {
    var prefix :- ReadModelPrefix(d, p);
    var bones :- ReadModelArrays(d, prefix.next);
    Ok(Parsed(ModelHead(prefix.value.0, prefix.value.1, bones.value), bones.next))
  }

  /** The arrays after the 25-byte prefix, once read: NumSubMeshes and
      NumBlendShapes (after the 81-byte bones) were both 0, so they take
      12 + 81 * NumBones bytes; any positive count makes Read fail. */
  lemma ModelArraysShape(d: seq<byte>, q: nat, bones: seq<MeshBone>, next: nat)
    requires ReadModelArrays(d, q) == Ok(Parsed(bones, next))
    ensures ReadCount(d, q) == Ok(Parsed(0, q + 4))
    ensures ReadCount(d, q + 4) == Ok(Parsed(|bones|, q + 8))
    ensures ReadCount(d, q + 8 + 81 * |bones|) == Ok(Parsed(0, q + 12 + 81 * |bones|))
    ensures next == q + 12 + 81 * |bones|
  {
    UnknownArrayEmpty(d, q);
    var run := ReadCounted(d, q + 4, ReadMeshBone).value;
    CountedRunAt(d, q + 4, ReadMeshBone, 81, run.value, run.next);
    UnknownArrayEmpty(d, run.next);
  }

  /** SkinWrapProxyMesh, SkinWrapLayerMesh, LocalExtentMin/Max and the
      compiled mesh. */
  datatype ModelBody = ModelBody(proxy: SkinWrapProxy, layer: SkinWrapLayer, extentMin: seq<int>, extentMax: seq<int>,
                                 compiled: CompiledMesh)

  function ReadModelBody(d: seq<byte>, p: nat): (r: Result<Parsed<ModelBody>>)
  {
    var proxy :- ReadSkinWrapProxy(d, p);
    var layer :- ReadSkinWrapLayer(d, proxy.next);
    var extentMin :- ReadVector4(d, layer.next);
    var extentMax :- ReadVector4(d, extentMin.next);
    var compiled :- ReadCompiledMesh(d, extentMax.next);
    Ok(Parsed(ModelBody(proxy.value, layer.value, extentMin.value, extentMax.value, compiled.value), compiled.next))
  }

  /** MorphMinRange, MorphMaxRange, MorphMultiplier,
      MorphVerticalTextureOffset and Layer. */
  const MorphScalarsL: Layout := [F32, F32, F32, I32, U8]

  /** OpaqueSurfaceArea, DynamicMeshVertexCount, DynamicMeshIndexCount,
      DynamicMeshUVChannelCount and UserCategory. */
  const DynamicScalarsL: Layout := [F32, I32, I32, U8, I32]

  /** The model's scalars are 11 bytes in five fields, and the read needs
      all of them. */
  lemma ModelScalarsLayout()
    ensures Size(ModelScalarsL) == Reach(ModelScalarsL) == 11 && Count(ModelScalarsL) == 5
  {
    ReachOfGapless(ModelScalarsL);
  }

  /** The two scalar runs of the trailer are 17 bytes in five fields each. */
  lemma MorphScalarsLayout()
    ensures Size(MorphScalarsL) == Reach(MorphScalarsL) == 17 && Count(MorphScalarsL) == 5
  {
    ReachOfGapless(MorphScalarsL);
  }

  lemma DynamicScalarsLayout()
    ensures Size(DynamicScalarsL) == Reach(DynamicScalarsL) == 17 && Count(DynamicScalarsL) == 5
  {
    ReachOfGapless(DynamicScalarsL);
  }

  /** The scalars after MorphMappings: the morph scalars and Layer,
      LayerGroup1-8 and WrinklesEnabled, then the dynamic-mesh scalars. */
  function ReadModelTrailer(d: seq<byte>, p: nat): (r: Result<Parsed<(seq<int>, seq<bool>, seq<int>)>>)
    ensures r.Ok? <==> p + 43 <= |d|
    ensures r.Ok? ==> r.value.next == p + 43
  {
    MorphScalarsLayout();
    DynamicScalarsLayout();
    var morph :- ReadFields(d, p, MorphScalarsL);
    var layers :- ReadFlags(d, morph.next, 9);
    var dynamic :- ReadFields(d, layers.next, DynamicScalarsL);
    Ok(Parsed((morph.value, layers.value, dynamic.value), dynamic.next))
  }

  /** The sixteen flags from Dynamic to MorphEnabled. */
  const ModelFlagCount := 16

  function ReadModelFlags(d: seq<byte>, p: nat): (r: Result<Parsed<seq<bool>>>)
    ensures r.Ok? <==> p + 16 <= |d|
    ensures r.Ok? ==> r.value.next == p + 16 && |r.value.value| == 16
  {
    ReadFlags(d, p, ModelFlagCount)
  }

  /** Everything after CreateMeshes: TracePreciseMeshShape, the material
      references, the flags, MorphDisplacementTexture and the trailing
      scalars. MorphMappings is always empty. */
  datatype ModelTail = ModelTail(tracePreciseMeshShape: FileReference, materials: seq<FileReference>, flags: seq<bool>,
                                 morphDisplacementTexture: FileReference, scalars: (seq<int>, seq<bool>, seq<int>))

  /** TracePreciseMeshShape and the material references. */
  function ReadTailReferences(d: seq<byte>, p: nat): (r: Result<Parsed<(FileReference, seq<FileReference>)>>)
  {
    var trace :- ReadReference(d, p);
    var materials :- ReadCounted(d, trace.next, ReadReference);
    Ok(Parsed((trace.value, materials.value), materials.next))
  }

  /** The flags, MorphDisplacementTexture, MorphMappings and the trailing
      scalars. */
  function ReadTailMorph(d: seq<byte>, p: nat): (r: Result<Parsed<(seq<bool>, FileReference, (seq<int>, seq<bool>, seq<int>))>>)
  {
    var flags :- ReadModelFlags(d, p);
    var morph :- ReadReference(d, flags.next);
    var mappings :- ReadCounted(d, morph.next, ReadUnknownData);
    var scalars :- ReadModelTrailer(d, mappings.next);
    Ok(Parsed((flags.value, morph.value, scalars.value), scalars.next))
  }

  function ReadModelTail(d: seq<byte>, p: nat): (r: Result<Parsed<ModelTail>>)
  {
    var refs :- ReadTailReferences(d, p);
    var rest :- ReadTailMorph(d, refs.next);
    Ok(Parsed(ModelTail(refs.value.0, refs.value.1, rest.value.0, rest.value.1, rest.value.2), rest.next))
  }

  /** The references at the head of the tail, once read: NumMaterials at
      byte 10, then that many 10-byte references. */
  lemma TailReferencesShape(d: seq<byte>, p: nat, refs: (FileReference, seq<FileReference>), next: nat)
    requires ReadTailReferences(d, p) == Ok(Parsed(refs, next))
    ensures ReadCount(d, p + 10) == Ok(Parsed(|refs.1|, p + 14))
    ensures next == p + 14 + 10 * |refs.1|
  {
    var materials := ReadCounted(d, p + 10, ReadReference).value;
    CountedRunAt(d, p + 10, ReadReference, 10, materials.value, materials.next);
  }

  /** The rest of the tail, once read: NumMappings after the flags and the
      morph texture was 0, and the whole is 73 bytes; a positive count
      makes Read fail. */
  lemma TailMorphShape(d: seq<byte>, q: nat, m: (seq<bool>, FileReference, (seq<int>, seq<bool>, seq<int>)), next: nat)
    requires ReadTailMorph(d, q) == Ok(Parsed(m, next))
    ensures ReadCount(d, q + 26) == Ok(Parsed(0, q + 30))
    ensures next == q + 73
  {
    UnknownArrayEmpty(d, q + 26);
  }

  /** ForgeModel as Read leaves it: the header when it was read, and the
      meshes CreateMeshes built in the middle of the read. */
  datatype Model = Model(header: Option<ResourceHeader>, head: ModelHead, body: ModelBody, meshes: seq<Mesh>,
                         tail: ModelTail)

  /** ForgeModel.Read. */
  function ParseModel(d: seq<byte>, p: nat, skipHeader: bool): (r: Result<Parsed<Model>>)
    ensures r.Ok? ==> (r.value.value.header.Some? <==> !skipHeader)
    ensures r.Ok? ==> |r.value.value.meshes| == |r.value.value.body.compiled.clustered.drawPrimitives| > 0
  {
    var header :- ReadOptionalHeader(d, p, skipHeader);
    ReadModelContent(d, header.next, header.value)
  }

  /** Read after the header: the head, the body, CreateMeshes, then the
      tail. */
  function ReadModelContent(d: seq<byte>, p: nat, header: Option<ResourceHeader>): (r: Result<Parsed<Model>>)
    ensures r.Ok? ==> r.value.value.header == header
    ensures r.Ok? ==> |r.value.value.meshes| == |r.value.value.body.compiled.clustered.drawPrimitives| > 0
  {
    var head :- ReadModelHead(d, p);
    var geometry :- ReadModelGeometry(d, head.next, header);
    var tail :- ReadModelTail(d, geometry.next);
    Ok(Parsed(Model(header, head.value, geometry.value.0, geometry.value.1, tail.value), tail.next))
  }

  /** The body, then the meshes CreateMeshes builds from its compiled mesh. */
  function ReadModelGeometry(d: seq<byte>, p: nat, header: Option<ResourceHeader>): (r: Result<Parsed<(ModelBody, seq<Mesh>)>>)
    ensures r.Ok? ==> |r.value.value.1| == |r.value.value.0.compiled.clustered.drawPrimitives| > 0
  {
    var body :- ReadModelBody(d, p);
    var meshes :- CreateMeshesOf(body.value.compiled, header);
    Ok(Parsed((body.value, meshes), body.next))
  }

  method ReadHead(reader: DataReader) returns (r: Result<ModelHead>)
    modifies reader
    ensures r.Fail? ==> ReadModelHead(reader.data, old(reader.position)).Fail?
    ensures r.Ok? ==> ReadModelHead(reader.data, old(reader.position)) == Ok(Parsed(r.value, reader.position))
  {
    var prefix :- reader.Read(ReadModelPrefix);
    var bones :- ReadArrays(reader);
    r := Ok(ModelHead(prefix.0, prefix.1, bones));
  }

  method ReadArrays(reader: DataReader) returns (r: Result<seq<MeshBone>>)
    modifies reader
    ensures r.Fail? ==> ReadModelArrays(reader.data, old(reader.position)).Fail?
    ensures r.Ok? ==> ReadModelArrays(reader.data, old(reader.position)) == Ok(Parsed(r.value, reader.position))
  {
    var subMeshes :- reader.ReadCountedArray(ReadUnknownData, ());
    var bones :- reader.ReadCountedArray(ReadMeshBone, NoBone);
    var blendShapes :- reader.ReadCountedArray(ReadUnknownData, ());
    r := Ok(bones[..]);
  }

  method ReadBody(reader: DataReader) returns (r: Result<ModelBody>)
    modifies reader
    ensures r.Fail? ==> ReadModelBody(reader.data, old(reader.position)).Fail?
    ensures r.Ok? ==> ReadModelBody(reader.data, old(reader.position)) == Ok(Parsed(r.value, reader.position))
  {
    var proxy :- reader.Read(ReadSkinWrapProxy);
    var layer :- reader.Read(ReadSkinWrapLayer);
    var extentMin :- reader.Read(ReadVector4);
    var extentMax :- reader.Read(ReadVector4);
    var compiled :- reader.Read(ReadCompiledMesh);
    r := Ok(ModelBody(proxy, layer, extentMin, extentMax, compiled));
  }

  method ReadTail(reader: DataReader) returns (r: Result<ModelTail>)
    modifies reader
    ensures r.Fail? ==> ReadModelTail(reader.data, old(reader.position)).Fail?
    ensures r.Ok? ==> ReadModelTail(reader.data, old(reader.position)) == Ok(Parsed(r.value, reader.position))
  {
    var refs :- ReadReferencesPart(reader);
    var rest :- ReadMorphPart(reader);
    r := Ok(ModelTail(refs.0, refs.1, rest.0, rest.1, rest.2));
  }

  method ReadReferencesPart(reader: DataReader) returns (r: Result<(FileReference, seq<FileReference>)>)
    modifies reader
    ensures r.Fail? ==> ReadTailReferences(reader.data, old(reader.position)).Fail?
    ensures r.Ok? ==> ReadTailReferences(reader.data, old(reader.position)) == Ok(Parsed(r.value, reader.position))
  {
    var trace :- reader.Read(ReadReference);
    var materials :- reader.ReadCountedArray(ReadReference, FileReference(0, 0, 0));
    r := Ok((trace, materials[..]));
  }

  method ReadMorphPart(reader: DataReader) returns (r: Result<(seq<bool>, FileReference, (seq<int>, seq<bool>, seq<int>))>)
    modifies reader
    ensures r.Fail? ==> ReadTailMorph(reader.data, old(reader.position)).Fail?
    ensures r.Ok? ==> ReadTailMorph(reader.data, old(reader.position)) == Ok(Parsed(r.value, reader.position))
  {
    var flags :- reader.Read(ReadModelFlags);
    var morph :- reader.Read(ReadReference);
    var mappings :- reader.ReadCountedArray(ReadUnknownData, ());
    var scalars :- reader.Read(ReadModelTrailer);
    r := Ok((flags, morph, scalars));
  }

  /** ForgeModel.Read on a DataReader: the optional header, then the rest. */
  method ReadModel(reader: DataReader, skipHeader: bool) returns (r: Result<Model>)
    modifies reader
    ensures r.Fail? ==> ParseModel(reader.data, old(reader.position), skipHeader).Fail?
    ensures r.Ok? ==> ParseModel(reader.data, old(reader.position), skipHeader) == Ok(Parsed(r.value, reader.position))
  {
    var header: Option<ResourceHeader> := None;
    if !skipHeader {
      var h :- reader.Read(ReadResourceHeader);
      header := Some(h);
    }
    r := ReadContent(reader, header);
  }

  method ReadContent(reader: DataReader, header: Option<ResourceHeader>) returns (r: Result<Model>)
    modifies reader
    ensures r.Fail? ==> ReadModelContent(reader.data, old(reader.position), header).Fail?
    ensures r.Ok? ==> ReadModelContent(reader.data, old(reader.position), header) == Ok(Parsed(r.value, reader.position))
  {
    var head :- ReadHead(reader);
    var geometry :- ReadGeometry(reader, header);
    var tail :- ReadTail(reader);
    r := Ok(Model(header, head, geometry.0, geometry.1, tail));
  }

  method ReadGeometry(reader: DataReader, header: Option<ResourceHeader>) returns (r: Result<(ModelBody, seq<Mesh>)>)
    modifies reader
    ensures r.Fail? ==> ReadModelGeometry(reader.data, old(reader.position), header).Fail?
    ensures r.Ok? ==> ReadModelGeometry(reader.data, old(reader.position), header) == Ok(Parsed(r.value, reader.position))
  {
    var body :- ReadBody(reader);
    var meshes :- CreateMeshes(body.compiled, header);
    r := Ok((body, meshes[..]));
  }
}

/** The vertex decoding of a ForgeModel draw primitive
    (Resources/ForgeModel.cs): GetCorrectVertexBuffer, GetTexcoordsFromBuffer0
    and ReadVertexData. Only the byte layout is modelled: positions and
    texture coordinates are the int16 values read, before any float scaling
    or normalisation. */
module ModelGeometry {
  import opened Wrappers
  import opened Bytes
  import opened Cursor
  import opened ForgeData
  import opened DataStream
  import opened ModelRecords
  import opened VertexSlots
  import opened VertexRecords
  import opened VertexSemantics

  // ---------------------------------------------------------------------
  // GetCorrectVertexBuffer

  /** `numVertices * VertexStride`, a uint product that wraps. */
  function ExpectedLength(numVertices: nat, stride: nat): nat
  {
    (numVertices * stride) % 0x1_0000_0000
  }

  /** GetCorrectVertexBuffer. VertexBuffer1 is never null once the clustered
      mesh data has been read, so only its length is tested. */
  function CorrectVertexBuffer(numVertices: nat, cm: ClusteredMeshData): (r: Result<seq<byte>>)
    ensures |cm.VertexBuffer(1).buffer| == 0 ==> r == Ok(cm.VertexBuffer(0).buffer)
    ensures r.Fail? ==> r == Fail(InvalidData)
  {
    var len := ExpectedLength(numVertices, cm.vertexStride);
    if |cm.VertexBuffer(1).buffer| == 0 || |cm.VertexBuffer(0).buffer| == len then Ok(cm.VertexBuffer(0).buffer)
    else if |cm.VertexBuffer(1).buffer| == len then Ok(cm.VertexBuffer(1).buffer)
    else if |cm.VertexBuffer(2).buffer| == len then Ok(cm.VertexBuffer(2).buffer)
    else if |cm.VertexBuffer(3).buffer| == len then Ok(cm.VertexBuffer(3).buffer)
    else Fail(InvalidData)
  }

  /** When VertexBuffer1 is not empty, the buffer chosen is the first of the
      four whose length is the expected one, and there is none exactly when
      the call fails. */
  lemma CorrectVertexBufferChoice(numVertices: nat, cm: ClusteredMeshData)
    requires |cm.VertexBuffer(1).buffer| != 0
    ensures var len := ExpectedLength(numVertices, cm.vertexStride);
      CorrectVertexBuffer(numVertices, cm).Ok? <==> exists j :: 0 <= j < 4 && |cm.VertexBuffer(j).buffer| == len
    ensures var len := ExpectedLength(numVertices, cm.vertexStride);
      forall j :: (0 <= j < 4 && |cm.VertexBuffer(j).buffer| == len &&
        (forall k :: 0 <= k < j ==> |cm.VertexBuffer(k).buffer| != len))
        ==> CorrectVertexBuffer(numVertices, cm) == Ok(cm.VertexBuffer(j).buffer)
  {
    var len := ExpectedLength(numVertices, cm.vertexStride);
    if CorrectVertexBuffer(numVertices, cm).Ok? {
      var j :| 0 <= j < 4 && CorrectVertexBuffer(numVertices, cm) == Ok(cm.VertexBuffer(j).buffer) && |cm.VertexBuffer(j).buffer| == len;
    }
    forall j | 0 <= j < 4 && |cm.VertexBuffer(j).buffer| == len && (forall k :: 0 <= k < j ==> |cm.VertexBuffer(k).buffer| != len)
      ensures CorrectVertexBuffer(numVertices, cm) == Ok(cm.VertexBuffer(j).buffer)
    {
      if j > 0 { assert |cm.VertexBuffer(0).buffer| != len; }
      if j > 1 { assert |cm.VertexBuffer(1).buffer| != len; }
      if j > 2 { assert |cm.VertexBuffer(2).buffer| != len; }
    }
  }

  // ---------------------------------------------------------------------
  // GetTexcoordsFromBuffer0

  /** One record of VertexBuffer0 for stride 12: a uint32 colour, then two
      int16s, the first of them doubled. */
  function ReadColorTexcoord(d: seq<byte>, p: nat): (r: Result<Parsed<Vec2i>>)
    ensures r.Ok? <==> p + 8 <= |d|
    ensures r.Ok? ==> r.value.next == p + 8 && r.value.value == Vec2i(2 * IntAt(d, p + 4, 2), IntAt(d, p + 6, 2))
  {
    var color :- ReadU32(d, p);
    var x :- ReadI16(d, color.next);
    var y :- ReadI16(d, x.next);
    Ok(Parsed(Vec2i(2 * x.value, y.value), y.next))
  }

  /** The texture coordinates ReadVertexData starts from: those of
      VertexBuffer0 for stride 12 (which needs the instancing entry), none
      for any other stride. */
  function Buffer0Texcoords(cm: ClusteredMeshData, inst: seq<Instancing>, index: nat): (r: Result<seq<Vec2i>>)
    ensures cm.vertexStride != 12 ==> r == Ok([])
    ensures cm.vertexStride == 12 && r.Ok? ==> index < |inst| && |r.value| == inst[index].numVertices
  {
    if cm.vertexStride != 12 then Ok([])
    else if index >= |inst| then Fail(IndexOutOfRange)
    else
      var t :- ReadMany(cm.VertexBuffer(0).buffer, 0, inst[index].numVertices, ReadColorTexcoord);
      Ok(t.value)
  }

  // ---------------------------------------------------------------------
  // ReadVertexData

  /** What ReadVertexData returns: the positions, the texture coordinates,
      the semantic code, and the stream position it stopped at. */
  datatype VertexData = VertexData(positions: seq<Vec3i>, texcoords: seq<Vec2i>, semantics: seq<char>, offset: nat)

  /** ReadVertexData for draw primitive `index`, starting at byte
      lastVertexOffset of the chosen vertex buffer. */
  function VertexDataOf(cm: ClusteredMeshData, md: MeshData, inst: seq<Instancing>, lastVertexOffset: nat, index: nat)
    : (r: Result<VertexData>)
    ensures r.Ok? ==> index < |md.standardPrimitives| && index < |inst|
    ensures r.Ok? ==> |r.value.positions| == inst[index].numVertices
  {
    if index >= |md.standardPrimitives| then Fail(IndexOutOfRange)
    else
      var buffer :- CorrectVertexBuffer(md.standardPrimitives[index].numVertices, cm);
      var texcoords0 :- Buffer0Texcoords(cm, inst, index);
      if lastVertexOffset > MaxStreamPosition then Fail(PositionOutOfRange)
      else if index >= |inst| then Fail(IndexOutOfRange)
      else VerticesData(buffer, texcoords0, lastVertexOffset, inst[index].numVertices, cm.vertexStride)
  }

  /** The vertex loop of ReadVertexData and what it returns: n records from
      lastVertexOffset on, their positions, the texture coordinates after
      those of buffer 0, and the semantic code. */
  function VerticesData(buffer: seq<byte>, texcoords0: seq<Vec2i>, lastVertexOffset: nat, n: nat, stride: nat)
    : (r: Result<VertexData>)
    ensures r.Ok? ==> |r.value.positions| == n
  {
    var vs :- ReadVertices(buffer, lastVertexOffset, n, stride);
    var normals, texcoords := Normals(vs.value), texcoords0 + Texcoords(vs.value);
    Ok(VertexData(Positions(vs.value), texcoords, GenerateSemantics(normals, texcoords), vs.next))
  }

  /** Through ReadVertexData a normal is in the semantic code exactly when the
      stride lists one and there are vertices, and a texture coordinate
      exactly when the stride lists one or is 12 and there are vertices; the
      offset moves on by one vertex width per vertex, and the layout stride
      CreateMeshes derives from the code follows. */
  lemma VertexDataSemantics(cm: ClusteredMeshData, md: MeshData, inst: seq<Instancing>, lastVertexOffset: nat, index: nat)
    requires cm.vertexStride < 0x1_0000_0000
    requires VertexDataOf(cm, md, inst, lastVertexOffset, index).Ok?
    ensures var r := VertexDataOf(cm, md, inst, lastVertexOffset, index).value;
      var n := inst[index].numVertices;
      && ('N' in r.semantics <==> HasNormal(cm.vertexStride) && n > 0)
      && ('T' in r.semantics <==> (cm.vertexStride == 12 || HasTexcoord(cm.vertexStride)) && n > 0)
      && |r.texcoords| == (if cm.vertexStride == 12 || HasTexcoord(cm.vertexStride) then n else 0)
      && r.offset == lastVertexOffset + n * VertexWidth(cm.vertexStride)
      && LayoutStride(r.semantics) == 16 + (if HasNormal(cm.vertexStride) && n > 0 then 12 else 0)
           + (if (cm.vertexStride == 12 || HasTexcoord(cm.vertexStride)) && n > 0 then 8 else 0)
  {
    var buffer := CorrectVertexBuffer(md.standardPrimitives[index].numVertices, cm).value;
    var n := inst[index].numVertices;
    var vs := ReadVertices(buffer, lastVertexOffset, n, cm.vertexStride).value;
    ReadVerticesShape(buffer, lastVertexOffset, n, cm.vertexStride);
    UniformCounts(vs.value, HasNormal(cm.vertexStride), HasTexcoord(cm.vertexStride));
    var texcoords0 := Buffer0Texcoords(cm, inst, index).value;
    SemanticsCode(Normals(vs.value), texcoords0 + Texcoords(vs.value));
    SemanticsStride(Normals(vs.value), texcoords0 + Texcoords(vs.value));
  }

  /** The texture coordinates read before the vertex loop: for stride 12,
      GetTexcoordsFromBuffer0 over a new reader of VertexBuffer0. */
  method TexcoordsFromBuffer0(cm: ClusteredMeshData, inst: seq<Instancing>, index: nat) returns (r: Result<seq<Vec2i>>)
    ensures r.Ok? <==> Buffer0Texcoords(cm, inst, index).Ok?
    ensures r.Ok? ==> r == Buffer0Texcoords(cm, inst, index)
  {
    if cm.vertexStride != 12 {
      return Ok([]);
    }
    if index >= |inst| {
      return Fail(IndexOutOfRange);
    }
    var reader := new DataReader(cm.VertexBuffer(0).buffer);
    var t0 :- reader.ReadArray(inst[index].numVertices, ReadColorTexcoord, Vec2i(0, 0));
    r := Ok(t0[..]);
  }

  /** ReadVertexData: picks the vertex buffer, reads the buffer-0 texture
      coordinates for stride 12, moves to lastVertexOffset and reads one
      record per vertex, collecting positions, normals and texture
      coordinates. */
  method ReadVertexData(cm: ClusteredMeshData, md: MeshData, inst: seq<Instancing>, lastVertexOffset: nat, index: nat)
    returns (r: Result<VertexData>)
    ensures r.Ok? <==> VertexDataOf(cm, md, inst, lastVertexOffset, index).Ok?
    ensures r.Ok? ==> r == VertexDataOf(cm, md, inst, lastVertexOffset, index)
  {
    if index >= |md.standardPrimitives| {
      return Fail(IndexOutOfRange);
    }
    var buffer :- CorrectVertexBuffer(md.standardPrimitives[index].numVertices, cm);
    var dr := new ForgeDataReader(buffer);
    var texcoords0 :- TexcoordsFromBuffer0(cm, inst, index);
    var _ :- dr.Jump(lastVertexOffset);
    if index >= |inst| {
      return Fail(IndexOutOfRange);
    }
    var lists := ReadVertexLists(dr, inst[index].numVertices, cm.vertexStride);
    if lists.Fail? {
      return Fail(lists.error);
    }
    var texcoords := texcoords0 + lists.value.texcoords;
    r := Ok(VertexData(lists.value.positions, texcoords, GenerateSemantics(lists.value.normals, texcoords), dr.pos));
    assert r == VerticesData(buffer, texcoords0, lastVertexOffset, inst[index].numVertices, cm.vertexStride);
  }
}

/** One vertex record of ReadVertexData (Resources/ForgeModel.cs:378-480):
    the position triple, then the slots its stride lists, read through a
    little-endian ForgeDataReader. */
module VertexRecords {
  import opened Wrappers
  import opened Bytes
  import opened Cursor
  import opened ForgeData
  import opened VertexSlots

  /** A vertex as read: its position, and a normal and a texture coordinate
      when the layout has them. */
  datatype Vertex = Vertex(position: Vec3i, normal: Option<Vec3i>, texcoord: Option<Vec2i>)

  /** One slot read at p into v: a normal or a texture coordinate stored in
      the vertex, bytes dropped (which must be there), or a position moved
      (which must stay a valid stream position). */
  function SlotStep(d: seq<byte>, p: nat, s: Slot, v: Vertex): (r: Result<Parsed<Vertex>>)
    ensures r.Ok? ==> r.value.value.position == v.position
    ensures r.Ok? ==> r.value.next == p + SlotWidth(s)
    ensures r.Ok? ==> (r.value.value.normal.Some? <==> v.normal.Some? || s == Normal)
    ensures r.Ok? ==> (r.value.value.texcoord.Some? <==> v.texcoord.Some? || s == Texcoord)
  {
    match s
    case Normal =>
      var n :- Vector3AsInt16(d, p, LittleEndian);
      Ok(Parsed(v.(normal := Some(n.value)), n.next))
    case Texcoord =>
      var t :- Vector2AsInt16(d, p, LittleEndian);
      Ok(Parsed(v.(texcoord := Some(t.value)), t.next))
    case Drop(n) =>
      if p + n > |d| then Fail(EndOfStream) else Ok(Parsed(v, p + n))
    case Jump(n) =>
      if p + n > MaxStreamPosition then Fail(PositionOutOfRange) else Ok(Parsed(v, p + n))
  }

  /** The slots of a layout read from p onwards into v, one after the other. */
  function ReadSlots(d: seq<byte>, p: nat, slots: seq<Slot>, v: Vertex): (r: Result<Parsed<Vertex>>)
    ensures r.Ok? ==> r.value.value.position == v.position
    ensures r.Ok? ==> r.value.next == p + SlotsWidth(slots)
    ensures r.Ok? ==> (r.value.value.normal.Some? <==> v.normal.Some? || Normal in slots)
    ensures r.Ok? ==> (r.value.value.texcoord.Some? <==> v.texcoord.Some? || Texcoord in slots)
    decreases |slots|
  {
    if slots == [] then Ok(Parsed(v, p))
    else
      var x :- SlotStep(d, p, slots[0], v);
      ReadSlots(d, x.next, slots[1..], x.value)
  }

  /** One vertex record: the position triple, kept as (Y, X, Z), then the
      slots of the stride. */
  function VertexAt(d: seq<byte>, p: nat, stride: nat): Result<Parsed<Vertex>>
  {
    var xyz :- Vector3AsInt16(d, p, LittleEndian);
    ReadSlots(d, xyz.next, StrideLayout(stride), Vertex(Vec3i(xyz.value.y, xyz.value.x, xyz.value.z), None, None))
  }

  /** What one vertex record holds and takes: a stride below 6 always fails,
      any other (uint) stride takes VertexWidth bytes; the normal and the
      texture coordinate are there exactly for the strides that list them,
      and the position is the first triple with X and Y exchanged. */
  lemma VertexShape(d: seq<byte>, p: nat, stride: nat, v: Vertex, next: nat)
    requires stride < 0x1_0000_0000
    requires VertexAt(d, p, stride) == Ok(Parsed(v, next))
    ensures 6 <= stride && p + 6 <= |d|
    ensures next == p + VertexWidth(stride)
    ensures v.normal.Some? <==> HasNormal(stride)
    ensures v.texcoord.Some? <==> HasTexcoord(stride)
    ensures v.position == Vec3i(Int16At(d, p + 2, LittleEndian), Int16At(d, p, LittleEndian), Int16At(d, p + 4, LittleEndian))
  {
    LayoutWidth(stride);
    LayoutSlots(stride);
  }

  /** The reader of one vertex record of the given stride. */
  function VertexReader(stride: nat): (seq<byte>, nat) -> Result<Parsed<Vertex>>
  {
    (d: seq<byte>, p: nat) => VertexAt(d, p, stride)
  }

  /** n vertex records in a row. */
  function ReadVertices(d: seq<byte>, p: nat, n: nat, stride: nat): (r: Result<Parsed<seq<Vertex>>>)
    ensures r.Ok? ==> |r.value.value| == n
  {
    ReadMany(d, p, n, VertexReader(stride))
  }

  /** n vertex records take n times the vertex width, and every vertex has
      a normal and a texture coordinate exactly when the stride lists them. */
  lemma ReadVerticesShape(d: seq<byte>, p: nat, n: nat, stride: nat)
    requires stride < 0x1_0000_0000
    requires ReadVertices(d, p, n, stride).Ok?
    ensures ReadVertices(d, p, n, stride).value.next == p + n * VertexWidth(stride)
    ensures forall v :: v in ReadVertices(d, p, n, stride).value.value ==>
      (v.normal.Some? <==> HasNormal(stride)) && (v.texcoord.Some? <==> HasTexcoord(stride))
  {
    var item := VertexReader(stride);
    var P := (v: Vertex) => (v.normal.Some? <==> HasNormal(stride)) && (v.texcoord.Some? <==> HasTexcoord(stride));
    forall q: nat | item(d, q).Ok?
      ensures item(d, q).value.next == q + VertexWidth(stride) && P(item(d, q).value.value)
    {
      var x := VertexAt(d, q, stride).value;
      VertexShape(d, q, stride, x.value, x.next);
    }
    ReadManyUniform(d, p, n, item, VertexWidth(stride), P);
  }

  /** The positions of the vertices read. */
  function Positions(vs: seq<Vertex>): (r: seq<Vec3i>)
    ensures |r| == |vs| && forall i :: 0 <= i < |vs| ==> r[i] == vs[i].position
  {
    seq(|vs|, i requires 0 <= i < |vs| => vs[i].position)
  }

  /** The normals of the vertices that have one, in order. */
  function Normals(vs: seq<Vertex>): seq<Vec3i>
  {
    if vs == [] then []
    else Normals(vs[..|vs| - 1]) + (if vs[|vs| - 1].normal.Some? then [vs[|vs| - 1].normal.value] else [])
  }

  /** The texture coordinates of the vertices that have one, in order. */
  function Texcoords(vs: seq<Vertex>): seq<Vec2i>
  {
    if vs == [] then []
    else Texcoords(vs[..|vs| - 1]) + (if vs[|vs| - 1].texcoord.Some? then [vs[|vs| - 1].texcoord.value] else [])
  }

  /** When every vertex has a normal, there is one per vertex; when none has,
      there are none. The same holds for texture coordinates. */
  lemma {:induction false} UniformCounts(vs: seq<Vertex>, normal: bool, texcoord: bool)
    requires forall v :: v in vs ==> (v.normal.Some? <==> normal) && (v.texcoord.Some? <==> texcoord)
    ensures |Normals(vs)| == if normal then |vs| else 0
    ensures |Texcoords(vs)| == if texcoord then |vs| else 0
    decreases |vs|
  {
    if vs != [] {
      var init := vs[..|vs| - 1];
      assert forall v :: v in init ==> v in vs;
      UniformCounts(init, normal, texcoord);
      assert vs[|vs| - 1] in vs;
    }
  }


  /** One slot read through a ForgeDataReader. */
  method ReadSlot(dr: ForgeDataReader, s: Slot, v: Vertex) returns (r: Result<Vertex>)
    requires dr.endianness == LittleEndian
    modifies dr
    ensures r.Fail? ==> SlotStep(dr.data, old(dr.pos), s, v).Fail?
    ensures r.Ok? ==> SlotStep(dr.data, old(dr.pos), s, v) == Ok(Parsed(r.value, dr.pos))
  {
    match s {
      case Normal =>
        var n :- dr.ReadVector3AsInt16();
        r := Ok(v.(normal := Some(n)));
      case Texcoord =>
        var t :- dr.ReadVector2AsInt16();
        r := Ok(v.(texcoord := Some(t)));
      case Drop(k) =>
        var _ :- dr.SkipBytes(k);
        r := Ok(v);
      case Jump(k) =>
        var _ :- dr.Jump(k);
        r := Ok(v);
    }
  }

  /** One vertex record read through a ForgeDataReader, slot by slot. */
  method ReadVertex(dr: ForgeDataReader, stride: nat) returns (r: Result<Vertex>)
    requires dr.endianness == LittleEndian
    modifies dr
    ensures r.Fail? ==> VertexAt(dr.data, old(dr.pos), stride).Fail?
    ensures r.Ok? ==> VertexAt(dr.data, old(dr.pos), stride) == Ok(Parsed(r.value, dr.pos))
  {
    ghost var start := dr.pos;
    var xyz :- dr.ReadVector3AsInt16();
    var v := Vertex(Vec3i(xyz.y, xyz.x, xyz.z), None, None);
    var slots := StrideLayout(stride);
    var j := 0;
    while j < |slots|
      invariant j <= |slots|
      invariant VertexAt(dr.data, start, stride) == ReadSlots(dr.data, dr.pos, slots[j..], v)
    {
      assert slots[j..][1..] == slots[j + 1..];
      v :- ReadSlot(dr, slots[j], v);
      j := j + 1;
    }
    r := Ok(v);
  }

  /** The lists ReadVertexData fills: one position per vertex, and the
      normals and texture coordinates of the vertices that have them. */
  datatype VertexLists = VertexLists(positions: seq<Vec3i>, normals: seq<Vec3i>, texcoords: seq<Vec2i>)

  /** Appending a vertex appends its position, and its normal and texture
      coordinate when it has them. */
  lemma ListsAppend(vs: seq<Vertex>, v: Vertex)
    ensures Positions(vs + [v]) == Positions(vs) + [v.position]
    ensures Normals(vs + [v]) == Normals(vs) + (if v.normal.Some? then [v.normal.value] else [])
    ensures Texcoords(vs + [v]) == Texcoords(vs) + (if v.texcoord.Some? then [v.texcoord.value] else [])
  {
    assert (vs + [v])[..|vs|] == vs;
  }

  /** ReadVertexData's loop: n vertex records read through the reader, each
      appended to the lists. */
  method ReadVertexLists(dr: ForgeDataReader, n: nat, stride: nat) returns (r: Result<VertexLists>)
    requires dr.endianness == LittleEndian
    modifies dr
    ensures r.Fail? ==> ReadVertices(dr.data, old(dr.pos), n, stride).Fail?
    ensures r.Ok? ==>
      var vs := ReadVertices(dr.data, old(dr.pos), n, stride);
      && vs.Ok? && dr.pos == vs.value.next
      && r.value == VertexLists(Positions(vs.value.value), Normals(vs.value.value), Texcoords(vs.value.value))
  {
    ghost var item := VertexReader(stride);
    ghost var pos: seq<nat> := [dr.pos];
    ghost var vs: seq<Vertex> := [];
    var positions: seq<Vec3i> := [];
    var normals: seq<Vec3i> := [];
    var texcoords: seq<Vec2i> := [];
    var i := 0;
    while i < n
      invariant i <= n && |vs| == i && |pos| == i + 1 && pos[0] == old(dr.pos) && pos[i] == dr.pos
      invariant forall k :: 0 <= k < i ==> ReadsTo(item, dr.data, pos[k], vs[k], pos[k + 1])
      invariant positions == Positions(vs) && normals == Normals(vs) && texcoords == Texcoords(vs)
    {
      ghost var here := dr.pos;
      var v := ReadVertex(dr, stride);
      if v.Fail? {
        assert item(dr.data, here).Fail?;
        ReadManyStopsAt(dr.data, pos, vs, n, item);
        return Fail(v.error);
      }
      ReadStepsExtend(dr.data, pos, vs, item, v.value, dr.pos);
      ListsAppend(vs, v.value);
      positions := positions + [v.value.position];
      if v.value.normal.Some? {
        normals := normals + [v.value.normal.value];
      }
      if v.value.texcoord.Some? {
        texcoords := texcoords + [v.value.texcoord.value];
      }
      vs := vs + [v.value];
      pos := pos + [dr.pos];
      i := i + 1;
    }
    ReadManySteps(dr.data, pos, vs, item);
    r := Ok(VertexLists(positions, normals, texcoords));
  }
}

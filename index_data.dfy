/** ReadIndexData and the bounds test of CalculateNormals
    (Resources/ForgeModel.cs:495-523, 594-617). */
module IndexData {
  import opened Wrappers
  import opened Bytes
  import opened Cursor
  import opened DataStream
  import opened ModelRecords

  /** The first two indices of every triple exchanged, the third kept; a
      lone index left at the end is kept too. */
  function Swapped(s: seq<nat>): (t: seq<nat>)
    ensures |t| == |s|
  {
    seq(|s|, k requires 0 <= k < |s| =>
      if k % 3 == 0 && k + 1 < |s| then s[k + 1] else if k % 3 == 1 then s[k - 1] else s[k])
  }

  /** Swapping twice gives the indices back. */
  lemma SwappedInvolution(s: seq<nat>)
    ensures Swapped(Swapped(s)) == s
  {
    var t := Swapped(s);
    forall k | 0 <= k < |s|
      ensures Swapped(t)[k] == s[k]
    {
      if k % 3 == 1 {
        assert (k - 1) % 3 == 0;
      } else if k % 3 == 0 && k + 1 < |s| {
        assert (k + 1) % 3 == 1;
      }
    }
  }

  /** Every whole triangle (a, b, c) becomes (b, a, c): the winding flips
      and the third corner stays. */
  lemma SwappedTriangle(s: seq<nat>, k: nat)
    requires k % 3 == 0 && k + 3 <= |s|
    ensures Swapped(s)[k..k + 3] == [s[k + 1], s[k], s[k + 2]]
  {
    assert (k + 1) % 3 == 1 && (k + 2) % 3 == 2;
  }

  /** ReadIndexData for draw primitive meshIndex: 3 * PrimitiveCount uint16s
      (uint arithmetic) read from byte 2 * IndexStart (int arithmetic) of the
      index buffer, then the triples swapped; a lone index left over makes
      the swap loop fail. */
  function IndexDataOf(cm: ClusteredMeshData, md: MeshData, meshIndex: nat): (r: Result<seq<nat>>)
    ensures r.Ok? ==> meshIndex < |md.standardPrimitives| && meshIndex < |cm.drawPrimitives|
    ensures r.Ok? ==> |r.value| == (3 * md.standardPrimitives[meshIndex].primitiveCount) % 0x1_0000_0000
    ensures r.Ok? ==> |r.value| % 3 != 1
  {
    if meshIndex >= |md.standardPrimitives| then Fail(IndexOutOfRange)
    else
      var n := (3 * md.standardPrimitives[meshIndex].primitiveCount) % 0x1_0000_0000;
      if meshIndex >= |cm.drawPrimitives| then Fail(IndexOutOfRange)
      else
        var start :- Seek(0, WrapInt32(2 * cm.drawPrimitives[meshIndex].indexStart));
        var raw :- ReadMany(cm.IndexBuffer().buffer, start, n, ReadU16);
        if n % 3 == 1 then Fail(IndexOutOfRange) else Ok(Swapped(raw.value))
  }

  /** The indices ReadIndexData returns, swapped back, are the uint16s stored
      in the index buffer from byte 2 * IndexStart on. */
  lemma IndexDataRaw(cm: ClusteredMeshData, md: MeshData, meshIndex: nat)
    requires IndexDataOf(cm, md, meshIndex).Ok?
    ensures var start := WrapInt32(2 * cm.drawPrimitives[meshIndex].indexStart);
      var n := (3 * md.standardPrimitives[meshIndex].primitiveCount) % 0x1_0000_0000;
      && start >= 0
      && ReadMany(cm.IndexBuffer().buffer, start, n, ReadU16) ==
           Ok(Parsed(Swapped(IndexDataOf(cm, md, meshIndex).value), start + 2 * n))
  {
    var start := WrapInt32(2 * cm.drawPrimitives[meshIndex].indexStart);
    var n := (3 * md.standardPrimitives[meshIndex].primitiveCount) % 0x1_0000_0000;
    var raw := ReadMany(cm.IndexBuffer().buffer, start, n, ReadU16).value;
    SwappedInvolution(raw.value);
    ReadU16RunEnd(cm.IndexBuffer().buffer, start, n);
  }

  /** n uint16s take 2n bytes. */
  lemma {:induction false} ReadU16RunEnd(d: seq<byte>, p: nat, n: nat)
    requires ReadMany(d, p, n, ReadU16).Ok?
    ensures ReadMany(d, p, n, ReadU16).value.next == p + 2 * n
    decreases n
  {
    if n > 0 {
      ReadU16RunEnd(d, p + 2, n - 1);
    }
  }

  /** The swap loop of ReadIndexData: the first two of every triple
      exchanged in place; it fails on a lone index left at the end, having
      swapped the triples before it. */
  method SwapPairs(a: array<nat>) returns (r: Result<()>)
    modifies a
    ensures r.Ok? <==> a.Length % 3 != 1
    ensures r.Ok? ==> a[..] == Swapped(old(a[..]))
  {
    ghost var raw := a[..];
    var i := 0;
    while i < a.Length
      invariant i % 3 == 0 && i <= a.Length + 1
      invariant forall k :: 0 <= k < a.Length ==> a[k] == if k < i then Swapped(raw)[k] else raw[k]
    {
      if i + 1 >= a.Length {
        return Fail(IndexOutOfRange);
      }
      var f1, f2 := a[i], a[i + 1];
      a[i] := f2;
      a[i + 1] := f1;
      assert (i + 1) % 3 == 1 && (i + 2) % 3 == 2;
      i := i + 3;
    }
    assert a[..] == Swapped(raw);
    r := Ok(());
  }

  /** ReadIndexData: the uint16s read into a new array, then the first two of
      every triple exchanged in place. */
  method ReadIndexData(cm: ClusteredMeshData, md: MeshData, meshIndex: nat) returns (r: Result<array<nat>>)
    ensures r.Fail? ==> IndexDataOf(cm, md, meshIndex).Fail?
    ensures r.Ok? ==> fresh(r.value) && IndexDataOf(cm, md, meshIndex) == Ok(r.value[..])
  {
    var reader := new DataReader(cm.IndexBuffer().buffer);
    if meshIndex >= |md.standardPrimitives| {
      return Fail(IndexOutOfRange);
    }
    var n := (3 * md.standardPrimitives[meshIndex].primitiveCount) % 0x1_0000_0000;
    if meshIndex >= |cm.drawPrimitives| {
      return Fail(IndexOutOfRange);
    }
    var _ :- reader.Skip(WrapInt32(2 * cm.drawPrimitives[meshIndex].indexStart));
    var faceData :- reader.ReadArray(n, ReadU16, 0);
    var _ :- SwapPairs(faceData);
    r := Ok(faceData);
  }

  // ---------------------------------------------------------------------
  // CalculateNormals

  /** CalculateNormals' bounds test over the triangles of an index list: an
      index list whose length is not a multiple of 3 reads one index past the
      end once the indices before it are below the vertex count. The normals
      themselves are floating point and not modelled. */
  function TrianglesInBounds(indices: seq<nat>, vertexCount: nat): (r: Result<()>)
    ensures r.Fail? ==> r == Fail(IndexOutOfRange) && |indices| % 3 != 0
    ensures |indices| % 3 == 0 ==> r.Ok?
  {
    if |indices| % 3 == 0 then Ok(())
    else
      var i := |indices| - |indices| % 3;
      if indices[i] >= vertexCount then Ok(())
      else if i + 1 == |indices| then Fail(IndexOutOfRange)
      else if indices[i + 1] >= vertexCount then Ok(())
      else Fail(IndexOutOfRange)
  }

  /** On indices ReadIndexData returned, CalculateNormals fails exactly when
      one pair is left over after the triangles and both of its indices
      (swapped, as ReadIndexData left them) are below the vertex count. */
  lemma NormalsFailOnTrailingPair(cm: ClusteredMeshData, md: MeshData, meshIndex: nat, vertexCount: nat)
    requires IndexDataOf(cm, md, meshIndex).Ok?
    ensures var ix := IndexDataOf(cm, md, meshIndex).value;
      TrianglesInBounds(ix, vertexCount).Fail? <==>
        |ix| % 3 == 2 && ix[|ix| - 2] < vertexCount && ix[|ix| - 1] < vertexCount
  {
  }
}

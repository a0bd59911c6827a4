/** The semantic code of a ForgeModel mesh (Resources/ForgeModel.cs:578-592)
    and the vertex stride CreateMeshes derives from it (lines 307-331). */
module VertexSemantics {
  /** The order of the vertex elements: position, normal, colour, texture
      coordinate. */
  function Rank(c: char): nat
  {
    match c
    case 'P' => 0
    case 'N' => 1
    case 'C' => 2
    case _ => 3
  }

  /** GenerateSemantics. */
  function GenerateSemantics<N, T>(normals: seq<N>, texcoords: seq<T>): seq<char>
  {
    ['P'] + (if |normals| > 0 then ['N'] else []) + ['C'] + (if |texcoords| > 0 then ['T'] else [])
  }

  /** The code has a position and a colour always, a normal exactly when
      there are normals and a texture coordinate exactly when there are
      texture coordinates, nothing else, and in element order. */
  lemma SemanticsCode<N, T>(normals: seq<N>, texcoords: seq<T>)
    ensures var code := GenerateSemantics(normals, texcoords);
      && 'P' in code && 'C' in code
      && ('N' in code <==> |normals| > 0)
      && ('T' in code <==> |texcoords| > 0)
      && (forall c :: c in code ==> c in "PNCT")
      && (forall i, j :: 0 <= i < j < |code| ==> Rank(code[i]) < Rank(code[j]))
  {
  }

  /** The bytes CreateMeshes gives each element of the layout. */
  function ElementSize(c: char): nat
  {
    match c
    case 'P' => 12
    case 'N' => 12
    case 'C' => 4
    case 'T' => 8
    case _ => 0
  }

  /** CreateMeshes' actualStride: the element sizes of a semantic code added up. */
  function LayoutStride(code: seq<char>): nat
  {
    if code == [] then 0 else ElementSize(code[0]) + LayoutStride(code[1..])
  }

  /** A mesh's vertex stride is 16 bytes for position and colour, plus 12 for
      a normal and 8 for a texture coordinate. */
  lemma SemanticsStride<N, T>(normals: seq<N>, texcoords: seq<T>)
    ensures LayoutStride(GenerateSemantics(normals, texcoords)) ==
      16 + (if |normals| > 0 then 12 else 0) + (if |texcoords| > 0 then 8 else 0)
  {
    var n := if |normals| > 0 then ['N'] else [];
    var t := if |texcoords| > 0 then ['T'] else [];
    assert GenerateSemantics(normals, texcoords) == ['P'] + n + ['C'] + t;
    LayoutStrideAppend(['P'] + n + ['C'], t);
    LayoutStrideAppend(['P'] + n, ['C']);
    LayoutStrideAppend(['P'], n);
  }

  /** The stride of two codes one after the other is the sum of theirs. */
  lemma {:induction false} LayoutStrideAppend(a: seq<char>, b: seq<char>)
    ensures LayoutStride(a + b) == LayoutStride(a) + LayoutStride(b)
    decreases |a|
  {
    if a != [] {
      assert (a + b)[0] == a[0] && (a + b)[1..] == a[1..] + b;
      LayoutStrideAppend(a[1..], b);
      assert LayoutStride(a + b) == ElementSize(a[0]) + LayoutStride(a[1..] + b);
    } else {
      assert a + b == b;
    }
  }
}

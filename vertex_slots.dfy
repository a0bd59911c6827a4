/** The per-vertex layouts of ReadVertexData (Resources/ForgeModel.cs): for
    each VertexStride, what follows the position triple of a vertex record. */
module VertexSlots {
  /** One step of a vertex record after its position: a normal (three
      int16s), a texture coordinate (two int16s), n bytes read and dropped,
      or a stream position moved on by n bytes. */
  datatype Slot = Normal | Texcoord | Drop(n: nat) | Jump(n: nat)

  /** The switch on VertexStride. Consecutive reads whose values are dropped
      or never used (scale factors, bone indices and weights, padding) are
      merged into one Drop. An unlisted stride moves the position by the
      uint `stride - 6`. */
  function StrideLayout(stride: nat): seq<Slot>
  {
    match stride
    case 12 => [Normal]
    case 16 => [Drop(6), Texcoord]
    case 20 => [Drop(2), Normal, Drop(2), Texcoord]
    case 24 => [Drop(2), Normal, Drop(6), Texcoord]
    case 28 => [Drop(2), Normal, Drop(6), Texcoord, Drop(4)]
    case 32 => [Drop(2), Normal, Drop(6), Texcoord, Drop(8)]
    case 36 => [Drop(2), Normal, Drop(6), Texcoord, Drop(12)]
    case 40 => [Drop(2), Normal, Drop(6), Texcoord, Drop(16)]
    case 44 => [Jump(14), Texcoord, Drop(20)]
    case 48 => [Drop(2), Normal, Drop(6), Texcoord, Drop(20)]
    case _ => [Jump((stride - 6) % 0x1_0000_0000)]
  }

  function SlotWidth(s: Slot): nat
  {
    match s
    case Normal => 6
    case Texcoord => 4
    case Drop(n) => n
    case Jump(n) => n
  }

  function SlotsWidth(slots: seq<Slot>): nat
  {
    if slots == [] then 0 else SlotWidth(slots[0]) + SlotsWidth(slots[1..])
  }

  /** The strides whose layout holds a normal. */
  predicate HasNormal(stride: nat)
  {
    stride == 12 || stride == 20 || stride == 24 || stride == 28 || stride == 32 ||
    stride == 36 || stride == 40 || stride == 48
  }

  /** The strides whose layout holds a texture coordinate. */
  predicate HasTexcoord(stride: nat)
  {
    stride == 16 || stride == 20 || stride == 24 || stride == 28 || stride == 32 ||
    stride == 36 || stride == 40 || stride == 44 || stride == 48
  }

  /** The bytes one vertex takes: the stride, except that stride 48 reads
      only 44. */
  function VertexWidth(stride: nat): nat
  {
    if stride == 48 then 44 else stride
  }

  /** The width of slot i, or 0 past the end. */
  function WidthAt(s: seq<Slot>, i: nat): nat
  {
    if i < |s| then SlotWidth(s[i]) else 0
  }

  /** A layout of at most five slots is as wide as its slots together. */
  lemma {:induction false} WidthUpToFive(s: seq<Slot>)
    requires |s| <= 5
    ensures SlotsWidth(s) == WidthAt(s, 0) + WidthAt(s, 1) + WidthAt(s, 2) + WidthAt(s, 3) + WidthAt(s, 4)
    decreases |s|
  {
    if s != [] {
      WidthUpToFive(s[1..]);
    }
  }

  /** Every (uint) stride from 6 on takes VertexWidth bytes with its position. */
  lemma LayoutWidth(stride: nat)
    requires 6 <= stride < 0x1_0000_0000
    ensures 6 + SlotsWidth(StrideLayout(stride)) == VertexWidth(stride)
  {
    WidthUpToFive(StrideLayout(stride));
  }

  /** The layouts with a normal and those with a texture coordinate. */
  lemma LayoutSlots(stride: nat)
    ensures Normal in StrideLayout(stride) <==> HasNormal(stride)
    ensures Texcoord in StrideLayout(stride) <==> HasTexcoord(stride)
  {
  }
}

/** ForgeTextureSet (Resources/ForgeTextureSet.cs): an optional resource
    header, a base object pointer, fourteen texture-map references in a fixed
    order and a user category. The header, when read, is not kept. */
module TextureSet {
  import opened Wrappers
  import opened Bytes
  import opened Cursor
  import opened ForgeObjects
  import opened DataStream

  /** Diffuse, Normal, Specular, SpecularPower, OffsetBump, Emissive,
      Transmission, Mask1, Mask2, Occlusion, Roughness, Generic, Unknown1,
      Unknown2: the order in which the maps are read. */
  const MapCount: nat := 14

  /** Bytes of a texture set after its header. */
  const BodySize: nat := 14 + 10 * MapCount + 4

  datatype TextureSet = TextureSet(ptr: BaseObjectPtr, maps: seq<FileReference>, userCategory: int)

  /** The fourteen map references, each read without check. */
  function ReadMaps(d: seq<byte>, p: nat): (r: Result<Parsed<seq<FileReference>>>)
  {
    ReadMany(d, p, MapCount, ReadReference)
  }

  /** Everything after the optional header. */
  function ReadTextureSetBody(d: seq<byte>, q: nat): (r: Result<Parsed<TextureSet>>)
  {
    var ptr :- ReadPtr(d, q);
    var maps :- ReadMaps(d, ptr.next);
    var category :- ReadI32(d, maps.next);
    Ok(Parsed(TextureSet(ptr.value, maps.value, category.value), category.next))
  }

  /** ForgeTextureSet.Read as a function of the bytes, the position and
      `skipHeader`. */
  function ParseTextureSet(d: seq<byte>, p: nat, skipHeader: bool): (r: Result<Parsed<TextureSet>>)
  {
    var h :- ReadOptionalHeader(d, p, skipHeader);
    ReadTextureSetBody(d, h.next)
  }

  /** The maps succeed exactly when their 140 bytes are there. */
  lemma MapsLayout(d: seq<byte>, p: nat)
    ensures ReadMaps(d, p).Ok? <==> p + 140 <= |d|
    ensures ReadMaps(d, p).Ok? ==> ReadMaps(d, p).value.next == p + 140 && |ReadMaps(d, p).value.value| == MapCount
  {
    ReadManyFits(d, p, MapCount, ReadReference, 10);
  }

  /** Map i is the unchecked reference 10 * i bytes in, whatever its first
      byte. */
  lemma MapAt(d: seq<byte>, p: nat, i: nat)
    requires ReadMaps(d, p).Ok? && i < MapCount
    ensures ReadReference(d, p + i * 10) == Ok(Parsed(ReadMaps(d, p).value.value[i], p + i * 10 + 10))
  {
    ReadManyFixedItems(d, p, MapCount, ReadReference, 10);
  }

  /** The body is 158 bytes: it succeeds exactly when they are there, and
      then all fourteen maps are present. */
  lemma BodyLayout(d: seq<byte>, q: nat)
    ensures ReadTextureSetBody(d, q).Ok? <==> q + BodySize <= |d|
    ensures ReadTextureSetBody(d, q).Ok? ==>
      && ReadTextureSetBody(d, q).value.next == q + BodySize
      && ReadTextureSetBody(d, q).value.value.maps == ReadMaps(d, q + 14).value.value
      && |ReadTextureSetBody(d, q).value.value.maps| == MapCount
  {
    MapsLayout(d, q + 14);
  }

  /** With `skipHeader` the set starts at p; otherwise the resource header is
      read and the set starts right after it. */
  lemma HeaderChoice(d: seq<byte>, p: nat)
    ensures ParseTextureSet(d, p, true) == ReadTextureSetBody(d, p)
    ensures ReadResourceHeader(d, p).Fail? ==> ParseTextureSet(d, p, false).Fail?
    ensures ReadResourceHeader(d, p).Ok? ==>
      ParseTextureSet(d, p, false) == ReadTextureSetBody(d, ReadResourceHeader(d, p).value.next)
  {
  }

  /** The C# object after Read: the pointer, the fourteen maps in order and
      the user category. */
  class ForgeTextureSet {
    var baseObjectPtr: Option<BaseObjectPtr>
    var maps: seq<FileReference>
    var userCategory: int

    constructor ()
      ensures baseObjectPtr == None && maps == [] && userCategory == 0
    {
      baseObjectPtr := None;
      maps := [];
      userCategory := 0;
    }

    method Read(reader: DataReader, skipHeader: bool) returns (r: Result<()>)
      modifies this, reader
      ensures r.Ok? <==> ParseTextureSet(reader.data, old(reader.position), skipHeader).Ok?
      ensures r.Ok? ==>
        baseObjectPtr.Some? &&
        ParseTextureSet(reader.data, old(reader.position), skipHeader)
          == Ok(Parsed(TextureSet(baseObjectPtr.value, maps, userCategory), reader.position))
    {
      if !skipHeader {
        var _ :- reader.Read(ReadResourceHeader);
      }
      var ptr :- reader.Read(ReadPtr);
      baseObjectPtr := Some(ptr);
      maps :- reader.Read(ReadMaps);
      userCategory :- reader.Read(ReadI32);
      r := Ok(());
    }
  }
}

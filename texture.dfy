/** ForgeTexture (Resources/ForgeTexture.cs): an optional resource header
    that must name a TEXTURE_MAP, a base object pointer, the texture's own
    description, two compiled top-mip records, the compiled texture map, and
    the pixel data inline only when no compiled mip file is referenced (or
    the texture is embedded, read without header). Otherwise the size and the
    format are those of the compiled map and the pixels come later from a
    CompiledMip file through ReadMipData. */
module Texture {
  import opened Wrappers
  import opened Bytes
  import opened Cursor
  import opened ForgeObjects
  import opened DataStream
  import ForgeFile

  // ---------------------------------------------------------------------
  // Truncating casts

  /** `(ushort)x`: the low 16 bits of a 32-bit value. */
  function Low16(x: int): (r: nat)
    ensures r < 0x1_0000 && (x - r) % 0x1_0000 == 0
  {
    x % 0x1_0000
  }

  /** `(byte)x`: the low 8 bits. */
  function Low8(x: int): (r: nat)
    ensures r < 0x100 && (x - r) % 0x100 == 0
  {
    x % 0x100
  }

  /** Values that fit are kept as they are; the casts only ever drop high
      bits. */
  lemma CastsKeepSmallValues(x: int)
    ensures 0 <= x < 0x1_0000 <==> Low16(x) == x
    ensures 0 <= x < 0x100 <==> Low8(x) == x
    ensures Low8(x) == Low8(Low16(x))
  {
    var q, r := x / 0x1_0000, x % 0x1_0000;
    assert x == 0x100 * (0x100 * q) + r;
    DropMultipleOf256(r, 0x100 * q);
  }

  /** Adding a multiple of 256 leaves the low 8 bits alone. */
  lemma DropMultipleOf256(r: int, m: int)
    ensures (0x100 * m + r) % 0x100 == r % 0x100
  {
  }

  // ---------------------------------------------------------------------
  // ConvertToFormat

  /** The values of the DXT enumeration that ConvertToFormat names. */
  const RGBA8888: int := 0
  const DXT1: int := 2
  const DXT1A: int := 3
  const DXT3: int := 4
  const DXT5: int := 5
  const BC6: int := 7
  const BC7: int := 8
  const I8: int := 10

  /** The engine's texture formats that a FORGE texture can map to. */
  datatype Format = BC1SRGB | BC2 | BC3 | BC6H | BC7Format | A8R8G8B8 | L8

  /** ConvertToFormat on the int32 the file stores: seven DXT values have
      a format of their own, and every other value, including ones outside
      the enumeration, becomes BC7. */
  function ConvertToFormat(dxt: int): (f: Format)
  {
    if dxt == DXT1 || dxt == DXT1A then BC1SRGB
    else if dxt == DXT3 then BC2
    else if dxt == DXT5 then BC3
    else if dxt == BC6 then BC6H
    else if dxt == BC7 then BC7Format
    else if dxt == RGBA8888 then A8R8G8B8
    else if dxt == I8 then L8
    else BC7Format
  }

  /** The conversion as a table with BC7 as the default. */
  const FormatTable: map<int, Format> :=
    map[DXT1 := BC1SRGB, DXT1A := BC1SRGB, DXT3 := BC2, DXT5 := BC3, BC6 := BC6H,
        BC7 := BC7Format, RGBA8888 := A8R8G8B8, I8 := L8]

  lemma ConvertToFormatIsTable(dxt: int)
    ensures ConvertToFormat(dxt) == (if dxt in FormatTable then FormatTable[dxt] else BC7Format)
  {
  }

  /** Each format but BC7 comes from exactly the DXT values listed for it,
      and BC7 from BC7 and every value not listed. */
  lemma FormatSources(dxt: int)
    ensures ConvertToFormat(dxt) == BC1SRGB <==> dxt == DXT1 || dxt == DXT1A
    ensures ConvertToFormat(dxt) == BC2 <==> dxt == DXT3
    ensures ConvertToFormat(dxt) == BC3 <==> dxt == DXT5
    ensures ConvertToFormat(dxt) == BC6H <==> dxt == BC6
    ensures ConvertToFormat(dxt) == A8R8G8B8 <==> dxt == RGBA8888
    ensures ConvertToFormat(dxt) == L8 <==> dxt == I8
    ensures ConvertToFormat(dxt) == BC7Format <==> dxt !in FormatTable || dxt == BC7
  {
  }

  // ---------------------------------------------------------------------
  // Records

  /** The four properties that the compiled map overrides when the pixels
      are not inline. */
  datatype Surface = Surface(width: nat, height: nat, mipLevels: nat, format: Format)

  /** One BaseObject<CompiledTopMip>: identifier, padding byte, the handle
      of the CompiledMip file and a value that is not kept by the source. */
  datatype TopMip = TopMip(identifier: nat, padding: nat, fileId: int, unknown: int)

  const NoTopMip := TopMip(0, 0, 0, 0)

  /** ForgeCompiledTexture after ReadCompiledTextureMap. */
  datatype CompiledMap = CompiledMap(
    platformVersion: int, sdkVersion: int, surface: Surface, depth: nat, arraySize: int,
    textureFormat: int, gamma: int, topMipsSizes: seq<int>, totalTextureSize: int,
    alignment: int, userCategory: int, skipDirectGPUMemoryLoad: bool)

  /** ForgeTexture after Read (and possibly ReadMipData). `name` is the
      header's file name when a header was read; `data` is the pixel data. */
  datatype Texture = Texture(
    name: Option<string>, ptr: BaseObjectPtr, surface: Surface, depth: nat, arraySize: int,
    textureFormat: int, gamma: int, mapType: int,
    dynamic: bool, writeable: bool, ignoreSkipMips: bool, nudity: bool,
    allowHWGenerateMips: bool, disableProxy: bool, userCategory: int,
    topMips: seq<TopMip>, compiled: CompiledMap, data: Option<seq<byte>>)

  /** Width, Height, Depth, ArraySize, Format, FTextureFormat, Gamma,
      MipLevels, MapType. */
  const DescriptionL: Layout := [I32, I32, I32, U32, I32, I32, I32, I32, I32]

  /** Dynamic, Writeable, IgnoreSkipMips, Nudity, AllowHWGenerateMips,
      DisableProxy, UserCategory. */
  const OptionsL: Layout := [Flag, Flag, Flag, Flag, Flag, Flag, U32]

  const TextureFieldsL: Layout := DescriptionL + OptionsL

  /** PlatformVersion, SDKVersion, Width, Height, Depth, ArraySize,
      MipLevels, Format. */
  const CompiledSurfaceL: Layout := [U32, U32, I32, I32, I32, U32, I32, I32]

  /** FTextureFormat, Gamma, TopMipsSizes[0..1], TotalTextureSize,
      Alignment, UserCategory, SkipDirectGPUMemoryLoad. */
  const CompiledRestL: Layout := [I32, I32, U32, U32, U32, U32, U32, Flag]

  const CompiledL: Layout := CompiledSurfaceL + CompiledRestL

  /** The texture's own fields are 46 bytes and yield 16 values. */
  lemma TextureFieldsSizes()
    ensures Size(TextureFieldsL) == 46 && Count(TextureFieldsL) == 16
  {
    assert Size(DescriptionL) == 36 && Count(DescriptionL) == 9;
    assert Size(OptionsL) == 10 && Count(OptionsL) == 7;
    SizeAppend(DescriptionL, OptionsL);
  }

  /** The compiled map is 61 bytes and yields 16 values. */
  lemma CompiledSizes()
    ensures Size(CompiledL) == 61 && Count(CompiledL) == 16
  {
    CompiledSurfaceSizes();
    CompiledRestSizes();
    SizeAppend(CompiledSurfaceL, CompiledRestL);
  }

  lemma CompiledSurfaceSizes()
    ensures Size(CompiledSurfaceL) == 32 && Count(CompiledSurfaceL) == 8
  {
  }

  lemma CompiledRestSizes()
    ensures Size(CompiledRestL) == 29 && Count(CompiledRestL) == 8
  {
  }

  // ---------------------------------------------------------------------
  // Readers

  /** The header, when it is read, must be a TEXTURE_MAP; its name is kept. */
  function ReadTextureHeader(d: seq<byte>, p: nat, skipHeader: bool): (r: Result<Parsed<Option<string>>>)
  {
    var h :- ReadOptionalHeader(d, p, skipHeader);
    if h.value.Some? && h.value.value.resourceType != ForgeFile.TEXTURE_MAP then Fail(WrongType)
    else Ok(Parsed(if h.value.Some? then Some(h.value.value.fileName) else None, h.next))
  }

  /** The base object pointer and the sixteen fields of the texture. */
  function ReadOwnFields(d: seq<byte>, q: nat): (r: Result<Parsed<(BaseObjectPtr, seq<int>)>>)
    ensures r.Ok? <==> q + 60 <= |d|
    ensures r.Ok? ==> r.value.next == q + 60 && |r.value.value.1| == 16
  {
    TextureFieldsSizes();
    ReachOfGapless(TextureFieldsL);
    var ptr :- ReadPtr(d, q);
    var fields :- ReadFields(d, ptr.next, TextureFieldsL);
    Ok(Parsed((ptr.value, fields.value), fields.next))
  }

  function ReadTopMip(d: seq<byte>, p: nat): (r: Result<Parsed<TopMip>>)
  {
    var identifier :- ReadU32(d, p);
    var padding :- ReadU8(d, identifier.next);
    var fileId :- ReadI64(d, padding.next);
    var unknown :- ReadI64(d, fileId.next);
    Ok(Parsed(TopMip(identifier.value, padding.value, fileId.value, unknown.value), unknown.next))
  }

  /** The compiled map from the sixteen values of its layout. */
  function CompiledOf(v: seq<int>): CompiledMap
    requires |v| == 16
  {
    CompiledMap(v[0], v[1], Surface(Low16(v[2]), Low16(v[3]), Low8(v[6]), ConvertToFormat(v[7])),
                Low16(v[4]), v[5], v[8], v[9], [v[10], v[11]], v[12], v[13], v[14], v[15] != 0)
  }

  function ReadCompiledMap(d: seq<byte>, p: nat): (r: Result<Parsed<CompiledMap>>)
    ensures r.Ok? <==> p + 61 <= |d|
    ensures r.Ok? ==> r.value.next == p + 61
  {
    CompiledSizes();
    ReachOfGapless(CompiledL);
    var v :- ReadFields(d, p, CompiledL);
    Ok(Parsed(CompiledOf(v.value), v.next))
  }

  /** The inline pixel data: an int32 size and that many bytes, read only
      when `inline` holds. */
  function ReadInlineData(d: seq<byte>, q: nat, inline: bool): (r: Result<Parsed<Option<seq<byte>>>>)
  {
    if !inline then Ok(Parsed(None, q))
    else
      var size :- ReadI32(d, q);
      var bytes :- ReadBytes(d, size.next, size.value);
      Ok(Parsed(Some(bytes.value), bytes.next))
  }

  /** Whether Read takes the pixel data from the texture itself. */
  predicate Inline(mips: seq<TopMip>, skipHeader: bool)
    requires |mips| == 2
  {
    mips[0].fileId == 0 || skipHeader
  }

  /** Seven skipped bytes, the two top-mip records and six more skipped
      bytes. */
  function TopMipsAt(d: seq<byte>, q: nat): (r: Result<Parsed<seq<TopMip>>>)
    ensures r.Ok? ==> |r.value.value| == 2
  {
    var m :- ReadMany(d, q + 7, 2, ReadTopMip);
    Ok(Parsed(m.value, m.next + 6))
  }

  /** The top mips, the compiled map and the inline data. */
  function ReadTextureTail(d: seq<byte>, q: nat, skipHeader: bool): (r: Result<Parsed<(seq<TopMip>, CompiledMap, Option<seq<byte>>)>>)
  {
    var mips :- TopMipsAt(d, q);
    var rest :- ReadMapAndData(d, mips.next, Inline(mips.value, skipHeader));
    Ok(Parsed((mips.value, rest.value.0, rest.value.1), rest.next))
  }

  /** The compiled map, then the inline data if there is any. */
  function ReadMapAndData(d: seq<byte>, c: nat, inline: bool): (r: Result<Parsed<(CompiledMap, Option<seq<byte>>)>>)
  {
    var ct :- ReadCompiledMap(d, c);
    var data :- ReadInlineData(d, ct.next, inline);
    Ok(Parsed((ct.value, data.value), data.next))
  }

  /** The texture made of its parts: its own width, height, mip count and
      format stand when the data is inline, and the compiled map's replace
      them otherwise. */
  function Assemble(name: Option<string>, own: (BaseObjectPtr, seq<int>), tail: (seq<TopMip>, CompiledMap, Option<seq<byte>>)): Texture
    requires |own.1| == 16
  {
    var v := own.1;
    var surface := Surface(Low16(v[0]), Low16(v[1]), Low8(v[7]), ConvertToFormat(v[4]));
    Texture(name, own.0, if tail.2.Some? then surface else tail.1.surface, Low16(v[2]), v[3], v[5], v[6], v[8],
            v[9] != 0, v[10] != 0, v[11] != 0, v[12] != 0, v[13] != 0, v[14] != 0, v[15],
            tail.0, tail.1, tail.2)
  }

  /** ForgeTexture.Read as a function of the bytes, the position and
      `skipHeader`. */
  function ParseTexture(d: seq<byte>, p: nat, skipHeader: bool): (r: Result<Parsed<Texture>>)
  {
    var name :- ReadTextureHeader(d, p, skipHeader);
    var own :- ReadOwnFields(d, name.next);
    var tail :- ReadTextureTail(d, own.next, skipHeader);
    Ok(Parsed(Assemble(name.value, own.value, tail.value), tail.next))
  }

  /** ReadMipData: a resource header (of any type), 0x12 bytes skipped and
      FileSize - 0x12 bytes of pixel data; the texture gets that data and a
      single mip level, and nothing else about it changes. */
  function ReadMipData(d: seq<byte>, p: nat, t: Texture): (r: Result<Parsed<Texture>>)
  {
    var h :- ReadResourceHeader(d, p);
    var bytes :- ReadBytes(d, h.next + 0x12, h.value.fileSize - 0x12);
    Ok(Parsed(t.(surface := t.surface.(mipLevels := 1), data := Some(bytes.value)), bytes.next))
  }

  // ---------------------------------------------------------------------
  // Properties

  /** A header of any other resource type is refused once it has been read
      whole; with `skipHeader` nothing is read and no name is kept. */
  lemma HeaderCheck(d: seq<byte>, p: nat)
    ensures ReadTextureHeader(d, p, true) == Ok(Parsed(None, p))
    ensures ReadResourceHeader(d, p).Fail? ==> ReadTextureHeader(d, p, false).Fail?
    ensures ReadResourceHeader(d, p).Ok? && ReadResourceHeader(d, p).value.value.resourceType != ForgeFile.TEXTURE_MAP ==>
      ReadTextureHeader(d, p, false) == Fail(WrongType)
    ensures ReadResourceHeader(d, p).Ok? && ReadResourceHeader(d, p).value.value.resourceType == ForgeFile.TEXTURE_MAP ==>
      ReadTextureHeader(d, p, false)
        == Ok(Parsed(Some(ReadResourceHeader(d, p).value.value.fileName), ReadResourceHeader(d, p).value.next))
  {
  }

  /** A wrong header makes the whole read fail with WrongType. */
  lemma WrongTypeFails(d: seq<byte>, p: nat)
    requires ReadResourceHeader(d, p).Ok? && ReadResourceHeader(d, p).value.value.resourceType != ForgeFile.TEXTURE_MAP
    ensures ParseTexture(d, p, false) == Fail(WrongType)
  {
    HeaderCheck(d, p);
  }

  /** A top-mip record is 21 bytes and its file handle is the i64 five bytes
      in. */
  lemma TopMipLayout(d: seq<byte>, p: nat)
    ensures ReadTopMip(d, p).Ok? <==> p + 21 <= |d|
    ensures ReadTopMip(d, p).Ok? ==> ReadTopMip(d, p).value.next == p + 21 && ReadTopMip(d, p).value.value.fileId == IntAt(d, p + 5, 8)
  {
  }

  /** The two top mips are read 7 bytes after the texture's fields and take
      42 bytes, and 6 more bytes are skipped after them; the first one's
      handle is the i64 at offset 12. */
  lemma TopMipsLayout(d: seq<byte>, q: nat)
    ensures TopMipsAt(d, q).Ok? <==> q + 49 <= |d|
    ensures TopMipsAt(d, q).Ok? ==>
      && TopMipsAt(d, q).value.next == q + 55
      && TopMipsAt(d, q).value.value[0].fileId == IntAt(d, q + 12, 8)
  {
    TopMipRecords(d, q + 7);
  }

  /** Two top-mip records in a row take 42 bytes; the first handle is the
      i64 five bytes in. */
  lemma TopMipRecords(d: seq<byte>, p: nat)
    ensures ReadMany(d, p, 2, ReadTopMip).Ok? <==> p + 42 <= |d|
    ensures ReadMany(d, p, 2, ReadTopMip).Ok? ==>
      && ReadMany(d, p, 2, ReadTopMip).value.next == p + 42
      && ReadMany(d, p, 2, ReadTopMip).value.value[0].fileId == IntAt(d, p + 5, 8)
  {
    forall x: nat ensures ReadTopMip(d, x).Ok? <==> x + 21 <= |d| {
      TopMipLayout(d, x);
    }
    forall x: nat | ReadTopMip(d, x).Ok? ensures ReadTopMip(d, x).value.next == x + 21 {
      TopMipLayout(d, x);
    }
    ReadManyFits(d, p, 2, ReadTopMip, 21);
    TopMipLayout(d, p);
  }

  /** After the texture's fields, the tail ends right after the compiled map
      (55 + 61 bytes on) when the data is not inline, and otherwise after a
      4-byte size and that many bytes of data; the data is inline exactly
      when the first top mip names no file or `skipHeader` is set. */
  lemma TailLayout(d: seq<byte>, q: nat, skipHeader: bool)
    requires ReadTextureTail(d, q, skipHeader).Ok?
    ensures var t := ReadTextureTail(d, q, skipHeader).value;
      var c := q + 55 + 61;
      && (t.value.2.Some? <==> IntAt(d, q + 12, 8) == 0 || skipHeader)
      && (t.value.2.None? ==> t.next == c)
      && (t.value.2.Some? ==>
            && c + 4 <= t.next <= |d| && t.next == c + 4 + IntAt(d, c, 4)
            && t.value.2.value == d[c + 4..t.next])
  {
    TopMipsLayout(d, q);
    var mips := TopMipsAt(d, q).value;
    MapAndDataLayout(d, q + 55, Inline(mips.value, skipHeader));
    var rest := ReadMapAndData(d, mips.next, Inline(mips.value, skipHeader)).value;
    assert ReadTextureTail(d, q, skipHeader).value == Parsed((mips.value, rest.value.0, rest.value.1), rest.next);
  }

  /** The compiled map takes 61 bytes; the inline data, when there is any,
      is a 4-byte size and that many bytes after it. */
  lemma MapAndDataLayout(d: seq<byte>, c: nat, inline: bool)
    ensures var r := ReadMapAndData(d, c, inline);
      && (r.Ok? ==> (r.value.value.1.Some? <==> inline))
      && (r.Ok? && !inline ==> r.value.next == c + 61)
      && (r.Ok? && inline ==>
            && c + 65 <= r.value.next <= |d| && r.value.next == c + 65 + IntAt(d, c + 61, 4)
            && r.value.value.1.value == d[c + 65..r.value.next])
  {
  }

  /** An embedded texture (read with `skipHeader`) always carries its data
      inline. */
  lemma EmbeddedIsInline(d: seq<byte>, p: nat)
    requires ParseTexture(d, p, true).Ok?
    ensures ParseTexture(d, p, true).value.value.data.Some?
    ensures ParseTexture(d, p, true).value.value.name.None?
  {
  }

  /** The surface is the compiled map's exactly when the data is not
      inline. */
  lemma SurfaceChoice(d: seq<byte>, p: nat, skipHeader: bool)
    requires ParseTexture(d, p, skipHeader).Ok?
    ensures var t := ParseTexture(d, p, skipHeader).value.value;
      t.data.None? ==> t.surface == t.compiled.surface
  {
  }

  /** ReadMipData consumes the header and then exactly FileSize bytes, keeps
      the last FileSize - 0x12 of them as the data and sets one mip level;
      every other property of the texture is left as it was. */
  lemma MipDataLayout(d: seq<byte>, p: nat, t: Texture)
    requires ReadResourceHeader(d, p).Ok?
    ensures var h := ReadResourceHeader(d, p).value;
      && (ReadMipData(d, p, t).Ok? <==> 0x12 <= h.value.fileSize && h.next + h.value.fileSize <= |d|)
      && (ReadMipData(d, p, t).Ok? ==>
            var u := ReadMipData(d, p, t).value;
            && u.next == h.next + h.value.fileSize
            && u.value.data == Some(d[h.next + 0x12..h.next + h.value.fileSize])
            && u.value.surface.mipLevels == 1
            && u.value.(surface := t.surface, data := t.data) == t)
  {
  }

  // ---------------------------------------------------------------------
  // Reading on a DataReader

  /** ForgeTexture.Read: the header check, the texture's own fields, then
      the rest. */
  method ReadTexture(reader: DataReader, skipHeader: bool) returns (r: Result<Texture>)
    modifies reader
    ensures r.Fail? ==> ParseTexture(reader.data, old(reader.position), skipHeader).Fail?
    ensures r.Ok? ==> ParseTexture(reader.data, old(reader.position), skipHeader) == Ok(Parsed(r.value, reader.position))
  {
    var name: Option<string> := None;
    if !skipHeader {
      var h :- reader.Read(ReadResourceHeader);
      if h.resourceType != ForgeFile.TEXTURE_MAP {
        return Fail(WrongType);
      }
      name := Some(h.fileName);
    }
    var own :- reader.Read(ReadOwnFields);
    var tail :- ReadTail(reader, skipHeader);
    r := Ok(Assemble(name, own, tail));
  }

  /** The two skips, the `fileIDs` loop, the compiled map and the inline
      data. */
  method ReadTail(reader: DataReader, skipHeader: bool) returns (r: Result<(seq<TopMip>, CompiledMap, Option<seq<byte>>)>)
    modifies reader
    ensures r.Fail? ==> ReadTextureTail(reader.data, old(reader.position), skipHeader).Fail?
    ensures r.Ok? ==> ReadTextureTail(reader.data, old(reader.position), skipHeader) == Ok(Parsed(r.value, reader.position))
  {
    var mips :- ReadTopMips(reader);
    var rest :- ReadCompiledAndData(reader, Inline(mips, skipHeader));
    r := Ok((mips, rest.0, rest.1));
  }

  /** Seven skipped bytes, the two top-mip records and six more skipped
      bytes. */
  method ReadTopMips(reader: DataReader) returns (r: Result<seq<TopMip>>)
    modifies reader
    ensures r.Fail? ==> TopMipsAt(reader.data, old(reader.position)).Fail?
    ensures r.Ok? ==> TopMipsAt(reader.data, old(reader.position)) == Ok(Parsed(r.value, reader.position))
  {
    var _ := reader.Skip(7);
    var mips :- reader.ReadArray(2, ReadTopMip, NoTopMip);
    var _ := reader.Skip(6);
    r := Ok(mips[..]);
  }

  /** ReadCompiledTextureMap, then the inline data when `inline` holds. */
  method ReadCompiledAndData(reader: DataReader, inline: bool) returns (r: Result<(CompiledMap, Option<seq<byte>>)>)
    modifies reader
    ensures r.Fail? ==> ReadMapAndData(reader.data, old(reader.position), inline).Fail?
    ensures r.Ok? ==> ReadMapAndData(reader.data, old(reader.position), inline) == Ok(Parsed(r.value, reader.position))
  {
    var ct :- reader.Read(ReadCompiledMap);
    var data: Option<seq<byte>> := None;
    if inline {
      var size :- reader.Read(ReadI32);
      var bytes :- reader.ReadData(size);
      data := Some(bytes);
    }
    r := Ok((ct, data));
  }

  /** ForgeTexture.ReadMipData on a DataReader. */
  method ReadMip(reader: DataReader, t: Texture) returns (r: Result<Texture>)
    modifies reader
    ensures r.Fail? ==> ReadMipData(reader.data, old(reader.position), t).Fail?
    ensures r.Ok? ==> ReadMipData(reader.data, old(reader.position), t) == Ok(Parsed(r.value, reader.position))
  {
    var h :- reader.Read(ReadResourceHeader);
    var _ := reader.Skip(0x12);
    var bytes :- reader.ReadData(h.fileSize - 0x12);
    r := Ok(t.(surface := t.surface.(mipLevels := 1), data := Some(bytes)));
  }
}

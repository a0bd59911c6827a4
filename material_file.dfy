/** MaterialFile.Load (Files/MaterialFile.cs:27-63): the material with its
    own header, then the textures and texture sets embedded after it. The
    loop is stated for any readers of the embedded resources; Load
    instantiates them with the resources' Read with `skipHeader` set. */
module MaterialFiles {
  import opened Wrappers
  import opened Bytes
  import opened Cursor
  import opened ForgeObjects
  import opened DataStream
  import opened Embedded
  import opened EmbeddedResources
  import ForgeFile
  import Material
  import TextureSet
  import Texture

  /** What one iteration of the loop reads: there is no padding block. */
  datatype MaterialBlock =
    | TextureBlock(texture: Texture.Texture)
    | TextureSetBlock(textureSet: TextureSet.TextureSet)

  /** The two tags the material's loop accepts; NONE is not one of them. */
  const MaterialTags: set<nat> := {ForgeFile.TEXTURE_MAP, ForgeFile.TEXTURE_SET}

  /** One iteration: the resource header, then a texture that takes the
      header's file name as its own (TEXTURE_MAP) or a texture set; any
      other tag throws. */
  function ParseMaterialBlockWith(d: seq<byte>, p: nat, texture: TextureReader, textureSet: TextureSetReader)
    : (r: Result<Parsed<MaterialBlock>>)
  {
    var h :- ReadResourceHeader(d, p);
    var tag := h.value.resourceType;
    if tag == ForgeFile.TEXTURE_MAP then
      var t :- texture(d, h.next);
      Ok(Parsed(TextureBlock(t.value.(name := Some(h.value.fileName))), t.next))
    else if tag == ForgeFile.TEXTURE_SET then
      var t :- textureSet(d, h.next);
      Ok(Parsed(TextureSetBlock(t.value), t.next))
    else Fail(UnknownTag)
  }

  /** Only the two tags are accepted, and any other tag, NONE included,
      fails the block once its header is read. */
  lemma MaterialBlockTags(d: seq<byte>, p: nat, texture: TextureReader, textureSet: TextureSetReader)
    ensures ParseMaterialBlockWith(d, p, texture, textureSet).Ok? ==>
      ReadResourceHeader(d, p).Ok? && ReadResourceHeader(d, p).value.value.resourceType in MaterialTags
    ensures ReadResourceHeader(d, p).Ok? && ReadResourceHeader(d, p).value.value.resourceType !in MaterialTags
      ==> ParseMaterialBlockWith(d, p, texture, textureSet) == Fail(UnknownTag)
    ensures ForgeFile.NONE !in MaterialTags
  {
  }

  /** A TEXTURE_MAP block is the texture read after the header, renamed to
      the header's file name; a TEXTURE_SET block is the texture set read
      after the header; both end where the resource ends. */
  lemma MaterialBlockContents(d: seq<byte>, p: nat, texture: TextureReader, textureSet: TextureSetReader)
    requires ReadResourceHeader(d, p).Ok?
    ensures var h := ReadResourceHeader(d, p).value;
      var r := ParseMaterialBlockWith(d, p, texture, textureSet);
      && (h.value.resourceType == ForgeFile.TEXTURE_MAP ==>
            (r.Ok? <==> texture(d, h.next).Ok?) &&
            (r.Ok? ==> r.value == Parsed(TextureBlock(texture(d, h.next).value.value.(name := Some(h.value.fileName))),
                                         texture(d, h.next).value.next)))
      && (h.value.resourceType == ForgeFile.TEXTURE_SET ==>
            (r.Ok? <==> textureSet(d, h.next).Ok?) &&
            (r.Ok? ==> r.value == Parsed(TextureSetBlock(textureSet(d, h.next).value.value), textureSet(d, h.next).value.next)))
  {
  }

  function MaterialBlockReader(texture: TextureReader, textureSet: TextureSetReader): Reader<MaterialBlock>
  {
    (d: seq<byte>, p: nat) => ParseMaterialBlockWith(d, p, texture, textureSet)
  }

  function TextureOf(b: MaterialBlock): Option<Texture.Texture> { if b.TextureBlock? then Some(b.texture) else None }
  function TextureSetOf(b: MaterialBlock): Option<TextureSet.TextureSet> { if b.TextureSetBlock? then Some(b.textureSet) else None }

  /** The embedded collections after Load. */
  datatype MaterialEmbeds = MaterialEmbeds(textures: seq<Texture.Texture>, textureSets: seq<TextureSet.TextureSet>)

  function EmbedsOf(bs: seq<MaterialBlock>): MaterialEmbeds
  {
    MaterialEmbeds(Select(bs, TextureOf), Select(bs, TextureSetOf))
  }

  /** The collections after one more block. */
  function Extend(e: MaterialEmbeds, b: MaterialBlock): MaterialEmbeds
  {
    match b
    case TextureBlock(t) => e.(textures := e.textures + [t])
    case TextureSetBlock(t) => e.(textureSets := e.textureSets + [t])
  }

  /** Sorting one more block extends the collections by its resource. */
  lemma EmbedsAppend(bs: seq<MaterialBlock>, b: MaterialBlock)
    ensures EmbedsOf(bs + [b]) == Extend(EmbedsOf(bs), b)
  {
    SelectAppend(bs, b, TextureOf);
    SelectAppend(bs, b, TextureSetOf);
  }

  /** Every block lands in exactly one of the two collections. */
  lemma {:induction false} EmbedsCount(bs: seq<MaterialBlock>)
    ensures |EmbedsOf(bs).textures| + |EmbedsOf(bs).textureSets| == |bs|
  {
    if bs != [] {
      var init, last := bs[..|bs| - 1], bs[|bs| - 1];
      assert bs == init + [last];
      EmbedsCount(init);
      EmbedsAppend(init, last);
    }
  }

  /** Load with the given readers: the material with its header, then the
      blocks up to the end, sorted into the two collections in stream
      order. */
  function LoadMaterialFileWith(d: seq<byte>, texture: TextureReader, textureSet: TextureSetReader)
    : (r: Result<(Material.Material, MaterialEmbeds)>)
  {
    var m :- Material.ParseMaterial(d, 0, false);
    var bs :- ReadBlocks(d, m.next, MaterialBlockReader(texture, textureSet));
    Ok((m.value, EmbedsOf(bs)))
  }

  /** MaterialFile.Load as a function of the bytes. */
  function LoadMaterialFile(d: seq<byte>): Result<(Material.Material, MaterialEmbeds)>
  {
    LoadMaterialFileWith(d, EmbeddedTexture, EmbeddedTextureSet)
  }

  /** Every texture the loop collects is named: after the header of its
      block. */
  lemma {:induction false} EmbeddedTexturesNamed(d: seq<byte>, p: nat, texture: TextureReader, textureSet: TextureSetReader)
    requires ReadBlocks(d, p, MaterialBlockReader(texture, textureSet)).Ok?
    ensures var bs := ReadBlocks(d, p, MaterialBlockReader(texture, textureSet)).value;
      forall t :: t in EmbedsOf(bs).textures ==> t.name.Some?
    decreases if p < |d| then |d| - p else 0
  {
    var block := MaterialBlockReader(texture, textureSet);
    if p < |d| {
      var b := block(d, p).value;
      EmbeddedTexturesNamed(d, b.next, texture, textureSet);
      var rest := ReadBlocks(d, b.next, block).value;
      assert ReadBlocks(d, p, block).value == [b.value] + rest;
      TexturesPrepend(b.value, rest);
      assert b.value.TextureBlock? ==> b.value.texture.name.Some?;
    }
  }

  /** Sorting a block before others puts its texture first. */
  lemma TexturesPrepend(b: MaterialBlock, bs: seq<MaterialBlock>)
    ensures EmbedsOf([b] + bs).textures == (if b.TextureBlock? then [b.texture] else []) + EmbedsOf(bs).textures
  {
    assert ([b] + bs)[1..] == bs;
  }

  /** One iteration of the loop on a DataReader. */
  method ReadMaterialBlock(reader: DataReader, texture: TextureReader, textureSet: TextureSetReader)
    returns (r: Result<MaterialBlock>)
    modifies reader
    ensures r.Fail? ==> ParseMaterialBlockWith(reader.data, old(reader.position), texture, textureSet).Fail?
    ensures r.Ok? ==>
      ParseMaterialBlockWith(reader.data, old(reader.position), texture, textureSet) == Ok(Parsed(r.value, reader.position))
  {
    var h :- reader.Read(ReadResourceHeader);
    if h.resourceType == ForgeFile.TEXTURE_MAP {
      var t :- reader.Read(texture);
      r := Ok(TextureBlock(t.(name := Some(h.fileName))));
    } else if h.resourceType == ForgeFile.TEXTURE_SET {
      var t :- reader.Read(textureSet);
      r := Ok(TextureSetBlock(t));
    } else {
      r := Fail(UnknownTag);
    }
  }

  /** The C# object: the material and the two embedded collections. */
  class MaterialFile {
    var material: Option<Material.Material>
    var embeddedTextures: seq<Texture.Texture>
    var embeddedTextureSets: seq<TextureSet.TextureSet>

    constructor ()
      ensures material == None && embeddedTextures == [] && embeddedTextureSets == []
    {
      material, embeddedTextures, embeddedTextureSets := None, [], [];
    }

    function Embeds(): MaterialEmbeds
      reads this
    {
      MaterialEmbeds(embeddedTextures, embeddedTextureSets)
    }

    /** Load: the material, fresh empty collections, then the loop. */
    method Load(data: seq<byte>) returns (r: Result<()>)
      modifies this
      ensures r.Fail? ==> LoadMaterialFile(data).Fail?
      ensures r.Ok? ==> material.Some? && LoadMaterialFile(data) == Ok((material.value, Embeds()))
    {
      r := LoadWith(data, EmbeddedTexture, EmbeddedTextureSet);
    }

    method LoadWith(data: seq<byte>, texture: TextureReader, textureSet: TextureSetReader) returns (r: Result<()>)
      modifies this
      ensures r.Fail? ==> LoadMaterialFileWith(data, texture, textureSet).Fail?
      ensures r.Ok? ==> material.Some? && LoadMaterialFileWith(data, texture, textureSet) == Ok((material.value, Embeds()))
    {
      var reader := new DataReader(data);
      var m :- Material.ReadMaterial(reader, false);
      material := Some(m);
      r := ReadEmbedded(reader, texture, textureSet);
    }

    /** The switch of the loop: a block's resource goes to its collection. */
    method Add(b: MaterialBlock)
      modifies this
      ensures material == old(material)
      ensures Embeds() == Extend(old(Embeds()), b)
    {
      match b {
        case TextureBlock(t) => embeddedTextures := embeddedTextures + [t];
        case TextureSetBlock(t) => embeddedTextureSets := embeddedTextureSets + [t];
      }
    }

    /** Fresh empty collections, then the while loop: one block per
        iteration until the position reaches the end, each appended to its
        collection. */
    method ReadEmbedded(reader: DataReader, texture: TextureReader, textureSet: TextureSetReader)
      returns (r: Result<()>)
      modifies this, reader
      ensures material == old(material)
      ensures r.Fail? ==> ReadBlocks(reader.data, old(reader.position), MaterialBlockReader(texture, textureSet)).Fail?
      ensures r.Ok? ==>
        var bs := ReadBlocks(reader.data, old(reader.position), MaterialBlockReader(texture, textureSet));
        bs.Ok? && Embeds() == EmbedsOf(bs.value)
    {
      embeddedTextures, embeddedTextureSets := [], [];
      ghost var d, start := reader.data, reader.position;
      ghost var block := MaterialBlockReader(texture, textureSet);
      ghost var blocks: seq<MaterialBlock> := [];
      PrependNothing(ReadBlocks(d, start, block));
      while reader.position < |reader.data|
        invariant reader.data == d
        invariant material == old(material)
        invariant ReadBlocks(d, start, block) == Prepend(blocks, ReadBlocks(d, reader.position, block))
        invariant Embeds() == EmbedsOf(blocks)
        decreases |reader.data| - reader.position
      {
        var p := reader.position;
        var b := ReadMaterialBlock(reader, texture, textureSet);
        if b.Fail? {
          return Fail(b.error);
        }
        if reader.position <= p {
          return Fail(NoProgress);
        }
        BlocksStep(d, p, block, b.value, reader.position);
        PrependTwice(blocks, [b.value], ReadBlocks(d, reader.position, block));
        EmbedsAppend(blocks, b.value);
        Add(b.value);
        blocks := blocks + [b.value];
      }
      assert blocks + [] == blocks;
      r := Ok(());
    }
  }
}

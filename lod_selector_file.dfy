/** LODSelectorFile.Load (Files/LODSelectorFile.cs:35-85): the selector,
    then the meshes, materials and texture sets embedded after it. The loop
    is stated for any readers of the embedded model, material and texture
    set; Load instantiates them with ForgeModel.Read, ForgeMaterial.Read and
    ForgeTextureSet.Read with `skipHeader` set. */
module LodSelectorFiles {
  import opened Wrappers
  import opened Bytes
  import opened Cursor
  import opened ForgeObjects
  import opened DataStream
  import opened Embedded
  import opened EmbeddedResources
  import ForgeFile
  import ForgeModel
  import Material
  import TextureSet
  import LodSelector

  /** An entry of EmbeddedMeshes: the model, named after its block header,
      and the bytes of the whole block, header included. */
  datatype MeshEntry = MeshEntry(name: string, model: ForgeModel.Model, raw: seq<byte>)

  /** What one iteration of the loop reads. */
  datatype LodBlock =
    | Padding
    | MeshBlock(entry: MeshEntry)
    | MaterialBlock(material: Material.Material)
    | TextureSetBlock(textureSet: TextureSet.TextureSet)

  /** The rest of a MESH block whose header spans p..q: the model read at q,
      then the bytes from p to where the model ended, read again, with the
      length `(int)(end - start)`. */
  function ParseMeshEntry(d: seq<byte>, p: nat, q: nat, name: string, model: ModelReader): (r: Result<Parsed<MeshEntry>>)
  {
    var m :- model(d, q);
    var raw :- ReadBytes(d, p, WrapInt32(m.next - p));
    Ok(Parsed(MeshEntry(name, m.value, raw.value), raw.next))
  }

  /** One iteration: the resource header, then a padding int32 (NONE), a
      model whose bytes are then read again from the header on (MESH), a
      material (MATERIAL) or a texture set (TEXTURE_SET); any other tag
      throws. The raw length is `(int)(end - start)`. */
  function ParseLodBlockWith(d: seq<byte>, p: nat, model: ModelReader, material: MaterialReader, textureSet: TextureSetReader)
    : (r: Result<Parsed<LodBlock>>)
  {
    var h :- ReadResourceHeader(d, p);
    var tag := h.value.resourceType;
    if tag == ForgeFile.NONE then
      var pad :- ReadI32(d, h.next);
      Ok(Parsed(Padding, pad.next))
    else if tag == ForgeFile.MESH then
      var e :- ParseMeshEntry(d, p, h.next, h.value.fileName, model);
      Ok(Parsed(MeshBlock(e.value), e.next))
    else if tag == ForgeFile.MATERIAL then
      var m :- material(d, h.next);
      Ok(Parsed(MaterialBlock(m.value), m.next))
    else if tag == ForgeFile.TEXTURE_SET then
      var t :- textureSet(d, h.next);
      Ok(Parsed(TextureSetBlock(t.value), t.next))
    else Fail(UnknownTag)
  }

  /** Only the four tags are accepted, and any other tag fails the block
      once its header is read. */
  lemma LodBlockTags(d: seq<byte>, p: nat, model: ModelReader, material: MaterialReader, textureSet: TextureSetReader)
    ensures ParseLodBlockWith(d, p, model, material, textureSet).Ok? ==>
      ReadResourceHeader(d, p).Ok? &&
      ReadResourceHeader(d, p).value.value.resourceType in {ForgeFile.NONE, ForgeFile.MESH, ForgeFile.MATERIAL, ForgeFile.TEXTURE_SET}
    ensures ReadResourceHeader(d, p).Ok? &&
      ReadResourceHeader(d, p).value.value.resourceType !in {ForgeFile.NONE, ForgeFile.MESH, ForgeFile.MATERIAL, ForgeFile.TEXTURE_SET}
      ==> ParseLodBlockWith(d, p, model, material, textureSet) == Fail(UnknownTag)
  {
  }

  /** A NONE block is its header and four more bytes. */
  lemma LodPaddingBlock(d: seq<byte>, p: nat, model: ModelReader, material: MaterialReader, textureSet: TextureSetReader)
    requires ReadResourceHeader(d, p).Ok? && ReadResourceHeader(d, p).value.value.resourceType == ForgeFile.NONE
    ensures var q := ReadResourceHeader(d, p).value.next;
      var r := ParseLodBlockWith(d, p, model, material, textureSet);
      (r.Ok? <==> q + 4 <= |d|) && (r.Ok? ==> r.value == Parsed(Padding, q + 4))
  {
  }

  /** A MESH block keeps the model read after the header, names it after
      the block header, and keeps as raw bytes exactly the block from its
      header to where it ends, which is where the model ends unless that
      length overflows an int32. */
  lemma LodMeshBlock(d: seq<byte>, p: nat, model: ModelReader, material: MaterialReader, textureSet: TextureSetReader)
    requires ReadResourceHeader(d, p).Ok? && ReadResourceHeader(d, p).value.value.resourceType == ForgeFile.MESH
    requires ParseLodBlockWith(d, p, model, material, textureSet).Ok?
    ensures var h := ReadResourceHeader(d, p).value;
      var m := model(d, h.next);
      var b := ParseLodBlockWith(d, p, model, material, textureSet).value;
      && m.Ok? && b.value.MeshBlock?
      && b.value.entry.name == h.value.fileName && b.value.entry.model == m.value.value
      && p <= b.next <= |d| && b.value.entry.raw == d[p..b.next]
      && (p <= m.value.next < p + 0x8000_0000 ==> b.next == m.value.next)
  {
  }

  /** MATERIAL and TEXTURE_SET blocks hold the resource read right after the
      header, and end where it ends. */
  lemma LodResourceBlocks(d: seq<byte>, p: nat, model: ModelReader, material: MaterialReader, textureSet: TextureSetReader)
    requires ReadResourceHeader(d, p).Ok?
    ensures var q := ReadResourceHeader(d, p).value.next;
      var tag := ReadResourceHeader(d, p).value.value.resourceType;
      var r := ParseLodBlockWith(d, p, model, material, textureSet);
      && (tag == ForgeFile.MATERIAL ==>
            (r.Ok? <==> material(d, q).Ok?) &&
            (r.Ok? ==> r.value == Parsed(MaterialBlock(material(d, q).value.value), material(d, q).value.next)))
      && (tag == ForgeFile.TEXTURE_SET ==>
            (r.Ok? <==> textureSet(d, q).Ok?) &&
            (r.Ok? ==> r.value == Parsed(TextureSetBlock(textureSet(d, q).value.value), textureSet(d, q).value.next)))
  {
  }

  function LodBlockReader(model: ModelReader, material: MaterialReader, textureSet: TextureSetReader): Reader<LodBlock>
  {
    (d: seq<byte>, p: nat) => ParseLodBlockWith(d, p, model, material, textureSet)
  }

  function MeshOf(b: LodBlock): Option<MeshEntry> { if b.MeshBlock? then Some(b.entry) else None }
  function MaterialOf(b: LodBlock): Option<Material.Material> { if b.MaterialBlock? then Some(b.material) else None }
  function TextureSetOf(b: LodBlock): Option<TextureSet.TextureSet> { if b.TextureSetBlock? then Some(b.textureSet) else None }

  /** The file after Load. */
  datatype LodContents = LodContents(
    selector: (Option<ResourceHeader>, LodSelector.Selector),
    meshes: seq<MeshEntry>, materials: seq<Material.Material>, textureSets: seq<TextureSet.TextureSet>)

  /** Load with the given embedded readers: the selector with its header,
      then the blocks up to the end, sorted into the three collections in
      stream order. */
  function LoadLodSelectorFileWith(d: seq<byte>, model: ModelReader, material: MaterialReader, textureSet: TextureSetReader)
    : (r: Result<LodContents>)
  {
    var s :- LodSelector.ParseLodSelector(d, 0, false);
    var bs :- ReadBlocks(d, s.next, LodBlockReader(model, material, textureSet));
    Ok(LodContents(s.value, Select(bs, MeshOf), Select(bs, MaterialOf), Select(bs, TextureSetOf)))
  }

  /** LODSelectorFile.Load as a function of the bytes. */
  function LoadLodSelectorFile(d: seq<byte>): Result<LodContents>
  {
    LoadLodSelectorFileWith(d, EmbeddedModel, EmbeddedMaterial, EmbeddedTextureSet)
  }

  /** The selector comes with the header it was read with, and the loop
      starts where the selector ends. */
  lemma LodSelectorFileSelector(d: seq<byte>, model: ModelReader, material: MaterialReader, textureSet: TextureSetReader)
    requires LoadLodSelectorFileWith(d, model, material, textureSet).Ok?
    ensures var s := LodSelector.ParseLodSelector(d, 0, false);
      && s.Ok? && LoadLodSelectorFileWith(d, model, material, textureSet).value.selector == s.value.value
      && s.value.value.0 == Some(ReadResourceHeader(d, 0).value.value)
      && ReadBlocks(d, s.value.next, LodBlockReader(model, material, textureSet)).Ok?
  {
    LodSelector.HeaderChoice(d, 0);
  }

  /** The MESH branch on a DataReader: the model, then back to the block
      start `temp` and the raw bytes up to where the model ended. */
  method ReadMeshEntry(reader: DataReader, temp: nat, name: string, model: ModelReader) returns (r: Result<MeshEntry>)
    modifies reader
    ensures r.Fail? ==> ParseMeshEntry(reader.data, temp, old(reader.position), name, model).Fail?
    ensures r.Ok? ==> ParseMeshEntry(reader.data, temp, old(reader.position), name, model) == Ok(Parsed(r.value, reader.position))
  {
    var m :- reader.Read(model);
    var temp2 := reader.position;
    var _ := reader.SetPosition(temp);
    var raw :- reader.ReadData(WrapInt32(temp2 - temp));
    r := Ok(MeshEntry(name, m, raw));
  }

  /** One iteration of the loop on a DataReader. */
  method ReadLodBlock(reader: DataReader, model: ModelReader, material: MaterialReader, textureSet: TextureSetReader)
    returns (r: Result<LodBlock>)
    modifies reader
    ensures r.Fail? ==> ParseLodBlockWith(reader.data, old(reader.position), model, material, textureSet).Fail?
    ensures r.Ok? ==>
      ParseLodBlockWith(reader.data, old(reader.position), model, material, textureSet) == Ok(Parsed(r.value, reader.position))
  {
    var temp: int := reader.position;
    var h :- reader.Read(ReadResourceHeader);
    if h.resourceType == ForgeFile.NONE {
      var _ :- reader.Read(ReadI32);
      r := Ok(Padding);
    } else if h.resourceType == ForgeFile.MESH {
      var e :- ReadMeshEntry(reader, temp, h.fileName, model);
      r := Ok(MeshBlock(e));
    } else if h.resourceType == ForgeFile.MATERIAL {
      var m :- reader.Read(material);
      r := Ok(MaterialBlock(m));
    } else if h.resourceType == ForgeFile.TEXTURE_SET {
      var t :- reader.Read(textureSet);
      r := Ok(TextureSetBlock(t));
    } else {
      r := Fail(UnknownTag);
    }
  }

  /** A collection that holds what the blocks so far select, extended by
      what one more block selects, holds what all of them select. */
  lemma CollectedStep<T>(acc: seq<T>, base: seq<T>, blocks: seq<LodBlock>, b: LodBlock, pick: LodBlock -> Option<T>)
    requires acc == base + Select(blocks, pick)
    ensures acc + (if pick(b).Some? then [pick(b).value] else []) == base + Select(blocks + [b], pick)
  {
    SelectAppend(blocks, b, pick);
  }

  /** The C# object: the selector and the three embedded collections. */
  class LodSelectorFile {
    var selector: Option<(Option<ResourceHeader>, LodSelector.Selector)>
    var embeddedMeshes: seq<MeshEntry>
    var embeddedMaterials: seq<Material.Material>
    var embeddedTextureSets: seq<TextureSet.TextureSet>

    constructor ()
      ensures selector == None && embeddedMeshes == [] && embeddedMaterials == [] && embeddedTextureSets == []
    {
      selector := None;
      embeddedMeshes, embeddedMaterials, embeddedTextureSets := [], [], [];
    }

    /** Load: the selector, fresh empty collections, then the loop. The
        collections hold what this call read, whatever they held before. */
    method Load(data: seq<byte>) returns (r: Result<()>)
      modifies this
      ensures r.Fail? ==> LoadLodSelectorFile(data).Fail?
      ensures r.Ok? ==>
        selector.Some? &&
        LoadLodSelectorFile(data) == Ok(LodContents(selector.value, embeddedMeshes, embeddedMaterials, embeddedTextureSets))
    {
      r := LoadWith(data, EmbeddedModel, EmbeddedMaterial, EmbeddedTextureSet);
    }

    method LoadWith(data: seq<byte>, model: ModelReader, material: MaterialReader, textureSet: TextureSetReader)
      returns (r: Result<()>)
      modifies this
      ensures r.Fail? ==> LoadLodSelectorFileWith(data, model, material, textureSet).Fail?
      ensures r.Ok? ==>
        selector.Some? &&
        LoadLodSelectorFileWith(data, model, material, textureSet)
          == Ok(LodContents(selector.value, embeddedMeshes, embeddedMaterials, embeddedTextureSets))
    {
      var reader := new DataReader(data);
      var s :- LodSelector.ReadLodSelector(reader, false);
      ghost var q := reader.position;
      selector := Some(s);
      embeddedMeshes, embeddedMaterials, embeddedTextureSets := [], [], [];
      r := ReadEmbedded(reader, model, material, textureSet);
      ghost var bs := ReadBlocks(data, q, LodBlockReader(model, material, textureSet));
      if r.Ok? {
        assert [] + Select(bs.value, MeshOf) == Select(bs.value, MeshOf);
        assert [] + Select(bs.value, MaterialOf) == Select(bs.value, MaterialOf);
        assert [] + Select(bs.value, TextureSetOf) == Select(bs.value, TextureSetOf);
      }
    }

    /** The collections hold what they held before, then the resources of
        `blocks` in order. */
    ghost predicate Collected(meshes0: seq<MeshEntry>, materials0: seq<Material.Material>,
                              textureSets0: seq<TextureSet.TextureSet>, blocks: seq<LodBlock>)
      reads this
    {
      && embeddedMeshes == meshes0 + Select(blocks, MeshOf)
      && embeddedMaterials == materials0 + Select(blocks, MaterialOf)
      && embeddedTextureSets == textureSets0 + Select(blocks, TextureSetOf)
    }

    /** The switch of the loop: a block's resource goes to its collection. */
    method Add(b: LodBlock, ghost meshes0: seq<MeshEntry>, ghost materials0: seq<Material.Material>,
               ghost textureSets0: seq<TextureSet.TextureSet>, ghost blocks: seq<LodBlock>)
      modifies this
      requires Collected(meshes0, materials0, textureSets0, blocks)
      ensures Collected(meshes0, materials0, textureSets0, blocks + [b])
      ensures selector == old(selector)
    {
      CollectedStep(embeddedMeshes, meshes0, blocks, b, MeshOf);
      CollectedStep(embeddedMaterials, materials0, blocks, b, MaterialOf);
      CollectedStep(embeddedTextureSets, textureSets0, blocks, b, TextureSetOf);
      match b {
        case Padding =>
        case MeshBlock(e) => embeddedMeshes := embeddedMeshes + [e];
        case MaterialBlock(m) => embeddedMaterials := embeddedMaterials + [m];
        case TextureSetBlock(t) => embeddedTextureSets := embeddedTextureSets + [t];
      }
    }

    /** The while loop: one block per iteration until the position reaches
        the end, each appended to its collection. */
    method ReadEmbedded(reader: DataReader, model: ModelReader, material: MaterialReader, textureSet: TextureSetReader)
      returns (r: Result<()>)
      modifies this, reader
      ensures r.Fail? ==> ReadBlocks(reader.data, old(reader.position), LodBlockReader(model, material, textureSet)).Fail?
      ensures r.Ok? ==> var bs := ReadBlocks(reader.data, old(reader.position), LodBlockReader(model, material, textureSet));
        && bs.Ok? && selector == old(selector)
        && embeddedMeshes == old(embeddedMeshes) + Select(bs.value, MeshOf)
        && embeddedMaterials == old(embeddedMaterials) + Select(bs.value, MaterialOf)
        && embeddedTextureSets == old(embeddedTextureSets) + Select(bs.value, TextureSetOf)
    {
      ghost var d, start := reader.data, reader.position;
      ghost var block := LodBlockReader(model, material, textureSet);
      ghost var blocks: seq<LodBlock> := [];
      PrependNothing(ReadBlocks(d, start, block));
      while reader.position < |reader.data|
        invariant reader.data == d && selector == old(selector)
        invariant ReadBlocks(d, start, block) == Prepend(blocks, ReadBlocks(d, reader.position, block))
        invariant Collected(old(embeddedMeshes), old(embeddedMaterials), old(embeddedTextureSets), blocks)
        decreases |reader.data| - reader.position
      {
        var p := reader.position;
        var b := ReadLodBlock(reader, model, material, textureSet);
        if b.Fail? {
          return Fail(b.error);
        }
        if reader.position <= p {
          return Fail(NoProgress);
        }
        BlocksStep(d, p, block, b.value, reader.position);
        PrependTwice(blocks, [b.value], ReadBlocks(d, reader.position, block));
        Add(b.value, old(embeddedMeshes), old(embeddedMaterials), old(embeddedTextureSets), blocks);
        blocks := blocks + [b.value];
      }
      assert blocks + [] == blocks;
      r := Ok(());
    }
  }
}

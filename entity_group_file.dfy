/** EntityGroupFile.Load (Files/EntityGroupFile.cs:28-80): the entity group,
    then the meshes, materials, texture sets and LOD selectors embedded
    after it. The loop is stated for any readers of the embedded resources;
    Load instantiates them with the resources' Read with `skipHeader` set. */
module EntityGroupFiles {
  import opened Wrappers
  import opened Bytes
  import opened Cursor
  import opened ForgeObjects
  import opened DataStream
  import opened Embedded
  import opened EmbeddedResources
  import ForgeFile
  import Material
  import TextureSet
  import LodSelector
  import EntityGroup

  /** What one iteration of the loop reads. */
  datatype GroupBlock =
    | Padding
    | MeshBlock(mesh: NamedModel)
    | MaterialBlock(material: Material.Material)
    | TextureSetBlock(textureSet: TextureSet.TextureSet)
    | LodSelectorBlock(lod: (Option<ResourceHeader>, LodSelector.Selector))

  /** The five tags the group's loop accepts. */
  const GroupTags: set<nat> := {ForgeFile.NONE, ForgeFile.MESH, ForgeFile.MATERIAL, ForgeFile.TEXTURE_SET, ForgeFile.LOD_SELECTOR}

  /** One iteration: the resource header, then a padding int32 (NONE), a
      model named after the header (MESH), a material, a texture set, or a
      LOD selector that gets the header as its own; any other tag throws. */
  function ParseGroupBlockWith(d: seq<byte>, p: nat, model: ModelReader, material: MaterialReader,
                               textureSet: TextureSetReader, lod: LodSelectorReader)
    : (r: Result<Parsed<GroupBlock>>)
  {
    var h :- ReadResourceHeader(d, p);
    var tag := h.value.resourceType;
    if tag == ForgeFile.NONE then
      var pad :- ReadI32(d, h.next);
      Ok(Parsed(Padding, pad.next))
    else if tag == ForgeFile.MESH then
      var m :- model(d, h.next);
      Ok(Parsed(MeshBlock(NamedModel(h.value.fileName, m.value)), m.next))
    else if tag == ForgeFile.MATERIAL then
      var m :- material(d, h.next);
      Ok(Parsed(MaterialBlock(m.value), m.next))
    else if tag == ForgeFile.TEXTURE_SET then
      var t :- textureSet(d, h.next);
      Ok(Parsed(TextureSetBlock(t.value), t.next))
    else if tag == ForgeFile.LOD_SELECTOR then
      var s :- lod(d, h.next);
      Ok(Parsed(LodSelectorBlock((Some(h.value), s.value.1)), s.next))
    else Fail(UnknownTag)
  }

  /** Only the five tags are accepted, and any other tag fails the block
      once its header is read. */
  lemma GroupBlockTags(d: seq<byte>, p: nat, model: ModelReader, material: MaterialReader,
                       textureSet: TextureSetReader, lod: LodSelectorReader)
    ensures ParseGroupBlockWith(d, p, model, material, textureSet, lod).Ok? ==>
      ReadResourceHeader(d, p).Ok? && ReadResourceHeader(d, p).value.value.resourceType in GroupTags
    ensures ReadResourceHeader(d, p).Ok? && ReadResourceHeader(d, p).value.value.resourceType !in GroupTags
      ==> ParseGroupBlockWith(d, p, model, material, textureSet, lod) == Fail(UnknownTag)
  {
  }

  /** A NONE block is its header and four more bytes. */
  lemma GroupPaddingBlock(d: seq<byte>, p: nat, model: ModelReader, material: MaterialReader,
                          textureSet: TextureSetReader, lod: LodSelectorReader)
    requires ReadResourceHeader(d, p).Ok? && ReadResourceHeader(d, p).value.value.resourceType == ForgeFile.NONE
    ensures var q := ReadResourceHeader(d, p).value.next;
      var r := ParseGroupBlockWith(d, p, model, material, textureSet, lod);
      (r.Ok? <==> q + 4 <= |d|) && (r.Ok? ==> r.value == Parsed(Padding, q + 4))
  {
  }

  /** A MESH block is the model read after the header, named after the
      header; a LOD_SELECTOR block is the selector read after the header,
      with the header as its own; both end where the resource ends. */
  lemma GroupNamedBlocks(d: seq<byte>, p: nat, model: ModelReader, material: MaterialReader,
                         textureSet: TextureSetReader, lod: LodSelectorReader)
    requires ReadResourceHeader(d, p).Ok?
    ensures var h := ReadResourceHeader(d, p).value;
      var r := ParseGroupBlockWith(d, p, model, material, textureSet, lod);
      && (h.value.resourceType == ForgeFile.MESH ==>
            (r.Ok? <==> model(d, h.next).Ok?) &&
            (r.Ok? ==> r.value == Parsed(MeshBlock(NamedModel(h.value.fileName, model(d, h.next).value.value)),
                                         model(d, h.next).value.next)))
      && (h.value.resourceType == ForgeFile.LOD_SELECTOR ==>
            (r.Ok? <==> lod(d, h.next).Ok?) &&
            (r.Ok? ==> r.value == Parsed(LodSelectorBlock((Some(h.value), lod(d, h.next).value.value.1)),
                                         lod(d, h.next).value.next)))
  {
  }

  /** MATERIAL and TEXTURE_SET blocks hold the resource read right after the
      header, and end where it ends. */
  lemma GroupResourceBlocks(d: seq<byte>, p: nat, model: ModelReader, material: MaterialReader,
                            textureSet: TextureSetReader, lod: LodSelectorReader)
    requires ReadResourceHeader(d, p).Ok?
    ensures var q := ReadResourceHeader(d, p).value.next;
      var tag := ReadResourceHeader(d, p).value.value.resourceType;
      var r := ParseGroupBlockWith(d, p, model, material, textureSet, lod);
      && (tag == ForgeFile.MATERIAL ==>
            (r.Ok? <==> material(d, q).Ok?) &&
            (r.Ok? ==> r.value == Parsed(MaterialBlock(material(d, q).value.value), material(d, q).value.next)))
      && (tag == ForgeFile.TEXTURE_SET ==>
            (r.Ok? <==> textureSet(d, q).Ok?) &&
            (r.Ok? ==> r.value == Parsed(TextureSetBlock(textureSet(d, q).value.value), textureSet(d, q).value.next)))
  {
  }

  function GroupBlockReader(model: ModelReader, material: MaterialReader, textureSet: TextureSetReader,
                            lod: LodSelectorReader): Reader<GroupBlock>
  {
    (d: seq<byte>, p: nat) => ParseGroupBlockWith(d, p, model, material, textureSet, lod)
  }

  function MeshOf(b: GroupBlock): Option<NamedModel> { if b.MeshBlock? then Some(b.mesh) else None }
  function MaterialOf(b: GroupBlock): Option<Material.Material> { if b.MaterialBlock? then Some(b.material) else None }
  function TextureSetOf(b: GroupBlock): Option<TextureSet.TextureSet> { if b.TextureSetBlock? then Some(b.textureSet) else None }
  function LodSelectorOf(b: GroupBlock): Option<(Option<ResourceHeader>, LodSelector.Selector)>
  {
    if b.LodSelectorBlock? then Some(b.lod) else None
  }

  /** The embedded collections after Load. */
  datatype GroupEmbeds = GroupEmbeds(
    meshes: seq<NamedModel>, materials: seq<Material.Material>, textureSets: seq<TextureSet.TextureSet>,
    lodSelectors: seq<(Option<ResourceHeader>, LodSelector.Selector)>)

  function EmbedsOf(bs: seq<GroupBlock>): GroupEmbeds
  {
    GroupEmbeds(Select(bs, MeshOf), Select(bs, MaterialOf), Select(bs, TextureSetOf), Select(bs, LodSelectorOf))
  }

  /** The collections after one more block. */
  function Extend(e: GroupEmbeds, b: GroupBlock): GroupEmbeds
  {
    match b
    case Padding => e
    case MeshBlock(m) => e.(meshes := e.meshes + [m])
    case MaterialBlock(m) => e.(materials := e.materials + [m])
    case TextureSetBlock(t) => e.(textureSets := e.textureSets + [t])
    case LodSelectorBlock(s) => e.(lodSelectors := e.lodSelectors + [s])
  }

  /** Sorting one more block extends the collections by its resource. */
  lemma EmbedsAppend(bs: seq<GroupBlock>, b: GroupBlock)
    ensures EmbedsOf(bs + [b]) == Extend(EmbedsOf(bs), b)
  {
    SelectAppend(bs, b, MeshOf);
    SelectAppend(bs, b, MaterialOf);
    SelectAppend(bs, b, TextureSetOf);
    SelectAppend(bs, b, LodSelectorOf);
  }

  /** Load with the given readers: the entity group, then the blocks up to
      the end, sorted into the four collections in stream order. */
  function LoadEntityGroupFileWith(d: seq<byte>, ownEntity: EntityGroup.EntityReader, childEntity: EntityGroup.EntityReader,
                                   model: ModelReader, material: MaterialReader, textureSet: TextureSetReader,
                                   lod: LodSelectorReader)
    : (r: Result<(EntityGroup.Group, GroupEmbeds)>)
  {
    var g :- EntityGroup.ParseGroupWith(d, 0, ownEntity, childEntity);
    var bs :- ReadBlocks(d, g.next, GroupBlockReader(model, material, textureSet, lod));
    Ok((g.value, EmbedsOf(bs)))
  }

  /** EntityGroupFile.Load as a function of the bytes. */
  function LoadEntityGroupFile(d: seq<byte>): Result<(EntityGroup.Group, GroupEmbeds)>
  {
    LoadEntityGroupFileWith(d, EntityGroup.ReadGroupEntity, EntityGroup.ReadSingleEntity,
                            EmbeddedModel, EmbeddedMaterial, EmbeddedTextureSet, EmbeddedLodSelector)
  }

  /** Every LOD selector the loop collects carries a header: the one of
      its block. */
  lemma {:induction false} SelectorsCarryHeaders(d: seq<byte>, p: nat, model: ModelReader, material: MaterialReader,
                                                 textureSet: TextureSetReader, lod: LodSelectorReader)
    requires ReadBlocks(d, p, GroupBlockReader(model, material, textureSet, lod)).Ok?
    ensures var bs := ReadBlocks(d, p, GroupBlockReader(model, material, textureSet, lod)).value;
      forall s :: s in EmbedsOf(bs).lodSelectors ==> s.0.Some?
    decreases if p < |d| then |d| - p else 0
  {
    var block := GroupBlockReader(model, material, textureSet, lod);
    if p < |d| {
      var b := block(d, p).value;
      SelectorsCarryHeaders(d, b.next, model, material, textureSet, lod);
      var rest := ReadBlocks(d, b.next, block).value;
      assert ReadBlocks(d, p, block).value == [b.value] + rest;
      EmbedsPrepend(b.value, rest);
      assert b.value.LodSelectorBlock? ==> b.value.lod.0.Some?;
    }
  }

  /** Sorting a block before others puts its resource first. */
  lemma EmbedsPrepend(b: GroupBlock, bs: seq<GroupBlock>)
    ensures EmbedsOf([b] + bs).lodSelectors == (if b.LodSelectorBlock? then [b.lod] else []) + EmbedsOf(bs).lodSelectors
  {
    assert ([b] + bs)[1..] == bs;
  }

  /** One iteration of the loop on a DataReader. */
  method ReadGroupBlock(reader: DataReader, model: ModelReader, material: MaterialReader,
                        textureSet: TextureSetReader, lod: LodSelectorReader)
    returns (r: Result<GroupBlock>)
    modifies reader
    ensures r.Fail? ==> ParseGroupBlockWith(reader.data, old(reader.position), model, material, textureSet, lod).Fail?
    ensures r.Ok? ==>
      ParseGroupBlockWith(reader.data, old(reader.position), model, material, textureSet, lod) == Ok(Parsed(r.value, reader.position))
  {
    var h :- reader.Read(ReadResourceHeader);
    if h.resourceType == ForgeFile.NONE {
      var _ :- reader.Read(ReadI32);
      r := Ok(Padding);
    } else if h.resourceType == ForgeFile.MESH {
      var m :- reader.Read(model);
      r := Ok(MeshBlock(NamedModel(h.fileName, m)));
    } else if h.resourceType == ForgeFile.MATERIAL {
      var m :- reader.Read(material);
      r := Ok(MaterialBlock(m));
    } else if h.resourceType == ForgeFile.TEXTURE_SET {
      var t :- reader.Read(textureSet);
      r := Ok(TextureSetBlock(t));
    } else if h.resourceType == ForgeFile.LOD_SELECTOR {
      var s :- reader.Read(lod);
      r := Ok(LodSelectorBlock((Some(h), s.1)));
    } else {
      r := Fail(UnknownTag);
    }
  }

  /** The C# object: the entity group and the four embedded collections. */
  class EntityGroupFile {
    const entityGroup: EntityGroup.ForgeEntityGroup
    var embeddedMeshes: seq<NamedModel>
    var embeddedMaterials: seq<Material.Material>
    var embeddedTextureSets: seq<TextureSet.TextureSet>
    var embeddedLodSelectors: seq<(Option<ResourceHeader>, LodSelector.Selector)>

    constructor ()
      ensures fresh(entityGroup)
      ensures embeddedMeshes == [] && embeddedMaterials == [] && embeddedTextureSets == [] && embeddedLodSelectors == []
    {
      entityGroup := new EntityGroup.ForgeEntityGroup();
      embeddedMeshes, embeddedMaterials, embeddedTextureSets, embeddedLodSelectors := [], [], [], [];
    }

    function Embeds(): GroupEmbeds
      reads this
    {
      GroupEmbeds(embeddedMeshes, embeddedMaterials, embeddedTextureSets, embeddedLodSelectors)
    }

    /** Load: the entity group, fresh empty collections, then the loop. */
    method Load(data: seq<byte>) returns (r: Result<()>)
      modifies this, entityGroup
      ensures r.Fail? ==> LoadEntityGroupFile(data).Fail?
      ensures r.Ok? ==>
        entityGroup.entities != null && entityGroup.uiEntitiesDisplayOrder != null &&
        LoadEntityGroupFile(data) == Ok((entityGroup.Fields(), Embeds()))
    {
      r := LoadWith(data, EntityGroup.ReadGroupEntity, EntityGroup.ReadSingleEntity,
                    EmbeddedModel, EmbeddedMaterial, EmbeddedTextureSet, EmbeddedLodSelector);
    }

    method LoadWith(data: seq<byte>, ownEntity: EntityGroup.EntityReader, childEntity: EntityGroup.EntityReader,
                    model: ModelReader, material: MaterialReader, textureSet: TextureSetReader, lod: LodSelectorReader)
      returns (r: Result<()>)
      modifies this, entityGroup
      ensures r.Fail? ==> LoadEntityGroupFileWith(data, ownEntity, childEntity, model, material, textureSet, lod).Fail?
      ensures r.Ok? ==>
        entityGroup.entities != null && entityGroup.uiEntitiesDisplayOrder != null &&
        LoadEntityGroupFileWith(data, ownEntity, childEntity, model, material, textureSet, lod)
          == Ok((entityGroup.Fields(), Embeds()))
    {
      var reader := new DataReader(data);
      var _ :- entityGroup.ReadWith(reader, ownEntity, childEntity);
      ghost var g := entityGroup.Fields();
      r := ReadEmbedded(reader, model, material, textureSet, lod);
      assert entityGroup.Fields() == g;
    }

    /** The switch of the loop: a block's resource goes to its collection. */
    method Add(b: GroupBlock)
      modifies this
      ensures Embeds() == Extend(old(Embeds()), b)
    {
      match b {
        case Padding =>
        case MeshBlock(m) => embeddedMeshes := embeddedMeshes + [m];
        case MaterialBlock(m) => embeddedMaterials := embeddedMaterials + [m];
        case TextureSetBlock(t) => embeddedTextureSets := embeddedTextureSets + [t];
        case LodSelectorBlock(s) => embeddedLodSelectors := embeddedLodSelectors + [s];
      }
    }

    /** Fresh empty collections, then the while loop: one block per
        iteration until the position reaches the end, each appended to its
        collection. */
    method ReadEmbedded(reader: DataReader, model: ModelReader, material: MaterialReader,
                        textureSet: TextureSetReader, lod: LodSelectorReader)
      returns (r: Result<()>)
      modifies this, reader
      ensures r.Fail? ==> ReadBlocks(reader.data, old(reader.position), GroupBlockReader(model, material, textureSet, lod)).Fail?
      ensures r.Ok? ==>
        var bs := ReadBlocks(reader.data, old(reader.position), GroupBlockReader(model, material, textureSet, lod));
        bs.Ok? && Embeds() == EmbedsOf(bs.value)
    {
      embeddedMeshes, embeddedMaterials, embeddedTextureSets, embeddedLodSelectors := [], [], [], [];
      ghost var d, start := reader.data, reader.position;
      ghost var block := GroupBlockReader(model, material, textureSet, lod);
      ghost var blocks: seq<GroupBlock> := [];
      PrependNothing(ReadBlocks(d, start, block));
      while reader.position < |reader.data|
        invariant reader.data == d
        invariant ReadBlocks(d, start, block) == Prepend(blocks, ReadBlocks(d, reader.position, block))
        invariant Embeds() == EmbedsOf(blocks)
        decreases |reader.data| - reader.position
      {
        var p := reader.position;
        var b := ReadGroupBlock(reader, model, material, textureSet, lod);
        if b.Fail? {
          return Fail(b.error);
        }
        if reader.position <= p {
          return Fail(NoProgress);
        }
        BlocksStep(d, p, block, b.value, reader.position);
        PrependTwice(blocks, [b.value], ReadBlocks(d, reader.position, block));
        EmbedsAppend(blocks, b.value);
        Add(b.value);
        blocks := blocks + [b.value];
      }
      assert blocks + [] == blocks;
      r := Ok(());
    }
  }
}

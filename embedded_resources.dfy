/** The resources the files find embedded after their main resource, each
    read with `skipHeader` set because its block header has already been
    read. */
module EmbeddedResources {
  import opened Wrappers
  import opened Bytes
  import opened Cursor
  import opened Embedded
  import opened ForgeObjects
  import ForgeModel
  import Material
  import TextureSet
  import Texture
  import LodSelector

  type ModelReader = Reader<ForgeModel.Model>
  type MaterialReader = Reader<Material.Material>
  type TextureSetReader = Reader<TextureSet.TextureSet>
  type TextureReader = Reader<Texture.Texture>
  type LodSelectorReader = Reader<(Option<ResourceHeader>, LodSelector.Selector)>

  /** A model named after the header of its block, as `compiledMesh.Name =
      header.FileName` does. */
  datatype NamedModel = NamedModel(name: string, model: ForgeModel.Model)

  /** ForgeModel.Read(reader, true): the model carries no header. */
  function EmbeddedModel(d: seq<byte>, q: nat): (r: Result<Parsed<ForgeModel.Model>>)
    ensures r.Ok? ==> r.value.value.header == None
  {
    ForgeModel.ParseModel(d, q, true)
  }

  function EmbeddedMaterial(d: seq<byte>, q: nat): Result<Parsed<Material.Material>>
  {
    Material.ParseMaterial(d, q, true)
  }

  function EmbeddedTextureSet(d: seq<byte>, q: nat): Result<Parsed<TextureSet.TextureSet>>
  {
    TextureSet.ParseTextureSet(d, q, true)
  }

  /** ForgeLODSelector.Read(reader, true): the selector carries no header. */
  function EmbeddedLodSelector(d: seq<byte>, q: nat): (r: Result<Parsed<(Option<ResourceHeader>, LodSelector.Selector)>>)
    ensures r.Ok? ==> r.value.value.0 == None
  {
    LodSelector.HeaderChoice(d, q);
    LodSelector.ParseLodSelector(d, q, true)
  }

  /** ForgeTexture.Read(reader, true): with `skipHeader` set the texture's
      pixel data is always read inline, and the texture has no name. */
  function EmbeddedTexture(d: seq<byte>, q: nat): (r: Result<Parsed<Texture.Texture>>)
    ensures r.Ok? ==> r.value.value.data.Some? && r.value.value.name == None
  {
    if Texture.ParseTexture(d, q, true).Ok? then
      Texture.EmbeddedIsInline(d, q);
      Texture.ParseTexture(d, q, true)
    else Texture.ParseTexture(d, q, true)
  }
}

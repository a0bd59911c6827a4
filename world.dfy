/** ForgeWorld (Resources/ForgeWorld.cs): a world's grids, terrain shadow
    proxies, portals, graphic and engine settings, and the region layout
    manager whose components are chosen by CreateWorldComponent. Every
    ReadSingle is kept as its raw 32-bit word. */
module World {
  import opened Wrappers
  import opened Bytes
  import opened Cursor
  import opened ForgeObjects
  import opened DataStream
  import Material
  import EntityGroup
  import WorldComponents

  // ---------------------------------------------------------------------
  // Grid descriptions and engine data

  /** GridDescription: two base objects, the loading distance, the cell
      size, the bottom-left corner, the level-0 dimension, three flags and
      the grid reference. */
  datatype GridDescription = GridDescription(description: BaseObject, layout: BaseObject, defaultLoadingDistance: nat,
                                             cellSize: int, bottomLeft: seq<int>, gridDimensionLevel0: int,
                                             loadingFlags: seq<bool>, grid: FileReference)

  /** The corner and the level-0 dimension: four int32 values. */
  function ReadGridPlacement(d: seq<byte>, p: nat): (r: Result<Parsed<(seq<int>, int)>>)
    ensures r.Ok? <==> p + 16 <= |d|
    ensures r.Ok? ==> r.value.next == p + 16 && |r.value.value.0| == 3
  {
    var x :- ReadI32(d, p);
    var y :- ReadI32(d, x.next);
    var z :- ReadI32(d, y.next);
    var level0 :- ReadI32(d, z.next);
    Ok(Parsed(([x.value, y.value, z.value], level0.value), level0.next))
  }

  function ReadGridDescription(d: seq<byte>, p: nat): (r: Result<Parsed<GridDescription>>)
    ensures r.Ok? <==> p + 59 <= |d|
    ensures r.Ok? ==> r.value.next == p + 59
    ensures r.Ok? ==>
      && r.value.value.defaultLoadingDistance == UIntAt(d, p + 24, 2)
      && r.value.value.cellSize == IntAt(d, p + 26, 4)
      && |r.value.value.bottomLeft| == 3 && |r.value.value.loadingFlags| == 3
  {
    var description :- ReadBaseObject(d, p);
    var layout :- ReadBaseObject(d, description.next);
    var distance :- ReadU16(d, layout.next);
    var cellSize :- ReadI32(d, distance.next);
    var placement :- ReadGridPlacement(d, cellSize.next);
    var flags :- ReadFlags(d, placement.next, 3);
    var grid :- ReadReference(d, flags.next);
    Ok(Parsed(GridDescription(description.value, layout.value, distance.value, cellSize.value, placement.value.0,
                              placement.value.1, flags.value, grid.value), grid.next))
  }

  /** WorldEngineData: a base object, MaxSoundDistance and DeathHeight. */
  datatype WorldEngineData = WorldEngineData(base: BaseObject, maxSoundDistance: nat, deathHeight: nat)

  function ReadWorldEngineData(d: seq<byte>, p: nat): (r: Result<Parsed<WorldEngineData>>)
    ensures r.Ok? <==> p + 17 <= |d|
    ensures r.Ok? ==> r.value.next == p + 17 && r.value.value.maxSoundDistance == d[p + 12] as nat
  {
    var base :- ReadBaseObject(d, p);
    var distance :- ReadU8(d, base.next);
    var height :- ReadU32(d, distance.next);
    Ok(Parsed(WorldEngineData(base.value, distance.value, height.value), height.next))
  }

  /** WorldMapParameters: a base object and the XMin, XMax, YMin, YMax words. */
  datatype WorldMapParameters = WorldMapParameters(base: BaseObject, bounds: seq<nat>)

  function ReadWorldMapParameters(d: seq<byte>, p: nat): (r: Result<Parsed<WorldMapParameters>>)
    ensures r.Ok? <==> p + 28 <= |d|
    ensures r.Ok? ==> r.value.next == p + 28 && |r.value.value.bounds| == 4
  {
    var base :- ReadBaseObject(d, p);
    var bounds :- ReadFloats(d, base.next, 4);
    Ok(Parsed(WorldMapParameters(base.value, bounds.value), bounds.next))
  }

  // ---------------------------------------------------------------------
  // Sky and cube maps

  /** LayeredSky: an unchecked pointer, the descriptor mask, two flags, the
      culling distance, two counters and four buffer references. */
  datatype LayeredSky = LayeredSky(ptr: BaseObjectPtr, descriptorMask: nat, generated: bool, hasHighOverdraw: bool,
                                   maxCullingDistance: nat, estimatedMemoryUsage: nat, compiledStarCount: nat,
                                   buffers: seq<FileReference>)

  /** The culling distance, the memory estimate and the star count. */
  function ReadSkyCounters(d: seq<byte>, p: nat): (r: Result<Parsed<(nat, nat, nat)>>)
    ensures r.Ok? <==> p + 12 <= |d|
    ensures r.Ok? ==> r.value.next == p + 12 && r.value.value.2 == UIntAt(d, p + 8, 4)
  {
    var distance :- ReadU32(d, p);
    var memory :- ReadU32(d, distance.next);
    var stars :- ReadU32(d, memory.next);
    Ok(Parsed((distance.value, memory.value, stars.value), stars.next))
  }

  function ReadLayeredSky(d: seq<byte>, p: nat): (r: Result<Parsed<LayeredSky>>)
    ensures r.Ok? <==> p + 69 <= |d|
    ensures r.Ok? ==> r.value.next == p + 69 && |r.value.value.buffers| == 4
    ensures r.Ok? ==> r.value.value.descriptorMask == d[p + 14] as nat
  {
    var ptr :- ReadPtr(d, p);
    var mask :- ReadU8(d, ptr.next);
    var flags :- ReadFlags(d, mask.next, 2);
    var counters :- ReadSkyCounters(d, flags.next);
    var buffers :- ReadReferences(d, counters.next, 4);
    var (distance, memory, stars) := counters.value;
    Ok(Parsed(LayeredSky(ptr.value, mask.value, flags.value[0], flags.value[1], distance, memory, stars,
                         buffers.value), buffers.next))
  }

  /** LocalCubeMapSettings: a base object, two fog flags, two blend
      durations, exactly eight light-map key frames, the cube map size, the
      cloud flag and five more words. */
  datatype LocalCubeMapSettings = LocalCubeMapSettings(base: BaseObject, fogFlags: seq<bool>, blendDurations: seq<nat>,
                                                       lightMapKeyFrames: seq<nat>, cubeMapSize: nat,
                                                       addCloudInSkyCubeMap: bool, cloudAndColour: seq<nat>)

  /** The number of LightMapKeyFrames: `new float[8]`. */
  const LightMapKeyFrameCount: nat := 8

  /** The cube map size, the cloud flag and the five trailing words. */
  function ReadCubeMapTail(d: seq<byte>, p: nat): (r: Result<Parsed<(nat, bool, seq<nat>)>>)
    ensures r.Ok? <==> p + 25 <= |d|
    ensures r.Ok? ==> r.value.next == p + 25 && |r.value.value.2| == 5
  {
    var size :- ReadU32(d, p);
    var cloud :- ReadFlag(d, size.next);
    var rest :- ReadFloats(d, cloud.next, 5);
    Ok(Parsed((size.value, cloud.value, rest.value), rest.next))
  }

  function ReadLocalCubeMapSettings(d: seq<byte>, p: nat): (r: Result<Parsed<LocalCubeMapSettings>>)
    ensures r.Ok? <==> p + 79 <= |d|
    ensures r.Ok? ==> r.value.next == p + 79
    ensures r.Ok? ==> |r.value.value.lightMapKeyFrames| == LightMapKeyFrameCount
    ensures r.Ok? ==> ReadFloats(d, p + 22, 8) == Ok(Parsed(r.value.value.lightMapKeyFrames, p + 54))
  {
    var base :- ReadBaseObject(d, p);
    var fog :- ReadFlags(d, base.next, 2);
    var blend :- ReadFloats(d, fog.next, 2);
    var frames :- ReadFloats(d, blend.next, LightMapKeyFrameCount);
    var tail :- ReadCubeMapTail(d, frames.next);
    var (size, cloud, rest) := tail.value;
    Ok(Parsed(LocalCubeMapSettings(base.value, fog.value, blend.value, frames.value, size, cloud, rest), tail.next))
  }

  /** CubeMapEntry: a base object and two unchecked handles. */
  datatype CubeMapEntry = CubeMapEntry(base: BaseObject, cubeMap: ObjectPtr, ambiance: ObjectPtr)

  function ReadCubeMapEntry(d: seq<byte>, p: nat): (r: Result<Parsed<CubeMapEntry>>)
    ensures r.Ok? <==> p + 30 <= |d|
    ensures r.Ok? ==> r.value.next == p + 30
  {
    var base :- ReadBaseObject(d, p);
    var cubeMap :- ReadHandle(d, base.next);
    var ambiance :- ReadHandle(d, cubeMap.next);
    Ok(Parsed(CubeMapEntry(base.value, cubeMap.value, ambiance.value), ambiance.next))
  }

  /** LocalCubeMapContainer: an object, the settings and two counted entry
      arrays. */
  datatype LocalCubeMapContainer = LocalCubeMapContainer(obj: ForgeObject, settings: LocalCubeMapSettings,
                                                         localEntries: seq<CubeMapEntry>,
                                                         globalEntries: seq<CubeMapEntry>)

  /** A count-prefixed array of cube map entries: 4 + 30 bytes per entry. */
  function ReadCubeMapEntries(d: seq<byte>, p: nat): (r: Result<Parsed<seq<CubeMapEntry>>>)
    ensures r.Ok? ==> r.value.next == p + 4 + 30 * |r.value.value|
    ensures r.Ok? ==> ReadCount(d, p) == Ok(Parsed(|r.value.value|, p + 4))
  {
    ReadCountedAdvance(d, p, ReadCubeMapEntry, 30);
    ReadCounted(d, p, ReadCubeMapEntry)
  }

  function ReadLocalCubeMapContainer(d: seq<byte>, p: nat): (r: Result<Parsed<LocalCubeMapContainer>>)
    ensures r.Ok? ==>
      && ReadCount(d, p + 92) == Ok(Parsed(|r.value.value.localEntries|, p + 96))
      && r.value.next == p + 100 + 30 * (|r.value.value.localEntries| + |r.value.value.globalEntries|)
  {
    var obj :- ReadObject(d, p);
    var settings :- ReadLocalCubeMapSettings(d, obj.next);
    var local :- ReadCubeMapEntries(d, settings.next);
    var global :- ReadCubeMapEntries(d, local.next);
    Ok(Parsed(LocalCubeMapContainer(obj.value, settings.value, local.value, global.value), global.next))
  }

  // ---------------------------------------------------------------------
  // WorldGraphicData

  /** CollectionSettings: an object and eighteen words. */
  datatype CollectionSettings = CollectionSettings(obj: ForgeObject, values: seq<nat>)

  function ReadCollectionSettings(d: seq<byte>, p: nat): (r: Result<Parsed<CollectionSettings>>)
    ensures r.Ok? <==> p + 85 <= |d|
    ensures r.Ok? ==> r.value.next == p + 85 && |r.value.value.values| == 18
  {
    var obj :- ReadObject(d, p);
    var values :- ReadFloats(d, obj.next, 18);
    Ok(Parsed(CollectionSettings(obj.value, values.value), values.next))
  }

  /** GraceForceSettings: an object, Enabled, TextureSize and seven words. */
  datatype GraceForceSettings = GraceForceSettings(obj: ForgeObject, enabled: bool, textureSize: nat, values: seq<nat>)

  function ReadGraceForceSettings(d: seq<byte>, p: nat): (r: Result<Parsed<GraceForceSettings>>)
    ensures r.Ok? <==> p + 46 <= |d|
    ensures r.Ok? ==> r.value.next == p + 46 && |r.value.value.values| == 7
  {
    var obj :- ReadObject(d, p);
    var enabled :- ReadFlag(d, obj.next);
    var size :- ReadU32(d, enabled.next);
    var values :- ReadFloats(d, size.next, 7);
    Ok(Parsed(GraceForceSettings(obj.value, enabled.value, size.value, values.value), values.next))
  }

  /** The object, the sky, WorldGI, the cube maps and two references. */
  datatype GraphicHead = GraphicHead(obj: ForgeObject, sky: LayeredSky, worldGi: FileReference,
                                     cubeMaps: LocalCubeMapContainer, fakeEntitiesReservedTexture: FileReference,
                                     rainBlockerContainer: FileReference)

  function ReadGraphicHead(d: seq<byte>, p: nat): (r: Result<Parsed<GraphicHead>>)
    ensures r.Ok? ==> ReadLayeredSky(d, p + 13).Ok? && r.value.value.sky == ReadLayeredSky(d, p + 13).value.value
    ensures r.Ok? ==> ReadLocalCubeMapContainer(d, p + 92).Ok?
    ensures r.Ok? ==> r.value.next == ReadLocalCubeMapContainer(d, p + 92).value.next + 20
  {
    var obj :- ReadObject(d, p);
    var sky :- ReadLayeredSky(d, obj.next);
    var gi :- ReadReference(d, sky.next);
    var cubeMaps :- ReadLocalCubeMapContainer(d, gi.next);
    var texture :- ReadReference(d, cubeMaps.next);
    var rain :- ReadReference(d, texture.next);
    Ok(Parsed(GraphicHead(obj.value, sky.value, gi.value, cubeMaps.value, texture.value, rain.value), rain.next))
  }

  /** ClearGBufferColors to ShadowCenterOnCamera: five flags, the shadow
      factor, the sun mask byte, six flags, the underwater shadow count and
      one flag, 21 bytes. */
  datatype GraphicLighting = GraphicLighting(sunFlags: seq<bool>, defaultShadowFactor: nat,
                                             sunDeconstructionGroupMask: nat, bufferFlags: seq<bool>,
                                             underwaterShadowCount: nat, shadowCenterOnCamera: bool)

  function ReadGraphicLighting(d: seq<byte>, p: nat): (r: Result<Parsed<GraphicLighting>>)
    ensures r.Ok? <==> p + 21 <= |d|
    ensures r.Ok? ==> r.value.next == p + 21
    ensures r.Ok? ==> |r.value.value.sunFlags| == 5 && |r.value.value.bufferFlags| == 6
  {
    var sun :- ReadFlags(d, p, 5);
    var factor :- ReadU32(d, sun.next);
    var mask :- ReadU8(d, factor.next);
    var buffers :- ReadFlags(d, mask.next, 6);
    var count :- ReadU32(d, buffers.next);
    var center :- ReadFlag(d, count.next);
    Ok(Parsed(GraphicLighting(sun.value, factor.value, mask.value, buffers.value, count.value, center.value), center.next))
  }

  /** WorldParticleSystems: a handle read with check and newOffset 3. */
  function ReadWorldParticleSystems(d: seq<byte>, p: nat): (r: Result<Parsed<ObjectPtr>>)
    ensures r.Ok? <==> p < |d| && (d[p] == 0 || d[p] == 3 || p + 9 <= |d|)
    ensures r.Ok? ==> r.value.next == p + (if d[p] == 0 then 4 else if d[p] == 3 then 1 else 9)
  {
    ReadObjectPtr(d, p, true, 3)
  }

  /** Near to ReflectionMaxDistance: the distances, the deconstruction mask,
      origin and sizes, the UI planes and lighting setup, the world map fog
      words and texture; 101 bytes. */
  datatype GraphicDistances = GraphicDistances(nearFar: seq<nat>, deconstructionEnabled: bool,
                                               deconstructionGroupMask: Material.Mask, deconstruction: seq<nat>,
                                               deconstructionOrigin: seq<int>, uiNearFar: seq<nat>,
                                               uiLightingSetup: FileReference, worldMap: seq<nat>,
                                               worldMapFogHeightTexture: FileReference, reflectionMaxDistance: nat)

  /** Near, Far, DeconstructionEnabled, the mask and the start distance and
      size: 37 bytes. */
  function ReadDeconstruction(d: seq<byte>, p: nat): (r: Result<Parsed<(seq<nat>, bool, Material.Mask, seq<nat>)>>)
    ensures r.Ok? <==> p + 37 <= |d|
    ensures r.Ok? ==> r.value.next == p + 37
  {
    var nearFar :- ReadFloats(d, p, 2);
    var enabled :- ReadFlag(d, nearFar.next);
    var mask :- Material.ReadMask(d, enabled.next, 8);
    var sizes :- ReadFloats(d, mask.next, 2);
    Ok(Parsed((nearFar.value, enabled.value, mask.value, sizes.value), sizes.next))
  }

  /** The origin, the UI planes, the lighting setup, the four world map
      words, the fog texture and ReflectionMaxDistance: 64 bytes. */
  function ReadWorldMapView(d: seq<byte>, p: nat): (r: Result<Parsed<(seq<int>, seq<nat>, FileReference, seq<nat>, FileReference, nat)>>)
    ensures r.Ok? <==> p + 64 <= |d|
    ensures r.Ok? ==> r.value.next == p + 64
  {
    var origin :- ReadVector4(d, p);
    var ui :- ReadFloats(d, origin.next, 2);
    var setup :- ReadReference(d, ui.next);
    var mapView :- ReadFloats(d, setup.next, 4);
    var texture :- ReadReference(d, mapView.next);
    var reflection :- ReadU32(d, texture.next);
    Ok(Parsed((origin.value, ui.value, setup.value, mapView.value, texture.value, reflection.value), reflection.next))
  }

  function ReadGraphicDistances(d: seq<byte>, p: nat): (r: Result<Parsed<GraphicDistances>>)
    ensures r.Ok? <==> p + 101 <= |d|
    ensures r.Ok? ==> r.value.next == p + 101
  {
    var first :- ReadDeconstruction(d, p);
    var second :- ReadWorldMapView(d, first.next);
    var (nearFar, enabled, mask, sizes) := first.value;
    var (origin, ui, setup, mapView, texture, reflection) := second.value;
    Ok(Parsed(GraphicDistances(nearFar, enabled, mask, sizes, origin, ui, setup, mapView, texture, reflection), second.next))
  }

  /** PhotoMode to FarLightsSourceEndDistanceScale: 202 bytes. */
  datatype GraphicTail = GraphicTail(photoMode: BaseObject, visibilityQueries: bool, globalLighting: seq<nat>,
                                     segments: seq<FileReference>, collection: CollectionSettings,
                                     graceForce: GraceForceSettings, lightScales: seq<nat>)

  function ReadGraphicTail(d: seq<byte>, p: nat): (r: Result<Parsed<GraphicTail>>)
    ensures r.Ok? <==> p + 202 <= |d|
    ensures r.Ok? ==> r.value.next == p + 202 && |r.value.value.segments| == 3
  {
    var photo :- ReadBaseObject(d, p);
    var visibility :- ReadFlag(d, photo.next);
    var lighting :- ReadFloats(d, visibility.next, 4);
    var segments :- ReadReferences(d, lighting.next, 3);
    var collection :- ReadCollectionSettings(d, segments.next);
    var grace :- ReadGraceForceSettings(d, collection.next);
    var scales :- ReadFloats(d, grace.next, 3);
    Ok(Parsed(GraphicTail(photo.value, visibility.value, lighting.value, segments.value, collection.value,
                          grace.value, scales.value), scales.next))
  }

  /** WorldGraphicData in its five stages. */
  datatype WorldGraphicData = WorldGraphicData(head: GraphicHead, lighting: GraphicLighting,
                                               worldParticleSystems: ObjectPtr, distances: GraphicDistances,
                                               tail: GraphicTail)

  /** Everything after the head: the lighting block, WorldParticleSystems
      and the 303 bytes that follow it. */
  function ReadGraphicBody(d: seq<byte>, p: nat, head: GraphicHead): (r: Result<Parsed<WorldGraphicData>>)
    ensures r.Ok? ==>
      && ReadWorldParticleSystems(d, p + 21).Ok?
      && r.value.value.head == head
      && r.value.value.worldParticleSystems == ReadWorldParticleSystems(d, p + 21).value.value
      && r.value.next == ReadWorldParticleSystems(d, p + 21).value.next + 303
  {
    var lighting :- ReadGraphicLighting(d, p);
    var particles :- ReadWorldParticleSystems(d, lighting.next);
    var distances :- ReadGraphicDistances(d, particles.next);
    var tail :- ReadGraphicTail(d, distances.next);
    Ok(Parsed(WorldGraphicData(head, lighting.value, particles.value, distances.value, tail.value), tail.next))
  }

  function ReadWorldGraphicData(d: seq<byte>, p: nat): (r: Result<Parsed<WorldGraphicData>>)
    ensures r.Ok? ==> ReadGraphicHead(d, p).Ok? && r.value.value.head == ReadGraphicHead(d, p).value.value
  {
    var head :- ReadGraphicHead(d, p);
    ReadGraphicBody(d, head.next, head.value)
  }

  // ---------------------------------------------------------------------
  // RegionLayoutManager

  /** A world component as RegionLayoutManager stores it: the ComponentType
      set from the pointer's FileType, the kind CreateWorldComponent chose
      for it, and what that kind's Read produced. */
  datatype WorldComponent = WorldComponent(componentType: nat, kind: WorldComponents.WorldKind,
                                           data: WorldComponents.WorldData)

  /** How a component's data is read once its kind is known. */
  type ComponentReader = (seq<byte>, nat, WorldComponents.WorldKind) -> Result<Parsed<WorldComponents.WorldData>>

  /** One iteration of the component loop: an unchecked BaseObjectPtr whose
      FileType selects the component, then the component's Read. */
  function ReadWorldComponentWith(d: seq<byte>, p: nat, body: ComponentReader): (r: Result<Parsed<WorldComponent>>)
    ensures r.Ok? ==>
      && ReadPtr(d, p).Ok?
      && r.value.value.componentType == ReadPtr(d, p).value.value.fileType
      && WorldComponents.IsWorldComponentType(r.value.value.componentType)
      && WorldComponents.CreateWorldComponent(r.value.value.componentType) == Ok(r.value.value.kind)
      && body(d, p + 14, r.value.value.kind) == Ok(Parsed(r.value.value.data, r.value.next))
    ensures ReadPtr(d, p).Ok? && !WorldComponents.IsWorldComponentType(ReadPtr(d, p).value.value.fileType) ==>
      r == Fail(UnknownTag)
  {
    var ptr :- ReadPtr(d, p);
    var kind :- WorldComponents.CreateWorldComponent(ptr.value.fileType);
    var data :- body(d, ptr.next, kind);
    Ok(Parsed(WorldComponent(ptr.value.fileType, kind, data.value), data.next))
  }

  /** The component loop's item reader. */
  function ComponentEntry(body: ComponentReader): (seq<byte>, nat) -> Result<Parsed<WorldComponent>>
  {
    (d: seq<byte>, p: nat) => ReadWorldComponentWith(d, p, body)
  }

  /** A RegionLayoutManager once Read has finished. */
  datatype RegionLayout = RegionLayout(obj: ForgeObject, regions: seq<FileReference>, components: seq<WorldComponent>,
                                       mapParameters: WorldMapParameters, partialWorld: bool,
                                       hasPartialInstallExtraDataSource: bool)

  /** RegionLayoutManager.Read with the component reader as a parameter: an
      object, the counted regions, the counted components, the map
      parameters and two flags. */
  function ParseRegionLayoutWith(d: seq<byte>, p: nat, body: ComponentReader): (r: Result<Parsed<RegionLayout>>)
    ensures r.Ok? ==>
      && ReadCounted(d, p + 13, ReadReference).Ok?
      && r.value.value.regions == ReadCounted(d, p + 13, ReadReference).value.value
  {
    var obj :- ReadObject(d, p);
    var regions :- ReadCounted(d, obj.next, ReadReference);
    var tail :- ParseRegionComponents(d, regions.next, body);
    var (components, mapParameters, flags) := tail.value;
    Ok(Parsed(RegionLayout(obj.value, regions.value, components, mapParameters, flags[0], flags[1]), tail.next))
  }

  /** RegionLayoutManager.Read as the C# code calls it. */
  function ParseRegionLayout(d: seq<byte>, p: nat): Result<Parsed<RegionLayout>>
  {
    ParseRegionLayoutWith(d, p, WorldComponents.ReadWorldComponent)
  }

  /** Each component read by the dispatch holds the data of its own kind. */
  lemma RegionComponentsMatchKind(d: seq<byte>, p: nat)
    requires ParseRegionLayout(d, p).Ok?
    ensures var cs := ParseRegionLayout(d, p).value.value.components;
      forall i :: 0 <= i < |cs| ==> KindData(cs[i])
  {
    var q := ReadCounted(d, p + 13, ReadReference).value.next;
    ReadCountedEach(d, q, ComponentEntry(WorldComponents.ReadWorldComponent), KindData);
  }

  predicate KindData(c: WorldComponent)
  {
    WorldComponents.DataOfKind(c.kind, c.data)
  }

  /** The counted components, the map parameters and the two flags. */
  function ParseRegionComponents(d: seq<byte>, p: nat, body: ComponentReader)
    : (r: Result<Parsed<(seq<WorldComponent>, WorldMapParameters, seq<bool>)>>)
    ensures r.Ok? ==>
      && ReadCounted(d, p, ComponentEntry(body)).Ok?
      && r.value.value.0 == ReadCounted(d, p, ComponentEntry(body)).value.value
      && |r.value.value.2| == 2
  {
    var components :- ReadCounted(d, p, ComponentEntry(body));
    var mapParameters :- ReadWorldMapParameters(d, components.next);
    var flags :- ReadFlags(d, mapParameters.next, 2);
    Ok(Parsed((components.value, mapParameters.value, flags.value), flags.next))
  }

  /** Every stored component carries the tag its pointer named, a tag that
      CreateWorldComponent accepts, and the kind it created for that tag. */
  lemma ComponentsTagged(d: seq<byte>, p: nat, body: ComponentReader)
    requires ParseRegionLayoutWith(d, p, body).Ok?
    ensures var cs := ParseRegionLayoutWith(d, p, body).value.value.components;
      forall i :: 0 <= i < |cs| ==>
        && WorldComponents.IsWorldComponentType(cs[i].componentType)
        && WorldComponents.CreateWorldComponent(cs[i].componentType) == Ok(cs[i].kind)
  {
    var q := ReadCounted(d, p + 13, ReadReference).value.next;
    ReadCountedEach(d, q, ComponentEntry(body), Tagged);
  }

  predicate Tagged(c: WorldComponent)
  {
    && WorldComponents.IsWorldComponentType(c.componentType)
    && WorldComponents.CreateWorldComponent(c.componentType) == Ok(c.kind)
  }

  predicate AllTagged(cs: seq<WorldComponent>)
  {
    forall i :: 0 <= i < |cs| ==> Tagged(cs[i])
  }

  /** The C# object: Read fills the Regions and Components arrays in place. */
  class RegionLayoutManager {
    var obj: ForgeObject
    var numRegions: int
    var regions: array?<FileReference>
    var numComponents: int
    var components: array?<WorldComponent>
    var mapParameters: WorldMapParameters
    var partialWorld: bool
    var hasPartialInstallExtraDataSource: bool

    constructor ()
      ensures regions == null && components == null && numRegions == 0 && numComponents == 0
    {
      obj := ForgeObject(0, NoBase);
      numRegions, regions := 0, null;
      numComponents, components := 0, null;
      mapParameters := WorldMapParameters(NoBase, []);
      partialWorld, hasPartialInstallExtraDataSource := false, false;
    }

    /** The fields as a RegionLayout value. */
    function Fields(): RegionLayout
      reads this, regions, components
      requires regions != null && components != null
    {
      RegionLayout(obj, regions[..], components[..], mapParameters, partialWorld, hasPartialInstallExtraDataSource)
    }

    /** RegionLayoutManager.Read: components are read by the world
        component dispatch. */
    method Read(reader: DataReader) returns (r: Result<()>)
      modifies this, reader
      ensures r.Fail? ==> ParseRegionLayout(reader.data, old(reader.position)).Fail?
      ensures r.Ok? ==>
        && regions != null && components != null && fresh(regions) && fresh(components)
        && numRegions == regions.Length && numComponents == components.Length
        && ParseRegionLayout(reader.data, old(reader.position)) == Ok(Parsed(Fields(), reader.position))
    {
      r := ReadWith(reader, WorldComponents.ReadWorldComponent);
    }

    /** Read, with the component reader as a parameter. */
    method ReadWith(reader: DataReader, body: ComponentReader) returns (r: Result<()>)
      modifies this, reader
      ensures r.Fail? ==> ParseRegionLayoutWith(reader.data, old(reader.position), body).Fail?
      ensures r.Ok? ==>
        && regions != null && components != null && fresh(regions) && fresh(components)
        && numRegions == regions.Length && numComponents == components.Length
        && ParseRegionLayoutWith(reader.data, old(reader.position), body) == Ok(Parsed(Fields(), reader.position))
    {
      var layout :- ReadRegionLayoutFrom(reader, body);
      var (v, rs, cs) := layout;
      Store(v, rs, cs);
      r := Ok(());
    }

    /** Stores a layout whose lists are the contents of the two arrays. */
    method Store(v: RegionLayout, rs: array<FileReference>, cs: array<WorldComponent>)
      requires rs[..] == v.regions && cs[..] == v.components
      modifies this
      ensures regions == rs && components == cs
      ensures numRegions == rs.Length && numComponents == cs.Length
      ensures Fields() == v
    {
      obj, numRegions, regions := v.obj, rs.Length, rs;
      numComponents, components := cs.Length, cs;
      mapParameters, partialWorld, hasPartialInstallExtraDataSource := v.mapParameters, v.partialWorld, v.hasPartialInstallExtraDataSource;
    }
  }

  /** The layout, with its region and component lists as fresh arrays. */
  method ReadRegionLayoutFrom(reader: DataReader, body: ComponentReader)
    returns (r: Result<(RegionLayout, array<FileReference>, array<WorldComponent>)>)
    modifies reader
    ensures r.Fail? ==> ParseRegionLayoutWith(reader.data, old(reader.position), body).Fail?
    ensures r.Ok? ==>
      && fresh(r.value.1) && fresh(r.value.2)
      && r.value.1[..] == r.value.0.regions && r.value.2[..] == r.value.0.components
      && ParseRegionLayoutWith(reader.data, old(reader.position), body) == Ok(Parsed(r.value.0, reader.position))
  {
    var o :- reader.Read(ReadObject);
    var rs :- reader.ReadCountedArray(ReadReference, FileReference(0, 0, 0));
    var tail :- ReadRegionComponentsFrom(reader, body);
    var (cs, m, flags) := tail;
    r := Ok((RegionLayout(o, rs[..], cs[..], m, flags[0], flags[1]), rs, cs));
  }

  /** The component loop, the map parameters and the two flags. */
  method ReadRegionComponentsFrom(reader: DataReader, body: ComponentReader)
    returns (r: Result<(array<WorldComponent>, WorldMapParameters, seq<bool>)>)
    modifies reader
    ensures r.Fail? ==> ParseRegionComponents(reader.data, old(reader.position), body).Fail?
    ensures r.Ok? ==>
      && fresh(r.value.0)
      && ParseRegionComponents(reader.data, old(reader.position), body)
         == Ok(Parsed((r.value.0[..], r.value.1, r.value.2), reader.position))
  {
    var init := WorldComponent(0, WorldComponents.UnknownData, WorldComponents.UnknownDataComponent);
    var cs :- reader.ReadCountedArray(ComponentEntry(body), init);
    var m :- reader.Read(ReadWorldMapParameters);
    var flags :- reader.Read((d, q) => ReadFlags(d, q, 2));
    r := Ok((cs, m, flags));
  }

  // ---------------------------------------------------------------------
  // ForgeWorld.Read

  /** The three file references before the portal list, the counted
      WorldTransitionPortals, and the WorldDataLayerManager reference. */
  datatype WorldPortals = WorldPortals(fakeEntitiesManager: FileReference, defaultTransitionPortal: FileReference,
                                       dynamicTransitionPortal: FileReference, transitionPortals: seq<FileReference>,
                                       dataLayerManager: FileReference)

  function ReadWorldPortals(d: seq<byte>, p: nat): (r: Result<Parsed<WorldPortals>>)
    ensures r.Ok? <==> p + 34 <= |d| && ReadCounted(d, p + 30, ReadReference).Ok?
                       && ReadCounted(d, p + 30, ReadReference).value.next + 10 <= |d|
    ensures r.Ok? ==>
      && r.value.value.transitionPortals == ReadCounted(d, p + 30, ReadReference).value.value
      && r.value.next == p + 44 + 10 * |r.value.value.transitionPortals|
  {
    var refs :- ReadReferences(d, p, 3);
    ReadCountedAdvance(d, p + 30, ReadReference, 10);
    var portals :- ReadCounted(d, refs.next, ReadReference);
    var layer :- ReadReference(d, portals.next);
    Ok(Parsed(WorldPortals(refs.value[0], refs.value[1], refs.value[2], portals.value, layer.value), layer.next))
  }

  /** A ForgeWorld once Read has finished; the resource header Read begins
      with is read and dropped. */
  datatype WorldContents = WorldContents(gridPtr: BaseObjectPtr, grids: seq<GridDescription>,
                                         terrainShadowProxies: seq<EntityGroup.Entity>, portals: WorldPortals,
                                         graphic: WorldGraphicData, engine: WorldEngineData,
                                         regionLayout: RegionLayout)

  /** Reads the graphic data and the engine data that follow the portals. */
  type GraphicReader = (seq<byte>, nat) -> Result<Parsed<(WorldGraphicData, WorldEngineData)>>

  /** ForgeWorld.Read with the shadow proxy reader, the graphic and engine
      data reader and the world component reader as parameters. */
  function ParseWorldWith(d: seq<byte>, p: nat, proxy: EntityGroup.EntityReader, graphics: GraphicReader, body: ComponentReader)
    : (r: Result<Parsed<WorldContents>>)
    ensures r.Ok? ==>
      && ReadResourceHeader(d, p).Ok?
      && ParseWorldGrids(d, ReadResourceHeader(d, p).value.next, proxy, graphics, body) == r
    ensures r.Ok? ==> AllTagged(r.value.value.regionLayout.components)
  {
    var header :- ReadResourceHeader(d, p);
    ParseWorldGrids(d, header.next, proxy, graphics, body)
  }

  /** The grid pointer, the counted grid descriptions and the counted
      terrain shadow proxies. */
  function ParseWorldGrids(d: seq<byte>, p: nat, proxy: EntityGroup.EntityReader, graphics: GraphicReader, body: ComponentReader)
    : (r: Result<Parsed<WorldContents>>)
    ensures r.Ok? ==>
      && ReadPtr(d, p).Ok? && r.value.value.gridPtr == ReadPtr(d, p).value.value
      && ReadCounted(d, p + 14, ReadGridDescription).Ok?
      && r.value.value.grids == ReadCounted(d, p + 14, ReadGridDescription).value.value
      && var q := ReadCounted(d, p + 14, ReadGridDescription).value.next;
      && ReadCounted(d, q, proxy).Ok?
      && r.value.value.terrainShadowProxies == ReadCounted(d, q, proxy).value.value
    ensures r.Ok? ==> AllTagged(r.value.value.regionLayout.components)
  {
    var ptr :- ReadPtr(d, p);
    var grids :- ReadCounted(d, ptr.next, ReadGridDescription);
    var proxies :- ReadCounted(d, grids.next, proxy);
    ParseWorldRest(d, proxies.next, ptr.value, grids.value, proxies.value, graphics, body)
  }

  /** The portals, the graphic data and the engine data, then the region
      layout. */
  function ParseWorldRest(d: seq<byte>, p: nat, gridPtr: BaseObjectPtr, grids: seq<GridDescription>,
                          proxies: seq<EntityGroup.Entity>, graphics: GraphicReader, body: ComponentReader)
    : (r: Result<Parsed<WorldContents>>)
    ensures r.Ok? ==>
      && r.value.value.gridPtr == gridPtr && r.value.value.grids == grids
      && r.value.value.terrainShadowProxies == proxies
      && ReadWorldPortals(d, p).Ok? && r.value.value.portals == ReadWorldPortals(d, p).value.value
    ensures r.Ok? ==> AllTagged(r.value.value.regionLayout.components)
  {
    var portals :- ReadWorldPortals(d, p);
    var data :- graphics(d, portals.next);
    ParseWorldLayout(d, data.next, gridPtr, grids, proxies, portals.value, data.value.0, data.value.1, body)
  }

  /** The graphic data and the engine data: the GraphicReader ForgeWorld.Read
      itself uses. */
  function ReadGraphicAndEngine(d: seq<byte>, p: nat): (r: Result<Parsed<(WorldGraphicData, WorldEngineData)>>)
  {
    var graphic :- ReadWorldGraphicData(d, p);
    var engine :- ReadWorldEngineData(d, graphic.next);
    Ok(Parsed((graphic.value, engine.value), engine.next))
  }

  /** What the proxy reader promises of one entity holds of every terrain
      shadow proxy of the world. ForgeWorld.Read's proxy reader is
      EntityGroup.ReadSingleEntity (`Read(reader, true)`), for which
      EntityGroup.SingleEntityShapes supplies the promise. */
  lemma WorldProxiesSatisfy(d: seq<byte>, p: nat, proxy: EntityGroup.EntityReader, graphics: GraphicReader,
                            body: ComponentReader, P: EntityGroup.Entity -> bool)
    requires forall q: nat :: proxy(d, q).Ok? ==> P(proxy(d, q).value.value)
    ensures ParseWorldWith(d, p, proxy, graphics, body).Ok? ==>
      forall i :: 0 <= i < |ParseWorldWith(d, p, proxy, graphics, body).value.value.terrainShadowProxies| ==>
        P(ParseWorldWith(d, p, proxy, graphics, body).value.value.terrainShadowProxies[i])
  {
    if ParseWorldWith(d, p, proxy, graphics, body).Ok? {
      GridProxiesSatisfy(d, ReadResourceHeader(d, p).value.next, proxy, graphics, body, P);
    }
  }

  /** The same for the grids stage, where the proxies are read. */
  lemma GridProxiesSatisfy(d: seq<byte>, p: nat, proxy: EntityGroup.EntityReader, graphics: GraphicReader,
                           body: ComponentReader, P: EntityGroup.Entity -> bool)
    requires forall q: nat :: proxy(d, q).Ok? ==> P(proxy(d, q).value.value)
    ensures ParseWorldGrids(d, p, proxy, graphics, body).Ok? ==>
      forall i :: 0 <= i < |ParseWorldGrids(d, p, proxy, graphics, body).value.value.terrainShadowProxies| ==>
        P(ParseWorldGrids(d, p, proxy, graphics, body).value.value.terrainShadowProxies[i])
  {
    if ParseWorldGrids(d, p, proxy, graphics, body).Ok? {
      ReadCountedEach(d, ReadCounted(d, p + 14, ReadGridDescription).value.next, proxy, P);
    }
  }

  /** The RegionLayoutManager that ends a world. */
  function ParseWorldLayout(d: seq<byte>, p: nat, gridPtr: BaseObjectPtr, grids: seq<GridDescription>,
                            proxies: seq<EntityGroup.Entity>, portals: WorldPortals, graphic: WorldGraphicData,
                            engine: WorldEngineData, body: ComponentReader)
    : (r: Result<Parsed<WorldContents>>)
    ensures r.Ok? ==>
      && ParseRegionLayoutWith(d, p, body).Ok?
      && r.value == Parsed(WorldContents(gridPtr, grids, proxies, portals, graphic, engine,
                                         ParseRegionLayoutWith(d, p, body).value.value),
                           ParseRegionLayoutWith(d, p, body).value.next)
    ensures r.Ok? ==> AllTagged(r.value.value.regionLayout.components)
  {
    var layout :- ParseRegionLayoutWith(d, p, body);
    ComponentsTagged(d, p, body);
    Ok(Parsed(WorldContents(gridPtr, grids, proxies, portals, graphic, engine, layout.value), layout.next))
  }

  /** The C# object: Read fills the grid, proxy and portal arrays and the
      RegionLayoutManager it creates. */
  class ForgeWorld {
    var baseObjectPtrGrid: BaseObjectPtr
    var numGridsDesc: int
    var gridsDesc: array?<GridDescription>
    var numEntities: int
    var terrainShadowProxies: array?<EntityGroup.Entity>
    var fakeEntitiesManager: FileReference
    var defaultTransitionPortal: FileReference
    var dynamicTransitionPortal: FileReference
    var numWorldPortals: int
    var worldTransitionPortals: array?<FileReference>
    var worldDataLayerManager: FileReference
    var worldGraphicData: Option<WorldGraphicData>
    var worldEngineData: Option<WorldEngineData>
    var regionLayoutManager: RegionLayoutManager

    /** The manager starts empty; Read replaces it with the one it reads. */
    constructor ()
      ensures gridsDesc == null && terrainShadowProxies == null && worldTransitionPortals == null
      ensures worldGraphicData.None? && worldEngineData.None?
      ensures fresh(regionLayoutManager) && regionLayoutManager.regions == null
    {
      baseObjectPtrGrid := BaseObjectPtr(FileReference(0, 0, 0), 0);
      numGridsDesc, gridsDesc := 0, null;
      numEntities, terrainShadowProxies := 0, null;
      fakeEntitiesManager := FileReference(0, 0, 0);
      defaultTransitionPortal := FileReference(0, 0, 0);
      dynamicTransitionPortal := FileReference(0, 0, 0);
      numWorldPortals, worldTransitionPortals := 0, null;
      worldDataLayerManager := FileReference(0, 0, 0);
      worldGraphicData, worldEngineData := None, None;
      regionLayoutManager := new RegionLayoutManager();
    }

    /** Every array and object Read fills is present. */
    predicate Filled()
      reads this, regionLayoutManager
    {
      && gridsDesc != null && terrainShadowProxies != null && worldTransitionPortals != null
      && worldGraphicData.Some? && worldEngineData.Some?
      && regionLayoutManager.regions != null && regionLayoutManager.components != null
    }

    /** The fields as a WorldContents value. */
    function Fields(): WorldContents
      reads this, gridsDesc, terrainShadowProxies, worldTransitionPortals
      reads regionLayoutManager, regionLayoutManager.regions, regionLayoutManager.components
      requires Filled()
    {
      WorldContents(baseObjectPtrGrid, gridsDesc[..], terrainShadowProxies[..],
                    WorldPortals(fakeEntitiesManager, defaultTransitionPortal, dynamicTransitionPortal,
                                 worldTransitionPortals[..], worldDataLayerManager),
                    worldGraphicData.value, worldEngineData.value, regionLayoutManager.Fields())
    }

    /** The counts stored beside the arrays are their lengths. */
    predicate CountsMatch()
      reads this, regionLayoutManager
      requires Filled()
    {
      && numGridsDesc == gridsDesc.Length && numEntities == terrainShadowProxies.Length
      && numWorldPortals == worldTransitionPortals.Length
      && regionLayoutManager.numRegions == regionLayoutManager.regions.Length
      && regionLayoutManager.numComponents == regionLayoutManager.components.Length
    }

    /** Read, with the proxy reader and the component reader as parameters. */
    method ReadWith(reader: DataReader, proxy: EntityGroup.EntityReader, graphics: GraphicReader, body: ComponentReader) returns (r: Result<()>)
      modifies this, reader
      ensures r.Fail? ==> ParseWorldWith(reader.data, old(reader.position), proxy, graphics, body).Fail?
      ensures r.Ok? ==>
        && Filled() && CountsMatch()
        && fresh(gridsDesc) && fresh(terrainShadowProxies) && fresh(worldTransitionPortals)
        && fresh(regionLayoutManager)
        && ParseWorldWith(reader.data, old(reader.position), proxy, graphics, body) == Ok(Parsed(Fields(), reader.position))
    {
      var world :- ReadWorldFrom(reader, proxy, graphics, body);
      var (v, gs, ps, portalArray, manager) := world;
      Store(v, gs, ps, portalArray, manager);
      r := Ok(());
    }

    /** Stores what Read read: the arrays and the manager, then the values. */
    method Store(v: WorldContents, gs: array<GridDescription>, ps: array<EntityGroup.Entity>,
                 portalArray: array<FileReference>, manager: RegionLayoutManager)
      requires gs[..] == v.grids && ps[..] == v.terrainShadowProxies
      requires portalArray[..] == v.portals.transitionPortals
      requires manager.regions != null && manager.components != null
      requires manager.numRegions == manager.regions.Length && manager.numComponents == manager.components.Length
      requires manager.Fields() == v.regionLayout
      modifies this
      ensures gridsDesc == gs && terrainShadowProxies == ps && worldTransitionPortals == portalArray
      ensures regionLayoutManager == manager
      ensures numGridsDesc == gs.Length && numEntities == ps.Length && numWorldPortals == portalArray.Length
      ensures Filled()
      ensures Fields() == v
    {
      StoreArrays(gs, ps, portalArray, manager);
      StoreValues(v);
    }

    /** The three arrays, their counts and the manager. */
    method StoreArrays(gs: array<GridDescription>, ps: array<EntityGroup.Entity>,
                       portalArray: array<FileReference>, manager: RegionLayoutManager)
      modifies this
      ensures gridsDesc == gs && terrainShadowProxies == ps && worldTransitionPortals == portalArray
      ensures regionLayoutManager == manager
      ensures numGridsDesc == gs.Length && numEntities == ps.Length && numWorldPortals == portalArray.Length
    {
      numGridsDesc, gridsDesc := gs.Length, gs;
      numEntities, terrainShadowProxies := ps.Length, ps;
      numWorldPortals, worldTransitionPortals := portalArray.Length, portalArray;
      regionLayoutManager := manager;
    }

    /** The pointer, the four references and the graphic and engine data. */
    method StoreValues(v: WorldContents)
      modifies this
      ensures gridsDesc == old(gridsDesc) && terrainShadowProxies == old(terrainShadowProxies)
      ensures worldTransitionPortals == old(worldTransitionPortals) && regionLayoutManager == old(regionLayoutManager)
      ensures numGridsDesc == old(numGridsDesc) && numEntities == old(numEntities)
      ensures numWorldPortals == old(numWorldPortals)
      ensures baseObjectPtrGrid == v.gridPtr && worldDataLayerManager == v.portals.dataLayerManager
      ensures fakeEntitiesManager == v.portals.fakeEntitiesManager
      ensures defaultTransitionPortal == v.portals.defaultTransitionPortal
      ensures dynamicTransitionPortal == v.portals.dynamicTransitionPortal
      ensures worldGraphicData == Some(v.graphic) && worldEngineData == Some(v.engine)
    {
      baseObjectPtrGrid := v.gridPtr;
      fakeEntitiesManager := v.portals.fakeEntitiesManager;
      defaultTransitionPortal := v.portals.defaultTransitionPortal;
      dynamicTransitionPortal := v.portals.dynamicTransitionPortal;
      worldDataLayerManager := v.portals.dataLayerManager;
      worldGraphicData, worldEngineData := Some(v.graphic), Some(v.engine);
    }
  }

  /** Everything ForgeWorld.Read reads, with the arrays it fills and the
      RegionLayoutManager it creates. */
  method ReadWorldFrom(reader: DataReader, proxy: EntityGroup.EntityReader, graphics: GraphicReader, body: ComponentReader)
    returns (r: Result<(WorldContents, array<GridDescription>, array<EntityGroup.Entity>, array<FileReference>,
                        RegionLayoutManager)>)
    modifies reader
    ensures r.Fail? ==> ParseWorldWith(reader.data, old(reader.position), proxy, graphics, body).Fail?
    ensures r.Ok? ==>
      && var (v, gs, ps, pa, m) := r.value;
      && fresh(gs) && fresh(ps) && fresh(pa) && fresh(m)
      && m.regions != null && m.components != null && fresh(m.regions) && fresh(m.components)
      && m.numRegions == m.regions.Length && m.numComponents == m.components.Length
      && gs[..] == v.grids && ps[..] == v.terrainShadowProxies && pa[..] == v.portals.transitionPortals
      && m.Fields() == v.regionLayout
      && ParseWorldWith(reader.data, old(reader.position), proxy, graphics, body) == Ok(Parsed(v, reader.position))
  {
    var grids :- ReadWorldHeadFrom(reader, proxy, graphics, body);
    ghost var (gridList, proxyList) := (grids.1[..], grids.2[..]);
    var tail :- ReadWorldTailFrom(reader, grids.0, grids.1[..], grids.2[..], graphics, body);
    assert grids.1[..] == gridList && grids.2[..] == proxyList;
    r := Ok((tail.0, grids.1, grids.2, tail.1, tail.2));
  }

  /** The resource header, then the grid pointer and the grid and proxy
      loops. */
  method ReadWorldHeadFrom(reader: DataReader, proxy: EntityGroup.EntityReader, graphics: GraphicReader, body: ComponentReader)
    returns (r: Result<(BaseObjectPtr, array<GridDescription>, array<EntityGroup.Entity>)>)
    modifies reader
    ensures r.Fail? ==> ParseWorldWith(reader.data, old(reader.position), proxy, graphics, body).Fail?
    ensures r.Ok? ==>
      && fresh(r.value.1) && fresh(r.value.2)
      && ParseWorldWith(reader.data, old(reader.position), proxy, graphics, body)
         == ParseWorldRest(reader.data, reader.position, r.value.0, r.value.1[..], r.value.2[..], graphics, body)
  {
    var header :- reader.Read(ReadResourceHeader);
    r := ReadWorldGridsFrom(reader, proxy, graphics, body);
  }

  /** What follows the proxies: the portals, the graphic and engine data and
      the RegionLayoutManager. */
  method ReadWorldTailFrom(reader: DataReader, ptr: BaseObjectPtr, grids: seq<GridDescription>,
                           proxies: seq<EntityGroup.Entity>, graphics: GraphicReader, body: ComponentReader)
    returns (r: Result<(WorldContents, array<FileReference>, RegionLayoutManager)>)
    modifies reader
    ensures r.Fail? ==> ParseWorldRest(reader.data, old(reader.position), ptr, grids, proxies, graphics, body).Fail?
    ensures r.Ok? ==>
      && var (v, pa, m) := r.value;
      && fresh(pa) && fresh(m)
      && m.regions != null && m.components != null && fresh(m.regions) && fresh(m.components)
      && m.numRegions == m.regions.Length && m.numComponents == m.components.Length
      && pa[..] == v.portals.transitionPortals && m.Fields() == v.regionLayout
      && ParseWorldRest(reader.data, old(reader.position), ptr, grids, proxies, graphics, body) == Ok(Parsed(v, reader.position))
  {
    var rest :- ReadWorldRestFrom(reader, ptr, grids, proxies, graphics, body);
    ghost var list := rest.1[..];
    var manager :- ReadWorldLayoutFrom(reader, ptr, grids, proxies, rest.0, rest.2, rest.3, body);
    assert rest.1[..] == list;
    r := Ok((WorldContents(ptr, grids, proxies, rest.0, rest.2, rest.3, manager.Fields()), rest.1, manager));
  }

  /** The grid pointer and the grid and proxy loops. */
  method ReadWorldGridsFrom(reader: DataReader, proxy: EntityGroup.EntityReader, graphics: GraphicReader, body: ComponentReader)
    returns (r: Result<(BaseObjectPtr, array<GridDescription>, array<EntityGroup.Entity>)>)
    modifies reader
    ensures r.Fail? ==> ParseWorldGrids(reader.data, old(reader.position), proxy, graphics, body).Fail?
    ensures r.Ok? ==>
      && fresh(r.value.1) && fresh(r.value.2)
      && ParseWorldGrids(reader.data, old(reader.position), proxy, graphics, body)
         == ParseWorldRest(reader.data, reader.position, r.value.0, r.value.1[..], r.value.2[..], graphics, body)
  {
    var ptr :- reader.Read(ReadPtr);
    var gs :- reader.ReadCountedArray(ReadGridDescription,
                                      GridDescription(BaseObject(0, 0, 0), BaseObject(0, 0, 0), 0, 0, [], 0, [], FileReference(0, 0, 0)));
    var ps :- reader.ReadCountedArray(proxy, EntityGroup.ReferenceOnly(FileReference(0, 0, 0)));
    r := Ok((ptr, gs, ps));
  }

  /** The portals and the graphic and engine data. */
  method ReadWorldRestFrom(reader: DataReader, ptr: BaseObjectPtr, grids: seq<GridDescription>,
                           proxies: seq<EntityGroup.Entity>, graphics: GraphicReader, body: ComponentReader)
    returns (r: Result<(WorldPortals, array<FileReference>, WorldGraphicData, WorldEngineData)>)
    modifies reader
    ensures r.Fail? ==> ParseWorldRest(reader.data, old(reader.position), ptr, grids, proxies, graphics, body).Fail?
    ensures r.Ok? ==>
      && fresh(r.value.1) && r.value.1[..] == r.value.0.transitionPortals
      && ParseWorldRest(reader.data, old(reader.position), ptr, grids, proxies, graphics, body)
         == ParseWorldLayout(reader.data, reader.position, ptr, grids, proxies, r.value.0, r.value.2, r.value.3, body)
  {
    var portals :- ReadWorldPortalsFrom(reader);
    ghost var list := portals.1[..];
    var data :- reader.Read(graphics);
    assert portals.1[..] == list;
    r := Ok((portals.0, portals.1, data.0, data.1));
  }

  /** A fresh RegionLayoutManager, read. */
  method ReadWorldLayoutFrom(reader: DataReader, ptr: BaseObjectPtr, grids: seq<GridDescription>,
                             proxies: seq<EntityGroup.Entity>, portals: WorldPortals, graphic: WorldGraphicData,
                             engine: WorldEngineData, body: ComponentReader)
    returns (r: Result<RegionLayoutManager>)
    modifies reader
    ensures r.Fail? ==>
      ParseWorldLayout(reader.data, old(reader.position), ptr, grids, proxies, portals, graphic, engine, body).Fail?
    ensures r.Ok? ==>
      && fresh(r.value)
      && var m := r.value;
      && m.regions != null && m.components != null && fresh(m.regions) && fresh(m.components)
      && m.numRegions == m.regions.Length && m.numComponents == m.components.Length
      && ParseWorldLayout(reader.data, old(reader.position), ptr, grids, proxies, portals, graphic, engine, body)
         == Ok(Parsed(WorldContents(ptr, grids, proxies, portals, graphic, engine, m.Fields()), reader.position))
  {
    var manager := new RegionLayoutManager();
    var ok :- manager.ReadWith(reader, body);
    r := Ok(manager);
  }

  /** The three references, the portal loop and the data layer reference. */
  method ReadWorldPortalsFrom(reader: DataReader) returns (r: Result<(WorldPortals, array<FileReference>)>)
    modifies reader
    ensures r.Fail? ==> ReadWorldPortals(reader.data, old(reader.position)).Fail?
    ensures r.Ok? ==>
      && fresh(r.value.1) && r.value.1[..] == r.value.0.transitionPortals
      && ReadWorldPortals(reader.data, old(reader.position)) == Ok(Parsed(r.value.0, reader.position))
  {
    var refs :- reader.Read((d, q) => ReadReferences(d, q, 3));
    var arr :- reader.ReadCountedArray(ReadReference, FileReference(0, 0, 0));
    var layer :- reader.Read(ReadReference);
    r := Ok((WorldPortals(refs[0], refs[1], refs[2], arr[..], layer), arr));
  }
}

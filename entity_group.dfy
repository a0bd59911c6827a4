/** ForgeEntity and ForgeEntityGroup (Resources/ForgeEntityGroup.cs): an
    entity's hierarchy pointer, matrix, typed components and its long run of
    flags and settings; a group is a resource header, its own entity, the
    counted child entities and the UI display order. */
module EntityGroup {
  import opened Wrappers
  import opened Bytes
  import opened Cursor
  import opened ForgeObjects
  import opened EntityRecords
  import opened DataStream
  import Material
  import Components
  import Gameplay

  // ---------------------------------------------------------------------
  // Components

  /** One entry of the component loop: an unchecked base object pointer
      whose file type selects the component class, then that class's Read;
      a type outside the five entity components throws. */
  function ReadEntityComponent(d: seq<byte>, p: nat): (r: Result<Parsed<Components.Component>>)
    ensures r.Ok? ==>
      && ReadPtr(d, p).Ok?
      && r.value.value.ComponentType() == ReadPtr(d, p).value.value.fileType
      && r.value.value.ComponentType() in Components.EntityComponentTypes
    ensures ReadPtr(d, p).Ok? && ReadPtr(d, p).value.value.fileType !in Components.EntityComponentTypes ==>
      r == Fail(UnknownTag)
  {
    var ptr :- ReadPtr(d, p);
    Components.ReadComponent(d, ptr.next, ptr.value.fileType)
  }

  /** Every component stored in an entity has one of the entity component
      types. */
  predicate IsEntityComponent(c: Components.Component)
  {
    c.ComponentType() in Components.EntityComponentTypes
  }

  // ---------------------------------------------------------------------
  // ForgeEntity.Read, in stages

  datatype EntityHead = EntityHead(hierarchy: BaseObjectPtr, checkByte: nat, globalMatrix: seq<nat>,
                                   components: seq<Components.Component>)

  /** Hierarchy (a checked pointer with offset 3), CheckByte, GlobalMatrix
      and the counted components. */
  function ReadEntityHead(d: seq<byte>, p: nat): (r: Result<Parsed<EntityHead>>)
    ensures r.Ok? ==> p < |d| && ReadBaseObjectPtr(d, p, true, 3).Ok?
    ensures r.Ok? ==> ReadBaseObjectPtr(d, p, true, 3).value.next == p + (if d[p] != 0 then 4 else 14)
    ensures r.Ok? ==> |r.value.value.globalMatrix| == 16
    ensures r.Ok? ==> forall i :: 0 <= i < |r.value.value.components| ==> IsEntityComponent(r.value.value.components[i])
  {
    var hierarchy :- ReadBaseObjectPtr(d, p, true, 3);
    var check :- ReadU8(d, hierarchy.next);
    var matrix :- ReadMatrix(d, check.next);
    ReadCountedEach(d, matrix.next, ReadEntityComponent, IsEntityComponent);
    var components :- ReadCounted(d, matrix.next, ReadEntityComponent);
    Ok(Parsed(EntityHead(hierarchy.value, check.value, matrix.value, components.value), components.next))
  }

  datatype EntityFlags = EntityFlags(visibility: seq<bool>, renderLast: nat, rendering: seq<bool>, entityCategory: int,
                                     propagation: seq<bool>, uiCategory: int, display: seq<bool>, wetnessBias: nat,
                                     lightMask: int)

  /** SkipGroupMatrixUpdate to IsMediumObject, RenderLast and
      ForceIncludedInReflection to IgnoreOcclusionForLODLevel: 15 bytes. */
  function ReadVisibilityFlags(d: seq<byte>, p: nat): (r: Result<Parsed<(seq<bool>, nat, seq<bool>)>>)
    ensures r.Ok? <==> p + 15 <= |d|
    ensures r.Ok? ==> r.value.next == p + 15 && |r.value.value.0| == 6 && |r.value.value.2| == 8
  {
    var visibility :- ReadFlags(d, p, 6);
    var renderLast :- ReadU8(d, visibility.next);
    var rendering :- ReadFlags(d, renderLast.next, 8);
    Ok(Parsed((visibility.value, renderLast.value, rendering.value), rendering.next))
  }

  /** EntityCategory, five flags, UICategory, five flags, WetnessBias and
      LightMask: 26 bytes. */
  function ReadCategoryFlags(d: seq<byte>, p: nat): (r: Result<Parsed<(int, seq<bool>, int, seq<bool>, nat, int)>>)
    ensures r.Ok? <==> p + 26 <= |d|
    ensures r.Ok? ==> r.value.next == p + 26 && |r.value.value.1| == 5 && |r.value.value.3| == 5
  {
    var category :- ReadI32(d, p);
    var propagation :- ReadFlags(d, category.next, 5);
    var uiCategory :- ReadI32(d, propagation.next);
    var display :- ReadFlags(d, uiCategory.next, 5);
    var wetness :- ReadU32(d, display.next);
    var lightMask :- ReadI32(d, wetness.next);
    Ok(Parsed((category.value, propagation.value, uiCategory.value, display.value, wetness.value, lightMask.value),
              lightMask.next))
  }

  /** The flag block after the components: 41 bytes. */
  function ReadEntityFlags(d: seq<byte>, p: nat): (r: Result<Parsed<EntityFlags>>)
    ensures r.Ok? <==> p + 41 <= |d|
    ensures r.Ok? ==> r.value.next == p + 41
  {
    var visibility :- ReadVisibilityFlags(d, p);
    var categories :- ReadCategoryFlags(d, visibility.next);
    var (v, renderLast, rendering) := visibility.value;
    var (category, propagation, uiCategory, display, wetness, lightMask) := categories.value;
    Ok(Parsed(EntityFlags(v, renderLast, rendering, category, propagation, uiCategory, display, wetness, lightMask),
              categories.next))
  }

  /** OptimizeForHardwareInstancing, FakeCellIndexValid, FakeCellIndex,
      GridTypeForFakeMasking and Scale. */
  const FakeMaskingL: Layout := [Flag, Flag, I32, I32, F32]

  datatype EntityBounds = EntityBounds(groupMask: Material.Mask, fakeMasking: seq<int>, bvBase: BaseObject,
                                       bvMin: seq<int>, bvMax: seq<int>, bvType: int)

  /** DeconstructionGroupMask, the fake masking fields, BaseObjectBV, the
      bounding volume corners and its type: 74 bytes. */
  function ReadEntityBounds(d: seq<byte>, p: nat): (r: Result<Parsed<EntityBounds>>)
    ensures r.Ok? <==> p + 74 <= |d|
    ensures r.Ok? ==> r.value.next == p + 74
  {
    assert Size(FakeMaskingL) == 14;
    ReachOfGapless(FakeMaskingL);
    var mask :- Material.ReadMask(d, p, 8);
    var masking :- ReadFields(d, mask.next, FakeMaskingL);
    var bvBase :- ReadBaseObject(d, masking.next);
    var min :- ReadVector3(d, bvBase.next);
    var max :- ReadVector3(d, min.next);
    var bvType :- ReadI32(d, max.next);
    Ok(Parsed(EntityBounds(mask.value, masking.value, bvBase.value, min.value, max.value, bvType.value), bvType.next))
  }

  datatype EntityTail = EntityTail(descriptor: EntityDescriptor, layerFilter: DataLayerFilter, numUiVisuals: nat,
                                   cullingDistances: seq<byte>, resetData: GameStateData,
                                   streamableTextures: seq<StreamableTexture>, effectiveGridType: int, minLodIndex: nat,
                                   maxLodIndex: nat)

  /** The four streamable textures. */
  function ReadStreamableTextures(d: seq<byte>, p: nat): (r: Result<Parsed<seq<StreamableTexture>>>)
    ensures r.Ok? ==> |r.value.value| == 4
  {
    ReadMany(d, p, 4, ReadStreamableTexture)
  }

  /** EntityDescriptor, DataLayerFilter, the UI visuals (a Visual reads
      nothing, so only the count is consumed), PerViewDirCullingDistances,
      ResetData, the four streamable textures, EffectiveGridType and the
      two LOD indices. */
  function ReadEntityTail(d: seq<byte>, p: nat): (r: Result<Parsed<EntityTail>>)
    ensures r.Ok? ==>
      && ReadCount(d, p + 44) == Ok(Parsed(r.value.value.numUiVisuals, p + 48))
      && p + 54 <= |d|
      && r.value.value.cullingDistances == d[p + 48..p + 54]
  {
    var descriptor :- ReadEntityDescriptor(d, p);
    var filter :- ReadDataLayerFilter(d, descriptor.next);
    var visuals :- ReadCount(d, filter.next);
    var culling :- ReadBytes(d, visuals.next, 6);
    var reset :- ReadGameStateData(d, culling.next);
    var textures :- ReadStreamableTextures(d, reset.next);
    var grid :- ReadI32(d, textures.next);
    var minLod :- ReadU16(d, grid.next);
    var maxLod :- ReadU16(d, minLod.next);
    Ok(Parsed(EntityTail(descriptor.value, filter.value, visuals.value, culling.value, reset.value, textures.value,
                         grid.value, minLod.value, maxLod.value), maxLod.next))
  }

  /** A ForgeEntity once Read has returned: a single entity whose reference
      is set keeps only that reference. */
  datatype Entity =
    | ReferenceOnly(reference: FileReference)
    | Entity(entityReference: Option<FileReference>, head: EntityHead, flags: EntityFlags, bounds: EntityBounds,
             tail: EntityTail)

  /** The flags, bounds and tail after the head. */
  function ReadEntityRest(d: seq<byte>, p: nat): (r: Result<Parsed<(EntityFlags, EntityBounds, EntityTail)>>)
  {
    var flags :- ReadEntityFlags(d, p);
    var bounds :- ReadEntityBounds(d, flags.next);
    var tail :- ReadEntityTail(d, bounds.next);
    Ok(Parsed((flags.value, bounds.value, tail.value), tail.next))
  }

  /** Everything after the optional reference. */
  function ReadEntityBody(d: seq<byte>, p: nat, reference: Option<FileReference>): (r: Result<Parsed<Entity>>)
    ensures r.Ok? ==> r.value.value.Entity? && r.value.value.entityReference == reference
    ensures r.Ok? ==> ReadEntityHead(d, p).Ok? && r.value.value.head == ReadEntityHead(d, p).value.value
  {
    var head :- ReadEntityHead(d, p);
    var rest :- ReadEntityRest(d, head.next);
    var (flags, bounds, tail) := rest.value;
    Ok(Parsed(Entity(reference, head.value, flags, bounds, tail), rest.next))
  }

  /** ForgeEntity.Read(reader, singleEntity): a single entity starts with a
      reference, and a reference whose Num is not 0 ends the read. */
  function ReadEntity(d: seq<byte>, p: nat, singleEntity: bool): (r: Result<Parsed<Entity>>)
    ensures !singleEntity ==> r == ReadEntityBody(d, p, None)
    ensures singleEntity && p + 10 <= |d| && d[p] != 0 ==>
      r == Ok(Parsed(ReferenceOnly(ReadReference(d, p).value.value), p + 10))
    ensures singleEntity && r.Ok? ==> p + 10 <= |d|
    ensures singleEntity && r.Ok? && r.value.value.Entity? ==>
      && d[p] == 0
      && r.value.value.entityReference == Some(ReadReference(d, p).value.value)
  {
    if !singleEntity then ReadEntityBody(d, p, None)
    else
      var reference :- ReadReference(d, p);
      ReferenceNum(d, p);
      if reference.value.num != 0 then Ok(Parsed(ReferenceOnly(reference.value), reference.next))
      else ReadEntityBody(d, reference.next, Some(reference.value))
  }

  /** The Num of a file reference is its first byte. */
  lemma ReferenceNum(d: seq<byte>, p: nat)
    ensures ReadReference(d, p).Ok? ==> ReadReference(d, p).value.value.num == d[p] as nat
  {
  }

  /** Every component of an entity that was read has an entity component
      type. */
  lemma EntityComponentsTyped(d: seq<byte>, p: nat, singleEntity: bool)
    requires ReadEntity(d, p, singleEntity).Ok? && ReadEntity(d, p, singleEntity).value.value.Entity?
    ensures var cs := ReadEntity(d, p, singleEntity).value.value.head.components;
      forall i :: 0 <= i < |cs| ==> IsEntityComponent(cs[i])
  {
    var q := if singleEntity then p + 10 else p;
    assert ReadEntity(d, p, singleEntity).value.value.head == ReadEntityHead(d, q).value.value;
  }

  /** A child entity of a group. */
  function ReadSingleEntity(d: seq<byte>, p: nat): (r: Result<Parsed<Entity>>)
    ensures r == ReadEntity(d, p, true)
  {
    ReadEntity(d, p, true)
  }

  /** What a single entity read can be: only the reference, or a whole
      entity that keeps the reference. */
  predicate SingleEntityShape(e: Entity)
  {
    e.ReferenceOnly? || e.entityReference.Some?
  }

  /** A counted run of single entities (the terrain shadow proxies of a
      world) holds only entities of that shape. */
  lemma SingleEntitiesShape(d: seq<byte>, p: nat)
    ensures ReadCounted(d, p, ReadSingleEntity).Ok? ==>
      forall i :: 0 <= i < |ReadCounted(d, p, ReadSingleEntity).value.value| ==>
        SingleEntityShape(ReadCounted(d, p, ReadSingleEntity).value.value[i])
  {
    SingleEntityShapes(d);
    ReadCountedEach(d, p, ReadSingleEntity, SingleEntityShape);
  }

  lemma SingleEntityShapes(d: seq<byte>)
    ensures forall q: nat :: ReadSingleEntity(d, q).Ok? ==> SingleEntityShape(ReadSingleEntity(d, q).value.value)
  {
    forall q: nat | ReadSingleEntity(d, q).Ok?
      ensures SingleEntityShape(ReadSingleEntity(d, q).value.value)
    {
      assert ReadSingleEntity(d, q) == ReadEntity(d, q, true);
    }
  }

  /** The group's own entity. */
  function ReadGroupEntity(d: seq<byte>, p: nat): (r: Result<Parsed<Entity>>)
    ensures r.Ok? ==> r.value.value.Entity? && r.value.value.entityReference.None?
  {
    ReadEntity(d, p, false)
  }

  // ---------------------------------------------------------------------
  // ForgeEntityGroup.Read

  /** NumUIEntities checked pointers into an array of NumEntity slots: more
      pointers than entities runs off the array. */
  function ReadDisplayOrder(d: seq<byte>, p: nat, numEntity: nat, numUiEntities: int): Result<Parsed<seq<Option<ObjectPtr>>>>
  {
    ReadIntoSlots(d, p, numEntity, numUiEntities, Gameplay.ReadCheckedHandle)
  }

  datatype Group = Group(header: ResourceHeader, root: Entity, entities: seq<Entity>, numUiEntities: int,
                         displayOrder: seq<Option<ObjectPtr>>)

  /** How a group reads one entity: its own, or each of its children. */
  type EntityReader = (seq<byte>, nat) -> Result<Parsed<Entity>>

  /** ForgeEntityGroup.Read as a function of the bytes and the start. */
  function ParseEntityGroup(d: seq<byte>, p: nat): (r: Result<Parsed<Group>>)
    ensures r.Ok? ==> r.value.value.root.Entity? && r.value.value.root.entityReference.None?
    ensures r.Ok? ==> |r.value.value.displayOrder| == |r.value.value.entities|
    ensures r.Ok? ==> r.value.value.numUiEntities <= |r.value.value.entities|
  {
    ParseGroupWith(d, p, ReadGroupEntity, ReadSingleEntity)
  }

  /** ForgeEntityGroup.Read with the readers of the group's own entity and
      of a child entity as parameters: the header, the own entity, the
      counted children, NumUIEntities and the display order. */
  function ParseGroupWith(d: seq<byte>, p: nat, ownEntity: EntityReader, childEntity: EntityReader): (r: Result<Parsed<Group>>)
    ensures r.Ok? ==>
      && ReadResourceHeader(d, p).Ok?
      && ownEntity(d, ReadResourceHeader(d, p).value.next).Ok?
      && r.value.value.header == ReadResourceHeader(d, p).value.value
      && r.value.value.root == ownEntity(d, ReadResourceHeader(d, p).value.next).value.value
    ensures r.Ok? ==> |r.value.value.displayOrder| == |r.value.value.entities|
    ensures r.Ok? ==> r.value.value.numUiEntities <= |r.value.value.entities|
  {
    var header :- ReadResourceHeader(d, p);
    var root :- ownEntity(d, header.next);
    ParseGroupEntities(d, root.next, header.value, root.value, childEntity)
  }

  /** The counted child entities and the display order. */
  function ParseGroupEntities(d: seq<byte>, q: nat, header: ResourceHeader, root: Entity, childEntity: EntityReader): (r: Result<Parsed<Group>>)
    ensures r.Ok? ==> r.value.value.header == header && r.value.value.root == root
    ensures r.Ok? ==> |r.value.value.displayOrder| == |r.value.value.entities|
    ensures r.Ok? ==> r.value.value.numUiEntities <= |r.value.value.entities|
  {
    var entities :- ReadCounted(d, q, childEntity);
    ParseGroupDisplay(d, entities.next, header, root, entities.value)
  }

  /** NumUIEntities and the display order. */
  function ParseGroupDisplay(d: seq<byte>, q: nat, header: ResourceHeader, root: Entity, entities: seq<Entity>): (r: Result<Parsed<Group>>)
    ensures r.Ok? ==> r.value.value.header == header && r.value.value.root == root && r.value.value.entities == entities
    ensures r.Ok? ==> |r.value.value.displayOrder| == |entities|
    ensures r.Ok? ==> r.value.value.numUiEntities <= |entities|
  {
    var numUi :- ReadI32(d, q);
    var order :- ReadDisplayOrder(d, numUi.next, |entities|, numUi.value);
    Ok(Parsed(Group(header, root, entities, numUi.value, order.value), order.next))
  }

  /** The C# object: Read fills the entity arrays in place. */
  class ForgeEntityGroup {
    var header: ResourceHeader
    var root: Entity
    var numEntity: int
    var entities: array?<Entity>
    var numUiEntities: int
    var uiEntitiesDisplayOrder: array?<Option<ObjectPtr>>

    constructor ()
      ensures entities == null && uiEntitiesDisplayOrder == null && numEntity == 0 && numUiEntities == 0
    {
      header := ResourceHeader(0, 0, 0, []);
      root := ReferenceOnly(FileReference(0, 0, 0));
      numEntity := 0;
      entities := null;
      numUiEntities := 0;
      uiEntitiesDisplayOrder := null;
    }

    /** The fields as a Group value. */
    function Fields(): Group
      reads this, entities, uiEntitiesDisplayOrder
      requires entities != null && uiEntitiesDisplayOrder != null
    {
      Group(header, root, entities[..], numUiEntities, uiEntitiesDisplayOrder[..])
    }

    method Read(reader: DataReader) returns (r: Result<()>)
      modifies this, reader
      ensures r.Fail? ==> ParseEntityGroup(reader.data, old(reader.position)).Fail?
      ensures r.Ok? ==>
        && entities != null && uiEntitiesDisplayOrder != null
        && fresh(entities) && fresh(uiEntitiesDisplayOrder)
        && numEntity == entities.Length == uiEntitiesDisplayOrder.Length
        && ParseEntityGroup(reader.data, old(reader.position)) == Ok(Parsed(Fields(), reader.position))
    {
      r := ReadWith(reader, ReadGroupEntity, ReadSingleEntity);
    }

    /** Read, with the entity readers as parameters. */
    method ReadWith(reader: DataReader, ownEntity: EntityReader, childEntity: EntityReader) returns (r: Result<()>)
      modifies this, reader
      ensures r.Fail? ==> ParseGroupWith(reader.data, old(reader.position), ownEntity, childEntity).Fail?
      ensures r.Ok? ==>
        && entities != null && uiEntitiesDisplayOrder != null
        && fresh(entities) && fresh(uiEntitiesDisplayOrder)
        && numEntity == entities.Length == uiEntitiesDisplayOrder.Length
        && ParseGroupWith(reader.data, old(reader.position), ownEntity, childEntity) == Ok(Parsed(Fields(), reader.position))
    {
      ghost var start := reader.position;
      var h :- reader.Read(ReadResourceHeader);
      var e :- reader.Read(ownEntity);
      assert ParseGroupWith(reader.data, start, ownEntity, childEntity)
          == ParseGroupEntities(reader.data, reader.position, h, e, childEntity);
      var children :- ReadChildren(reader, h, e, childEntity);
      var (arr, n, order) := children;
      header, root, numEntity, entities := h, e, arr.Length, arr;
      numUiEntities, uiEntitiesDisplayOrder := n, order;
      r := Ok(());
    }
  }

  /** The child entity array, NumUIEntities and the display order array. */
  method ReadChildren(reader: DataReader, h: ResourceHeader, e: Entity, childEntity: EntityReader)
    returns (r: Result<(array<Entity>, int, array<Option<ObjectPtr>>)>)
    modifies reader
    ensures r.Fail? ==> ParseGroupEntities(reader.data, old(reader.position), h, e, childEntity).Fail?
    ensures r.Ok? ==>
      && fresh(r.value.0) && fresh(r.value.2) && r.value.0.Length == r.value.2.Length
      && ParseGroupEntities(reader.data, old(reader.position), h, e, childEntity)
         == Ok(Parsed(Group(h, e, r.value.0[..], r.value.1, r.value.2[..]), reader.position))
  {
    ghost var start := reader.position;
    var arr :- reader.ReadCountedArray(childEntity, ReferenceOnly(FileReference(0, 0, 0)));
    assert ParseGroupEntities(reader.data, start, h, e, childEntity)
        == ParseGroupDisplay(reader.data, reader.position, h, e, arr[..]);
    var n :- reader.Read(ReadI32);
    var order :- reader.ReadIntoArray(arr.Length, n, Gameplay.ReadCheckedHandle);
    r := Ok((arr, n, order));
  }
}

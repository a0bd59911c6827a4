/** ForgeGameplayCoordinator (FORGE/ForgeGameplayCoordinator.cs): a base
    object pointer, the gameplay logic (a player, or a complex crowd life when
    the coordinator is abstract), the coordinator settings and twelve
    outputs. Float fields are kept as raw 32-bit words. */
module Gameplay {
  import opened Wrappers
  import opened Bytes
  import opened Cursor
  import opened ForgeObjects
  import opened DataStream

  // ---------------------------------------------------------------------
  // Small records

  datatype EntityControlOptions = EntityControlOptions(base: BaseObject, allowInterruptions: bool, disableForceUnspawn: bool,
                                                       queueRequest: bool, clearExclusiveReactions: bool)

  /** EntityControlOptions.Read: a base object and four flags. */
  function ReadControlOptions(d: seq<byte>, p: nat): (r: Result<Parsed<EntityControlOptions>>)
    ensures r.Ok? <==> p + 16 <= |d|
    ensures r.Ok? ==> r.value.next == p + 16
  {
    var base :- ReadBaseObject(d, p);
    var a :- ReadBool(d, base.next);
    var b :- ReadBool(d, a.next);
    var c :- ReadBool(d, b.next);
    var e :- ReadBool(d, c.next);
    Ok(Parsed(EntityControlOptions(base.value, a.value, b.value, c.value, e.value), e.next))
  }

  datatype CrowdLifeConfiguration = CrowdLifeConfiguration(obj: ForgeObject, unspawnMode: nat, numStationBlock: int)

  function ReadConfiguration(d: seq<byte>, p: nat): (r: Result<Parsed<CrowdLifeConfiguration>>)
    ensures r.Ok? <==> p + 21 <= |d|
    ensures r.Ok? ==> r.value.next == p + 21
  {
    var obj :- ReadObject(d, p);
    var mode :- ReadU32(d, obj.next);
    var blocks :- ReadI32(d, mode.next);
    Ok(Parsed(CrowdLifeConfiguration(obj.value, mode.value, blocks.value), blocks.next))
  }

  datatype BuildTag = BuildTag(base: BaseObject, engineTagSave: nat)

  function ReadBuildTag(d: seq<byte>, p: nat): (r: Result<Parsed<BuildTag>>)
    ensures r.Ok? <==> p + 16 <= |d|
    ensures r.Ok? ==> r.value.next == p + 16
  {
    var base :- ReadBaseObject(d, p);
    var tag :- ReadU32(d, base.next);
    Ok(Parsed(BuildTag(base.value, tag.value), tag.next))
  }

  /** BuildTags: although declared as a base object, its header is read as a
      13-byte ForgeObject. */
  datatype BuildTags = BuildTags(obj: ForgeObject, tags: seq<BuildTag>)

  function ReadBuildTags(d: seq<byte>, p: nat): (r: Result<Parsed<BuildTags>>)
  {
    var obj :- ReadObject(d, p);
    var tags :- ReadCounted(d, obj.next, ReadBuildTag);
    Ok(Parsed(BuildTags(obj.value, tags.value), tags.next))
  }

  /** A BuildTags record is its 13-byte header, a count and 16 bytes per tag;
      a negative count fails. */
  lemma BuildTagsLayout(d: seq<byte>, p: nat)
    ensures p + 17 <= |d| && IntAt(d, p + 13, 4) < 0 ==> ReadBuildTags(d, p).Fail?
    ensures ReadBuildTags(d, p).Ok? ==>
      var t := ReadBuildTags(d, p).value;
      && |t.value.tags| == IntAt(d, p + 13, 4)
      && t.next == p + 17 + 16 * |t.value.tags|
  {
    ReadCountedAdvance(d, p + 13, ReadBuildTag, 16);
  }

  datatype DynamicReference = DynamicReference(base: BaseObject, objectReference: FileReference, objectHandle: ObjectPtr)

  function ReadDynamicReference(d: seq<byte>, p: nat): (r: Result<Parsed<DynamicReference>>)
    ensures r.Ok? <==> p + 31 <= |d|
    ensures r.Ok? ==> r.value.next == p + 31
  {
    var base :- ReadBaseObject(d, p);
    var reference :- ReadReference(d, base.next);
    var handle :- ReadHandle(d, reference.next);
    Ok(Parsed(DynamicReference(base.value, reference.value, handle.value), handle.next))
  }

  datatype CharacterSelector = CharacterSelector(base: BaseObject, progressionCharacter: ObjectPtr, useCurrent: bool)

  function ReadCharacterSelector(d: seq<byte>, p: nat): (r: Result<Parsed<CharacterSelector>>)
    ensures r.Ok? <==> p + 22 <= |d|
    ensures r.Ok? ==> r.value.next == p + 22
  {
    var base :- ReadBaseObject(d, p);
    var handle :- ReadHandle(d, base.next);
    var current :- ReadBool(d, handle.next);
    Ok(Parsed(CharacterSelector(base.value, handle.value, current.value), current.next))
  }

  /** GroupParams, AICondition, SpawnReferencePosition and the settings'
      pointers are read with check and offset 0: a first byte of 0 or 3 ends
      the pointer after one byte, anything else takes nine. */
  function ReadCheckedHandle(d: seq<byte>, p: nat): (r: Result<Parsed<ObjectPtr>>)
    ensures r.Ok? <==> p + 1 <= |d| && (d[p] == 0 || d[p] == 3 || p + 9 <= |d|)
    ensures r.Ok? ==> r.value.next == p + (if d[p] == 0 || d[p] == 3 then 1 else 9)
  {
    ReadObjectPtr(d, p, true, 0)
  }

  // ---------------------------------------------------------------------
  // SpawningSpecification

  /** The specification's header: a ForgeObject, or a base object pointer
      when it is read as an ObjectPtr. */
  datatype SpecHeader = ObjectHeader(obj: ForgeObject) | PtrHeader(ptr: BaseObjectPtr)

  function ReadSpecHeader(d: seq<byte>, p: nat, objectPtr: bool): (r: Result<Parsed<SpecHeader>>)
    ensures r.Ok? <==> p + (if objectPtr then 14 else 13) <= |d|
    ensures r.Ok? ==> r.value.next == p + (if objectPtr then 14 else 13) && r.value.value.PtrHeader? == objectPtr
  {
    if objectPtr then
      var ptr :- ReadPtr(d, p);
      Ok(Parsed(PtrHeader(ptr.value), ptr.next))
    else
      var obj :- ReadObject(d, p);
      Ok(Parsed(ObjectHeader(obj.value), obj.next))
  }

  /** SpawnStrategyParams, or BlobStrategyParams with UnspawnMode and Caste. */
  datatype StrategyParams = SpawnStrategy(obj: ForgeObject) | BlobStrategy(obj: ForgeObject, unspawnMode: nat, caste: nat)

  function ReadStrategy(d: seq<byte>, p: nat, defaultStrategy: bool): (r: Result<Parsed<StrategyParams>>)
    ensures r.Ok? <==> p + (if defaultStrategy then 13 else 21) <= |d|
    ensures r.Ok? ==> r.value.next == p + (if defaultStrategy then 13 else 21) && r.value.value.BlobStrategy? == !defaultStrategy
  {
    var obj :- ReadObject(d, p);
    if defaultStrategy then Ok(Parsed(SpawnStrategy(obj.value), obj.next))
    else
      var mode :- ReadU32(d, obj.next);
      var caste :- ReadU32(d, mode.next);
      Ok(Parsed(BlobStrategy(obj.value, mode.value, caste.value), caste.next))
  }

  /** SpawnPositionParams: a ForgeObject, five flags, PositionType, the local
      spawn position and orientation (raw words) and a checked reference
      position. */
  datatype PositionBase = PositionBase(obj: ForgeObject, flags: seq<bool>, positionType: nat,
                                       localSpawnPosition: seq<int>, localSpawnOrientation: seq<int>,
                                       spawnReferencePosition: ObjectPtr)

  /** MinSpawningDistance and MaxSpawningDistance (raw words), then
      ForceSpawnInFOV, ExcludeAwarenessZone and ExcludeNoCrowdRegions. */
  const StaticL: Layout := [F32, F32, Flag, Flag, Flag]

  /** The position parameters; `staticPart` holds the fields only
      SpawnPositionStaticParams reads. */
  datatype PositionParams = PositionParams(base: PositionBase, staticPart: Option<seq<int>>)

  /** The 54 bytes before the reference position. */
  function ReadPositionFixed(d: seq<byte>, p: nat): (r: Result<Parsed<(ForgeObject, seq<bool>, nat, seq<int>, seq<int>)>>)
    ensures r.Ok? <==> p + 54 <= |d|
    ensures r.Ok? ==> r.value.next == p + 54
  {
    BoolsFit(d, p + 13, 5);
    var obj :- ReadObject(d, p);
    var flags :- ReadMany(d, obj.next, 5, ReadBool);
    var kind :- ReadU32(d, flags.next);
    var position :- ReadVector4(d, kind.next);
    var orientation :- ReadVector4(d, position.next);
    Ok(Parsed((obj.value, flags.value, kind.value, position.value, orientation.value), orientation.next))
  }

  /** SpawnPositionParams.Read: the fixed part, then the reference position
      read with check, so the whole is 55 or 63 bytes. */
  function ReadPositionBase(d: seq<byte>, p: nat): (r: Result<Parsed<PositionBase>>)
    ensures r.Ok? <==> p + 55 <= |d| && (d[p + 54] == 0 || d[p + 54] == 3 || p + 63 <= |d|)
    ensures r.Ok? ==> r.value.next == p + 54 + (if d[p + 54] == 0 || d[p + 54] == 3 then 1 else 9)
  {
    var fixed :- ReadPositionFixed(d, p);
    var reference :- ReadCheckedHandle(d, fixed.next);
    var f := fixed.value;
    Ok(Parsed(PositionBase(f.0, f.1, f.2, f.3, f.4, reference.value), reference.next))
  }

  function ReadPosition(d: seq<byte>, p: nat, defaultPosition: bool): (r: Result<Parsed<PositionParams>>)
    ensures r.Ok? ==> r.value.value.staticPart.Some? == !defaultPosition
  {
    var base :- ReadPositionBase(d, p);
    if defaultPosition then Ok(Parsed(PositionParams(base.value, None), base.next))
    else
      var rest :- ReadFields(d, base.next, StaticL);
      Ok(Parsed(PositionParams(base.value, Some(rest.value)), rest.next))
  }

  /** The static variant reads the same base and then exactly eleven bytes
      more. */
  lemma StaticPositionAddsEleven(d: seq<byte>, p: nat)
    requires ReadPosition(d, p, false).Ok?
    ensures ReadPosition(d, p, true).Ok?
    ensures ReadPosition(d, p, false).value.value.base == ReadPosition(d, p, true).value.value.base
    ensures ReadPosition(d, p, false).value.next == ReadPosition(d, p, true).value.next + 11
  {
    assert Size(StaticL) == 11;
  }

  datatype SpawnPlayerParams = SpawnPlayerParams(obj: ForgeObject, tags: BuildTags, weaponsTags: seq<BuildTags>,
                                                 seedToUseForGeneration: int, tagBuilderDynamicRef: DynamicReference,
                                                 exclusive: bool, exclusiveNpcType: int, explicitNpc: nat,
                                                 selectionFilter: BaseObjectPtr, overrideInitialAction: FileReference,
                                                 progressionCharacterSelector: CharacterSelector)

  /** Everything of SpawnPlayerParams after its weapon tags. */
  datatype PlayerParamsTail = PlayerParamsTail(seed: int, dynamicRef: DynamicReference, exclusive: bool,
                                               exclusiveNpcType: int, explicitNpc: nat, selectionFilter: BaseObjectPtr,
                                               overrideInitialAction: FileReference, selector: CharacterSelector)

  function ReadPlayerParamsTail(d: seq<byte>, p: nat): (r: Result<Parsed<PlayerParamsTail>>)
  {
    var seed :- ReadI32(d, p);
    var dynamicRef :- ReadDynamicReference(d, seed.next);
    var exclusive :- ReadBool(d, dynamicRef.next);
    var npcType :- ReadI32(d, exclusive.next);
    var npc :- ReadU32(d, npcType.next);
    var filter :- ReadBaseObjectPtr(d, npc.next, true, 0);
    var action :- ReadReference(d, filter.next);
    var selector :- ReadCharacterSelector(d, action.next);
    Ok(Parsed(PlayerParamsTail(seed.value, dynamicRef.value, exclusive.value, npcType.value, npc.value,
                               filter.value, action.value, selector.value), selector.next))
  }

  /** SpawnPlayerParams.Read. */
  function ReadPlayerParams(d: seq<byte>, p: nat): (r: Result<Parsed<SpawnPlayerParams>>)
  {
    var obj :- ReadObject(d, p);
    var tags :- ReadBuildTags(d, obj.next);
    var weapons :- ReadCounted(d, tags.next, ReadBuildTags);
    var tail :- ReadPlayerParamsTail(d, weapons.next);
    var t := tail.value;
    Ok(Parsed(SpawnPlayerParams(obj.value, tags.value, weapons.value, t.seed, t.dynamicRef, t.exclusive,
                                t.exclusiveNpcType, t.explicitNpc, t.selectionFilter, t.overrideInitialAction, t.selector),
              tail.next))
  }

  datatype SpawningSpecification = SpawningSpecification(header: SpecHeader, strategy: StrategyParams, position: PositionParams,
                                                         entityParams: seq<SpawnPlayerParams>, stayReferencable: bool,
                                                         groupParams: ObjectPtr, aiCondition: ObjectPtr)

  /** The specification's parts before its entity parameters. */
  function ReadSpecHead(d: seq<byte>, p: nat, defaultStrategy: bool, defaultPosition: bool, objectPtr: bool)
    : (r: Result<Parsed<(SpecHeader, StrategyParams, PositionParams)>>)
    ensures r.Ok? ==> r.value.value.0.PtrHeader? == objectPtr
    ensures r.Ok? ==> r.value.value.1.BlobStrategy? == !defaultStrategy
    ensures r.Ok? ==> r.value.value.2.staticPart.Some? == !defaultPosition
  {
    var header :- ReadSpecHeader(d, p, objectPtr);
    var strategy :- ReadStrategy(d, header.next, defaultStrategy);
    var position :- ReadPosition(d, strategy.next, defaultPosition);
    Ok(Parsed((header.value, strategy.value, position.value), position.next))
  }

  /** StayReferencable, GroupParams and AICondition. */
  function ReadSpecTail(d: seq<byte>, p: nat): (r: Result<Parsed<(bool, ObjectPtr, ObjectPtr)>>)
  {
    var stay :- ReadBool(d, p);
    var group :- ReadCheckedHandle(d, stay.next);
    var condition :- ReadCheckedHandle(d, group.next);
    Ok(Parsed((stay.value, group.value, condition.value), condition.next))
  }

  /** SpawningSpecification.Read with its three switches. */
  function ReadSpecification(d: seq<byte>, p: nat, defaultStrategy: bool, defaultPosition: bool, objectPtr: bool)
    : (r: Result<Parsed<SpawningSpecification>>)
    ensures r.Ok? ==> r.value.value.header.PtrHeader? == objectPtr
    ensures r.Ok? ==> r.value.value.strategy.BlobStrategy? == !defaultStrategy
    ensures r.Ok? ==> r.value.value.position.staticPart.Some? == !defaultPosition
  {
    var head :- ReadSpecHead(d, p, defaultStrategy, defaultPosition, objectPtr);
    var entities :- ReadCounted(d, head.next, ReadPlayerParams);
    var tail :- ReadSpecTail(d, entities.next);
    Ok(Parsed(SpawningSpecification(head.value.0, head.value.1, head.value.2, entities.value,
                                    tail.value.0, tail.value.1, tail.value.2), tail.next))
  }

  /** The specification's tail is a flag and two checked pointers: three
      bytes when both pointers are empty (first byte 0 or 3), at most
      nineteen. */
  lemma SpecTailLayout(d: seq<byte>, p: nat)
    requires ReadSpecTail(d, p).Ok?
    ensures p + 3 <= ReadSpecTail(d, p).value.next <= p + 19
  {
  }

  // ---------------------------------------------------------------------
  // Gameplay logic

  datatype GameplayLogic =
    | GameplayPlayer(obj: ForgeObject, playerSpecification: SpawningSpecification,
                     eagleSpecification: SpawningSpecification, firstPersonPlayerSpecification: SpawningSpecification)
    | GameplayComplexCrowdLife(obj: ForgeObject, configuration: CrowdLifeConfiguration, goToReachDistance: nat,
                               persistOnSpawnSucceeded: bool, persistOnVirtualPatrol: bool, allowAcrobatics: bool,
                               isManager: bool, referencingOptions: EntityControlOptions)

  /** GameplayPlayer.Read: the player specification with the default
      switches, the eagle's read as an ObjectPtr, and the first-person one
      with the blob strategy and the static position. */
  function ReadPlayer(d: seq<byte>, p: nat): (r: Result<Parsed<GameplayLogic>>)
    ensures r.Ok? ==> r.value.value.GameplayPlayer?
    ensures r.Ok? ==> var l := r.value.value;
      && l.playerSpecification.header.ObjectHeader? && l.playerSpecification.strategy.SpawnStrategy?
      && l.playerSpecification.position.staticPart.None?
      && l.eagleSpecification.header.PtrHeader? && l.eagleSpecification.strategy.SpawnStrategy?
      && l.eagleSpecification.position.staticPart.None?
      && l.firstPersonPlayerSpecification.header.ObjectHeader? && l.firstPersonPlayerSpecification.strategy.BlobStrategy?
      && l.firstPersonPlayerSpecification.position.staticPart.Some?
  {
    var obj :- ReadObject(d, p);
    var player :- ReadSpecification(d, obj.next, true, true, false);
    var eagle :- ReadSpecification(d, player.next, true, true, true);
    var firstPerson :- ReadSpecification(d, eagle.next, false, false, false);
    Ok(Parsed(GameplayPlayer(obj.value, player.value, eagle.value, firstPerson.value), firstPerson.next))
  }

  /** GameplayComplexCrowdLife.Read: 58 bytes. */
  function ReadCrowdLife(d: seq<byte>, p: nat): (r: Result<Parsed<GameplayLogic>>)
    ensures r.Ok? <==> p + 58 <= |d|
    ensures r.Ok? ==> r.value.next == p + 58 && r.value.value.GameplayComplexCrowdLife?
  {
    var obj :- ReadObject(d, p);
    var configuration :- ReadConfiguration(d, obj.next);
    var distance :- ReadU32(d, configuration.next);
    var a :- ReadBool(d, distance.next);
    var b :- ReadBool(d, a.next);
    var c :- ReadBool(d, b.next);
    var e :- ReadBool(d, c.next);
    var options :- ReadControlOptions(d, e.next);
    Ok(Parsed(GameplayComplexCrowdLife(obj.value, configuration.value, distance.value, a.value, b.value, c.value,
                                       e.value, options.value), options.next))
  }

  /** The logic the coordinator's `abstractGameplay` switch selects. */
  function ReadLogic(d: seq<byte>, p: nat, abstractGameplay: bool): (r: Result<Parsed<GameplayLogic>>)
    ensures r.Ok? ==> (r.value.value.GameplayComplexCrowdLife? <==> abstractGameplay)
  {
    if abstractGameplay then ReadCrowdLife(d, p) else ReadPlayer(d, p)
  }

  // ---------------------------------------------------------------------
  // Settings

  /** The three action counts of a SpawningActionPack. C# allocates arrays of
      those sizes and leaves every element null. */
  datatype ActionCounts = ActionCounts(onSpawn: nat, onAcquire: nat, onPreUnspawn: nat)

  /** SpawningActionPack: `counts` is None when the pack stopped at Num = 3. */
  datatype SpawningActionPack = SpawningActionPack(obj: ForgeObject, counts: Option<ActionCounts>)

  function ReadActionPack(d: seq<byte>, p: nat): (r: Result<Parsed<SpawningActionPack>>)
  {
    var obj :- ReadForgeObject(d, p, true);
    if obj.value.num == 3 then Ok(Parsed(SpawningActionPack(obj.value, None), obj.next))
    else
      var onSpawn :- ReadCount(d, obj.next);
      var onAcquire :- ReadCount(d, onSpawn.next);
      var onPreUnspawn :- ReadCount(d, onAcquire.next);
      Ok(Parsed(SpawningActionPack(obj.value, Some(ActionCounts(onSpawn.value, onAcquire.value, onPreUnspawn.value))),
                onPreUnspawn.next))
  }

  /** A pack whose count byte is 3 is one byte long; any other pack is its
      13-byte object and three counts and holds no element, and fails when
      a count is negative. */
  lemma ActionPackLayout(d: seq<byte>, p: nat)
    ensures p + 1 <= |d| && d[p] == 3 ==> ReadActionPack(d, p) == Ok(Parsed(SpawningActionPack(ForgeObject(3, NoBase), None), p + 1))
    ensures p + 25 <= |d| && d[p] != 3 ==>
      (ReadActionPack(d, p).Ok? <==> IntAt(d, p + 13, 4) >= 0 && IntAt(d, p + 17, 4) >= 0 && IntAt(d, p + 21, 4) >= 0)
    ensures ReadActionPack(d, p).Ok? && d[p] != 3 ==>
      && ReadActionPack(d, p).value.next == p + 25
      && ReadActionPack(d, p).value.value.counts
           == Some(ActionCounts(IntAt(d, p + 13, 4), IntAt(d, p + 17, 4), IntAt(d, p + 21, 4)))
  {
  }

  datatype CoordinatorSettings = CoordinatorSettings(base: BaseObject, playMode: nat, playModeParam: ObjectPtr,
                                                     spawningActionPack: SpawningActionPack,
                                                     coordinatorActionPack: ObjectPtr, referencingActionPack: ObjectPtr,
                                                     startupCondition: ObjectPtr, constraints: seq<ObjectPtr>)

  /** The settings up to their constraints. */
  datatype SettingsHead = SettingsHead(base: BaseObject, playMode: nat, playModeParam: ObjectPtr, pack: SpawningActionPack,
                                       coordinator: ObjectPtr, referencing: ObjectPtr, startup: ObjectPtr)

  function ReadSettingsHead(d: seq<byte>, p: nat): (r: Result<Parsed<SettingsHead>>)
  {
    var base :- ReadBaseObject(d, p);
    var mode :- ReadU32(d, base.next);
    var param :- ReadCheckedHandle(d, mode.next);
    var pack :- ReadActionPack(d, param.next);
    var coordinator :- ReadCheckedHandle(d, pack.next);
    var referencing :- ReadCheckedHandle(d, coordinator.next);
    var startup :- ReadCheckedHandle(d, referencing.next);
    Ok(Parsed(SettingsHead(base.value, mode.value, param.value, pack.value, coordinator.value, referencing.value,
                           startup.value), startup.next))
  }

  /** GameplayCoordinatorSettings.Read: the constraints are unchecked 9-byte
      pointers, NumConstraints of them. */
  function ReadSettings(d: seq<byte>, p: nat): (r: Result<Parsed<CoordinatorSettings>>)
  {
    var head :- ReadSettingsHead(d, p);
    var constraints :- ReadCounted(d, head.next, ReadHandle);
    var h := head.value;
    Ok(Parsed(CoordinatorSettings(h.base, h.playMode, h.playModeParam, h.pack, h.coordinator, h.referencing, h.startup,
                                  constraints.value), constraints.next))
  }

  /** The constraints take four bytes of count and nine per pointer after the
      settings' head. */
  lemma ConstraintsLayout(d: seq<byte>, p: nat)
    requires ReadSettings(d, p).Ok?
    ensures ReadSettingsHead(d, p).Ok?
    ensures ReadSettings(d, p).value.next ==
      ReadSettingsHead(d, p).value.next + 4 + 9 * |ReadSettings(d, p).value.value.constraints|
  {
    ReadCountedAdvance(d, ReadSettingsHead(d, p).value.next, ReadHandle, 9);
  }

  // ---------------------------------------------------------------------
  // ForgeGameplayCoordinator

  const OutputCount: nat := 12

  /** DoneOutput … HardUnpausedOutput, in stream order. */
  datatype Coordinator = Coordinator(ptr: BaseObjectPtr, logic: GameplayLogic, settings: CoordinatorSettings,
                                     outputs: seq<ForgeObject>)

  /** The twelve outputs, each an unchecked 13-byte ForgeObject. */
  function ReadOutputs(d: seq<byte>, p: nat): (r: Result<Parsed<seq<ForgeObject>>>)
    ensures r.Ok? <==> p + 13 * OutputCount <= |d|
    ensures r.Ok? ==> r.value.next == p + 13 * OutputCount && |r.value.value| == OutputCount
  {
    ReadManyFits(d, p, OutputCount, ReadObject, 13);
    ReadMany(d, p, OutputCount, ReadObject)
  }

  /** ForgeGameplayCoordinator.Read as a function of the bytes, the
      position and `abstractGameplay`. */
  function ParseCoordinator(d: seq<byte>, p: nat, abstractGameplay: bool): (r: Result<Parsed<Coordinator>>)
  {
    var ptr :- ReadPtr(d, p);
    var logic :- ReadLogic(d, ptr.next, abstractGameplay);
    var settings :- ReadSettings(d, logic.next);
    var outputs :- ReadOutputs(d, settings.next);
    Ok(Parsed(Coordinator(ptr.value, logic.value, settings.value, outputs.value), outputs.next))
  }

  /** The coordinator's logic variant follows `abstractGameplay`, and its last
      156 bytes are the twelve outputs. */
  lemma CoordinatorShape(d: seq<byte>, p: nat, abstractGameplay: bool)
    requires ParseCoordinator(d, p, abstractGameplay).Ok?
    ensures var c := ParseCoordinator(d, p, abstractGameplay).value;
      && (c.value.logic.GameplayComplexCrowdLife? <==> abstractGameplay)
      && |c.value.outputs| == OutputCount
      && c.next >= 13 * OutputCount
      && ReadMany(d, c.next - 13 * OutputCount, OutputCount, ReadObject) == Ok(Parsed(c.value.outputs, c.next))
  {
    var ptr := ReadPtr(d, p).value;
    var logic := ReadLogic(d, ptr.next, abstractGameplay).value;
    var settings := ReadSettings(d, logic.next).value;
    var outputs := ReadOutputs(d, settings.next).value;
    assert ParseCoordinator(d, p, abstractGameplay).value == Parsed(Coordinator(ptr.value, logic.value, settings.value, outputs.value), outputs.next);
    OutputsAtEnd(d, settings.next);
  }

  /** The outputs are the twelve objects that end where the read ends. */
  lemma OutputsAtEnd(d: seq<byte>, q: nat)
    requires ReadOutputs(d, q).Ok?
    ensures var o := ReadOutputs(d, q).value;
      o.next >= 13 * OutputCount && ReadMany(d, o.next - 13 * OutputCount, OutputCount, ReadObject) == Ok(o)
  {
  }

  // ---------------------------------------------------------------------
  // Reading on a DataReader

  /** SpawningSpecification.Read: the head, the EntityParams loop and the
      tail. */
  method ReadSpecificationFrom(reader: DataReader, defaultStrategy: bool, defaultPosition: bool, objectPtr: bool)
    returns (r: Result<SpawningSpecification>)
    modifies reader
    ensures r.Fail? ==> ReadSpecification(reader.data, old(reader.position), defaultStrategy, defaultPosition, objectPtr).Fail?
    ensures r.Ok? ==>
      ReadSpecification(reader.data, old(reader.position), defaultStrategy, defaultPosition, objectPtr) == Ok(Parsed(r.value, reader.position))
  {
    var head :- reader.Read((d, p) => ReadSpecHead(d, p, defaultStrategy, defaultPosition, objectPtr));
    var entities :- reader.ReadCountedArray(ReadPlayerParams, DefaultPlayerParams);
    var tail :- reader.Read(ReadSpecTail);
    r := Ok(SpawningSpecification(head.0, head.1, head.2, entities[..], tail.0, tail.1, tail.2));
  }

  const DefaultPlayerParams := SpawnPlayerParams(ForgeObject(0, NoBase), BuildTags(ForgeObject(0, NoBase), []), [], 0,
                                                 DynamicReference(NoBase, FileReference(0, 0, 0), ObjectPtr(0, 0)),
                                                 false, 0, 0, BaseObjectPtr(FileReference(0, 0, 0), 0),
                                                 FileReference(0, 0, 0), CharacterSelector(NoBase, ObjectPtr(0, 0), false))

  /** GameplayPlayer.Read on a reader. */
  method ReadPlayerFrom(reader: DataReader) returns (r: Result<GameplayLogic>)
    modifies reader
    ensures r.Fail? ==> ReadPlayer(reader.data, old(reader.position)).Fail?
    ensures r.Ok? ==> ReadPlayer(reader.data, old(reader.position)) == Ok(Parsed(r.value, reader.position))
  {
    var obj :- reader.Read(ReadObject);
    var player :- ReadSpecificationFrom(reader, true, true, false);
    var eagle :- ReadSpecificationFrom(reader, true, true, true);
    var firstPerson :- ReadSpecificationFrom(reader, false, false, false);
    r := Ok(GameplayPlayer(obj, player, eagle, firstPerson));
  }

  /** GameplayCoordinatorSettings.Read on a reader. */
  method ReadSettingsFrom(reader: DataReader) returns (r: Result<CoordinatorSettings>)
    modifies reader
    ensures r.Fail? ==> ReadSettings(reader.data, old(reader.position)).Fail?
    ensures r.Ok? ==> ReadSettings(reader.data, old(reader.position)) == Ok(Parsed(r.value, reader.position))
  {
    var h :- reader.Read(ReadSettingsHead);
    var constraints :- reader.ReadCountedArray(ReadHandle, ObjectPtr(0, 0));
    r := Ok(CoordinatorSettings(h.base, h.playMode, h.playModeParam, h.pack, h.coordinator, h.referencing, h.startup,
                                constraints[..]));
  }

  /** ForgeGameplayCoordinator.Read on a reader. */
  method ReadCoordinator(reader: DataReader, abstractGameplay: bool) returns (r: Result<Coordinator>)
    modifies reader
    ensures r.Fail? ==> ParseCoordinator(reader.data, old(reader.position), abstractGameplay).Fail?
    ensures r.Ok? ==> ParseCoordinator(reader.data, old(reader.position), abstractGameplay) == Ok(Parsed(r.value, reader.position))
  {
    var ptr :- reader.Read(ReadPtr);
    var logic: GameplayLogic;
    if abstractGameplay {
      logic :- reader.Read(ReadCrowdLife);
    } else {
      logic :- ReadPlayerFrom(reader);
    }
    var settings :- ReadSettingsFrom(reader);
    var outputs :- reader.ReadArray(OutputCount, ReadObject, ForgeObject(0, NoBase));
    r := Ok(Coordinator(ptr, logic, settings, outputs[..]));
  }
}

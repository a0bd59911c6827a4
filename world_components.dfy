/** The world components of FORGE/ForgeComponents.cs: the ComponentType
    values of the world components, WorldComponent.CreateWorldComponent and
    every world component's Read. */
module WorldComponents {
  import opened Wrappers
  import opened Bytes
  import opened Cursor
  import opened ForgeObjects
  import opened Gameplay
  import opened EntityRecords
  import opened WorldRecords
  import Components

  // ---------------------------------------------------------------------
  // ComponentType values of the world components

  const NavigationManagerType: nat := 0x9B9C3F3
  const SystemicManagerType: nat := 0x2FB78D2E
  const GameplayCoordinatorType: nat := 0xEC7E0424
  const DeferredCastManagerType: nat := 0x4F8DA0EB
  const MissionIntroActivatorRepositoryType: nat := 0xB0FFD20C
  const CrowdHerderType: nat := 0x1697D188
  const VisualAmbianceManagerType: nat := 0xDBB9593E
  const GameAiWorldType: nat := 0xC443D6DE
  const AbstractGameplayCoordinatorType: nat := 0xD4451318
  const BulkWorldType: nat := 0x4601ADF1
  const PhysicsWorldType: nat := 0xD0B67579
  const NavmeshLinkingManagerType: nat := 0xE71B6847
  const SpawningSourceWorldType: nat := 0x82CAFF23
  const PermanentIconManagerType: nat := 0xB8D2E7F0
  const FightDirectorWorldType: nat := 0x247A289B
  const NavmeshPatchingManagerType: nat := 0x81FCDBED
  const SpaceWorldType: nat := 0x77FFB40E
  const AiContextManagerType: nat := 0xB7BDF1C2
  const ConflictLoopManagerType: nat := 0xB707DC33
  const TransformPredictionManagerType: nat := 0x3ACE509C
  const LocateTargetWorldType: nat := 0xC3A82AB7
  const WorldBookmarkType: nat := 0x50BA2D04
  const AiNetworkGameInterfaceType: nat := 0xC2437385
  const MetaAiType: nat := 0x788D00B8
  const RideableSummoningManagerType: nat := 0x53AEA36A
  const SoundRegionCellManagerType: nat := 0x09EB880D
  const PersonalRideableManagerType: nat := 0xDB398804
  const SoundRfxManagerType: nat := 0x5113C46D
  const PlayerAbilityRestrictionManagerType: nat := 0x34F1EDF8
  const GameWorldAreaFogManagerType: nat := 0x3D25788F
  const RefCountedEventManagerType: nat := 0x011DB368
  const SoundBankWorldType: nat := 0x4DA30368
  const SoundRiverManagerType: nat := 0x8BE4BAE7
  const InteriorManagerType: nat := 0xA846671D
  const DebugSettingsType: nat := 0x9B7A3615
  const ParkourDebuggingManagerType: nat := 0xE8A40587
  const UiWorldType: nat := 0xEEC2D4C7
  const EagleVisionManagerType: nat := 0xBECAA0EC
  const BlobSettingsType: nat := 0xD62B00DA
  const SpawnSettingsType: nat := 0xF7010C1C
  const VanishingManagerType: nat := 0x30DD45CD
  const GameplayControlManagerType: nat := 0x3A98F27D
  const AtomWorldManagerType: nat := 0x2013DBD0
  const AcSoundAmbienceManagerType: nat := 0x72D950FE
  const DesyncManagerType: nat := 0xCD1D0232
  const RoleBasedGroupManagerType: nat := 0x72A40EA6
  const SoundWallManagerType: nat := 0xC79FBD00
  const SoundFallManagerType: nat := 0x50221C93
  const DialogueWorldType: nat := 0xBC54960E
  const CrewAssistanceManagerType: nat := 0x8445C078
  const CommunityWorldType: nat := 0x10114CEE
  const WorldTagRulesType: nat := 0x2A749F1C

  /** The world component types whose data is not known: all of them are
      read as UnknownWorldComponent. */
  predicate IsUnknownDataType(componentType: nat)
  {
    || componentType == NavmeshLinkingManagerType || componentType == SpawningSourceWorldType
    || componentType == FightDirectorWorldType || componentType == NavmeshPatchingManagerType
    || componentType == AiContextManagerType || componentType == ConflictLoopManagerType
    || componentType == LocateTargetWorldType || componentType == SoundRegionCellManagerType
    || componentType == ParkourDebuggingManagerType || componentType == EagleVisionManagerType
    || componentType == VanishingManagerType || componentType == GameplayControlManagerType
    || componentType == AtomWorldManagerType || componentType == RoleBasedGroupManagerType
    || componentType == SoundWallManagerType || componentType == SoundFallManagerType
    || componentType == DialogueWorldType || componentType == CommunityWorldType
  }

  /** The types switched on before the unknown-data group. */
  predicate IsCoreWorldType(componentType: nat)
  {
    || componentType == NavigationManagerType || componentType == SystemicManagerType
    || componentType == GameplayCoordinatorType || componentType == DeferredCastManagerType
    || componentType == MissionIntroActivatorRepositoryType || componentType == CrowdHerderType
    || componentType == VisualAmbianceManagerType || componentType == GameAiWorldType
    || componentType == AbstractGameplayCoordinatorType || componentType == BulkWorldType
    || componentType == PhysicsWorldType
  }

  /** The first eleven types switched on after the unknown-data group. */
  predicate IsManagerWorldType(componentType: nat)
  {
    || componentType == PermanentIconManagerType || componentType == SpaceWorldType
    || componentType == TransformPredictionManagerType || componentType == WorldBookmarkType
    || componentType == AiNetworkGameInterfaceType || componentType == MetaAiType
    || componentType == RideableSummoningManagerType || componentType == PersonalRideableManagerType
    || componentType == SoundRfxManagerType || componentType == PlayerAbilityRestrictionManagerType
    || componentType == GameWorldAreaFogManagerType
  }

  /** The remaining types of the switch. */
  predicate IsSettingsWorldType(componentType: nat)
  {
    || componentType == RefCountedEventManagerType || componentType == SoundBankWorldType
    || componentType == SoundRiverManagerType || componentType == InteriorManagerType
    || componentType == DebugSettingsType || componentType == UiWorldType || componentType == BlobSettingsType
    || componentType == SpawnSettingsType || componentType == AcSoundAmbienceManagerType
    || componentType == DesyncManagerType || componentType == CrewAssistanceManagerType
    || componentType == WorldTagRulesType
  }

  /** Every type CreateWorldComponent knows. */
  predicate IsWorldComponentType(componentType: nat)
  {
    || IsCoreWorldType(componentType) || IsUnknownDataType(componentType) || IsManagerWorldType(componentType)
    || IsSettingsWorldType(componentType)
  }

  // ---------------------------------------------------------------------
  // CreateWorldComponent

  /** The class CreateWorldComponent instantiates. */
  datatype WorldKind =
    | UnknownData | Navigation | Systemic | GameplayCoordinator(abstractGameplay: bool) | DeferredCast
    | MissionIntroActivator | CrowdHerder | VisualAmbiance | GameAiWorld | BulkWorld | PhysicsWorld
    | PermanentIconManager | SpaceWorld | TransformPrediction | WorldBookmark | AiNetworkInterface | MetaAi
    | RideableSummoning | PersonalRideableManager | SoundRfxManager | PlayerRestrictionManager | GameWorldAreaFogManager
    | RefCountedEventManager | SoundBank | SoundRiverManager | InteriorManager | DebugSettings | UiWorld | BlobSettings
    | SpawnSettings | AcSoundAmbienceManager | DesyncManager | CrewAssistanceManager | WorldTagRules

  /** The arms of the switch before the unknown-data group. */
  function CreateCoreWorld(componentType: nat): (r: Option<WorldKind>)
    ensures r.Some? <==> IsCoreWorldType(componentType)
    ensures r.Some? ==> !r.value.UnknownData? && TypeOfKind(r.value) == componentType
  {
    if componentType == NavigationManagerType then Some(Navigation)
    else if componentType == SystemicManagerType then Some(Systemic)
    else if componentType == GameplayCoordinatorType then Some(GameplayCoordinator(false))
    else if componentType == DeferredCastManagerType then Some(DeferredCast)
    else if componentType == MissionIntroActivatorRepositoryType then Some(MissionIntroActivator)
    else if componentType == CrowdHerderType then Some(CrowdHerder)
    else if componentType == VisualAmbianceManagerType then Some(VisualAmbiance)
    else if componentType == GameAiWorldType then Some(GameAiWorld)
    else if componentType == AbstractGameplayCoordinatorType then Some(GameplayCoordinator(true))
    else if componentType == BulkWorldType then Some(BulkWorld)
    else if componentType == PhysicsWorldType then Some(PhysicsWorld)
    else None
  }

  /** The first eleven arms of the switch after the unknown-data group. */
  function CreateManagerWorld(componentType: nat): (r: Option<WorldKind>)
    ensures r.Some? <==> IsManagerWorldType(componentType)
    ensures r.Some? ==> !r.value.UnknownData? && TypeOfKind(r.value) == componentType
  {
    if componentType == PermanentIconManagerType then Some(PermanentIconManager)
    else if componentType == SpaceWorldType then Some(SpaceWorld)
    else if componentType == TransformPredictionManagerType then Some(TransformPrediction)
    else if componentType == WorldBookmarkType then Some(WorldBookmark)
    else if componentType == AiNetworkGameInterfaceType then Some(AiNetworkInterface)
    else if componentType == MetaAiType then Some(MetaAi)
    else if componentType == RideableSummoningManagerType then Some(RideableSummoning)
    else if componentType == PersonalRideableManagerType then Some(PersonalRideableManager)
    else if componentType == SoundRfxManagerType then Some(SoundRfxManager)
    else if componentType == PlayerAbilityRestrictionManagerType then Some(PlayerRestrictionManager)
    else if componentType == GameWorldAreaFogManagerType then Some(GameWorldAreaFogManager)
    else None
  }

  /** The remaining arms of the switch. */
  function CreateSettingsWorld(componentType: nat): (r: Option<WorldKind>)
    ensures r.Some? <==> IsSettingsWorldType(componentType)
    ensures r.Some? ==> !r.value.UnknownData? && TypeOfKind(r.value) == componentType
  {
    if componentType == RefCountedEventManagerType then Some(RefCountedEventManager)
    else if componentType == SoundBankWorldType then Some(SoundBank)
    else if componentType == SoundRiverManagerType then Some(SoundRiverManager)
    else if componentType == InteriorManagerType then Some(InteriorManager)
    else if componentType == DebugSettingsType then Some(DebugSettings)
    else if componentType == UiWorldType then Some(UiWorld)
    else if componentType == BlobSettingsType then Some(BlobSettings)
    else if componentType == SpawnSettingsType then Some(SpawnSettings)
    else if componentType == AcSoundAmbienceManagerType then Some(AcSoundAmbienceManager)
    else if componentType == DesyncManagerType then Some(DesyncManager)
    else if componentType == CrewAssistanceManagerType then Some(CrewAssistanceManager)
    else if componentType == WorldTagRulesType then Some(WorldTagRules)
    else None
  }

  /** The switch of CreateWorldComponent; any other value throws. A kind
      with a class of its own is created only by the type TypeOfKind
      names. */
  function CreateWorldComponent(componentType: nat): (r: Result<WorldKind>)
    ensures r.Ok? <==> IsWorldComponentType(componentType)
    ensures r.Fail? ==> r.error == UnknownTag
    ensures r.Ok? && !r.value.UnknownData? ==> TypeOfKind(r.value) == componentType
  {
    match CreateCoreWorld(componentType)
    case Some(kind) => Ok(kind)
    case None =>
      if IsUnknownDataType(componentType) then Ok(UnknownData)
      else
        match CreateManagerWorld(componentType)
        case Some(kind) => Ok(kind)
        case None =>
          match CreateSettingsWorld(componentType)
          case Some(kind) => Ok(kind)
          case None => Fail(UnknownTag)
  }

  /** The one component type that creates a kind with a class of its own:
      the inverse of CreateWorldComponent away from the unknown-data kind. */
  function TypeOfKind(kind: WorldKind): (t: nat)
    requires !kind.UnknownData?
  {
    match kind
    case Navigation => NavigationManagerType
    case Systemic => SystemicManagerType
    case GameplayCoordinator(abstractGameplay) =>
      if abstractGameplay then AbstractGameplayCoordinatorType else GameplayCoordinatorType
    case DeferredCast => DeferredCastManagerType
    case MissionIntroActivator => MissionIntroActivatorRepositoryType
    case CrowdHerder => CrowdHerderType
    case VisualAmbiance => VisualAmbianceManagerType
    case GameAiWorld => GameAiWorldType
    case BulkWorld => BulkWorldType
    case PhysicsWorld => PhysicsWorldType
    case PermanentIconManager => PermanentIconManagerType
    case SpaceWorld => SpaceWorldType
    case TransformPrediction => TransformPredictionManagerType
    case WorldBookmark => WorldBookmarkType
    case AiNetworkInterface => AiNetworkGameInterfaceType
    case MetaAi => MetaAiType
    case RideableSummoning => RideableSummoningManagerType
    case PersonalRideableManager => PersonalRideableManagerType
    case SoundRfxManager => SoundRfxManagerType
    case PlayerRestrictionManager => PlayerAbilityRestrictionManagerType
    case GameWorldAreaFogManager => GameWorldAreaFogManagerType
    case RefCountedEventManager => RefCountedEventManagerType
    case SoundBank => SoundBankWorldType
    case SoundRiverManager => SoundRiverManagerType
    case InteriorManager => InteriorManagerType
    case DebugSettings => DebugSettingsType
    case UiWorld => UiWorldType
    case BlobSettings => BlobSettingsType
    case SpawnSettings => SpawnSettingsType
    case AcSoundAmbienceManager => AcSoundAmbienceManagerType
    case DesyncManager => DesyncManagerType
    case CrewAssistanceManager => CrewAssistanceManagerType
    case WorldTagRules => WorldTagRulesType
  }

  /** Every kind with a class of its own is created by exactly one type:
      the type TypeOfKind names. */
  lemma CreateWorldComponentRoundTrip(componentType: nat, kind: WorldKind)
    requires !kind.UnknownData?
    ensures CreateWorldComponent(componentType) == Ok(kind) <==> componentType == TypeOfKind(kind)
  {
    if componentType == TypeOfKind(kind) {
      CreateOfTypeOfKind(kind);
    }
  }

  /** Each kind with a class of its own is what its type creates. */
  lemma CreateOfTypeOfKind(kind: WorldKind)
    requires !kind.UnknownData?
    ensures CreateWorldComponent(TypeOfKind(kind)) == Ok(kind)
  {
    if IsCoreKind(kind) {
      CreateOfCoreKind(kind);
    } else if IsManagerKind(kind) {
      CreateOfManagerKind(kind);
    } else {
      CreateOfSettingsKind(kind);
    }
  }

  lemma CreateOfCoreKind(kind: WorldKind)
    requires IsCoreKind(kind) && !kind.UnknownData?
    ensures CreateWorldComponent(TypeOfKind(kind)) == Ok(kind)
  {
    match kind
    case Navigation =>
    case Systemic =>
    case GameplayCoordinator(_) =>
    case DeferredCast =>
    case MissionIntroActivator =>
    case CrowdHerder =>
    case VisualAmbiance =>
    case GameAiWorld =>
    case BulkWorld =>
    case PhysicsWorld =>
    case _ =>
  }

  lemma CreateOfManagerKind(kind: WorldKind)
    requires IsManagerKind(kind)
    ensures CreateWorldComponent(TypeOfKind(kind)) == Ok(kind)
  {
    match kind
    case PermanentIconManager =>
    case SpaceWorld =>
    case TransformPrediction =>
    case WorldBookmark =>
    case AiNetworkInterface =>
    case MetaAi =>
    case RideableSummoning =>
    case PersonalRideableManager =>
    case SoundRfxManager =>
    case PlayerRestrictionManager =>
    case GameWorldAreaFogManager =>
    case _ =>
  }

  lemma CreateOfSettingsKind(kind: WorldKind)
    requires !IsCoreKind(kind) && !IsManagerKind(kind)
    ensures CreateWorldComponent(TypeOfKind(kind)) == Ok(kind)
  {
    if kind.RefCountedEventManager? || kind.SoundBank? || kind.SoundRiverManager? || kind.InteriorManager? || kind.DebugSettings? || kind.UiWorld? {
      CreateOfFirstSettingsKinds(kind);
    } else {
      CreateOfLastSettingsKinds(kind);
    }
  }

  lemma CreateOfFirstSettingsKinds(kind: WorldKind)
    requires kind.RefCountedEventManager? || kind.SoundBank? || kind.SoundRiverManager? || kind.InteriorManager? || kind.DebugSettings? || kind.UiWorld?
    ensures CreateWorldComponent(TypeOfKind(kind)) == Ok(kind)
  {
    match kind
    case RefCountedEventManager =>
    case SoundBank =>
    case SoundRiverManager =>
    case InteriorManager =>
    case DebugSettings =>
    case UiWorld =>
  }

  lemma CreateOfLastSettingsKinds(kind: WorldKind)
    requires !IsCoreKind(kind) && !IsManagerKind(kind)
    requires !(kind.RefCountedEventManager? || kind.SoundBank? || kind.SoundRiverManager? || kind.InteriorManager? || kind.DebugSettings? || kind.UiWorld?)
    ensures CreateWorldComponent(TypeOfKind(kind)) == Ok(kind)
  {
    match kind
    case BlobSettings =>
    case SpawnSettings =>
    case AcSoundAmbienceManager =>
    case DesyncManager =>
    case CrewAssistanceManager =>
    case WorldTagRules =>
    case _ =>
  }

  /** No entity component type is a world component type. */
  lemma EntityTypesAreNotWorldTypes(componentType: nat)
    requires componentType in Components.EntityComponentTypes
    ensures CreateWorldComponent(componentType) == Fail(UnknownTag)
  {
  }

  /** GAMEPLAY_COORDINATOR and ABSTRACT_GAMEPLAY_COORDINATOR create the same
      class, told apart by its `abstractGameplay` flag. */
  lemma CoordinatorTypes()
    ensures CreateWorldComponent(GameplayCoordinatorType) == Ok(GameplayCoordinator(false))
    ensures CreateWorldComponent(AbstractGameplayCoordinatorType) == Ok(GameplayCoordinator(true))
  {
  }

  // ---------------------------------------------------------------------
  // The data each world component reads

  datatype VisualAmbianceData = VisualAmbianceData(windGustCompression: nat, prevailingWind: seq<int>, beaufortLevel: SoundRtpc,
                                                   windData: FileReference, times: seq<nat>,
                                                   transitions: seq<TimeOfDayTransition>, lockSettings: seq<int>,
                                                   defaultAmbiance: FileReference, weatherModifier: FileReference,
                                                   weatherInfluence: CurveFloat, blendDuration: nat)

  datatype DebugSpawns = DebugSpawns(npcs: seq<SpawnInfo>, animals: seq<SpawnInfo>, rideableAnimals: seq<SpawnInfo>,
                                     objects: seq<SpawnObjectInfo>, waterVehicles: seq<SpawnInfo>)

  datatype DebugBehaviours = DebugBehaviours(unknown1: nat, fleeReaction: FileReference, followSchedule: FileReference,
                                             unknown2: FileReference, stationBehaviours: seq<FileReference>,
                                             animalBehaviours: seq<FileReference>,
                                             fightVehicles: seq<FileReference>)

  datatype DebugTail = DebugTail(debugTag: BuildTag, hostileFaction: FactionSelector, uniqueNpcFilter: ObjectPtr,
                                 unknown3: FileReference, debugTags: BuildTags, unknown4: bool,
                                 pauseSplineMovers: bool, splineMoversTimeStep: nat)

  datatype WorldData =
    | UnknownDataComponent
    | NavigationComponent(cellSizeOverride: nat, floorHeightData: FileReference, pilotConfigData: FileReference)
    | SystemicComponent
    | GameplayCoordinatorComponent(abstractGameplay: bool, active: bool, debugSpawning: ObjectPtr, previewRadius: nat,
                                   coordinator: Coordinator)
    | DeferredCastComponent(microSecondsAllowed: nat)
    | MissionIntroActivatorComponent(numActivators: int)
    | CrowdHerderComponent(herderValues: seq<int>)
    | VisualAmbianceComponent(ambiance: VisualAmbianceData)
    | GameAiWorldComponent(ambientEvents: AmbientEventManager, zoneSpawner: ZoneSpawnerManager)
    | BulkWorldComponent(bufferSize: nat)
    | PhysicsWorldComponent(gravity: seq<int>, broadPhaseMin: seq<int>, broadPhaseMax: seq<int>)
    | PermanentIconManagerComponent
    | SpaceWorldComponent(globalSection: SpaceSection, globalSectionHandle: SpaceSection, occlusion: OcclusionTable)
    | TransformPredictionComponent(predictionValues: seq<int>)
    | WorldBookmarkComponent
    | AiNetworkInterfaceComponent(worldPathManager: FileReference)
    | MetaAiComponent(tracking: EventTracking, unknownPtr: ObjectPtr, metaAiSettings: FileReference, metaAiFlags: seq<bool>)
    | RideableSummoningComponent(summoningValue: nat)
    | PersonalRideableManagerComponent(handlers: seq<FileReference>)
    | SoundRfxManagerComponent(rfxData: FileReference, positionEpsilon: nat)
    | PlayerRestrictionManagerComponent
    | GameWorldAreaFogComponent(fogThresholds: seq<nat>, fogMaps: seq<FileReference>, densityMap: seq<nat>,
                                fogSound: seq<int>)
    | RefCountedEventManagerComponent
    | SoundBankComponent(soundBanks: FileReference)
    | SoundRiverManagerComponent(soundSet: FileReference, maxSearchDistance: nat)
    | InteriorManagerComponent
    | DebugSettingsComponent(spawns: DebugSpawns, behaviours: DebugBehaviours, debugTail: DebugTail)
    | UiWorldComponent(hudModes: seq<nat>)
    | BlobSettingsComponent(enabled: bool, spawnDistances: seq<nat>, unknown2: bool, unspawnValues: seq<nat>)
    | SpawnSettingsComponent(npcLimits: seq<nat>, lodValues: seq<nat>)
    | AcSoundAmbienceComponent(stateIndexes: seq<nat>, ambienceValues: seq<int>)
    | DesyncManagerComponent(desync: DesyncSettings)
    | CrewAssistanceManagerComponent(specialAbility: ObjectPtr)
    | WorldTagRulesComponent(rules: seq<FileReference>)

  // ---------------------------------------------------------------------
  // Readers

  /** NavigationComponent: NavMeshGridLayoutCellizeOverride and two
      references. */
  function ReadNavigation(d: seq<byte>, p: nat): (r: Result<Parsed<WorldData>>)
    ensures r.Ok? <==> p + 24 <= |d|
    ensures r.Ok? ==> r.value.next == p + 24 && r.value.value.NavigationComponent?
  {
    var cells :- ReadU32(d, p);
    var floor :- ReadReference(d, cells.next);
    var pilot :- ReadReference(d, floor.next);
    Ok(Parsed(NavigationComponent(cells.value, floor.value, pilot.value), pilot.next))
  }

  /** GameplayCoordinatorComponent: Active, the debug spawning
      specification (checked pointer), PreviewRadius and the coordinator
      read with the component's `abstractGameplay`. */
  function ReadGameplayCoordinator(d: seq<byte>, p: nat, abstractGameplay: bool): (r: Result<Parsed<WorldData>>)
    ensures r.Ok? ==> r.value.value.GameplayCoordinatorComponent? && r.value.value.abstractGameplay == abstractGameplay
    ensures r.Ok? ==> (r.value.value.coordinator.logic.GameplayComplexCrowdLife? <==> abstractGameplay)
  {
    var active :- ReadFlag(d, p);
    var spawning :- ReadObjectPtr(d, active.next, true, 0);
    var radius :- ReadU32(d, spawning.next);
    var coordinator :- ParseCoordinator(d, radius.next, abstractGameplay);
    CoordinatorShape(d, radius.next, abstractGameplay);
    Ok(Parsed(GameplayCoordinatorComponent(abstractGameplay, active.value, spawning.value, radius.value, coordinator.value),
              coordinator.next))
  }

  /** DeferredCastComponent: NbMicroSecondsAllowed. */
  function ReadDeferredCast(d: seq<byte>, p: nat): (r: Result<Parsed<WorldData>>)
    ensures r.Ok? <==> p + 8 <= |d|
    ensures r.Ok? ==> r.value.next == p + 8 && r.value.value.DeferredCastComponent?
  {
    var micro :- ReadU64(d, p);
    Ok(Parsed(DeferredCastComponent(micro.value), micro.next))
  }

  /** MissionIntroActivatorComponent: only the activator count. */
  function ReadMissionIntroActivator(d: seq<byte>, p: nat): (r: Result<Parsed<WorldData>>)
    ensures r.Ok? <==> p + 4 <= |d|
    ensures r.Ok? ==> r.value.next == p + 4 && r.value.value.MissionIntroActivatorComponent?
  {
    var count :- ReadI32(d, p);
    Ok(Parsed(MissionIntroActivatorComponent(count.value), count.next))
  }

  /** CrowdMaxNumNPCs, Unknown_4h and the precipitation threshold. */
  const CrowdHerderL: Layout := [U32, U32, F32]

  function ReadCrowdHerder(d: seq<byte>, p: nat): (r: Result<Parsed<WorldData>>)
    ensures r.Ok? <==> p + 12 <= |d|
    ensures r.Ok? ==> r.value.next == p + 12 && r.value.value.CrowdHerderComponent?
  {
    assert Size(CrowdHerderL) == 12;
    ReachOfGapless(CrowdHerderL);
    var values :- ReadFields(d, p, CrowdHerderL);
    Ok(Parsed(CrowdHerderComponent(values.value), values.next))
  }

  /** WindGustCompression, PrevailingWind, the Beaufort RTPC, the wind data
      reference, VisualTime and FullCycleTime: 74 bytes. */
  function ReadAmbianceHead(d: seq<byte>, p: nat): (r: Result<Parsed<(nat, seq<int>, SoundRtpc, FileReference, seq<nat>)>>)
    ensures r.Ok? <==> p + 74 <= |d|
    ensures r.Ok? ==> r.value.next == p + 74
  {
    var gust :- ReadU32(d, p);
    var wind :- ReadVector4(d, gust.next);
    var rtpc :- ReadSoundRtpc(d, wind.next);
    var data :- ReadReference(d, rtpc.next);
    var times :- ReadFloats(d, data.next, 2);
    Ok(Parsed((gust.value, wind.value, rtpc.value, data.value, times.value), times.next))
  }

  /** The two time-of-day transitions: a fixed count, 42 bytes. */
  function ReadTransitions(d: seq<byte>, p: nat): (r: Result<Parsed<seq<TimeOfDayTransition>>>)
    ensures r.Ok? <==> p + 42 <= |d|
    ensures r.Ok? ==> r.value.next == p + 42 && |r.value.value| == 2
  {
    ReadManyFits(d, p, 2, ReadTimeOfDayTransition, 21);
    ReadManyAdvance(d, p, 2, ReadTimeOfDayTransition, 21);
    ReadMany(d, p, 2, ReadTimeOfDayTransition)
  }

  /** DefaultStartTime, EnableLockTimeOfDay, the four lock velocities,
      TimelapseUnlockDelay and CameraUnlockDelay. */
  const LockSettingsL: Layout := [F32, Flag, F32, F32, F32, F32, F32, F32]

  /** The lock settings and the two ambiance references: 49 bytes. */
  function ReadAmbianceMiddle(d: seq<byte>, p: nat): (r: Result<Parsed<(seq<int>, FileReference, FileReference)>>)
    ensures r.Ok? <==> p + 49 <= |d|
    ensures r.Ok? ==> r.value.next == p + 49
  {
    assert Size(LockSettingsL) == 29;
    ReachOfGapless(LockSettingsL);
    var settings :- ReadFields(d, p, LockSettingsL);
    var ambiance :- ReadReference(d, settings.next);
    var weather :- ReadReference(d, ambiance.next);
    Ok(Parsed((settings.value, ambiance.value, weather.value), weather.next))
  }

  /** VisualAmbianceComponent: exactly two time-of-day transitions. */
  function ReadVisualAmbiance(d: seq<byte>, p: nat): (r: Result<Parsed<WorldData>>)
    ensures r.Ok? ==> r.value.value.VisualAmbianceComponent? && |r.value.value.ambiance.transitions| == 2
  {
    var head :- ReadAmbianceHead(d, p);
    var transitions :- ReadTransitions(d, head.next);
    var middle :- ReadAmbianceMiddle(d, transitions.next);
    var influence :- ReadCurveFloat(d, middle.next);
    var blend :- ReadU32(d, influence.next);
    var (gust, wind, rtpc, data, times) := head.value;
    var (settings, ambiance, weather) := middle.value;
    Ok(Parsed(VisualAmbianceComponent(VisualAmbianceData(gust, wind, rtpc, data, times, transitions.value, settings,
                                                         ambiance, weather, influence.value, blend.value)), blend.next))
  }

  /** GameAIWorldComponent: the ambient event and zone spawner managers. */
  function ReadGameAiWorld(d: seq<byte>, p: nat): (r: Result<Parsed<WorldData>>)
    ensures r.Ok? ==> r.value.value.GameAiWorldComponent?
  {
    var ambient :- ReadAmbientEventManager(d, p);
    var spawner :- ReadZoneSpawnerManager(d, ambient.next);
    Ok(Parsed(GameAiWorldComponent(ambient.value, spawner.value), spawner.next))
  }

  /** BulkWorldComponent: BulkGraphicBufferize. */
  function ReadBulkWorld(d: seq<byte>, p: nat): (r: Result<Parsed<WorldData>>)
    ensures r.Ok? <==> p + 4 <= |d|
    ensures r.Ok? ==> r.value.next == p + 4 && r.value.value.BulkWorldComponent?
  {
    var size :- ReadU32(d, p);
    Ok(Parsed(BulkWorldComponent(size.value), size.next))
  }

  /** PhysicsWorldComponent: Gravity and the broad phase bounds. */
  function ReadPhysicsWorld(d: seq<byte>, p: nat): (r: Result<Parsed<WorldData>>)
    ensures r.Ok? <==> p + 40 <= |d|
    ensures r.Ok? ==> r.value.next == p + 40 && r.value.value.PhysicsWorldComponent?
  {
    var gravity :- ReadVector4(d, p);
    var min :- ReadVector3(d, gravity.next);
    var max :- ReadVector3(d, min.next);
    Ok(Parsed(PhysicsWorldComponent(gravity.value, min.value, max.value), max.next))
  }

  /** PermanentIconManagerComponent: counted icons and counted UI
      locations, both unknown data, so it is read only when both counts are
      0. */
  function ReadPermanentIconManager(d: seq<byte>, p: nat): (r: Result<Parsed<WorldData>>)
    ensures r.Ok? <==> ReadCount(d, p) == Ok(Parsed(0, p + 4)) && ReadCount(d, p + 4) == Ok(Parsed(0, p + 8))
    ensures r.Ok? ==> r == Ok(Parsed(PermanentIconManagerComponent, p + 8))
  {
    UnknownArrayEmpty(d, p);
    UnknownArrayEmpty(d, p + 4);
    var icons :- ReadCounted(d, p, ReadUnknownData);
    var locations :- ReadCounted(d, icons.next, ReadUnknownData);
    Ok(Parsed(PermanentIconManagerComponent, locations.next))
  }

  /** SpaceWorldComponent: the global section, read in full, its handle and
      the sound occlusion table. */
  function ReadSpaceWorld(d: seq<byte>, p: nat): (r: Result<Parsed<WorldData>>)
    ensures r.Ok? ==>
      && r.value.value.SpaceWorldComponent?
      && r.value.value.globalSection.Section?
      && r.value.value.globalSectionHandle.SectionHandle?
  {
    var global :- ReadSpaceSection(d, p, false);
    var handle :- ReadSpaceSection(d, global.next, true);
    var table :- ReadOcclusionTable(d, handle.next);
    Ok(Parsed(SpaceWorldComponent(global.value, handle.value, table.value), table.next))
  }

  /** TransformPredictionComponent: MaxDistance and
      EnableGuidancePrediction. */
  function ReadTransformPrediction(d: seq<byte>, p: nat): (r: Result<Parsed<WorldData>>)
    ensures r.Ok? <==> p + 5 <= |d|
    ensures r.Ok? ==> r.value.next == p + 5 && r.value.value.TransformPredictionComponent?
  {
    assert Size([F32, Flag]) == 5;
    ReachOfGapless([F32, Flag]);
    var values :- ReadFields(d, p, [F32, Flag]);
    Ok(Parsed(TransformPredictionComponent(values.value), values.next))
  }

  /** WorldBookmarkComponent: counted teleport bookmarks, unknown data. */
  function ReadWorldBookmark(d: seq<byte>, p: nat): (r: Result<Parsed<WorldData>>)
    ensures r.Ok? <==> ReadCount(d, p) == Ok(Parsed(0, p + 4))
    ensures r.Ok? ==> r == Ok(Parsed(WorldBookmarkComponent, p + 4))
  {
    UnknownArrayEmpty(d, p);
    var bookmarks :- ReadCounted(d, p, ReadUnknownData);
    Ok(Parsed(WorldBookmarkComponent, bookmarks.next))
  }

  /** AIGameNetworkInterfaceComponent: the world path manager reference. */
  function ReadAiNetworkInterface(d: seq<byte>, p: nat): (r: Result<Parsed<WorldData>>)
    ensures r.Ok? <==> p + 10 <= |d|
    ensures r.Ok? ==> r.value.next == p + 10 && r.value.value.AiNetworkInterfaceComponent?
  {
    var manager :- ReadReference(d, p);
    Ok(Parsed(AiNetworkInterfaceComponent(manager.value), manager.next))
  }

  /** MetaAIComponent: counted objective exceptions (unknown data), the
      systemic event tracking, an unchecked pointer, the settings reference
      and four flags: 131 bytes when read. */
  function ReadMetaAi(d: seq<byte>, p: nat): (r: Result<Parsed<WorldData>>)
    ensures r.Ok? ==> ReadCount(d, p) == Ok(Parsed(0, p + 4))
    ensures r.Ok? ==> r.value.next == p + 131 && r.value.value.MetaAiComponent? && |r.value.value.metaAiFlags| == 4
  {
    UnknownArrayEmpty(d, p);
    var exceptions :- ReadCounted(d, p, ReadUnknownData);
    var tracking :- ReadEventTracking(d, exceptions.next);
    var unknown :- ReadHandle(d, tracking.next);
    var settings :- ReadReference(d, unknown.next);
    var flags :- ReadFlags(d, settings.next, 4);
    Ok(Parsed(MetaAiComponent(tracking.value, unknown.value, settings.value, flags.value), flags.next))
  }

  /** RideableSummoningManager: one float. */
  function ReadRideableSummoning(d: seq<byte>, p: nat): (r: Result<Parsed<WorldData>>)
    ensures r.Ok? <==> p + 4 <= |d|
    ensures r.Ok? ==> r.value.next == p + 4 && r.value.value.RideableSummoningComponent?
  {
    var value :- ReadU32(d, p);
    Ok(Parsed(RideableSummoningComponent(value.value), value.next))
  }

  /** PersonalRideableManagerComponent: counted handler references. */
  function ReadPersonalRideableManager(d: seq<byte>, p: nat): (r: Result<Parsed<WorldData>>)
    ensures r.Ok? ==>
      && r.value.value.PersonalRideableManagerComponent?
      && ReadCount(d, p).Ok?
      && |r.value.value.handlers| == ReadCount(d, p).value.value
      && r.value.next == p + 4 + 10 * |r.value.value.handlers|
  {
    ReadCountedAdvance(d, p, ReadReference, 10);
    var handlers :- ReadCounted(d, p, ReadReference);
    Ok(Parsed(PersonalRideableManagerComponent(handlers.value), handlers.next))
  }

  /** SoundRfxManagerComponent: the data reference and PositionEspilon. */
  function ReadSoundRfxManager(d: seq<byte>, p: nat): (r: Result<Parsed<WorldData>>)
    ensures r.Ok? <==> p + 14 <= |d|
    ensures r.Ok? ==> r.value.next == p + 14 && r.value.value.SoundRfxManagerComponent?
  {
    var data :- ReadReference(d, p);
    var epsilon :- ReadU32(d, data.next);
    Ok(Parsed(SoundRfxManagerComponent(data.value, epsilon.value), epsilon.next))
  }

  /** EnableCPUSampling, SamplingUnit, EnableFogAmbienceSound and the three
      sound floats. */
  const FogSoundL: Layout := [Flag, F32, Flag, F32, F32, F32]

  /** GameWordAreaFogManagerComponent: two thresholds, two references, the
      address mode with the six density and height map floats (seven
      words), and the sampling and sound settings: 74 bytes. */
  function ReadGameWorldAreaFog(d: seq<byte>, p: nat): (r: Result<Parsed<WorldData>>)
    ensures r.Ok? <==> p + 74 <= |d|
    ensures r.Ok? ==> r.value.next == p + 74 && r.value.value.GameWorldAreaFogComponent?
  {
    assert Size(FogSoundL) == 18;
    ReachOfGapless(FogSoundL);
    var thresholds :- ReadFloats(d, p, 2);
    var first :- ReadReference(d, thresholds.next);
    var second :- ReadReference(d, first.next);
    var density :- ReadFloats(d, second.next, 7);
    var sound :- ReadFields(d, density.next, FogSoundL);
    Ok(Parsed(GameWorldAreaFogComponent(thresholds.value, [first.value, second.value], density.value, sound.value),
              sound.next))
  }

  /** SoundBankComponent: the sound banks reference. */
  function ReadSoundBank(d: seq<byte>, p: nat): (r: Result<Parsed<WorldData>>)
    ensures r.Ok? <==> p + 10 <= |d|
    ensures r.Ok? ==> r.value.next == p + 10 && r.value.value.SoundBankComponent?
  {
    var banks :- ReadReference(d, p);
    Ok(Parsed(SoundBankComponent(banks.value), banks.next))
  }

  /** SoundRiverManagerComponent: the sound set and MaxSearchDistance. */
  function ReadSoundRiverManager(d: seq<byte>, p: nat): (r: Result<Parsed<WorldData>>)
    ensures r.Ok? <==> p + 14 <= |d|
    ensures r.Ok? ==> r.value.next == p + 14 && r.value.value.SoundRiverManagerComponent?
  {
    var set_ :- ReadReference(d, p);
    var distance :- ReadU32(d, set_.next);
    Ok(Parsed(SoundRiverManagerComponent(set_.value, distance.value), distance.next))
  }

  /** InteriorManagerComponent: counted interior settings, unknown data. */
  function ReadInteriorManager(d: seq<byte>, p: nat): (r: Result<Parsed<WorldData>>)
    ensures r.Ok? <==> ReadCount(d, p) == Ok(Parsed(0, p + 4))
    ensures r.Ok? ==> r == Ok(Parsed(InteriorManagerComponent, p + 4))
  {
    UnknownArrayEmpty(d, p);
    var settings :- ReadCounted(d, p, ReadUnknownData);
    Ok(Parsed(InteriorManagerComponent, settings.next))
  }

  /** The NPC, animal, rideable animal and object spawn infos. */
  function ReadDebugSpawnHead(d: seq<byte>, p: nat): (r: Result<Parsed<(seq<SpawnInfo>, seq<SpawnInfo>, seq<SpawnInfo>, seq<SpawnObjectInfo>)>>)
  {
    var npcs :- ReadCounted(d, p, ReadSpawnInfo);
    var animals :- ReadCounted(d, npcs.next, ReadSpawnInfo);
    var rideables :- ReadCounted(d, animals.next, ReadSpawnInfo);
    var objects :- ReadCounted(d, rideables.next, ReadSpawnObjectInfo);
    Ok(Parsed((npcs.value, animals.value, rideables.value, objects.value), objects.next))
  }

  /** The chariot infos (unknown data), the water vehicle infos and the NPC
      groups (unknown data). */
  function ReadDebugSpawnTail(d: seq<byte>, p: nat): (r: Result<Parsed<seq<SpawnInfo>>>)
    ensures r.Ok? ==> ReadCount(d, p) == Ok(Parsed(0, p + 4))
  {
    UnknownArrayEmpty(d, p);
    var chariots :- ReadCounted(d, p, ReadUnknownData);
    var water :- ReadCounted(d, chariots.next, ReadSpawnInfo);
    var groups :- ReadCounted(d, water.next, ReadUnknownData);
    Ok(Parsed(water.value, groups.next))
  }

  function ReadDebugSpawns(d: seq<byte>, p: nat): (r: Result<Parsed<DebugSpawns>>)
  {
    var head :- ReadDebugSpawnHead(d, p);
    var water :- ReadDebugSpawnTail(d, head.next);
    var (npcs, animals, rideables, objects) := head.value;
    Ok(Parsed(DebugSpawns(npcs, animals, rideables, objects, water.value), water.next))
  }

  /** Unknown1, three references and three counted reference arrays. */
  function ReadDebugBehaviours(d: seq<byte>, p: nat): (r: Result<Parsed<DebugBehaviours>>)
  {
    var unknown1 :- ReadU8(d, p);
    var flee :- ReadReference(d, unknown1.next);
    var follow :- ReadReference(d, flee.next);
    var unknown2 :- ReadReference(d, follow.next);
    var stations :- ReadCounted(d, unknown2.next, ReadReference);
    var animals :- ReadCounted(d, stations.next, ReadReference);
    var vehicles :- ReadCounted(d, animals.next, ReadReference);
    Ok(Parsed(DebugBehaviours(unknown1.value, flee.value, follow.value, unknown2.value, stations.value, animals.value,
                              vehicles.value), vehicles.next))
  }

  /** DebugTag, HostileFaction, UniqueNPCWorldFilter, a reference,
      DebugTag2, two flags and SplineMoversTimeStep. */
  function ReadDebugTail(d: seq<byte>, p: nat): (r: Result<Parsed<DebugTail>>)
  {
    var tag :- ReadBuildTag(d, p);
    var faction :- ReadFactionSelector(d, tag.next);
    var filter :- ReadHandle(d, faction.next);
    var unknown3 :- ReadReference(d, filter.next);
    var tags :- ReadBuildTags(d, unknown3.next);
    var flags :- ReadFlags(d, tags.next, 2);
    var step :- ReadU32(d, flags.next);
    Ok(Parsed(DebugTail(tag.value, faction.value, filter.value, unknown3.value, tags.value, flags.value[0], flags.value[1],
                        step.value), step.next))
  }

  /** DebugSettingsComponent. */
  function ReadDebugSettings(d: seq<byte>, p: nat): (r: Result<Parsed<WorldData>>)
    ensures r.Ok? ==> r.value.value.DebugSettingsComponent?
  {
    var spawns :- ReadDebugSpawns(d, p);
    var behaviours :- ReadDebugBehaviours(d, spawns.next);
    var tail :- ReadDebugTail(d, behaviours.next);
    Ok(Parsed(DebugSettingsComponent(spawns.value, behaviours.value, tail.value), tail.next))
  }

  /** UIWorldComponent: counted HUD mode words. */
  function ReadUiWorld(d: seq<byte>, p: nat): (r: Result<Parsed<WorldData>>)
    ensures r.Ok? ==>
      && r.value.value.UiWorldComponent?
      && ReadCount(d, p).Ok?
      && |r.value.value.hudModes| == ReadCount(d, p).value.value
      && r.value.next == p + 4 + 4 * |r.value.value.hudModes|
  {
    ReadCountedAdvance(d, p, U32Item, 4);
    var modes :- ReadCounted(d, p, U32Item);
    Ok(Parsed(UiWorldComponent(modes.value), modes.next))
  }

  /** BlobSettingsComponent: Enabled, three spawn floats, Unknown2 and
      fourteen words of unspawn, recycle, spreading and corpse settings. */
  function ReadBlobSettings(d: seq<byte>, p: nat): (r: Result<Parsed<WorldData>>)
    ensures r.Ok? <==> p + 70 <= |d|
    ensures r.Ok? ==>
      && r.value.next == p + 70
      && r.value.value.BlobSettingsComponent?
      && |r.value.value.spawnDistances| == 3
      && |r.value.value.unspawnValues| == 14
  {
    var enabled :- ReadFlag(d, p);
    var spawn :- ReadFloats(d, enabled.next, 3);
    var unknown2 :- ReadFlag(d, spawn.next);
    var unspawn :- ReadFloats(d, unknown2.next, 14);
    Ok(Parsed(BlobSettingsComponent(enabled.value, spawn.value, unknown2.value, unspawn.value), unspawn.next))
  }

  /** SpawnSettingsComponent: the three NPC limits and nineteen floats. */
  function ReadSpawnSettings(d: seq<byte>, p: nat): (r: Result<Parsed<WorldData>>)
    ensures r.Ok? <==> p + 88 <= |d|
    ensures r.Ok? ==>
      && r.value.next == p + 88
      && r.value.value.SpawnSettingsComponent?
      && |r.value.value.npcLimits| == 3
      && |r.value.value.lodValues| == 19
  {
    var limits :- ReadFloats(d, p, 3);
    var values :- ReadFloats(d, limits.next, 19);
    Ok(Parsed(SpawnSettingsComponent(limits.value, values.value), values.next))
  }

  /** AmbienceWidth, AmbienceHeight, OriginOffset and the state
      precision. */
  const AmbienceGridL: Layout := [I32, I32, F32, F32, F32]

  /** ACSoundAmbienceManagerComponent: counted global ambiences (a
      SoundInstance always throws), counted state index bytes, counted sound
      states (a SoundState always throws) and the grid. */
  function ReadAcSoundAmbience(d: seq<byte>, p: nat): (r: Result<Parsed<WorldData>>)
    ensures r.Ok? ==> ReadCount(d, p) == Ok(Parsed(0, p + 4))
    ensures r.Ok? ==>
      && r.value.value.AcSoundAmbienceComponent?
      && ReadCount(d, p + 4).Ok?
      && |r.value.value.stateIndexes| == ReadCount(d, p + 4).value.value
      && r.value.next == p + 32 + |r.value.value.stateIndexes|
  {
    assert Size(AmbienceGridL) == 20;
    ReachOfGapless(AmbienceGridL);
    FailingArrayEmpty(d, p, ReadSoundInstance);
    var ambiences :- ReadCounted(d, p, ReadSoundInstance);
    ReadCountedAdvance(d, ambiences.next, ReadU8, 1);
    var indexes :- ReadCounted(d, ambiences.next, ReadU8);
    FailingArrayEmpty(d, indexes.next, ReadSoundState);
    var states :- ReadCounted(d, indexes.next, ReadSoundState);
    var grid :- ReadFields(d, states.next, AmbienceGridL);
    Ok(Parsed(AcSoundAmbienceComponent(indexes.value, grid.value), grid.next))
  }

  /** DesyncManagerComponent: the desynchronization settings. */
  function ReadDesyncManager(d: seq<byte>, p: nat): (r: Result<Parsed<WorldData>>)
    ensures r.Ok? ==> r.value.value.DesyncManagerComponent? && |r.value.value.desync.strings| == 3
  {
    var settings :- ReadDesyncSettings(d, p);
    Ok(Parsed(DesyncManagerComponent(settings.value), settings.next))
  }

  /** CrewAssistanceManagerComponent: SpecialAbilityDataAbstract, a checked
      object pointer. */
  function ReadCrewAssistance(d: seq<byte>, p: nat): (r: Result<Parsed<WorldData>>)
    ensures r.Ok? ==>
      && p < |d|
      && r.value.value.CrewAssistanceManagerComponent?
      && r.value.value.specialAbility.num == d[p] as nat
  {
    var ability :- ReadObjectPtr(d, p, true, 0);
    Ok(Parsed(CrewAssistanceManagerComponent(ability.value), ability.next))
  }

  /** WorldTagRulesComponent: counted tag rules, each a reference. */
  function ReadWorldTagRules(d: seq<byte>, p: nat): (r: Result<Parsed<WorldData>>)
    ensures r.Ok? ==>
      && r.value.value.WorldTagRulesComponent?
      && ReadCount(d, p).Ok?
      && |r.value.value.rules| == ReadCount(d, p).value.value
      && r.value.next == p + 4 + 10 * |r.value.value.rules|
  {
    ReadCountedAdvance(d, p, ReadReference, 10);
    var rules :- ReadCounted(d, p, ReadReference);
    Ok(Parsed(WorldTagRulesComponent(rules.value), rules.next))
  }

  // ---------------------------------------------------------------------
  // Dispatch on the created class

  /** The class a component's data belongs to. */
  predicate DataOfKind(kind: WorldKind, data: WorldData)
  {
    match kind
    case UnknownData => data.UnknownDataComponent?
    case Navigation => data.NavigationComponent?
    case Systemic => data.SystemicComponent?
    case GameplayCoordinator(abstractGameplay) =>
      data.GameplayCoordinatorComponent? && data.abstractGameplay == abstractGameplay
    case DeferredCast => data.DeferredCastComponent?
    case MissionIntroActivator => data.MissionIntroActivatorComponent?
    case CrowdHerder => data.CrowdHerderComponent?
    case VisualAmbiance => data.VisualAmbianceComponent?
    case GameAiWorld => data.GameAiWorldComponent?
    case BulkWorld => data.BulkWorldComponent?
    case PhysicsWorld => data.PhysicsWorldComponent?
    case PermanentIconManager => data.PermanentIconManagerComponent?
    case SpaceWorld => data.SpaceWorldComponent?
    case TransformPrediction => data.TransformPredictionComponent?
    case WorldBookmark => data.WorldBookmarkComponent?
    case AiNetworkInterface => data.AiNetworkInterfaceComponent?
    case MetaAi => data.MetaAiComponent?
    case RideableSummoning => data.RideableSummoningComponent?
    case PersonalRideableManager => data.PersonalRideableManagerComponent?
    case SoundRfxManager => data.SoundRfxManagerComponent?
    case PlayerRestrictionManager => data.PlayerRestrictionManagerComponent?
    case GameWorldAreaFogManager => data.GameWorldAreaFogComponent?
    case RefCountedEventManager => data.RefCountedEventManagerComponent?
    case SoundBank => data.SoundBankComponent?
    case SoundRiverManager => data.SoundRiverManagerComponent?
    case InteriorManager => data.InteriorManagerComponent?
    case DebugSettings => data.DebugSettingsComponent?
    case UiWorld => data.UiWorldComponent?
    case BlobSettings => data.BlobSettingsComponent?
    case SpawnSettings => data.SpawnSettingsComponent?
    case AcSoundAmbienceManager => data.AcSoundAmbienceComponent?
    case DesyncManager => data.DesyncManagerComponent?
    case CrewAssistanceManager => data.CrewAssistanceManagerComponent?
    case WorldTagRules => data.WorldTagRulesComponent?
  }

  /** The classes whose Read reads nothing. */
  predicate ReadsNothing(kind: WorldKind)
  {
    kind.UnknownData? || kind.Systemic? || kind.PlayerRestrictionManager? || kind.RefCountedEventManager?
  }

  /** The kinds created before the unknown-data group, and that group. */
  predicate IsCoreKind(kind: WorldKind)
  {
    || kind.UnknownData? || kind.Navigation? || kind.Systemic? || kind.GameplayCoordinator? || kind.DeferredCast?
    || kind.MissionIntroActivator? || kind.CrowdHerder? || kind.VisualAmbiance? || kind.GameAiWorld?
    || kind.BulkWorld? || kind.PhysicsWorld?
  }

  /** The first eleven kinds created after the unknown-data group. */
  predicate IsManagerKind(kind: WorldKind)
  {
    || kind.PermanentIconManager? || kind.SpaceWorld? || kind.TransformPrediction? || kind.WorldBookmark?
    || kind.AiNetworkInterface? || kind.MetaAi? || kind.RideableSummoning? || kind.PersonalRideableManager?
    || kind.SoundRfxManager? || kind.PlayerRestrictionManager? || kind.GameWorldAreaFogManager?
  }

  function ReadCoreComponent(d: seq<byte>, p: nat, kind: WorldKind): (r: Result<Parsed<WorldData>>)
    requires IsCoreKind(kind)
    ensures r.Ok? ==> DataOfKind(kind, r.value.value)
    ensures ReadsNothing(kind) ==> r.Ok? && r.value.next == p
  {
    if kind.UnknownData? then Ok(Parsed(UnknownDataComponent, p))
    else if kind.Navigation? then ReadNavigation(d, p)
    else if kind.Systemic? then Ok(Parsed(SystemicComponent, p))
    else if kind.GameplayCoordinator? then ReadGameplayCoordinator(d, p, kind.abstractGameplay)
    else if kind.DeferredCast? then ReadDeferredCast(d, p)
    else if kind.MissionIntroActivator? then ReadMissionIntroActivator(d, p)
    else if kind.CrowdHerder? then ReadCrowdHerder(d, p)
    else if kind.VisualAmbiance? then ReadVisualAmbiance(d, p)
    else if kind.GameAiWorld? then ReadGameAiWorld(d, p)
    else if kind.BulkWorld? then ReadBulkWorld(d, p)
    else ReadPhysicsWorld(d, p)
  }

  function ReadManagerComponent(d: seq<byte>, p: nat, kind: WorldKind): (r: Result<Parsed<WorldData>>)
    requires IsManagerKind(kind)
    ensures r.Ok? ==> DataOfKind(kind, r.value.value)
    ensures ReadsNothing(kind) ==> r.Ok? && r.value.next == p
  {
    if kind.PermanentIconManager? then ReadPermanentIconManager(d, p)
    else if kind.SpaceWorld? then ReadSpaceWorld(d, p)
    else if kind.TransformPrediction? then ReadTransformPrediction(d, p)
    else if kind.WorldBookmark? then ReadWorldBookmark(d, p)
    else if kind.AiNetworkInterface? then ReadAiNetworkInterface(d, p)
    else if kind.MetaAi? then ReadMetaAi(d, p)
    else if kind.RideableSummoning? then ReadRideableSummoning(d, p)
    else if kind.PersonalRideableManager? then ReadPersonalRideableManager(d, p)
    else if kind.SoundRfxManager? then ReadSoundRfxManager(d, p)
    else if kind.PlayerRestrictionManager? then Ok(Parsed(PlayerRestrictionManagerComponent, p))
    else ReadGameWorldAreaFog(d, p)
  }

  function ReadSettingsComponent(d: seq<byte>, p: nat, kind: WorldKind): (r: Result<Parsed<WorldData>>)
    requires !IsCoreKind(kind) && !IsManagerKind(kind)
    ensures r.Ok? ==> DataOfKind(kind, r.value.value)
    ensures ReadsNothing(kind) ==> r.Ok? && r.value.next == p
  {
    if kind.RefCountedEventManager? then Ok(Parsed(RefCountedEventManagerComponent, p))
    else if kind.SoundBank? then ReadSoundBank(d, p)
    else if kind.SoundRiverManager? then ReadSoundRiverManager(d, p)
    else if kind.InteriorManager? then ReadInteriorManager(d, p)
    else if kind.DebugSettings? then ReadDebugSettings(d, p)
    else if kind.UiWorld? then ReadUiWorld(d, p)
    else if kind.BlobSettings? then ReadBlobSettings(d, p)
    else if kind.SpawnSettings? then ReadSpawnSettings(d, p)
    else if kind.AcSoundAmbienceManager? then ReadAcSoundAmbience(d, p)
    else if kind.DesyncManager? then ReadDesyncManager(d, p)
    else if kind.CrewAssistanceManager? then ReadCrewAssistance(d, p)
    else ReadWorldTagRules(d, p)
  }

  /** The virtual Read of the class CreateWorldComponent made: the kinds
      that read nothing consume no byte. */
  function ReadWorldComponent(d: seq<byte>, p: nat, kind: WorldKind): (r: Result<Parsed<WorldData>>)
    ensures r.Ok? ==> DataOfKind(kind, r.value.value)
    ensures ReadsNothing(kind) ==> r.Ok? && r.value.next == p
  {
    if IsCoreKind(kind) then ReadCoreComponent(d, p, kind)
    else if IsManagerKind(kind) then ReadManagerComponent(d, p, kind)
    else ReadSettingsComponent(d, p, kind)
  }

  /** Every unknown-data type is created and read without consuming a
      byte. */
  lemma UnknownTypesReadNothing(d: seq<byte>, p: nat, componentType: nat)
    requires IsUnknownDataType(componentType)
    ensures CreateWorldComponent(componentType) == Ok(UnknownData)
    ensures ReadWorldComponent(d, p, UnknownData) == Ok(Parsed(UnknownDataComponent, p))
  {
  }
}

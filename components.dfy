/** The entity components of FORGE/ForgeComponents.cs: the common
    Component prefix, the visual part of a classic component, the guidance
    system, rigid body, audio and fire components, and the dispatch on the
    component type. */
module Components {
  import opened Wrappers
  import opened Bytes
  import opened Cursor
  import opened ForgeObjects
  import opened VisualRecords
  import opened EntityRecords
  import opened DataStream

  // ---------------------------------------------------------------------
  // ComponentType values of the entity components

  const ClassicType: nat := 0xEC658D29
  const GuidanceSystemType: nat := 0x55AF1C3E
  const RigidBodyType: nat := 0xC177D702
  const SoundType: nat := 0xE8134060
  const FireType: nat := 0x1B614D31

  const EntityComponentTypes: set<nat> := {ClassicType, GuidanceSystemType, RigidBodyType, SoundType, FireType}

  // ---------------------------------------------------------------------
  // The common prefix

  /** Active, OptimizedForHardwareInstancing, the component LOD base object
      and ComponentLODBitField. */
  datatype ComponentPrefix = ComponentPrefix(active: bool, hardwareInstancing: bool, lodBase: BaseObject, lodBitField: nat)

  /** Component.Read up to its `visual` check: exactly 15 bytes. */
  function ReadPrefix(d: seq<byte>, p: nat): (r: Result<Parsed<ComponentPrefix>>)
    ensures r.Ok? <==> p + 15 <= |d|
    ensures r.Ok? ==> r.value.next == p + 15
    ensures r.Ok? ==>
      && (r.value.value.active <==> d[p] != 0)
      && (r.value.value.hardwareInstancing <==> d[p + 1] != 0)
      && r.value.value.lodBitField == d[p + 14] as nat
  {
    var active :- ReadFlag(d, p);
    var instancing :- ReadFlag(d, active.next);
    var base :- ReadBaseObject(d, instancing.next);
    var bits :- ReadU8(d, base.next);
    Ok(Parsed(ComponentPrefix(active.value, instancing.value, base.value, bits.value), bits.next))
  }

  // ---------------------------------------------------------------------
  // The visual part of a classic component

  /** HasUnshareContext, OptimizedPackedLOD, DisplayOrder, AllowCameraDither
      and AllowShadowCast. */
  const VisualSettingsL: Layout := [Flag, Flag, I32, Flag, Flag]

  datatype VisualPart = VisualPart(graphicObject: FileReference, instance: SelectorInstance, settings: seq<int>,
                                   autoResizer: nat, numPermutations: nat, shaderConstants: ShaderConstants,
                                   bvScale: seq<int>)

  /** The graphic object reference, 0xD skipped bytes and the LOD selector
      instance. */
  function ReadVisualHead(d: seq<byte>, p: nat): (r: Result<Parsed<(FileReference, SelectorInstance)>>)
    ensures r.Ok? ==>
      && p + 10 <= |d|
      && ReadSelectorInstance(d, p + 23).Ok?
      && r.value.value.1 == ReadSelectorInstance(d, p + 23).value.value
      && r.value.next == ReadSelectorInstance(d, p + 23).value.next
  {
    var graphic :- ReadReference(d, p);
    var instance :- ReadSelectorInstance(d, graphic.next + 0xD);
    Ok(Parsed((graphic.value, instance.value), instance.next))
  }

  /** The settings, the auto resizer, the static permutation count (each
      StaticPermutation reads nothing), the shader constants and BVScale:
      145 bytes. */
  function ReadVisualTail(d: seq<byte>, p: nat): (r: Result<Parsed<(seq<int>, nat, nat, ShaderConstants, seq<int>)>>)
    ensures r.Ok? ==> p + 145 <= |d| && r.value.next == p + 145
    ensures r.Ok? ==> d[p + 8] != 0 && r.value.value.1 == d[p + 8] as nat && r.value.value.2 == IntAt(d, p + 9, 4)
    ensures p + 8 < |d| && d[p + 8] == 0 ==> r.Fail?
  {
    assert Size(VisualSettingsL) == 8;
    ReachOfGapless(VisualSettingsL);
    var settings :- ReadFields(d, p, VisualSettingsL);
    var resizer :- ReadAutoResizer(d, settings.next);
    var permutations :- ReadCount(d, resizer.next);
    var constants :- ReadShaderConstants(d, permutations.next);
    var scale :- ReadVector4(d, constants.next);
    Ok(Parsed((settings.value, resizer.value, permutations.value, constants.value, scale.value), scale.next))
  }

  function ReadVisual(d: seq<byte>, p: nat): (r: Result<Parsed<VisualPart>>)
  {
    var head :- ReadVisualHead(d, p);
    var tail :- ReadVisualTail(d, head.next);
    var (settings, resizer, permutations, constants, scale) := tail.value;
    Ok(Parsed(VisualPart(head.value.0, head.value.1, settings, resizer, permutations, constants, scale), tail.next))
  }

  // ---------------------------------------------------------------------
  // Guidance system

  datatype GuidanceSystem = GuidanceSystem(defaultData: GuidanceData, edgeFilter: EdgeFilter, dynamic: bool, isClear: bool,
                                           firstParallelIndex: nat, partitioner: Partitioner, omniDirectional: bool)

  /** GuidanceSystemComponent.Read after the prefix. */
  function ReadGuidanceSystem(d: seq<byte>, p: nat): (r: Result<Parsed<GuidanceSystem>>)
  {
    var data :- ReadGuidanceData(d, p);
    var filter :- ReadEdgeFilter(d, data.next);
    var flags :- ReadFlags(d, filter.next, 2);
    var first :- ReadU16(d, flags.next);
    var partitioner :- ReadPartitioner(d, first.next);
    var omni :- ReadFlag(d, partitioner.next);
    Ok(Parsed(GuidanceSystem(data.value, filter.value, flags.value[0], flags.value[1], first.value, partitioner.value,
                             omni.value), omni.next))
  }

  // ---------------------------------------------------------------------
  // Rigid body

  /** CollisionReportCapacity, Unknown1, CharacterInteractionMode and
      VehicleInteractionMode. */
  const CollisionModesL: Layout := [I32, I32, I32, I32]

  datatype RigidBodyHead = RigidBodyHead(modes: seq<int>, platformingDescriptor: BaseObjectPtr, resistance: int,
                                         surfaceNavType: BaseObject, body: RigidBody, impactData: FileReference)

  /** The interaction modes, the platforming descriptor (checked pointer),
      Resistance, the surface navigation type, the rigid body and the impact
      data reference. */
  function ReadRigidBodyHead(d: seq<byte>, p: nat): (r: Result<Parsed<RigidBodyHead>>)
  {
    assert Size(CollisionModesL) == 16;
    ReachOfGapless(CollisionModesL);
    var modes :- ReadFields(d, p, CollisionModesL);
    var platforming :- ReadBaseObjectPtr(d, modes.next, true, 0);
    var resistance :- ReadI32(d, platforming.next);
    var nav :- ReadBaseObject(d, resistance.next);
    var body :- ReadRigidBody(d, nav.next);
    var impact :- ReadReference(d, body.next);
    Ok(Parsed(RigidBodyHead(modes.value, platforming.value, resistance.value, nav.value, body.value, impact.value),
              impact.next))
  }

  datatype RigidBodyMotion = RigidBodyMotion(flags: seq<bool>, initTransform: seq<nat>, maxVelocities: seq<nat>,
                                             linearConstraint: seq<nat>, angularConstraint: seq<nat>, unknown2: bool)

  /** Seven flags, EntityInitTranform, MaxLinearVelocity,
      MaxAngularVelocity, the two constraints and one flag: 112 bytes. */
  function ReadRigidBodyMotion(d: seq<byte>, p: nat): (r: Result<Parsed<RigidBodyMotion>>)
    ensures r.Ok? <==> p + 112 <= |d|
    ensures r.Ok? ==> r.value.next == p + 112 && |r.value.value.flags| == 7 && |r.value.value.initTransform| == 16
  {
    var flags :- ReadFlags(d, p, 7);
    var transform :- ReadMatrix(d, flags.next);
    var velocities :- ReadFloats(d, transform.next, 2);
    var linear :- ReadFloats(d, velocities.next, 4);
    var angular :- ReadFloats(d, linear.next, 4);
    var unknown :- ReadFlag(d, angular.next);
    Ok(Parsed(RigidBodyMotion(flags.value, transform.value, velocities.value, linear.value, angular.value, unknown.value),
              unknown.next))
  }

  datatype RigidBodyLinks = RigidBodyLinks(guidanceSystem: ObjectPtr, shapeOverrides: seq<ShapeOverride>,
                                           shadowRigidBody: ObjectPtr, soundOcclusionLinks: seq<ObjectPtr>)

  /** The guidance system (checked pointer), counted shape overrides, the
      shadow rigid body and counted sound occlusion links. */
  function ReadRigidBodyLinks(d: seq<byte>, p: nat): (r: Result<Parsed<RigidBodyLinks>>)
  {
    var guidance :- ReadObjectPtr(d, p, true, 0);
    var overrides :- ReadCounted(d, guidance.next, ReadShapeOverride);
    var shadow :- ReadHandle(d, overrides.next);
    var links :- ReadCounted(d, shadow.next, ReadHandle);
    Ok(Parsed(RigidBodyLinks(guidance.value, overrides.value, shadow.value, links.value), links.next))
  }

  datatype RigidBodyData = RigidBodyData(head: RigidBodyHead, motion: RigidBodyMotion, links: RigidBodyLinks)

  /** RigidBodyComponent.Read after the prefix. */
  function ReadRigidBodyData(d: seq<byte>, p: nat): (r: Result<Parsed<RigidBodyData>>)
  {
    var head :- ReadRigidBodyHead(d, p);
    var motion :- ReadRigidBodyMotion(d, head.next);
    var links :- ReadRigidBodyLinks(d, motion.next);
    Ok(Parsed(RigidBodyData(head.value, motion.value, links.value), links.next))
  }

  // ---------------------------------------------------------------------
  // Audio

  datatype Audio = Audio(subEmitters: seq<SoundSubComponent>, voiceSubEmitterIndex: int)

  /** AudioComponent.Read after the prefix: counted sub-emitters and the
      voice sub-emitter index. */
  function ReadAudio(d: seq<byte>, p: nat): (r: Result<Parsed<Audio>>)
    ensures r.Ok? ==> ReadCount(d, p).Ok? && |r.value.value.subEmitters| == ReadCount(d, p).value.value
    ensures r.Ok? ==> r.value.next == p + 8 + 105 * |r.value.value.subEmitters|
  {
    ReadCountedAdvance(d, p, ReadSoundSubComponent, 105);
    var emitters :- ReadCounted(d, p, ReadSoundSubComponent);
    var voice :- ReadI32(d, emitters.next);
    Ok(Parsed(Audio(emitters.value, voice.value), voice.next))
  }

  // ---------------------------------------------------------------------
  // Fire

  /** The effect references after Unknown1: GlobalFX, ParticleFX,
      FireDamage, FireEnergy, FireResistance, CustomizedFireSoundSet,
      FirePropertyZone and PropagationConditions. */
  const FireEffectCount: nat := 8

  datatype FireEffects = FireEffects(fireSettings: FileReference, unknown1: nat, effects: seq<FileReference>, isPersistent: bool)

  function ReadEffectReferences(d: seq<byte>, p: nat): (r: Result<Parsed<seq<FileReference>>>)
    ensures r.Ok? <==> p + 80 <= |d|
    ensures r.Ok? ==> r.value.next == p + 80 && |r.value.value| == FireEffectCount
  {
    ReadManyFits(d, p, FireEffectCount, ReadReference, 10);
    ReadManyAdvance(d, p, FireEffectCount, ReadReference, 10);
    ReadMany(d, p, FireEffectCount, ReadReference)
  }

  /** FireSettings, Unknown1, the eight effects and IsPersistent: 95 bytes. */
  function ReadFireEffects(d: seq<byte>, p: nat): (r: Result<Parsed<FireEffects>>)
    ensures r.Ok? <==> p + 95 <= |d|
    ensures r.Ok? ==> r.value.next == p + 95 && |r.value.value.effects| == FireEffectCount
  {
    var settings :- ReadReference(d, p);
    var unknown :- ReadU32(d, settings.next);
    var effects :- ReadEffectReferences(d, unknown.next);
    var persistent :- ReadFlag(d, effects.next);
    Ok(Parsed(FireEffects(settings.value, unknown.value, effects.value, persistent.value), persistent.next))
  }

  datatype FireTail = FireTail(descriptors: seq<nat>, numLightVisuals: int, unknown2: bool)

  /** The counted component descriptors, NumLightVisuals and a flag. The
      light visuals are unknown data, so any positive NumLightVisuals
      throws. */
  function ReadFireTail(d: seq<byte>, p: nat): (r: Result<Parsed<FireTail>>)
    ensures r.Ok? ==> r.value.value.numLightVisuals <= 0
    ensures var descriptors := ReadCounted(d, p, U32Item);
      (descriptors.Ok? && ReadI32(d, descriptors.value.next).Ok? && ReadI32(d, descriptors.value.next).value.value > 0)
      ==> r == Fail(NotImplemented)
  {
    var descriptors :- ReadCounted(d, p, U32Item);
    var lights :- ReadI32(d, descriptors.next);
    if lights.value > 0 then Fail(NotImplemented)
    else
      var unknown :- ReadFlag(d, lights.next);
      Ok(Parsed(FireTail(descriptors.value, lights.value, unknown.value), unknown.next))
  }

  datatype Fire = Fire(template: FileReference, particles: seq<FireParticle>, effects: FireEffects, tail: FireTail)

  /** FireComponent.Read after the prefix. */
  function ReadFire(d: seq<byte>, p: nat): (r: Result<Parsed<Fire>>)
    ensures r.Ok? ==> r.value.value.tail.numLightVisuals <= 0
  {
    var template :- ReadReference(d, p);
    var particles :- ReadCounted(d, template.next, ReadFireParticle);
    var effects :- ReadFireEffects(d, particles.next);
    var tail :- ReadFireTail(d, effects.next);
    Ok(Parsed(Fire(template.value, particles.value, effects.value, tail.value), tail.next))
  }

  // ---------------------------------------------------------------------
  // Dispatch

  datatype Component =
    | ClassicComponent(prefix: ComponentPrefix, visual: VisualPart)
    | GuidanceSystemComponent(prefix: ComponentPrefix, guidance: GuidanceSystem)
    | RigidBodyComponent(prefix: ComponentPrefix, rigidBody: RigidBodyData)
    | AudioComponent(prefix: ComponentPrefix, audio: Audio)
    | FireComponent(prefix: ComponentPrefix, fire: Fire)
  {
    /** The ComponentType a component of this class is created for. */
    function ComponentType(): nat
    {
      match this
      case ClassicComponent(_, _) => ClassicType
      case GuidanceSystemComponent(_, _) => GuidanceSystemType
      case RigidBodyComponent(_, _) => RigidBodyType
      case AudioComponent(_, _) => SoundType
      case FireComponent(_, _) => FireType
    }
  }

  function ReadClassic(d: seq<byte>, p: nat, prefix: ComponentPrefix): (r: Result<Parsed<Component>>)
    ensures r.Ok? ==> r.value.value.ClassicComponent? && r.value.value.prefix == prefix
  {
    var visual :- ReadVisual(d, p);
    Ok(Parsed(ClassicComponent(prefix, visual.value), visual.next))
  }

  function ReadGuidanceSystemComponent(d: seq<byte>, p: nat, prefix: ComponentPrefix): (r: Result<Parsed<Component>>)
    ensures r.Ok? ==> r.value.value.GuidanceSystemComponent? && r.value.value.prefix == prefix
  {
    var guidance :- ReadGuidanceSystem(d, p);
    Ok(Parsed(GuidanceSystemComponent(prefix, guidance.value), guidance.next))
  }

  function ReadRigidBodyComponent(d: seq<byte>, p: nat, prefix: ComponentPrefix): (r: Result<Parsed<Component>>)
    ensures r.Ok? ==> r.value.value.RigidBodyComponent? && r.value.value.prefix == prefix
  {
    var body :- ReadRigidBodyData(d, p);
    Ok(Parsed(RigidBodyComponent(prefix, body.value), body.next))
  }

  function ReadAudioComponent(d: seq<byte>, p: nat, prefix: ComponentPrefix): (r: Result<Parsed<Component>>)
    ensures r.Ok? ==> r.value.value.AudioComponent? && r.value.value.prefix == prefix
  {
    var audio :- ReadAudio(d, p);
    Ok(Parsed(AudioComponent(prefix, audio.value), audio.next))
  }

  function ReadFireComponent(d: seq<byte>, p: nat, prefix: ComponentPrefix): (r: Result<Parsed<Component>>)
    ensures r.Ok? ==> r.value.value.FireComponent? && r.value.value.prefix == prefix
  {
    var fire :- ReadFire(d, p);
    Ok(Parsed(FireComponent(prefix, fire.value), fire.next))
  }

  /** The component body for a type, read after the prefix. */
  function ReadComponentBody(d: seq<byte>, p: nat, prefix: ComponentPrefix, componentType: nat): (r: Result<Parsed<Component>>)
    ensures r.Ok? ==> r.value.value.prefix == prefix && r.value.value.ComponentType() == componentType
  {
    if componentType == ClassicType then ReadClassic(d, p, prefix)
    else if componentType == GuidanceSystemType then ReadGuidanceSystemComponent(d, p, prefix)
    else if componentType == RigidBodyType then ReadRigidBodyComponent(d, p, prefix)
    else if componentType == SoundType then ReadAudioComponent(d, p, prefix)
    else if componentType == FireType then ReadFireComponent(d, p, prefix)
    else Fail(UnknownTag)
  }

  /** The switch of ForgeEntity.Read: the five entity component types are
      read, each starting with the common prefix; any other type fails
      before anything is read. */
  function ReadComponent(d: seq<byte>, p: nat, componentType: nat): (r: Result<Parsed<Component>>)
    ensures componentType !in EntityComponentTypes ==> r == Fail(UnknownTag)
    ensures r.Ok? ==> componentType in EntityComponentTypes && r.value.value.ComponentType() == componentType
    ensures r.Ok? ==> ReadPrefix(d, p).Ok? && r.value.value.prefix == ReadPrefix(d, p).value.value
  {
    if componentType !in EntityComponentTypes then Fail(UnknownTag)
    else
      var prefix :- ReadPrefix(d, p);
      ReadComponentBody(d, prefix.next, prefix.value, componentType)
  }

  /** The five entity component types are distinct, so each selects its
      own class. */
  lemma EntityComponentTypesDistinct()
    ensures |EntityComponentTypes| == 5
  {
  }

  // ---------------------------------------------------------------------
  // Reading on a DataReader

  /** AudioComponent.Read after the prefix, filling the sub-emitter array. */
  method ReadAudioFrom(reader: DataReader) returns (r: Result<Audio>)
    modifies reader
    ensures r.Fail? ==> ReadAudio(reader.data, old(reader.position)).Fail?
    ensures r.Ok? ==> ReadAudio(reader.data, old(reader.position)) == Ok(Parsed(r.value, reader.position))
  {
    var emitters :- reader.ReadCountedArray(ReadSoundSubComponent, DefaultSubComponent);
    var voice :- reader.Read(ReadI32);
    r := Ok(Audio(emitters[..], voice));
  }

  /** Component.Read and the subclasses' Read on a reader. */
  method ReadComponentFrom(reader: DataReader, componentType: nat) returns (r: Result<Component>)
    modifies reader
    ensures r.Fail? ==> ReadComponent(reader.data, old(reader.position), componentType).Fail?
    ensures r.Ok? ==> ReadComponent(reader.data, old(reader.position), componentType) == Ok(Parsed(r.value, reader.position))
  {
    if componentType !in EntityComponentTypes {
      return Fail(UnknownTag);
    }
    ghost var start := reader.position;
    var prefix :- reader.Read(ReadPrefix);
    assert ReadComponent(reader.data, start, componentType) == ReadComponentBody(reader.data, reader.position, prefix, componentType);
    r := ReadComponentBodyFrom(reader, prefix, componentType);
  }

  /** The component body after its prefix: the audio component fills its
      sub-emitter array on the reader, the others are read whole. */
  method ReadComponentBodyFrom(reader: DataReader, prefix: ComponentPrefix, componentType: nat) returns (r: Result<Component>)
    modifies reader
    ensures r.Fail? ==> ReadComponentBody(reader.data, old(reader.position), prefix, componentType).Fail?
    ensures r.Ok? ==>
      ReadComponentBody(reader.data, old(reader.position), prefix, componentType) == Ok(Parsed(r.value, reader.position))
  {
    if componentType == SoundType {
      SoundBody(reader.data, reader.position, prefix);
      r := ReadAudioComponentFrom(reader, prefix);
    } else {
      r := reader.Read((d, p) => ReadComponentBody(d, p, prefix, componentType));
    }
  }

  /** The sound component type selects the audio component. */
  lemma SoundBody(d: seq<byte>, p: nat, prefix: ComponentPrefix)
    ensures ReadComponentBody(d, p, prefix, SoundType) == ReadAudioComponent(d, p, prefix)
  {
  }

  /** The audio component after its prefix, its sub-emitters read on the
      reader. */
  method ReadAudioComponentFrom(reader: DataReader, prefix: ComponentPrefix) returns (r: Result<Component>)
    modifies reader
    ensures r.Fail? ==> ReadAudioComponent(reader.data, old(reader.position), prefix).Fail?
    ensures r.Ok? ==> ReadAudioComponent(reader.data, old(reader.position), prefix) == Ok(Parsed(r.value, reader.position))
  {
    var audio :- ReadAudioFrom(reader);
    r := Ok(AudioComponent(prefix, audio));
  }

  const DefaultSubComponent := SoundSubComponent(BaseObjectPtr(FileReference(0, 0, 0), 0),
                                                 SoundEmitter(NoBase, [], FileReference(0, 0, 0), 0, NoBase, 0, []),
                                                 [], 0, 0, false)
}

/** The records of Resources/ForgeEntityGroup.cs that entities and the
    guidance, rigid body, audio and fire components are made of. Float
    fields are kept as raw 32-bit words and booleans as flags. */
module EntityRecords {
  import opened Wrappers
  import opened Bytes
  import opened Cursor
  import opened ForgeObjects

  // ---------------------------------------------------------------------
  // Fire and sound

  /** FireParticle: the particle pointer, CustomFX, then FXPositionOffset,
      FXRadiusModifier, ParticleShape, BipedBone, Radius, HalfExtentsInternal,
      LocalPosition, LocalRotation, the Tag pointer and two flags. */
  datatype FireParticle = FireParticle(ptr: BaseObjectPtr, customFx: FileReference, positionOffset: seq<int>,
                                       shape: seq<int>, halfExtents: seq<int>, localPosition: seq<int>,
                                       localRotation: seq<int>, tag: ObjectPtr, flags: seq<bool>)

  /** FXRadiusModifier, ParticleShape, BipedBone and Radius. */
  const ParticleShapeL: Layout := [F32, I32, I32, F32]

  /** The particle up to its shape, 56 bytes. */
  function ReadParticleHead(d: seq<byte>, p: nat): (r: Result<Parsed<(BaseObjectPtr, FileReference, seq<int>, seq<int>)>>)
    ensures r.Ok? <==> p + 56 <= |d|
    ensures r.Ok? ==> r.value.next == p + 56
  {
    assert Size(ParticleShapeL) == 16;
    ReachOfGapless(ParticleShapeL);
    var ptr :- ReadPtr(d, p);
    var fx :- ReadReference(d, ptr.next);
    var offset :- ReadVector4(d, fx.next);
    var shape :- ReadFields(d, offset.next, ParticleShapeL);
    Ok(Parsed((ptr.value, fx.value, offset.value, shape.value), shape.next))
  }

  /** The particle after its shape, 55 bytes. */
  function ReadParticleTail(d: seq<byte>, p: nat): (r: Result<Parsed<(seq<int>, seq<int>, seq<int>, ObjectPtr, seq<bool>)>>)
    ensures r.Ok? <==> p + 55 <= |d|
    ensures r.Ok? ==> r.value.next == p + 55
  {
    var extents :- ReadVector4(d, p);
    var position :- ReadVector3(d, extents.next);
    var rotation :- ReadVector4(d, position.next);
    var tag :- ReadHandle(d, rotation.next);
    var flags :- ReadFlags(d, tag.next, 2);
    Ok(Parsed((extents.value, position.value, rotation.value, tag.value, flags.value), flags.next))
  }

  /** FireParticle.Read: always 111 bytes. */
  function ReadFireParticle(d: seq<byte>, p: nat): (r: Result<Parsed<FireParticle>>)
    ensures r.Ok? <==> p + 111 <= |d|
    ensures r.Ok? ==> r.value.next == p + 111
  {
    var head :- ReadParticleHead(d, p);
    var tail :- ReadParticleTail(d, head.next);
    var (ptr, fx, offset, shape) := head.value;
    var (extents, position, rotation, tag, flags) := tail.value;
    Ok(Parsed(FireParticle(ptr, fx, offset, shape, extents, position, rotation, tag, flags), tail.next))
  }

  /** SoundEmitter: a base object, eight flags, the occlusion cone
      attenuation reference, the orientation angle, the switch dependencies'
      base object and preset index, and four element counts (switch values,
      RTPCs, register and unregister instances) whose elements are never
      read. */
  datatype SoundEmitter = SoundEmitter(base: BaseObject, flags: seq<bool>, coneAttenuation: FileReference, orientation: nat,
                                       switchBase: BaseObject, switchPresetIndex: int, counts: seq<int>)

  /** The switch dependencies' preset index and the four counts. */
  const EmitterCountsL: Layout := [I32, I32, I32, I32, I32]

  /** The emitter up to its orientation angle, 34 bytes. */
  function ReadEmitterHead(d: seq<byte>, p: nat): (r: Result<Parsed<(BaseObject, seq<bool>, FileReference, nat)>>)
    ensures r.Ok? <==> p + 34 <= |d|
    ensures r.Ok? ==> r.value.next == p + 34
  {
    var base :- ReadBaseObject(d, p);
    var flags :- ReadFlags(d, base.next, 8);
    var cone :- ReadReference(d, flags.next);
    var angle :- ReadU32(d, cone.next);
    Ok(Parsed((base.value, flags.value, cone.value, angle.value), angle.next))
  }

  /** SoundEmitter.Read: always 66 bytes, and the counts allocate nothing. */
  function ReadSoundEmitter(d: seq<byte>, p: nat): (r: Result<Parsed<SoundEmitter>>)
    ensures r.Ok? <==> p + 66 <= |d|
    ensures r.Ok? ==> r.value.next == p + 66 && |r.value.value.counts| == 4
  {
    assert Size(EmitterCountsL) == 20 && Count(EmitterCountsL) == 5;
    ReachOfGapless(EmitterCountsL);
    var head :- ReadEmitterHead(d, p);
    var switchBase :- ReadBaseObject(d, head.next);
    var ints :- ReadFields(d, switchBase.next, EmitterCountsL);
    var (base, flags, cone, angle) := head.value;
    Ok(Parsed(SoundEmitter(base, flags, cone, angle, switchBase.value, ints.value[0], ints.value[1..]), ints.next))
  }

  /** SimpleSoundSubComponent: a pointer, an emitter, PersistentLocalPosition,
      two emitter tags and ActivateHWInstancing. */
  datatype SoundSubComponent = SoundSubComponent(ptr: BaseObjectPtr, emitter: SoundEmitter, localPosition: seq<int>,
                                                 tag1: int, tag2: int, hwInstancing: bool)

  /** SimpleSoundSubComponent.Read: always 105 bytes. */
  function ReadSoundSubComponent(d: seq<byte>, p: nat): (r: Result<Parsed<SoundSubComponent>>)
    ensures r.Ok? <==> p + 105 <= |d|
    ensures r.Ok? ==> r.value.next == p + 105
  {
    var ptr :- ReadPtr(d, p);
    var emitter :- ReadSoundEmitter(d, ptr.next);
    var position :- ReadVector4(d, emitter.next);
    var tag1 :- ReadI32(d, position.next);
    var tag2 :- ReadI32(d, tag1.next);
    var hw :- ReadFlag(d, tag2.next);
    Ok(Parsed(SoundSubComponent(ptr.value, emitter.value, position.value, tag1.value, tag2.value, hw.value), hw.next))
  }

  /** SoundRTPC: a base object, a SoundID (base object and short ID), the
      initial value and the precision. */
  datatype SoundRtpc = SoundRtpc(base: BaseObject, idBase: BaseObject, shortId: nat, initValue: nat, precision: nat)

  function ReadSoundRtpc(d: seq<byte>, p: nat): (r: Result<Parsed<SoundRtpc>>)
    ensures r.Ok? <==> p + 36 <= |d|
    ensures r.Ok? ==> r.value.next == p + 36
  {
    var base :- ReadBaseObject(d, p);
    var idBase :- ReadBaseObject(d, base.next);
    var shortId :- ReadU32(d, idBase.next);
    var init :- ReadU32(d, shortId.next);
    var precision :- ReadU32(d, init.next);
    Ok(Parsed(SoundRtpc(base.value, idBase.value, shortId.value, init.value, precision.value), precision.next))
  }

  /** TimeOfDayTransition: a base object and the associated layer pointer. */
  datatype TimeOfDayTransition = TimeOfDayTransition(base: BaseObject, associatedLayer: ObjectPtr)

  function ReadTimeOfDayTransition(d: seq<byte>, p: nat): (r: Result<Parsed<TimeOfDayTransition>>)
    ensures r.Ok? <==> p + 21 <= |d|
    ensures r.Ok? ==> r.value.next == p + 21
  {
    var base :- ReadBaseObject(d, p);
    var layer :- ReadHandle(d, base.next);
    Ok(Parsed(TimeOfDayTransition(base.value, layer.value), layer.next))
  }

  // ---------------------------------------------------------------------
  // Collision and rigid bodies

  /** CollisionFilterInfo: a base object, Layer, Part and nine flags. */
  datatype CollisionFilter = CollisionFilter(base: BaseObject, layer: int, part: int, flags: seq<bool>)

  function ReadCollisionFilter(d: seq<byte>, p: nat): (r: Result<Parsed<CollisionFilter>>)
    ensures r.Ok? <==> p + 29 <= |d|
    ensures r.Ok? ==> r.value.next == p + 29
  {
    var base :- ReadBaseObject(d, p);
    var layer :- ReadI32(d, base.next);
    var part :- ReadI32(d, layer.next);
    var flags :- ReadFlags(d, part.next, 9);
    Ok(Parsed(CollisionFilter(base.value, layer.value, part.value, flags.value), flags.next))
  }

  /** ListShapeOverrideData: a base object, IsGround and a filter. */
  datatype ShapeOverride = ShapeOverride(base: BaseObject, isGround: bool, filter: CollisionFilter)

  function ReadShapeOverride(d: seq<byte>, p: nat): (r: Result<Parsed<ShapeOverride>>)
    ensures r.Ok? <==> p + 42 <= |d|
    ensures r.Ok? ==> r.value.next == p + 42
  {
    var base :- ReadBaseObject(d, p);
    var ground :- ReadFlag(d, base.next);
    var filter :- ReadCollisionFilter(d, ground.next);
    Ok(Parsed(ShapeOverride(base.value, ground.value, filter.value), filter.next))
  }

  /** RigidBody: a base object, a filter, the Material reference, Quality,
      the Shape and OwnedShape references, Mass, LinearDamping,
      AngularDamping, GravityFactor and DrivingMode (raw words) and five
      flags. */
  datatype RigidBody = RigidBody(base: BaseObject, filter: CollisionFilter, material: FileReference, quality: int,
                                 shape: FileReference, ownedShape: FileReference, scalars: seq<nat>, flags: seq<bool>)

  /** The rigid body up to its quality, 55 bytes. */
  function ReadRigidBodyHead(d: seq<byte>, p: nat): (r: Result<Parsed<(BaseObject, CollisionFilter, FileReference, int)>>)
    ensures r.Ok? <==> p + 55 <= |d|
    ensures r.Ok? ==> r.value.next == p + 55
  {
    var base :- ReadBaseObject(d, p);
    var filter :- ReadCollisionFilter(d, base.next);
    var material :- ReadReference(d, filter.next);
    var quality :- ReadI32(d, material.next);
    Ok(Parsed((base.value, filter.value, material.value, quality.value), quality.next))
  }

  /** RigidBody.Read: always 100 bytes. */
  function ReadRigidBody(d: seq<byte>, p: nat): (r: Result<Parsed<RigidBody>>)
    ensures r.Ok? <==> p + 100 <= |d|
    ensures r.Ok? ==> r.value.next == p + 100
  {
    var head :- ReadRigidBodyHead(d, p);
    var shape :- ReadReference(d, head.next);
    var owned :- ReadReference(d, shape.next);
    var scalars :- ReadFloats(d, owned.next, 5);
    var flags :- ReadFlags(d, scalars.next, 5);
    var (base, filter, material, quality) := head.value;
    Ok(Parsed(RigidBody(base, filter, material, quality, shape.value, owned.value, scalars.value, flags.value), flags.next))
  }

  // ---------------------------------------------------------------------
  // Guidance

  /** GuidanceObjectTypingInfo: a base object, SubType and six flags. */
  datatype TypingInfo = TypingInfo(base: BaseObject, subType: int, flags: seq<bool>)

  function ReadTypingInfo(d: seq<byte>, p: nat): (r: Result<Parsed<TypingInfo>>)
    ensures r.Ok? <==> p + 22 <= |d|
    ensures r.Ok? ==> r.value.next == p + 22
  {
    var base :- ReadBaseObject(d, p);
    var sub :- ReadI32(d, base.next);
    var flags :- ReadFlags(d, sub.next, 6);
    Ok(Parsed(TypingInfo(base.value, sub.value, flags.value), flags.next))
  }

  /** GuidanceObject: a base object, Valid, two indices, the typing info and
      two packed normals. */
  datatype GuidanceObject = GuidanceObject(base: BaseObject, valid: bool, index0: int, index1: int, typing: TypingInfo,
                                           normal0: nat, normal1: nat)

  function ReadGuidanceObject(d: seq<byte>, p: nat): (r: Result<Parsed<GuidanceObject>>)
    ensures r.Ok? <==> p + 51 <= |d|
    ensures r.Ok? ==> r.value.next == p + 51
  {
    var base :- ReadBaseObject(d, p);
    var valid :- ReadFlag(d, base.next);
    var i0 :- ReadI32(d, valid.next);
    var i1 :- ReadI32(d, i0.next);
    var typing :- ReadTypingInfo(d, i1.next);
    var n0 :- ReadU32(d, typing.next);
    var n1 :- ReadU32(d, n0.next);
    Ok(Parsed(GuidanceObject(base.value, valid.value, i0.value, i1.value, typing.value, n0.value, n1.value), n1.next))
  }

  /** GuidanceSystemData: 13 skipped bytes, counted guidance objects and
      counted points. */
  datatype GuidanceData = GuidanceData(objects: seq<GuidanceObject>, points: seq<seq<int>>)

  function ReadGuidanceData(d: seq<byte>, p: nat): (r: Result<Parsed<GuidanceData>>)
  {
    var objects :- ReadCounted(d, p + 0xD, ReadGuidanceObject);
    var points :- ReadCounted(d, objects.next, ReadVector3);
    Ok(Parsed(GuidanceData(objects.value, points.value), points.next))
  }

  lemma GuidanceObjectSize(d: seq<byte>)
    ensures forall q: nat :: ReadGuidanceObject(d, q).Ok? ==> ReadGuidanceObject(d, q).value.next == q + 51
  {
  }

  /** The objects are 51 bytes each and the points 12, each run behind its
      own count. */
  lemma GuidanceDataLayout(d: seq<byte>, p: nat, g: GuidanceData, next: nat)
    requires ReadGuidanceData(d, p) == Ok(Parsed(g, next))
    ensures ReadCount(d, p + 0xD) == Ok(Parsed(|g.objects|, p + 0xD + 4))
    ensures ReadCount(d, p + 0xD + 4 + |g.objects| * 51) == Ok(Parsed(|g.points|, p + 0xD + 8 + |g.objects| * 51))
    ensures next == p + 0xD + 8 + |g.objects| * 51 + |g.points| * 12
  {
    var mid := GuidanceDataSplit(d, p, g, next);
    GuidanceObjectsRun(d, p + 0xD, g.objects, mid);
    CountedRunAt(d, mid, ReadVector3, 12, g.points, next);
  }

  /** A guidance data record is its objects run followed by its points run. */
  lemma GuidanceDataSplit(d: seq<byte>, p: nat, g: GuidanceData, next: nat) returns (mid: nat)
    requires ReadGuidanceData(d, p) == Ok(Parsed(g, next))
    ensures ReadCounted(d, p + 0xD, ReadGuidanceObject) == Ok(Parsed(g.objects, mid))
    ensures ReadCounted(d, mid, ReadVector3) == Ok(Parsed(g.points, next))
  {
    mid := ReadCounted(d, p + 0xD, ReadGuidanceObject).value.next;
  }

  /** A counted run of guidance objects is 51 bytes per object. */
  lemma GuidanceObjectsRun(d: seq<byte>, p: nat, objects: seq<GuidanceObject>, next: nat)
    requires ReadCounted(d, p, ReadGuidanceObject) == Ok(Parsed(objects, next))
    ensures ReadCount(d, p) == Ok(Parsed(|objects|, p + 4))
    ensures next == p + 4 + |objects| * 51
  {
    GuidanceObjectSize(d);
    CountedRunAt(d, p, ReadGuidanceObject, 51, objects, next);
  }

  /** EdgeFilter: 12 skipped bytes, eight flags and four raw float words. */
  datatype EdgeFilter = EdgeFilter(flags: seq<bool>, angles: seq<nat>)

  function ReadEdgeFilter(d: seq<byte>, p: nat): (r: Result<Parsed<EdgeFilter>>)
    ensures r.Ok? <==> p + 36 <= |d|
    ensures r.Ok? ==> r.value.next == p + 36
  {
    var flags :- ReadFlags(d, p + 0xC, 8);
    var angles :- ReadFloats(d, flags.next, 4);
    Ok(Parsed(EdgeFilter(flags.value, angles.value), angles.next))
  }

  /** PartNode: a base object, NodeType, two 16-bit indices and Middle. */
  datatype PartNode = PartNode(base: BaseObject, nodeType: int, index0: nat, index1: nat, middle: nat)

  function ReadPartNode(d: seq<byte>, p: nat): (r: Result<Parsed<PartNode>>)
    ensures r.Ok? <==> p + 24 <= |d|
    ensures r.Ok? ==> r.value.next == p + 24
  {
    var base :- ReadBaseObject(d, p);
    var kind :- ReadI32(d, base.next);
    var i0 :- ReadU16(d, kind.next);
    var i1 :- ReadU16(d, i0.next);
    var middle :- ReadU32(d, i1.next);
    Ok(Parsed(PartNode(base.value, kind.value, i0.value, i1.value, middle.value), middle.next))
  }

  /** Partitioner: 13 skipped bytes, RootIndex, an unsigned count of 16-bit
      leaf indices, the Min and Max corners and an unsigned count of nodes.
      Both counts are unsigned, so no count makes the allocation fail. */
  datatype Partitioner = Partitioner(rootIndex: nat, leafs: seq<nat>, min: seq<int>, max: seq<int>, nodes: seq<PartNode>)

  /** The partitioner up to its nodes. */
  function ReadPartitionerHead(d: seq<byte>, p: nat): (r: Result<Parsed<(nat, seq<nat>, seq<int>, seq<int>)>>)
    ensures r.Ok? ==> ReadU32(d, p + 15).Ok? && |r.value.value.1| == ReadU32(d, p + 15).value.value
    ensures r.Ok? ==> r.value.next == p + 19 + 2 * |r.value.value.1| + 24
  {
    var root :- ReadU16(d, p + 0xD);
    var numLeafs :- ReadU32(d, root.next);
    ReadManyAdvance(d, numLeafs.next, numLeafs.value, ReadU16, 2);
    var leafs :- ReadMany(d, numLeafs.next, numLeafs.value, ReadU16);
    var min :- ReadVector3(d, leafs.next);
    var max :- ReadVector3(d, min.next);
    Ok(Parsed((root.value, leafs.value, min.value, max.value), max.next))
  }

  function ReadPartitioner(d: seq<byte>, p: nat): (r: Result<Parsed<Partitioner>>)
    ensures r.Ok? ==> ReadU32(d, p + 15).Ok? && |r.value.value.leafs| == ReadU32(d, p + 15).value.value
  {
    var head :- ReadPartitionerHead(d, p);
    var numNodes :- ReadU32(d, head.next);
    var nodes :- ReadMany(d, numNodes.next, numNodes.value, ReadPartNode);
    var (root, leafs, min, max) := head.value;
    Ok(Parsed(Partitioner(root, leafs, min, max, nodes.value), nodes.next))
  }

  // ---------------------------------------------------------------------
  // Entity parts

  /** EntityDescriptor: a base object, DescriptorType, SubDescriptorType,
      ExplicitProperty, three pickability flags, ADBEntryID and one more
      flag. */
  datatype EntityDescriptor = EntityDescriptor(base: BaseObject, descriptorType: int, subDescriptorType: nat,
                                               explicitProperty: nat, pickable: seq<bool>, adbEntryId: nat, unknown1: bool)

  function ReadEntityDescriptor(d: seq<byte>, p: nat): (r: Result<Parsed<EntityDescriptor>>)
    ensures r.Ok? <==> p + 32 <= |d|
    ensures r.Ok? ==> r.value.next == p + 32
  {
    var base :- ReadBaseObject(d, p);
    var kind :- ReadI32(d, base.next);
    var sub :- ReadU32(d, kind.next);
    var explicit :- ReadU32(d, sub.next);
    var pickable :- ReadFlags(d, explicit.next, 3);
    var adb :- ReadU32(d, pickable.next);
    var unknown :- ReadFlag(d, adb.next);
    Ok(Parsed(EntityDescriptor(base.value, kind.value, sub.value, explicit.value, pickable.value, adb.value, unknown.value),
              unknown.next))
  }

  /** DataLayerAction: an unknown block of which nothing is read. */
  datatype DataLayerAction = DataLayerAction

  /** DataLayerFilter: a base object whose Unknown_4h word is the number of
      layer actions; there is no length prefix of its own. */
  datatype DataLayerFilter = DataLayerFilter(base: BaseObject, actions: seq<DataLayerAction>)

  function ReadDataLayerFilter(d: seq<byte>, p: nat): (r: Result<Parsed<DataLayerFilter>>)
    ensures r.Ok? <==> p + 12 <= |d|
    ensures r.Ok? ==> r.value.next == p + 12
    ensures r.Ok? ==> |r.value.value.actions| == UIntAt(d, p + 4, 4) == r.value.value.base.unknown4
  {
    var base :- ReadBaseObject(d, p);
    Ok(Parsed(DataLayerFilter(base.value, seq(base.value.unknown4, _ => DataLayerAction)), base.next))
  }

  /** GameStateData: Unknown1, a checked ForgeObject (a count byte of 3 ends
      only the object, not the record), PropertyCount, and two
      length-prefixed byte buffers. */
  datatype GameStateData = GameStateData(unknown1: int, obj: ForgeObject, propertyCount: int, descBuffer: seq<byte>,
                                         dataBuffer: seq<byte>)

  function ReadGameStateData(d: seq<byte>, p: nat): (r: Result<Parsed<GameStateData>>)
    ensures r.Ok? ==> p + 5 <= |d| && r.value.value.obj.num == d[p + 4] as nat
    ensures r.Ok? ==> var q := p + (if d[p + 4] == 3 then 9 else 21);
      r.value.next == q + 8 + |r.value.value.descBuffer| + |r.value.value.dataBuffer|
  {
    var unknown :- ReadI32(d, p);
    var obj :- ReadForgeObject(d, unknown.next, true);
    var count :- ReadI32(d, obj.next);
    var descSize :- ReadI32(d, count.next);
    var desc :- ReadBytes(d, descSize.next, descSize.value);
    var dataSize :- ReadI32(d, desc.next);
    var data :- ReadBytes(d, dataSize.next, dataSize.value);
    Ok(Parsed(GameStateData(unknown.value, obj.value, count.value, desc.value, data.value), data.next))
  }

  /** StreamableTexture: a base object and counted texture pointers. */
  datatype StreamableTexture = StreamableTexture(base: BaseObject, textures: seq<ObjectPtr>)

  function ReadStreamableTexture(d: seq<byte>, p: nat): (r: Result<Parsed<StreamableTexture>>)
    ensures r.Ok? ==> ReadCount(d, p + 12).Ok? && |r.value.value.textures| == ReadCount(d, p + 12).value.value
    ensures r.Ok? ==> r.value.next == p + 16 + 9 * |r.value.value.textures|
  {
    var base :- ReadBaseObject(d, p);
    ReadCountedAdvance(d, base.next, ReadHandle, 9);
    var textures :- ReadCounted(d, base.next, ReadHandle);
    Ok(Parsed(StreamableTexture(base.value, textures.value), textures.next))
  }
}

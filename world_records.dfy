/** The records of Resources/ForgeEntityGroup.cs that the world components
    are made of: float curves, AI and spawner managers, space sections,
    debug spawn infos, UI strings and the records whose data the reader does
    not know and which therefore always throw. */
module WorldRecords {
  import opened Wrappers
  import opened Bytes
  import opened Cursor
  import opened ForgeObjects
  import opened Gameplay

  // ---------------------------------------------------------------------
  // Records the reader does not know

  /** SoundInstance.Read throws after its base object. */
  function ReadSoundInstance(d: seq<byte>, p: nat): (r: Result<Parsed<()>>)
    ensures r.Fail?
    ensures p + 12 <= |d| ==> r.error == NotImplemented
  {
    var _ :- ReadBaseObject(d, p);
    Fail(NotImplemented)
  }

  /** SoundState.Read throws after its object pointer. */
  function ReadSoundState(d: seq<byte>, p: nat): (r: Result<Parsed<()>>)
    ensures r.Fail?
    ensures p + 9 <= |d| ==> r.error == NotImplemented
  {
    var _ :- ReadHandle(d, p);
    Fail(NotImplemented)
  }

  // ---------------------------------------------------------------------
  // Float curves

  /** FCurveKey: a ForgeObject, Point, PreviousTangentPoint and
      NextTangentPoint (two raw words each), Range and InterpolatorType. */
  datatype CurveKey = CurveKey(obj: ForgeObject, points: seq<nat>, range: nat, interpolatorType: nat)

  function ReadCurveKey(d: seq<byte>, p: nat): (r: Result<Parsed<CurveKey>>)
    ensures r.Ok? <==> p + 45 <= |d|
    ensures r.Ok? ==> r.value.next == p + 45 && |r.value.value.points| == 6
  {
    var obj :- ReadObject(d, p);
    var points :- ReadFloats(d, obj.next, 6);
    var range :- ReadU32(d, points.next);
    var kind :- ReadU32(d, range.next);
    Ok(Parsed(CurveKey(obj.value, points.value, range.value, kind.value), kind.next))
  }

  /** FCurve: a ForgeObject, counted keys and DefaultValue. */
  datatype Curve = Curve(obj: ForgeObject, keys: seq<CurveKey>, defaultValue: nat)

  function ReadCurve(d: seq<byte>, p: nat): (r: Result<Parsed<Curve>>)
    ensures r.Ok? ==> r.value.next == p + 21 + 45 * |r.value.value.keys|
  {
    var obj :- ReadObject(d, p);
    ReadCountedAdvance(d, obj.next, ReadCurveKey, 45);
    var keys :- ReadCounted(d, obj.next, ReadCurveKey);
    var value :- ReadU32(d, keys.next);
    Ok(Parsed(Curve(obj.value, keys.value, value.value), value.next))
  }

  /** FCurveFloat: a ForgeObject, counted curves and PlaybackMode. */
  datatype CurveFloat = CurveFloat(obj: ForgeObject, curves: seq<Curve>, playbackMode: nat)

  function ReadCurveFloat(d: seq<byte>, p: nat): (r: Result<Parsed<CurveFloat>>)
    ensures r.Ok? ==> ReadCount(d, p + 13).Ok? && |r.value.value.curves| == ReadCount(d, p + 13).value.value
  {
    var obj :- ReadObject(d, p);
    var curves :- ReadCounted(d, obj.next, ReadCurve);
    var mode :- ReadU32(d, curves.next);
    Ok(Parsed(CurveFloat(obj.value, curves.value, mode.value), mode.next))
  }

  // ---------------------------------------------------------------------
  // AI managers

  /** AmbientEventManager: a base object and the AmbientSpawnDirector
      reference. */
  datatype AmbientEventManager = AmbientEventManager(base: BaseObject, spawnDirector: FileReference)

  function ReadAmbientEventManager(d: seq<byte>, p: nat): (r: Result<Parsed<AmbientEventManager>>)
    ensures r.Ok? <==> p + 22 <= |d|
    ensures r.Ok? ==> r.value.next == p + 22
  {
    var base :- ReadBaseObject(d, p);
    var director :- ReadReference(d, base.next);
    Ok(Parsed(AmbientEventManager(base.value, director.value), director.next))
  }

  /** ZoneSpawnerManager: a base object and its loading advisor, which is a
      base object, the loading settings (a base object and
      UnloadBufferDistance) and counted entity summaries (each an unchecked
      object pointer). */
  datatype ZoneSpawnerManager = ZoneSpawnerManager(base: BaseObject, advisorBase: BaseObject, settingsBase: BaseObject,
                                                   unloadBufferDistance: nat, summaries: seq<ObjectPtr>)

  function ReadZoneSpawnerManager(d: seq<byte>, p: nat): (r: Result<Parsed<ZoneSpawnerManager>>)
    ensures r.Ok? ==> ReadCount(d, p + 40).Ok? && |r.value.value.summaries| == ReadCount(d, p + 40).value.value
    ensures r.Ok? ==> r.value.next == p + 44 + 9 * |r.value.value.summaries|
  {
    var base :- ReadBaseObject(d, p);
    var advisor :- ReadBaseObject(d, base.next);
    var settings :- ReadBaseObject(d, advisor.next);
    var distance :- ReadU32(d, settings.next);
    ReadCountedAdvance(d, distance.next, ReadHandle, 9);
    var summaries :- ReadCounted(d, distance.next, ReadHandle);
    Ok(Parsed(ZoneSpawnerManager(base.value, advisor.value, settings.value, distance.value, summaries.value),
              summaries.next))
  }

  /** MetaAISystemicEventTrackingManager: a base object, three raw float
      words and eight references (five unknown, MilitaryLabel,
      CivilianLabel and one more). */
  datatype EventTracking = EventTracking(base: BaseObject, values: seq<nat>, references: seq<FileReference>)

  const TrackingReferenceCount: nat := 8

  function ReadTrackingReferences(d: seq<byte>, p: nat): (r: Result<Parsed<seq<FileReference>>>)
    ensures r.Ok? <==> p + 80 <= |d|
    ensures r.Ok? ==> r.value.next == p + 80 && |r.value.value| == TrackingReferenceCount
  {
    ReadManyFits(d, p, TrackingReferenceCount, ReadReference, 10);
    ReadManyAdvance(d, p, TrackingReferenceCount, ReadReference, 10);
    ReadMany(d, p, TrackingReferenceCount, ReadReference)
  }

  function ReadEventTracking(d: seq<byte>, p: nat): (r: Result<Parsed<EventTracking>>)
    ensures r.Ok? <==> p + 104 <= |d|
    ensures r.Ok? ==> r.value.next == p + 104 && |r.value.value.references| == TrackingReferenceCount
  {
    var base :- ReadBaseObject(d, p);
    var values :- ReadFloats(d, base.next, 3);
    var refs :- ReadTrackingReferences(d, values.next);
    Ok(Parsed(EventTracking(base.value, values.value, refs.value), refs.next))
  }

  // ---------------------------------------------------------------------
  // Space sections

  /** SpaceSection.Read(handle): with `handle`, just an unchecked object
      pointer. Otherwise a base object pointer, counted portals (unknown
      data), counted linked sections (each read with `handle`),
      ExteriorLinkedPortalsIndex, counted object shapes (unknown data),
      Priority, IsInterior, InteriorReactionType, four flags, the interior
      ability set reference, the path search point limit and two flags. */
  datatype SpaceSection =
    | SectionHandle(handle: ObjectPtr)
    | Section(ptr: BaseObjectPtr, linked: seq<ObjectPtr>, exteriorLinkedPortalsIndex: int, settings: seq<int>,
              interiorAbilitySet: FileReference, searchPointsLimit: nat, flags: seq<bool>)

  /** Priority, IsInterior, InteriorReactionType, Unknown1, NoWater,
      IsWallaInterior and LinksOnlyToExterior. */
  const SectionSettingsL: Layout := [I32, Flag, I32, Flag, Flag, Flag, Flag]

  /** The section from its linked sections on. */
  function ReadSectionLinks(d: seq<byte>, p: nat): (r: Result<Parsed<(seq<ObjectPtr>, int)>>)
    ensures r.Ok? ==> ReadCount(d, p).Ok? && |r.value.value.0| == ReadCount(d, p).value.value
    ensures r.Ok? ==> r.value.next == p + 6 + 9 * |r.value.value.0|
  {
    ReadCountedAdvance(d, p, ReadHandle, 9);
    var linked :- ReadCounted(d, p, ReadHandle);
    var index :- ReadI16(d, linked.next);
    Ok(Parsed((linked.value, index.value), index.next))
  }

  /** The section after its object shapes: 27 bytes. */
  function ReadSectionTail(d: seq<byte>, p: nat): (r: Result<Parsed<(seq<int>, FileReference, nat, seq<bool>)>>)
    ensures r.Ok? <==> p + 27 <= |d|
    ensures r.Ok? ==> r.value.next == p + 27
  {
    assert Size(SectionSettingsL) == 13;
    ReachOfGapless(SectionSettingsL);
    var settings :- ReadFields(d, p, SectionSettingsL);
    var ability :- ReadReference(d, settings.next);
    var limit :- ReadU16(d, ability.next);
    var flags :- ReadFlags(d, limit.next, 2);
    Ok(Parsed((settings.value, ability.value, limit.value, flags.value), flags.next))
  }

  /** A section read as a handle: an unchecked ForgeObjectPtr. */
  function ReadSectionHandle(d: seq<byte>, p: nat): (r: Result<Parsed<SpaceSection>>)
    ensures r.Ok? <==> p + 9 <= |d|
    ensures r.Ok? ==> r.value.next == p + 9 && r.value.value.SectionHandle?
  {
    var ptr :- ReadHandle(d, p);
    Ok(Parsed(SectionHandle(ptr.value), ptr.next))
  }

  /** A section read in full. */
  function ReadFullSection(d: seq<byte>, p: nat): (r: Result<Parsed<SpaceSection>>)
    ensures r.Ok? ==> r.value.value.Section?
  {
    ReadFullSectionWith(d, p, ReadSectionTail)
  }

  /** A full section with the reader of its last 27 bytes as a parameter. */
  function ReadFullSectionWith(d: seq<byte>, p: nat, tail: (seq<byte>, nat) -> Result<Parsed<(seq<int>, FileReference, nat, seq<bool>)>>)
    : (r: Result<Parsed<SpaceSection>>)
    ensures r.Ok? ==> r.value.value.Section?
  {
    var ptr :- ReadPtr(d, p);
    var portals :- ReadCounted(d, ptr.next, ReadUnknownData);
    var links :- ReadSectionLinks(d, portals.next);
    var shapes :- ReadCounted(d, links.next, ReadUnknownData);
    var rest :- tail(d, shapes.next);
    var (settings, ability, limit, flags) := rest.value;
    Ok(Parsed(Section(ptr.value, links.value.0, links.value.1, settings, ability, limit, flags), rest.next))
  }

  /** SpaceSection.Read, as a handle or in full. */
  function ReadSpaceSection(d: seq<byte>, p: nat, handle: bool): (r: Result<Parsed<SpaceSection>>)
  {
    if handle then ReadSectionHandle(d, p) else ReadFullSection(d, p)
  }

  /** A full section is read only when it has no portals and no object
      shapes, since both are unknown data. */
  lemma FullSectionEmptyParts(d: seq<byte>, p: nat, tail: (seq<byte>, nat) -> Result<Parsed<(seq<int>, FileReference, nat, seq<bool>)>>)
    ensures ReadFullSectionWith(d, p, tail).Ok? ==> ReadCount(d, p + 14) == Ok(Parsed(0, p + 18))
    ensures ReadFullSectionWith(d, p, tail).Ok? ==> ReadSectionLinks(d, p + 18).Ok?
    ensures ReadFullSectionWith(d, p, tail).Ok? ==>
      ReadCount(d, ReadSectionLinks(d, p + 18).value.next) == Ok(Parsed(0, ReadSectionLinks(d, p + 18).value.next + 4))
  {
    if ReadFullSectionWith(d, p, tail).Ok? {
      var ptr := ReadPtr(d, p).value;
      assert ptr.next == p + 14;
      UnknownArrayEmpty(d, p + 14);
      assert ReadCounted(d, p + 14, ReadUnknownData).value.next == p + 18;
      var links := ReadSectionLinks(d, p + 18).value;
      UnknownArrayEmpty(d, links.next);
      assert ReadCounted(d, links.next, ReadUnknownData).Ok?;
      assert ReadCount(d, links.next) == Ok(Parsed(0, links.next + 4));
    }
  }

  /** SoundOcclusionPortalExteriorLinksTable: an unchecked base object
      pointer, counted portals (unknown data) and counted 16-bit lower bound
      indices. */
  datatype OcclusionTable = OcclusionTable(ptr: BaseObjectPtr, lowerBounds: seq<nat>)

  function ReadOcclusionTable(d: seq<byte>, p: nat): (r: Result<Parsed<OcclusionTable>>)
    ensures r.Ok? ==> ReadCount(d, p + 14) == Ok(Parsed(0, p + 18))
    ensures r.Ok? ==> r.value.next == p + 22 + 2 * |r.value.value.lowerBounds|
  {
    var ptr :- ReadPtr(d, p);
    UnknownArrayEmpty(d, ptr.next);
    var portals :- ReadCounted(d, ptr.next, ReadUnknownData);
    ReadCountedAdvance(d, portals.next, ReadU16, 2);
    var bounds :- ReadCounted(d, portals.next, ReadU16);
    Ok(Parsed(OcclusionTable(ptr.value, bounds.value), bounds.next))
  }

  // ---------------------------------------------------------------------
  // Strings

  /** `string.Replace("\0", "")`: every NUL removed. */
  function RemoveNuls(s: string): (t: string)
    ensures '\0' !in t
    ensures |t| <= |s|
  {
    if s == [] then []
    else (if s[0] == '\0' then [] else [s[0]]) + RemoveNuls(s[1..])
  }

  /** Everything but the NULs is kept: each other character occurs as
      often as before, and the length drops by the number of NULs. */
  lemma {:induction false} RemoveNulsKeepsOthers(s: string)
    ensures forall c :: c != '\0' ==> multiset(RemoveNuls(s))[c] == multiset(s)[c]
    ensures |RemoveNuls(s)| == |s| - multiset(s)['\0']
  {
    if s != [] {
      RemoveNulsKeepsOthers(s[1..]);
      assert s == [s[0]] + s[1..];
    }
  }

  /** Removing NULs leaves a string without NULs unchanged, so it is
      idempotent. */
  lemma {:induction false} RemoveNulsKeepsClean(s: string)
    requires '\0' !in s
    ensures RemoveNuls(s) == s
  {
    if s != [] {
      RemoveNulsKeepsClean(s[1..]);
    }
  }

  /** Removing NULs distributes over concatenation. */
  lemma {:induction false} RemoveNulsAppend(s: string, t: string)
    ensures RemoveNuls(s + t) == RemoveNuls(s) + RemoveNuls(t)
  {
    if s == [] {
      assert s + t == t;
    } else {
      assert (s + t)[0] == s[0];
      assert (s + t)[1..] == s[1..] + t;
      RemoveNulsAppend(s[1..], t);
    }
  }

  /** UIString: a base object, OasisLineID and a length, then
      `TempStringLength * 2 + 2` one-byte characters with the NULs removed.
      The product is C# `int` arithmetic and wraps to 32 bits. */
  datatype UiString = UiString(base: BaseObject, oasisLineId: int, tempStringLength: int, tempString: string)

  /** The number of characters a UI string of the given length reads. */
  function UiCharCount(length: int): (n: int)
    ensures -0x8000_0000 <= n < 0x8000_0000
    ensures -0x4000_0001 <= length < 0x3FFF_FFFF ==> n == 2 * length + 2
  {
    WrapInt32(2 * length + 2)
  }

  /** The length and the text of a UI string. */
  function ReadUiText(d: seq<byte>, p: nat): (r: Result<Parsed<(int, string)>>)
    ensures r.Ok? ==> p + 4 <= |d| && r.value.value.0 == IntAt(d, p, 4)
    ensures r.Ok? ==> var n := UiCharCount(r.value.value.0);
      n >= 0 && r.value.next == p + 4 + n <= |d|
      && r.value.value.1 == RemoveNuls(Chars(d[p + 4..p + 4 + n]))
    ensures p + 4 <= |d| && 0 <= UiCharCount(IntAt(d, p, 4)) && p + 4 + UiCharCount(IntAt(d, p, 4)) <= |d| ==> r.Ok?
  {
    var length :- ReadI32(d, p);
    var chars :- ReadBytes(d, length.next, UiCharCount(length.value));
    Ok(Parsed((length.value, RemoveNuls(Chars(chars.value))), chars.next))
  }

  /** The wrap at work: the largest length reads no characters at all, and
      -2147483647 reads four. */
  lemma UiCharCountWraps()
    ensures UiCharCount(0x7FFF_FFFF) == 0
    ensures UiCharCount(-0x7FFF_FFFF) == 4
  {
  }

  function ReadUiString(d: seq<byte>, p: nat): (r: Result<Parsed<UiString>>)
    ensures r.Ok? ==> p + 20 <= |d| && r.value.value.tempStringLength == IntAt(d, p + 16, 4)
    ensures r.Ok? ==> var n := UiCharCount(r.value.value.tempStringLength);
      n >= 0 && r.value.next == p + 20 + n <= |d|
      && r.value.value.tempString == RemoveNuls(Chars(d[p + 20..p + 20 + n]))
  {
    var base :- ReadBaseObject(d, p);
    var line :- ReadI32(d, base.next);
    var text :- ReadUiText(d, line.next);
    Ok(Parsed(UiString(base.value, line.value, text.value.0, text.value.1), text.next))
  }

  /** DesynchronizationSettings: a base object, three UI strings
      (OutOfBoundsFailure, PlayerDeathFailure, one unknown) and counted
      lock-movement words. */
  datatype DesyncSettings = DesyncSettings(base: BaseObject, strings: seq<UiString>, lockMovement: seq<nat>)

  function ReadDesyncSettings(d: seq<byte>, p: nat): (r: Result<Parsed<DesyncSettings>>)
    ensures r.Ok? ==> |r.value.value.strings| == 3
  {
    var base :- ReadBaseObject(d, p);
    var strings :- ReadMany(d, base.next, 3, ReadUiString);
    var locks :- ReadCounted(d, strings.next, U32Item);
    Ok(Parsed(DesyncSettings(base.value, strings.value, locks.value), locks.next))
  }

  // ---------------------------------------------------------------------
  // Debug spawn infos

  /** The display name shared by SpawnNPCInfo, SpawnObjectInfo,
      SpawnWaterVehicleInfo and DebugRideableAnimalInfo: a length, that many
      one-byte characters, and a NUL terminator byte only when the length is
      positive. */
  datatype DisplayName = DisplayName(length: int, name: string, nullTerminator: nat)

  function ReadDisplayName(d: seq<byte>, p: nat): (r: Result<Parsed<DisplayName>>)
    ensures r.Ok? ==> p + 4 <= |d| && r.value.value.length == IntAt(d, p, 4) >= 0
    ensures r.Ok? ==> var n := r.value.value.length;
      && r.value.next == p + 4 + n + (if n > 0 then 1 else 0) <= |d|
      && r.value.value.name == Chars(d[p + 4..p + 4 + n])
  {
    var length :- ReadI32(d, p);
    var chars :- ReadBytes(d, length.next, length.value);
    if length.value > 0 then
      var nul :- ReadU8(d, chars.next);
      Ok(Parsed(DisplayName(length.value, Chars(chars.value), nul.value), nul.next))
    else Ok(Parsed(DisplayName(length.value, Chars(chars.value), 0), chars.next))
  }

  /** SpawnNPCInfo, SpawnWaterVehicleInfo and DebugRideableAnimalInfo: a
      ForgeObject, a display name and the objective reference. */
  datatype SpawnInfo = SpawnInfo(obj: ForgeObject, displayName: DisplayName, objective: FileReference)

  function ReadSpawnInfo(d: seq<byte>, p: nat): (r: Result<Parsed<SpawnInfo>>)
    ensures r.Ok? ==> var n := r.value.value.displayName.length;
      r.value.next == p + 27 + n + (if n > 0 then 1 else 0)
  {
    var obj :- ReadObject(d, p);
    var name :- ReadDisplayName(d, obj.next);
    var objective :- ReadReference(d, name.next);
    Ok(Parsed(SpawnInfo(obj.value, name.value, objective.value), objective.next))
  }

  /** SpawnObjectParams: a base object, build tags, counted weapon build
      tags, the generation seed, the tag builder's dynamic reference,
      Exclusive, ExclusiveNPCType, ExplicitNPC, the selection filter (a
      checked base object pointer), the entity pack reference and two
      unchecked pointers (entity pack handle, template entity). */
  datatype SpawnObjectParams = SpawnObjectParams(base: BaseObject, tags: BuildTags, weaponTags: seq<BuildTags>, seed: int,
                                                 tagBuilder: DynamicReference, exclusive: bool, exclusiveNpcType: int,
                                                 explicitNpc: int, selectionFilter: BaseObjectPtr,
                                                 entityPack: FileReference, entityPackHandle: ObjectPtr,
                                                 templateEntity: ObjectPtr)

  /** The parameters up to the tag builder. */
  function ReadParamsHead(d: seq<byte>, p: nat): (r: Result<Parsed<(BaseObject, BuildTags, seq<BuildTags>, int, DynamicReference)>>)
  {
    var base :- ReadBaseObject(d, p);
    var tags :- ReadBuildTags(d, base.next);
    var weapons :- ReadCounted(d, tags.next, ReadBuildTags);
    var seed :- ReadI32(d, weapons.next);
    var builder :- ReadDynamicReference(d, seed.next);
    Ok(Parsed((base.value, tags.value, weapons.value, seed.value, builder.value), builder.next))
  }

  /** The parameters after the tag builder: 28 or 41 bytes, as the selection
      filter's first byte says. */
  function ReadParamsTail(d: seq<byte>, p: nat): (r: Result<Parsed<(bool, int, int, BaseObjectPtr, FileReference, ObjectPtr, ObjectPtr)>>)
    ensures r.Ok? ==> p + 10 <= |d| && r.value.next == p + (if d[p + 9] != 0 then 38 else 51)
  {
    var exclusive :- ReadFlag(d, p);
    var npcType :- ReadI32(d, exclusive.next);
    var explicit :- ReadI32(d, npcType.next);
    var filter :- ReadBaseObjectPtr(d, explicit.next, true, 0);
    var pack :- ReadReference(d, filter.next);
    var packHandle :- ReadHandle(d, pack.next);
    var template :- ReadHandle(d, packHandle.next);
    Ok(Parsed((exclusive.value, npcType.value, explicit.value, filter.value, pack.value, packHandle.value, template.value),
              template.next))
  }

  function ReadSpawnObjectParams(d: seq<byte>, p: nat): (r: Result<Parsed<SpawnObjectParams>>)
  {
    var head :- ReadParamsHead(d, p);
    var tail :- ReadParamsTail(d, head.next);
    var (base, tags, weapons, seed, builder) := head.value;
    var (exclusive, npcType, explicit, filter, pack, packHandle, template) := tail.value;
    Ok(Parsed(SpawnObjectParams(base, tags, weapons, seed, builder, exclusive, npcType, explicit, filter,
                                pack, packHandle, template), tail.next))
  }

  /** SpawnObjectInfo: a ForgeObject, a display name and spawn parameters. */
  datatype SpawnObjectInfo = SpawnObjectInfo(obj: ForgeObject, displayName: DisplayName, params: SpawnObjectParams)

  function ReadSpawnObjectInfo(d: seq<byte>, p: nat): (r: Result<Parsed<SpawnObjectInfo>>)
  {
    var obj :- ReadObject(d, p);
    var name :- ReadDisplayName(d, obj.next);
    var params :- ReadSpawnObjectParams(d, name.next);
    Ok(Parsed(SpawnObjectInfo(obj.value, name.value, params.value), params.next))
  }

  /** FactionSelector: a base object and the faction pointer. */
  datatype FactionSelector = FactionSelector(base: BaseObject, faction: ObjectPtr)

  function ReadFactionSelector(d: seq<byte>, p: nat): (r: Result<Parsed<FactionSelector>>)
    ensures r.Ok? <==> p + 21 <= |d|
    ensures r.Ok? ==> r.value.next == p + 21
  {
    var base :- ReadBaseObject(d, p);
    var faction :- ReadHandle(d, base.next);
    Ok(Parsed(FactionSelector(base.value, faction.value), faction.next))
  }
}

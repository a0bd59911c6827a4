/** ForgeMaterial (Resources/ForgeMaterial.cs): an optional resource header,
    14 skipped bytes, the material's references, masks, blend settings and
    33 feature flags, then a count-prefixed list of dynamic properties. Each
    property names its value's kind through two 32-bit codes looked up in
    PropertyRegistry, and only five kinds can be read. */
module Material {
  import opened Wrappers
  import opened Bytes
  import opened Cursor
  import opened ForgeObjects
  import opened DataStream

  // ---------------------------------------------------------------------
  // PropertyRegistry

  /** The C# types of PropertyRegistry.ParameterTypes. Codes that map to the
      same C# type (ulong and ObjectID, the two ForgeObjectPtr codes, uint
      and Enum, the two strings) map to the same kind. */
  datatype PropertyKind =
    | BoolKind | CharKind | SByteKind | ByteKind | ShortKind | UShortKind
    | IntKind | UIntKind | LongKind | ULongKind | FloatKind
    | Vector2Kind | Vector3Kind | Vector4Kind | QuaternionKind | Matrix3x3Kind | Matrix4x4Kind
    | ObjectPtrKind | ForgeObjectKind | BaseObjectPtrKind | BaseObjectKind
    | StringKind | FileReferenceKind

  const ParameterTypes: map<nat, PropertyKind> := map[
    0 := BoolKind, 65536 := CharKind, 131072 := SByteKind, 196608 := ByteKind,
    262144 := ShortKind, 327680 := UShortKind, 393216 := IntKind, 458752 := UIntKind,
    524288 := LongKind, 589824 := ULongKind, 655360 := FloatKind, 720896 := Vector2Kind,
    786432 := Vector3Kind, 851968 := Vector4Kind, 917504 := QuaternionKind, 983040 := Matrix3x3Kind,
    1048576 := Matrix4x4Kind, 1114112 := ULongKind, 1179648 := ObjectPtrKind, 1245184 := ForgeObjectKind,
    1310720 := ObjectPtrKind, 1376256 := BaseObjectPtrKind, 1441792 := BaseObjectKind, 1638400 := UIntKind,
    1703936 := StringKind, 1769472 := StringKind, 1835008 := FileReferenceKind]

  /** PropertyRegistry.GetType: the first code decides when it is known,
      the second one otherwise, and None stands for null. */
  function GetType(value: nat, value2: nat): (k: Option<PropertyKind>)
    ensures value in ParameterTypes ==> k == Some(ParameterTypes[value])
    ensures value !in ParameterTypes && value2 in ParameterTypes ==> k == Some(ParameterTypes[value2])
    ensures k.None? <==> value !in ParameterTypes && value2 !in ParameterTypes
  {
    if value in ParameterTypes then Some(ParameterTypes[value])
    else if value2 in ParameterTypes then Some(ParameterTypes[value2])
    else None
  }

  /** Every code of the registry is a multiple of 65536 below 29 * 65536:
      the type index sits in the upper half of the word. */
  lemma CodesAreAligned(code: nat)
    requires code in ParameterTypes
    ensures code % 65536 == 0 && code / 65536 < 29
  {
  }

  /** A code that is not a multiple of 65536 is never found, so only the
      other argument can name the kind. */
  lemma MisalignedCodeIgnored(value: nat, value2: nat)
    requires value % 65536 != 0
    ensures GetType(value, value2) == (if value2 in ParameterTypes then Some(ParameterTypes[value2]) else None)
  {
    if value in ParameterTypes {
      CodesAreAligned(value);
    }
  }

  // ---------------------------------------------------------------------
  // Masks and the texture selector

  /** Mask (8 bytes) and Mask16b (16 bytes): a base object and the mask
      bytes. */
  datatype Mask = Mask(base: BaseObject, bits: seq<nat>)

  /** A mask is its 12-byte base object and n bytes, so Mask is 20 bytes and
      Mask16b 28. */
  function ReadMask(d: seq<byte>, p: nat, n: nat): (r: Result<Parsed<Mask>>)
    ensures r.Ok? <==> p + 12 + n <= |d|
    ensures r.Ok? ==> r.value.next == p + 12 + n && |r.value.value.bits| == n
  {
    ReadManyFits(d, p + 12, n, ReadU8, 1);
    var base :- ReadBaseObject(d, p);
    var bits :- ReadMany(d, base.next, n, ReadU8);
    Ok(Parsed(Mask(base.value, bits.value), bits.next))
  }

  /** TextureSelector: specification method, map type and frame number, then
      a texture set and a texture reference (unchecked). */
  datatype TextureSelector = TextureSelector(specificationMethod: nat, mapType: nat, frameNumber: nat,
                                             textureSet: FileReference, texture: FileReference)

  function ReadTextureSelector(d: seq<byte>, p: nat): (r: Result<Parsed<TextureSelector>>)
    ensures r.Ok? <==> p + 32 <= |d|
    ensures r.Ok? ==> r.value.next == p + 32
  {
    var spec :- ReadU32(d, p);
    var mapType :- ReadU32(d, spec.next);
    var frame :- ReadU32(d, mapType.next);
    var textureSet :- ReadReference(d, frame.next);
    var texture :- ReadReference(d, textureSet.next);
    Ok(Parsed(TextureSelector(spec.value, mapType.value, frame.value, textureSet.value, texture.value), texture.next))
  }

  // ---------------------------------------------------------------------
  // DynamicProperty

  /** The value of a property, by kind; NoValue when no kind was found. */
  datatype PropertyValue =
    | NoValue
    | ObjectValue(num: nat, classId: int, dataType2: nat, isManaged: bool, selector: TextureSelector)
    | FloatValue(bits: nat)
    | Vector4Value(words: seq<int>)
    | UIntValue(u: nat)
    | IntValue(i: int)

  datatype DynamicProperty = DynamicProperty(hash: nat, dataType: nat, typeCode: nat, unknown1: nat,
                                             kind: Option<PropertyKind>, value: PropertyValue)

  const NoProperty := DynamicProperty(0, 0, 0, 0, None, NoValue)

  /** The kinds DynamicProperty.Read can read a value of. */
  predicate Readable(k: PropertyKind)
  {
    k == ForgeObjectKind || k == FloatKind || k == Vector4Kind || k == UIntKind || k == IntKind
  }

  /** Bytes of the value of a readable kind, given whether the managed flag
      is present. */
  function ValueSize(k: PropertyKind, hasManagedFlag: bool): nat
  {
    if k == ForgeObjectKind then 13 + (if hasManagedFlag then 1 else 0) + 32
    else if k == Vector4Kind then 16
    else 4
  }

  /** The ForgeObject payload: a byte, an i64 class ID, a u32 second data
      type, a managed flag only when that type differs from the first, and
      a texture selector. */
  function ReadObjectValue(d: seq<byte>, p: nat, dataType: nat): (r: Result<Parsed<PropertyValue>>)
    ensures r.Ok? ==> r.value.value.ObjectValue?
    ensures r.Ok? ==> r.value.value.isManaged ==> r.value.value.dataType2 != dataType
    ensures r.Ok? ==> r.value.next == p + ValueSize(ForgeObjectKind, r.value.value.dataType2 != dataType)
  {
    var num :- ReadU8(d, p);
    var classId :- ReadI64(d, num.next);
    var dataType2 :- ReadU32(d, classId.next);
    var managed :- if dataType != dataType2.value then ReadBool(d, dataType2.next) else Ok(Parsed(false, dataType2.next));
    var selector :- ReadTextureSelector(d, managed.next);
    Ok(Parsed(ObjectValue(num.value, classId.value, dataType2.value, managed.value, selector.value), selector.next))
  }

  /** The value that follows the 16-byte prefix, by kind; any kind but the
      five readable ones fails. */
  function ReadValue(d: seq<byte>, p: nat, kind: Option<PropertyKind>, dataType: nat): (r: Result<Parsed<PropertyValue>>)
    ensures kind.None? ==> r == Ok(Parsed(NoValue, p))
    ensures kind.Some? && !Readable(kind.value) ==> r == Fail(UnknownTag)
    ensures kind.Some? && Readable(kind.value) && kind.value != ForgeObjectKind ==>
      (r.Ok? <==> p + ValueSize(kind.value, false) <= |d|)
    ensures kind.Some? && r.Ok? ==>
      r.value.next == p + ValueSize(kind.value, r.value.value.ObjectValue? && r.value.value.dataType2 != dataType)
  {
    match kind
    case None => Ok(Parsed(NoValue, p))
    case Some(k) =>
      if k == ForgeObjectKind then ReadObjectValue(d, p, dataType)
      else if k == FloatKind then
        var f :- ReadU32(d, p);
        Ok(Parsed(FloatValue(f.value), f.next))
      else if k == Vector4Kind then
        var v :- ReadVector4(d, p);
        Ok(Parsed(Vector4Value(v.value), v.next))
      else if k == UIntKind then
        var u :- ReadU32(d, p);
        Ok(Parsed(UIntValue(u.value), u.next))
      else if k == IntKind then
        var i :- ReadI32(d, p);
        Ok(Parsed(IntValue(i.value), i.next))
      else Fail(UnknownTag)
  }

  /** DynamicProperty.Read. */
  function ReadDynamicProperty(d: seq<byte>, p: nat): (r: Result<Parsed<DynamicProperty>>)
  {
    var hash :- ReadU32(d, p);
    var dataType :- ReadU32(d, hash.next);
    var typeCode :- ReadU32(d, dataType.next);
    var unknown1 :- ReadU32(d, typeCode.next);
    var kind := GetType(typeCode.value, dataType.value);
    var value :- ReadValue(d, unknown1.next, kind, dataType.value);
    Ok(Parsed(DynamicProperty(hash.value, dataType.value, typeCode.value, unknown1.value, kind, value.value), value.next))
  }

  /** The 16-byte prefix of a property, with the kind looked up by
      (Type, DataType). */
  function PrefixOf(d: seq<byte>, p: nat): (r: DynamicProperty)
    requires p + 16 <= |d|
    ensures r.kind == GetType(r.typeCode, r.dataType) && r.value == NoValue
  {
    var dataType, typeCode := UIntAt(d, p + 4, 4), UIntAt(d, p + 8, 4);
    DynamicProperty(UIntAt(d, p, 4), dataType, typeCode, UIntAt(d, p + 12, 4), GetType(typeCode, dataType), NoValue)
  }

  /** Without a kind the property is its 16-byte prefix and nothing more. */
  lemma UntypedProperty(d: seq<byte>, p: nat)
    requires p + 16 <= |d| && PrefixOf(d, p).kind.None?
    ensures ReadDynamicProperty(d, p) == Ok(Parsed(PrefixOf(d, p), p + 16))
  {
  }

  /** A kind other than the five readable ones fails the whole read. */
  lemma UnreadableKindFails(d: seq<byte>, p: nat)
    requires p + 16 <= |d| && PrefixOf(d, p).kind.Some? && !Readable(PrefixOf(d, p).kind.value)
    ensures ReadDynamicProperty(d, p) == Fail(UnknownTag)
  {
  }

  /** A property read with a kind keeps its prefix and takes ValueSize bytes
      after it, the managed flag being there exactly when the two data types
      differ. */
  lemma TypedPropertySize(d: seq<byte>, p: nat)
    requires ReadDynamicProperty(d, p).Ok? && p + 16 <= |d| && PrefixOf(d, p).kind.Some?
    ensures var r := ReadDynamicProperty(d, p).value;
      && r.value.(value := NoValue) == PrefixOf(d, p)
      && r.next == p + 16 + ValueSize(r.value.kind.value, r.value.value.ObjectValue? && r.value.value.dataType2 != r.value.dataType)
  {
  }

  // ---------------------------------------------------------------------
  // ForgeMaterial

  /** MaterialTemplate, TextureSet, Mask, BlendMode, AlphaDiplayMode and
      AlphaTestValue. */
  datatype Settings = Settings(template: FileReference, textureSet: FileReference, mask: Mask,
                               blendMode: int, alphaDisplayMode: int, alphaTestValue: nat)

  /** BackFaceMaterial, the five floats (TangentShift1, TangentShift2,
      DiffuseDarkening, SpecularReflectance1, SpecularReflectance2) as raw
      words, MaterialMatchMask and TAADitherFactor. */
  datatype Shading = Shading(backFace: FileReference, floats: seq<int>, matchMask: Mask, taaDitherFactor: nat)

  /** `flags` are ZWriteDisabledOpaque … SSAOOnDiffuse in stream order. */
  datatype Material = Material(settings: Settings, flags: seq<bool>, shading: Shading, properties: seq<DynamicProperty>)

  const FlagCount: nat := 33

  const FloatsL: Layout := [F32, F32, F32, F32, F32]

  function ReadSettings(d: seq<byte>, p: nat): (r: Result<Parsed<Settings>>)
  {
    var template :- ReadReference(d, p);
    var textureSet :- ReadReference(d, template.next);
    var mask :- ReadMask(d, textureSet.next, 8);
    var blend :- ReadI32(d, mask.next);
    var alpha :- ReadI32(d, blend.next);
    var test :- ReadU8(d, alpha.next);
    Ok(Parsed(Settings(template.value, textureSet.value, mask.value, blend.value, alpha.value, test.value), test.next))
  }

  function ReadShading(d: seq<byte>, p: nat): (r: Result<Parsed<Shading>>)
  {
    var back :- ReadReference(d, p);
    var floats :- ReadFields(d, back.next, FloatsL);
    var mask :- ReadMask(d, floats.next, 16);
    var taa :- ReadU8(d, mask.next);
    Ok(Parsed(Shading(back.value, floats.value, mask.value, taa.value), taa.next))
  }

  /** Everything of the material before its property count. */
  function ReadFixedPart(d: seq<byte>, p: nat): (r: Result<Parsed<(Settings, seq<bool>, Shading)>>)
  {
    var settings :- ReadSettings(d, p);
    var flags :- ReadMany(d, settings.next, FlagCount, ReadBool);
    var shading :- ReadShading(d, flags.next);
    Ok(Parsed((settings.value, flags.value, shading.value), shading.next))
  }

  /** The material after the 14 skipped bytes. */
  function ReadMaterialBody(d: seq<byte>, q: nat): (r: Result<Parsed<Material>>)
  {
    var fixed :- ReadFixedPart(d, q);
    var properties :- ReadCounted(d, fixed.next, ReadDynamicProperty);
    Ok(Parsed(Material(fixed.value.0, fixed.value.1, fixed.value.2, properties.value), properties.next))
  }

  /** ForgeMaterial.Read as a function of the bytes, the position and
      `skipHeader`. */
  function ParseMaterial(d: seq<byte>, p: nat, skipHeader: bool): (r: Result<Parsed<Material>>)
  {
    var h :- ReadOptionalHeader(d, p, skipHeader);
    ReadMaterialBody(d, h.next + 0xE)
  }

  lemma SettingsLayout(d: seq<byte>, p: nat)
    ensures ReadSettings(d, p).Ok? <==> p + 49 <= |d|
    ensures ReadSettings(d, p).Ok? ==> ReadSettings(d, p).value.next == p + 49
  {
  }

  lemma ShadingLayout(d: seq<byte>, p: nat)
    ensures ReadShading(d, p).Ok? <==> p + 59 <= |d|
    ensures ReadShading(d, p).Ok? ==> ReadShading(d, p).value.next == p + 59 && |ReadShading(d, p).value.value.floats| == 5
  {
    assert Size(FloatsL) == 20 && Count(FloatsL) == 5;
    ReachOfGapless(FloatsL);
  }

  /** Up to the property count the material is 141 bytes: 49 of settings,
      one per flag and 59 of shading. */
  lemma FixedPartLayout(d: seq<byte>, p: nat)
    ensures ReadFixedPart(d, p).Ok? <==> p + 141 <= |d|
    ensures ReadFixedPart(d, p).Ok? ==>
      ReadFixedPart(d, p).value.next == p + 141 && |ReadFixedPart(d, p).value.value.1| == FlagCount
  {
    SettingsLayout(d, p);
    BoolsFit(d, p + 49, FlagCount);
    ShadingLayout(d, p + 82);
  }

  /** The properties are exactly NumProperties dynamic properties read one
      after the other where the 141 fixed bytes end; a negative count fails. */
  lemma PropertiesFollow(d: seq<byte>, q: nat)
    requires ReadMaterialBody(d, q).Ok?
    ensures ReadCount(d, q + 141).Ok?
    ensures var m := ReadMaterialBody(d, q).value;
      && |m.value.properties| == ReadCount(d, q + 141).value.value
      && ReadMany(d, q + 145, |m.value.properties|, ReadDynamicProperty) == Ok(Parsed(m.value.properties, m.next))
  {
    FixedPartLayout(d, q);
  }

  // ---------------------------------------------------------------------
  // Reading on a DataReader

  /** ForgeMaterial.Read: the header if any, the skip, the fixed part and the
      `DynamicProperties` loop. */
  method ReadMaterial(reader: DataReader, skipHeader: bool) returns (r: Result<Material>)
    modifies reader
    ensures r.Fail? ==> ParseMaterial(reader.data, old(reader.position), skipHeader).Fail?
    ensures r.Ok? ==> ParseMaterial(reader.data, old(reader.position), skipHeader) == Ok(Parsed(r.value, reader.position))
  {
    ghost var start := reader.position;
    if !skipHeader {
      var _ :- reader.Read(ReadResourceHeader);
    }
    ghost var h := ReadOptionalHeader(reader.data, start, skipHeader);
    assert h.Ok? && h.value.next == reader.position;
    var _ := reader.Skip(0xE);
    assert ParseMaterial(reader.data, start, skipHeader) == ReadMaterialBody(reader.data, reader.position);
    r := ReadBody(reader);
  }

  method ReadBody(reader: DataReader) returns (r: Result<Material>)
    modifies reader
    ensures r.Fail? ==> ReadMaterialBody(reader.data, old(reader.position)).Fail?
    ensures r.Ok? ==> ReadMaterialBody(reader.data, old(reader.position)) == Ok(Parsed(r.value, reader.position))
  {
    var fixed :- reader.Read(ReadFixedPart);
    var properties :- reader.ReadCountedArray(ReadDynamicProperty, NoProperty);
    r := Ok(Material(fixed.0, fixed.1, fixed.2, properties[..]));
  }
}

/** The FORGE archive (`ForgeFile`): a 21-byte header with the 'scimitar'
    magic, a sub-header and a data header each found at an offset stored in
    the section before it, a table of 20-byte entries, and a table of
    192-byte name records that give every entry its name and path. The
    archive is also written to and read from the startup cache.

    Readers are specified by pure functions over the archive bytes; the
    `ForgeArchive` class reads with a `ByteReader` step by step, as the
    source does, and its methods are proved to agree with those functions. */
module ForgeFile {
  import opened Wrappers
  import opened Bytes
  import opened Cursor
  import opened Stream
  import opened Writer

  // ---------------------------------------------------------------------
  // Resource types that get a file extension (ForgeResourceType)

  const MESH: nat := 0x415D9568
  const TEXTURE_MAP: nat := 0xA2B7E917
  const LOD_SELECTOR: nat := 0x51DC6B80
  const CELL_DATA_BLOCK: nat := 0xAC2BBF68
  const MATERIAL: nat := 0x85C817C3
  const ENTITY: nat := 0x0984415E
  const ENTITY_GROUP: nat := 0x3F742D26
  const WORLD: nat := 0xFBB63E47
  const TEXTURE_SET: nat := 0xD70E6670
  const NONE: nat := 0

  predicate Mapped(tag: nat)
  {
    tag == MESH || tag == TEXTURE_MAP || tag == LOD_SELECTOR || tag == CELL_DATA_BLOCK
    || tag == MATERIAL || tag == ENTITY || tag == ENTITY_GROUP || tag == WORLD
  }

  /** The extension a name record appends for its resource type. */
  /** The extension of each mapped type, looked up in order. */
  const ExtensionTable: seq<(nat, string)> :=
    [(MESH, ".mesh"), (TEXTURE_MAP, ".texture"), (LOD_SELECTOR, ".lodselector"), (CELL_DATA_BLOCK, ".gridcelldata"),
     (MATERIAL, ".material"), (ENTITY, ".entity"), (ENTITY_GROUP, ".entitygroup"), (WORLD, ".world")]

  function ExtensionIn(table: seq<(nat, string)>, tag: nat): string
  {
    if table == [] then ""
    else if table[0].0 == tag then table[0].1
    else ExtensionIn(table[1..], tag)
  }

  function Extension(tag: nat): string
  {
    ExtensionIn(ExtensionTable, tag)
  }

  lemma {:induction false} ExtensionInFound(table: seq<(nat, string)>, i: nat, tag: nat)
    requires i < |table| && table[i].0 == tag
    requires forall j :: 0 <= j < i ==> table[j].0 != tag
    ensures ExtensionIn(table, tag) == table[i].1
  {
    if i > 0 {
      assert table[0].0 != tag;
      ExtensionInFound(table[1..], i - 1, tag);
    }
  }

  lemma {:induction false} ExtensionInMissing(table: seq<(nat, string)>, tag: nat)
    requires forall i :: 0 <= i < |table| ==> table[i].0 != tag
    ensures ExtensionIn(table, tag) == ""
  {
    if table != [] {
      assert table[0].0 != tag;
      ExtensionInMissing(table[1..], tag);
    }
  }

  /** A dot followed by printable characters that are not dots. */
  predicate DotWord(s: string)
  {
    |s| > 0 && s[0] == '.' && forall i :: 1 <= i < |s| ==> s[i] != '.' && Printable(s[i])
  }

  /** An extension is empty exactly for the unmapped types; otherwise it is
      a dot and a printable word without further dots. */
  lemma ExtensionShape(tag: nat)
    ensures Extension(tag) != "" <==> Mapped(tag)
    ensures Extension(tag) != "" ==> DotWord(Extension(tag))
  {
    if tag == MESH {
      ExtensionInFound(ExtensionTable, 0, tag);
      assert DotWord(".mesh");
    } else if tag == TEXTURE_MAP {
      ExtensionInFound(ExtensionTable, 1, tag);
      assert DotWord(".texture");
    } else if tag == LOD_SELECTOR {
      ExtensionInFound(ExtensionTable, 2, tag);
      assert DotWord(".lodselector");
    } else if tag == CELL_DATA_BLOCK {
      ExtensionInFound(ExtensionTable, 3, tag);
      assert DotWord(".gridcelldata");
    } else if tag == MATERIAL {
      ExtensionInFound(ExtensionTable, 4, tag);
      assert DotWord(".material");
    } else if tag == ENTITY {
      ExtensionInFound(ExtensionTable, 5, tag);
      assert DotWord(".entity");
    } else if tag == ENTITY_GROUP {
      ExtensionInFound(ExtensionTable, 6, tag);
      assert DotWord(".entitygroup");
    } else if tag == WORLD {
      ExtensionInFound(ExtensionTable, 7, tag);
      assert DotWord(".world");
    } else {
      ExtensionInMissing(ExtensionTable, tag);
    }
  }

  /** The characters `[ -~]` that the name filter keeps. */
  predicate Printable(c: char)
  {
    ' ' <= c <= '~'
  }

  /** Removes every character outside 0x20-0x7E, keeping the others in order. */
  function KeepPrintable(s: string): (r: string)
    ensures |r| <= |s|
    ensures forall i :: 0 <= i < |r| ==> Printable(r[i])
  {
    if s == [] then []
    else (if Printable(s[0]) then [s[0]] else []) + KeepPrintable(s[1..])
  }

  /** The filter works character by character ... */
  lemma {:induction false} KeepPrintableAppend(a: string, b: string)
    ensures KeepPrintable(a + b) == KeepPrintable(a) + KeepPrintable(b)
  {
    if a != [] {
      assert (a + b)[1..] == a[1..] + b;
      KeepPrintableAppend(a[1..], b);
    } else {
      assert a + b == b;
    }
  }

  /** ... and leaves a printable string as it is, so it is idempotent. */
  lemma {:induction false} KeepPrintableKeeps(s: string)
    requires forall i :: 0 <= i < |s| ==> Printable(s[i])
    ensures KeepPrintable(s) == s
  {
    if s != [] {
      KeepPrintableKeeps(s[1..]);
    }
  }

  lemma KeepPrintableIdempotent(s: string)
    ensures KeepPrintable(KeepPrintable(s)) == KeepPrintable(s)
  {
    KeepPrintableKeeps(KeepPrintable(s));
  }

  // ---------------------------------------------------------------------
  // Records

  const ArchiveMagic: nat := 8241996789220729715

  datatype ArchiveHeader = ArchiveHeader(startPos: int, version: nat, padding1: nat, fileVersion: int, headerOffset: int)

  datatype SubHeader = SubHeader(
    entryCount: int, unknown4: int, unknown8: int, unknownC: int, unknown10: int,
    unknown14: int, maximumEntryCount: int, unknown20: int, dataOffset: int)

  datatype DataHeader = DataHeader(
    indexCount: int, padding2: int, tableOffset: int, nextDataOffset: int,
    indexStart: int, indexEnd: int, nameTableOffset: int, padding3: int)

  /** ForgeNameTable: the 192-byte record that names an entry. */
  datatype NameRecord = NameRecord(
    dataSize: int, fileDataId: int, unknownC: int, resourceIdentifier: nat,
    unknown1C: int, unknown20: int, nextFileCount: int, previousFileCount: int,
    unknown28: int, timestamp: int, name: string,
    unknownAC: int, unknownB0: int, unknownB4: int, unknownB8: int, unknownBC: int)

  datatype ForgeEntry = ForgeEntry(name: string, path: string, size: int, offset: int, fileId: int, nameTable: Option<NameRecord>)

  /** `new ForgeEntry()` */
  const NewEntry := ForgeEntry("", "", 0, 0, 0, None)

  /** The resource type an entry is written to the cache with (`?? 0`). */
  function TagOf(e: ForgeEntry): nat
  {
    if e.nameTable.Some? then e.nameTable.value.resourceIdentifier else 0
  }

  // ---------------------------------------------------------------------
  // Readers of the archive sections. Every section is a run of fixed-width
  // fields at known offsets; a section that does not fit fails with
  // EndOfStream, and a negative section offset fails like the
  // `Position = offset` assignment does.

  /** ReadHeader: u64 version, a byte, i32 file version, i64 header offset;
      the magic is checked only once all four are read. */
  function ParseArchiveHeader(d: seq<byte>, p: nat): (r: Result<Parsed<ArchiveHeader>>)
  {
    if p + 21 > |d| then Fail(EndOfStream)
    else if UIntAt(d, p, 8) != ArchiveMagic then Fail(BadMagic)
    else Ok(Parsed(ArchiveHeader(p, UIntAt(d, p, 8), UIntAt(d, p + 8, 1), IntAt(d, p + 9, 4), IntAt(d, p + 13, 8)), p + 21))
  }

  /** ReadSubHeader: 44 bytes at the header offset. */
  function ParseSubHeader(d: seq<byte>, offset: int): (r: Result<SubHeader>)
    ensures r.Ok? ==> InInt32(r.value.entryCount)
  {
    if offset < 0 then Fail(NegativeLength)
    else if offset + 44 > |d| then Fail(EndOfStream)
    else Ok(SubHeader(IntAt(d, offset, 4), IntAt(d, offset + 4, 4), IntAt(d, offset + 8, 4), IntAt(d, offset + 12, 4),
                      IntAt(d, offset + 16, 4), IntAt(d, offset + 20, 8), IntAt(d, offset + 28, 4),
                      IntAt(d, offset + 32, 4), IntAt(d, offset + 36, 8)))
  }

  /** The fixed part of ReadDataHeader: 48 bytes at the data offset. */
  function ParseDataHeader(d: seq<byte>, offset: int): (r: Result<DataHeader>)
    ensures r.Ok? ==> InInt32(r.value.indexCount)
  {
    if offset < 0 then Fail(NegativeLength)
    else if offset + 48 > |d| then Fail(EndOfStream)
    else Ok(DataHeader(IntAt(d, offset, 4), IntAt(d, offset + 4, 4), IntAt(d, offset + 8, 8), IntAt(d, offset + 16, 8),
                       IntAt(d, offset + 24, 4), IntAt(d, offset + 28, 4), IntAt(d, offset + 32, 8), IntAt(d, offset + 40, 8)))
  }

  /** ForgeEntry.ReadEntry: sets offset (i64), file ID (i64) and size (i32)
      of an entry and nothing else. */
  function ParseEntry(d: seq<byte>, p: nat, e: ForgeEntry): (r: Result<Parsed<ForgeEntry>>)
  {
    if p + 20 > |d| then Fail(EndOfStream)
    else Ok(Parsed(e.(offset := IntAt(d, p, 8), fileId := IntAt(d, p + 8, 8), size := IntAt(d, p + 16, 4)), p + 20))
  }

  /** The entry whose 20 bytes start at p. */
  function EntryAt(buf: seq<byte>, p: nat): ForgeEntry
    requires p + 20 <= |buf|
  {
    ParseEntry(buf, p, NewEntry).value.value
  }

  /** The `for (uint i = 0; i < EntryCount; i++)` loop over the entries
      buffer: a negative count reads nothing (the comparison is made on
      64-bit values), and a buffer too short for `count` entries fails. */
  function ParseEntries(buf: seq<byte>, count: int): (r: Result<seq<ForgeEntry>>)
    ensures r.Ok? <==> count <= 0 || 20 * count <= |buf|
    ensures r.Ok? ==> |r.value| == (if count > 0 then count else 0)
    ensures r.Ok? ==> forall i :: 0 <= i < |r.value| ==> 20 * i + 20 <= |buf| && r.value[i] == EntryAt(buf, 20 * i)
  {
    var n := if count > 0 then count else 0;
    if 20 * n <= |buf| then Ok(seq(n, i requires 0 <= i < n => EntryAt(buf, 20 * i)))
    else Fail(EndOfStream)
  }

  /** Entries read one per 20 bytes from the start are what ParseEntries
      returns. */
  lemma EntriesAre(buf: seq<byte>, count: int, es: seq<ForgeEntry>)
    requires |es| == (if count > 0 then count else 0) && 20 * |es| <= |buf|
    requires forall k :: 0 <= k < |es| ==> 20 * k + 20 <= |buf| && es[k] == EntryAt(buf, 20 * k)
    ensures ParseEntries(buf, count) == Ok(es)
  {
    var n := |es|;
    assert seq(n, i requires 0 <= i < n => EntryAt(buf, 20 * i)) == es;
  }

  datatype DataSection = DataSection(header: DataHeader, entries: seq<ForgeEntry>)

  /** The bytes `ReadBytes(20 * IndexCount)` returns after the data header:
      the product is int32 arithmetic and wraps. */
  function EntriesData(d: seq<byte>, offset: nat, h: DataHeader): Result<seq<byte>>
  {
    var b :- ReadBytesClamped(d, offset + 48, WrapInt32(20 * h.indexCount));
    Ok(b.value)
  }

  /** ReadDataHeader: the fixed part, then the entries read from the
      20-byte records that follow it. */
  function ParseDataSection(d: seq<byte>, offset: int, entryCount: int): (r: Result<DataSection>)
    ensures r.Ok? ==> |r.value.entries| == (if entryCount > 0 then entryCount else 0)
    ensures r.Ok? && entryCount > 0 && r.value.header.indexCount >= 0 ==> entryCount <= r.value.header.indexCount
  {
    var h :- ParseDataHeader(d, offset);
    var buf :- EntriesData(d, offset, h);
    var entries :- ParseEntries(buf, entryCount);
    Ok(DataSection(h, entries))
  }

  /** The name of a record: its 128 name bytes without the characters
      outside 0x20-0x7E, then the extension of its type. */
  function RecordName(raw: seq<byte>, tag: nat): (name: string)
    ensures forall i :: 0 <= i < |name| ==> Printable(name[i])
  {
    ExtensionShape(tag);
    KeepPrintable(Chars(raw)) + Extension(tag)
  }

  /** ForgeNameTable.Read: 192 bytes; the 128 name characters lose every
      character outside 0x20-0x7E and gain the extension of the type. */
  function ParseNameRecord(d: seq<byte>, p: nat): (r: Result<Parsed<NameRecord>>)
    ensures r.Ok? <==> p + 192 <= |d|
    ensures r.Ok? ==> r.value.next == p + 192
    ensures r.Ok? ==> forall i :: 0 <= i < |r.value.value.name| ==> Printable(r.value.value.name[i])
  {
    if p + 192 > |d| then Fail(EndOfStream)
    else
      Ok(Parsed(NameRecord(IntAt(d, p, 4), IntAt(d, p + 4, 8), IntAt(d, p + 12, 4), UIntAt(d, p + 16, 4),
                           IntAt(d, p + 20, 4), IntAt(d, p + 24, 4), IntAt(d, p + 28, 4), IntAt(d, p + 32, 4),
                           IntAt(d, p + 36, 4), IntAt(d, p + 40, 4), RecordName(d[p + 44..p + 172], UIntAt(d, p + 16, 4)),
                           IntAt(d, p + 172, 4), IntAt(d, p + 176, 4), IntAt(d, p + 180, 4),
                           IntAt(d, p + 184, 4), IntAt(d, p + 188, 4)),
                p + 192))
  }

  /** The name record whose 192 bytes start at p. */
  function RecordAt(buf: seq<byte>, p: nat): NameRecord
    requires p + 192 <= |buf|
  {
    ParseNameRecord(buf, p).value.value
  }

  /** What ReadNameTable does to one entry. */
  function Named(e: ForgeEntry, rec: NameRecord, archivePath: string): ForgeEntry
  {
    e.(nameTable := Some(rec), name := rec.name, path := archivePath + "\\" + rec.name)
  }

  /** The name records for a list of entries, the i-th record at 192*i. */
  function NameEntries(buf: seq<byte>, entries: seq<ForgeEntry>, archivePath: string): (r: Result<seq<ForgeEntry>>)
    ensures r.Ok? <==> 192 * |entries| <= |buf|
    ensures r.Ok? ==> |r.value| == |entries|
    ensures r.Ok? ==> forall i :: 0 <= i < |entries| ==>
              192 * i + 192 <= |buf| && r.value[i] == Named(entries[i], RecordAt(buf, 192 * i), archivePath)
  {
    var n := |entries|;
    if 192 * n <= |buf| then Ok(seq(n, i requires 0 <= i < n => Named(entries[i], RecordAt(buf, 192 * i), archivePath)))
    else Fail(EndOfStream)
  }

  /** The bytes `ReadBytes(192 * IndexCount)` returns at the name table. */
  function NamesData(d: seq<byte>, h: DataHeader): Result<seq<byte>>
  {
    var p :- Seek(0, h.nameTableOffset);
    var b :- ReadBytesClamped(d, p, WrapInt32(192 * h.indexCount));
    Ok(b.value)
  }

  /** ReadNameTable: one name record per entry. */
  function ParseNameTable(d: seq<byte>, h: DataHeader, entries: seq<ForgeEntry>, archivePath: string): (r: Result<seq<ForgeEntry>>)
  {
    var buf :- NamesData(d, h);
    NameEntries(buf, entries, archivePath)
  }

  datatype Archive = Archive(header: ArchiveHeader, subHeader: SubHeader, dataHeader: DataHeader, entries: seq<ForgeEntry>)

  /** ReadStructure: the header at the current position, then each section
      at the offset stored in the one before it. */
  function ParseArchive(d: seq<byte>, p: nat, archivePath: string): (r: Result<Archive>)
  {
    var h :- ParseArchiveHeader(d, p);
    var s :- ParseSubHeader(d, h.value.headerOffset);
    var ds :- ParseDataSection(d, s.dataOffset, s.entryCount);
    var named :- ParseNameTable(d, ds.header, ds.entries, archivePath);
    Ok(Archive(h.value, s, ds.header, named))
  }

  /** ParseArchive stage by stage: the first section that fails decides the
      error, and otherwise the archive is made of the four results. */
  lemma ArchiveStages(d: seq<byte>, p: nat, archivePath: string, h: Result<Parsed<ArchiveHeader>>,
                      s: Result<SubHeader>, ds: Result<DataSection>, named: Result<seq<ForgeEntry>>)
    requires h == ParseArchiveHeader(d, p)
    requires h.Ok? ==> s == ParseSubHeader(d, h.value.value.headerOffset)
    requires h.Ok? && s.Ok? ==> ds == ParseDataSection(d, s.value.dataOffset, s.value.entryCount)
    requires h.Ok? && s.Ok? && ds.Ok? ==> named == ParseNameTable(d, ds.value.header, ds.value.entries, archivePath)
    ensures h.Fail? ==> ParseArchive(d, p, archivePath) == Fail(h.error)
    ensures h.Ok? && s.Fail? ==> ParseArchive(d, p, archivePath) == Fail(s.error)
    ensures h.Ok? && s.Ok? && ds.Fail? ==> ParseArchive(d, p, archivePath) == Fail(ds.error)
    ensures h.Ok? && s.Ok? && ds.Ok? && named.Fail? ==> ParseArchive(d, p, archivePath) == Fail(named.error)
    ensures h.Ok? && s.Ok? && ds.Ok? && named.Ok? ==>
      ParseArchive(d, p, archivePath) == Ok(Archive(h.value.value, s.value, ds.value.header, named.value))
  {
  }

  /** An archive opens only on the 'scimitar' magic, and each section is
      the one found at the offset stored in the section before it. */
  lemma ArchiveSections(d: seq<byte>, p: nat, archivePath: string)
    requires ParseArchive(d, p, archivePath).Ok?
    ensures var a := ParseArchive(d, p, archivePath).value;
      p + 21 <= |d| && UIntAt(d, p, 8) == ArchiveMagic && a.header.version == ArchiveMagic
      && a.header.startPos == p
      && ParseSubHeader(d, a.header.headerOffset) == Ok(a.subHeader)
      && ParseDataHeader(d, a.subHeader.dataOffset) == Ok(a.dataHeader)
      && 0 <= a.dataHeader.nameTableOffset
  {
    var h := ParseArchiveHeader(d, p).value.value;
    var s := ParseSubHeader(d, h.headerOffset).value;
    var ds := ParseDataSection(d, s.dataOffset, s.entryCount).value;
    assert ParseDataHeader(d, s.dataOffset) == Ok(ds.header);
    var named := ParseNameTable(d, ds.header, ds.entries, archivePath).value;
    assert ParseArchive(d, p, archivePath).value == Archive(h, s, ds.header, named);
  }

  /** Exactly EntryCount entries (none for a negative count), never more
      than IndexCount, each with the name of its own record and a path made
      of the archive path, a backslash and that name. */
  lemma ArchiveEntries(d: seq<byte>, p: nat, archivePath: string)
    requires ParseArchive(d, p, archivePath).Ok?
    ensures var a := ParseArchive(d, p, archivePath).value;
      |a.entries| == (if a.subHeader.entryCount > 0 then a.subHeader.entryCount else 0)
      && (a.subHeader.entryCount > 0 && a.dataHeader.indexCount >= 0 ==> a.subHeader.entryCount <= a.dataHeader.indexCount)
      && forall i :: 0 <= i < |a.entries| ==>
           a.entries[i].nameTable.Some? && a.entries[i].name == a.entries[i].nameTable.value.name
           && a.entries[i].path == archivePath + "\\" + a.entries[i].name
           && forall k :: 0 <= k < |a.entries[i].name| ==> Printable(a.entries[i].name[k])
  {
    var h := ParseArchiveHeader(d, p).value.value;
    var s := ParseSubHeader(d, h.headerOffset).value;
    var ds := ParseDataSection(d, s.dataOffset, s.entryCount).value;
    var buf := NamesData(d, ds.header).value;
    NamedEntriesShape(buf, ds.entries, archivePath);
  }

  /** Every entry named from a name table has its record, the record's
      name and a path made of the archive path and that name. */
  lemma NamedEntriesShape(buf: seq<byte>, entries: seq<ForgeEntry>, archivePath: string)
    requires NameEntries(buf, entries, archivePath).Ok?
    ensures var named := NameEntries(buf, entries, archivePath).value;
      forall i :: 0 <= i < |named| ==>
        named[i].nameTable.Some? && named[i].name == named[i].nameTable.value.name
        && named[i].path == archivePath + "\\" + named[i].name
        && forall k :: 0 <= k < |named[i].name| ==> Printable(named[i].name[k])
  {
    var named := NameEntries(buf, entries, archivePath).value;
    forall i | 0 <= i < |named|
      ensures forall k :: 0 <= k < |named[i].name| ==> Printable(named[i].name[k])
    {
      assert named[i].name == RecordAt(buf, 192 * i).name;
    }
  }

  /** When EntryCount exceeds a non-negative IndexCount, the entries buffer
      is too short and ReadStructure fails. */
  lemma TooManyEntriesFail(d: seq<byte>, p: nat, archivePath: string)
    requires ParseArchiveHeader(d, p).Ok?
    requires ParseSubHeader(d, ParseArchiveHeader(d, p).value.value.headerOffset).Ok?
    requires var s := ParseSubHeader(d, ParseArchiveHeader(d, p).value.value.headerOffset).value;
      ParseDataHeader(d, s.dataOffset).Ok?
      && 0 <= ParseDataHeader(d, s.dataOffset).value.indexCount < s.entryCount
    ensures ParseArchive(d, p, archivePath).Fail?
  {
    var s := ParseSubHeader(d, ParseArchiveHeader(d, p).value.value.headerOffset).value;
    if ParseArchive(d, p, archivePath).Ok? {
      ArchiveEntries(d, p, archivePath);
    }
  }

  // ---------------------------------------------------------------------
  // Looking entries up

  /** The index of the first entry with this file ID. */
  function FirstWithFileId(entries: seq<ForgeEntry>, fileId: int): (r: Option<nat>)
    ensures r.Some? ==> r.value < |entries| && entries[r.value].fileId == fileId
    ensures r.Some? ==> forall k :: 0 <= k < r.value ==> entries[k].fileId != fileId
    ensures r.None? <==> forall k :: 0 <= k < |entries| ==> entries[k].fileId != fileId
  {
    if entries == [] then None
    else if entries[0].fileId == fileId then Some(0)
    else match FirstWithFileId(entries[1..], fileId)
      case None => None
      case Some(k) => Some(k + 1)
  }

  /** The entry of archive a at index i matches, and no match comes before
      it, archives in order and the entries of each in order. */
  ghost predicate FirstMatch(archives: seq<seq<ForgeEntry>>, fileId: int, a: nat, i: nat)
  {
    a < |archives| && i < |archives[a]| && archives[a][i].fileId == fileId
    && (forall b, k :: 0 <= b < a && 0 <= k < |archives[b]| ==> archives[b][k].fileId != fileId)
    && (forall k :: 0 <= k < i ==> archives[a][k].fileId != fileId)
  }

  /** FindEntryByFileID over the archives' entry lists. */
  function FindEntryByFileId(archives: seq<seq<ForgeEntry>>, fileId: int): (r: Option<ForgeEntry>)
    ensures r.None? <==> forall a, k :: 0 <= a < |archives| && 0 <= k < |archives[a]| ==> archives[a][k].fileId != fileId
    ensures r.Some? ==> r.value.fileId == fileId
  {
    if archives == [] then None
    else match FirstWithFileId(archives[0], fileId)
      case Some(i) => Some(archives[0][i])
      case None =>
        var rest := FindEntryByFileId(archives[1..], fileId);
        assert rest.None? ==> forall a, k :: 1 <= a < |archives| && 0 <= k < |archives[a]| ==> archives[a][k].fileId != fileId by {
          if rest.None? {
            forall a, k | 1 <= a < |archives| && 0 <= k < |archives[a]|
              ensures archives[a][k].fileId != fileId
            {
              assert archives[a] == archives[1..][a - 1];
            }
          }
        }
        rest
  }

  /** The entry found is the first match, scanning archives in list order
      and the entries of each archive in order. */
  lemma {:induction false} FindEntryIsFirst(archives: seq<seq<ForgeEntry>>, fileId: int) returns (a: nat, i: nat)
    requires FindEntryByFileId(archives, fileId).Some?
    ensures FirstMatch(archives, fileId, a, i)
    ensures FindEntryByFileId(archives, fileId).value == archives[a][i]
    decreases |archives|
  {
    match FirstWithFileId(archives[0], fileId)
    case Some(k) =>
      a, i := 0, k;
    case None =>
      var b, j := FindEntryIsFirst(archives[1..], fileId);
      a, i := b + 1, j;
      forall c, k | 0 <= c < a && 0 <= k < |archives[c]|
        ensures archives[c][k].fileId != fileId
      {
        if c > 0 {
          assert archives[c] == archives[1..][c - 1];
        }
      }
  }

  // ---------------------------------------------------------------------
  // The startup cache

  /** The position of the last '.' in s. */
  function LastDot(s: string): (r: Option<nat>)
    ensures r.Some? ==> r.value < |s| && s[r.value] == '.' && '.' !in s[r.value + 1..]
    ensures r.None? <==> '.' !in s
  {
    if s == [] then None
    else if s[|s| - 1] == '.' then Some(|s| - 1)
    else
      var r := LastDot(s[..|s| - 1]);
      assert s == s[..|s| - 1] + [s[|s| - 1]];
      if r.Some? then
        assert s[r.value + 1..] == s[..|s| - 1][r.value + 1..] + [s[|s| - 1]];
        r
      else r
  }

  /** `Name.Contains('.') ? Name[..Name.LastIndexOf('.')] : Name` */
  function Stem(name: string): (s: string)
    ensures |s| <= |name| && s == name[..|s|]
    ensures '.' !in name ==> s == name
  {
    match LastDot(name)
    case None => name
    case Some(k) => name[..k]
  }

  /** The stem drops exactly the extension the reader puts back. */
  lemma StemOfExtended(s: string, tag: nat)
    requires Mapped(tag)
    ensures Stem(s + Extension(tag)) == s
  {
    ExtensionShape(tag);
    var ext := Extension(tag);
    var n := s + ext;
    assert n[|s|] == '.';
    assert n[|s| + 1..] == ext[1..];
  }

  /** A name survives the cache when the writer's stem plus the reader's
      extension gives it back: every name of one of the eight mapped types,
      and every name without a '.' of any other type. */
  lemma NameSurvivesCache(s: string, tag: nat)
    requires Mapped(tag) || '.' !in s
    ensures Stem(s + Extension(tag)) + Extension(tag) == s + Extension(tag)
  {
    if Mapped(tag) {
      StemOfExtended(s, tag);
    } else {
      ExtensionShape(tag);
      assert s + Extension(tag) == s;
    }
  }

  /** The name record a cached entry is given: its name and type only. */
  function CacheRecord(name: string, tag: nat): NameRecord
  {
    NameRecord(0, 0, 0, tag, 0, 0, 0, 0, 0, 0, name, 0, 0, 0, 0, 0)
  }

  /** WriteEntry: the 20 bytes ReadEntry consumes; `(int)Size` keeps the low
      32 bits. */
  function EntryBytes(e: ForgeEntry): (b: seq<byte>)
    ensures |b| == 20
  {
    Encode(e.offset, 8) + Encode(e.fileId, 8) + Encode(e.size, 4)
  }

  /** One entry as WriteStartupCache writes it. */
  function CacheEntryBytes(e: ForgeEntry): seq<byte>
  {
    StringZ(Stem(e.name)) + Encode(e.size, 8) + Encode(TagOf(e), 4) + EntryBytes(e)
  }

  /** The pieces one after the other. */
  function Flatten(parts: seq<seq<byte>>): seq<byte>
  {
    if parts == [] then [] else parts[0] + Flatten(parts[1..])
  }

  /** The record of each entry, in order. */
  function CacheRecords(es: seq<ForgeEntry>): (r: seq<seq<byte>>)
    ensures |r| == |es|
  {
    seq(|es|, i requires 0 <= i < |es| => CacheEntryBytes(es[i]))
  }

  function CacheEntriesBytes(es: seq<ForgeEntry>): seq<byte>
  {
    Flatten(CacheRecords(es))
  }

  function CacheHeaderBytes(h: ArchiveHeader, entryCount: int): (b: seq<byte>)
    ensures |b| == 33
  {
    Encode(h.startPos, 8) + Encode(h.version, 8) + Encode(h.padding1, 1)
    + Encode(h.fileVersion, 4) + Encode(h.headerOffset, 8) + Encode(entryCount, 4)
  }

  /** The number of entries the cache loops over: `i < EntryCount`. */
  function CacheCount(entryCount: int): nat
  {
    if entryCount > 0 then entryCount else 0
  }

  /** WriteStartupCache: the header values, then one record per entry; when
      EntryCount exceeds the entry list, the entries there are written and
      the next subscript throws. */
  function StartupCacheBytes(h: ArchiveHeader, entryCount: int, entries: seq<ForgeEntry>): seq<byte>
  {
    var n := if CacheCount(entryCount) <= |entries| then CacheCount(entryCount) else |entries|;
    CacheHeaderBytes(h, entryCount) + CacheEntriesBytes(entries[..n])
  }

  /** One cached entry, read back: a zero-terminated name, an i64 size that
      the entry's own i32 size then replaces, the u32 type and the 20-byte
      entry. The type's extension is appended to the name and the path is
      built from the extended name: the intended behaviour. The source
      (FORGE/ForgeFile.cs:217) builds the path before appending the
      extension; CacheEntryAsWritten is that version. */
  function ParseCacheEntry(d: seq<byte>, p: nat, archivePath: string): (r: Result<Parsed<ForgeEntry>>)
    ensures r.Ok? ==> r.value.next > p
  {
    var name :- ReadStringZ(d, p);
    var q := name.next;
    if q + 32 > |d| then Fail(EndOfStream)
    else
      Ok(Parsed(CachedEntry(name.value, UIntAt(d, q + 8, 4), IntAt(d, q + 28, 4), IntAt(d, q + 12, 8), IntAt(d, q + 20, 8),
                            archivePath), q + 32))
  }

  /** The entry a cache record describes: the stem with the type's extension
      as name, the path built from that name, and the record kept. */
  function CachedEntry(stem: string, tag: nat, size: int, offset: int, fileId: int, archivePath: string): ForgeEntry
  {
    var full := stem + Extension(tag);
    ForgeEntry(full, archivePath + "\\" + full, size, offset, fileId, Some(CacheRecord(stem, tag)))
  }

  /** The cached entry as ReadStartupCache builds it: its path is set before
      the extension is appended to its name. */
  function CacheEntryAsWritten(d: seq<byte>, p: nat, archivePath: string): (r: Result<Parsed<ForgeEntry>>)
    ensures r.Ok? <==> ParseCacheEntry(d, p, archivePath).Ok?
    ensures r.Ok? ==> var e := ParseCacheEntry(d, p, archivePath).value;
      r.value.next == e.next && r.value.value.(path := "") == e.value.(path := "")
      && e.value.nameTable.Some? && r.value.value.path == archivePath + "\\" + e.value.nameTable.value.name
  {
    var e :- ParseCacheEntry(d, p, archivePath);
    Ok(Parsed(e.value.(path := archivePath + "\\" + e.value.nameTable.value.name), e.next))
  }

  /** An entry of a type with an extension comes out of the cache with a path
      that lacks the extension its name has, unlike the path ReadNameTable
      gives the same entry; the corrected reader keeps the extension. */
  lemma CachePathLacksExtension(d: seq<byte>, p: nat, archivePath: string)
    requires ParseCacheEntry(d, p, archivePath).Ok?
    requires Mapped(TagOf(ParseCacheEntry(d, p, archivePath).value.value))
    ensures var w := CacheEntryAsWritten(d, p, archivePath).value.value;
      w.path != archivePath + "\\" + w.name
      && w.path + Extension(TagOf(w)) == archivePath + "\\" + w.name
    ensures var e := ParseCacheEntry(d, p, archivePath).value.value;
      e.path == archivePath + "\\" + e.name
  {
    var e := ParseCacheEntry(d, p, archivePath).value.value;
    var stem := e.nameTable.value.name;
    assert e.name == stem + Extension(TagOf(e));
    ExtensionShape(TagOf(e));
    PathPlusExtension(archivePath + "\\", stem, Extension(TagOf(e)));
  }

  lemma PathPlusExtension(dir: string, stem: string, ext: string)
    requires ext != ""
    ensures dir + stem != dir + (stem + ext)
    ensures dir + stem + ext == dir + (stem + ext)
  {
    assert |dir + stem| < |dir + (stem + ext)|;
  }

  /** ParseCacheEntry as an item reader. */
  function CacheEntryReader(archivePath: string): (seq<byte>, nat) -> Result<Parsed<ForgeEntry>>
  {
    (d: seq<byte>, p: nat) => ParseCacheEntry(d, p, archivePath)
  }

  function ParseCacheEntries(d: seq<byte>, p: nat, n: nat, archivePath: string): (r: Result<Parsed<seq<ForgeEntry>>>)
    ensures r.Ok? ==> |r.value.value| == n
  {
    ReadMany(d, p, n, CacheEntryReader(archivePath))
  }

  datatype CacheImage = CacheImage(header: ArchiveHeader, entryCount: int, entries: seq<ForgeEntry>)

  /** The archive header values at the start of a cached archive. */
  function ParseStartupCacheHeader(d: seq<byte>, p: nat): ArchiveHeader
    requires p + 33 <= |d|
  {
    ArchiveHeader(IntAt(d, p, 8), UIntAt(d, p + 8, 8), UIntAt(d, p + 16, 1), IntAt(d, p + 17, 4), IntAt(d, p + 21, 8))
  }

  /** ReadStartupCache: the header values (33 bytes), then one entry per
      count. */
  function ParseStartupCache(d: seq<byte>, p: nat, archivePath: string): (r: Result<Parsed<CacheImage>>)
  {
    if p + 33 > |d| then Fail(EndOfStream)
    else
      var entryCount := IntAt(d, p + 29, 4);
      var entries :- ParseCacheEntries(d, p + 33, CacheCount(entryCount), archivePath);
      Ok(Parsed(CacheImage(ParseStartupCacheHeader(d, p), entryCount, entries.value), entries.next))
  }

  // Round trip

  predicate InInt64(x: int) { -0x8000_0000_0000_0000 <= x < 0x8000_0000_0000_0000 }
  predicate InInt32(x: int) { -0x8000_0000 <= x < 0x8000_0000 }

  /** What the cache can hold of an entry: a stem that is stored byte for
      byte, 64-bit offset and ID, a size within int32 and a 32-bit type. */
  predicate Cacheable(e: ForgeEntry)
  {
    ByteString(Stem(e.name)) && InInt64(e.offset) && InInt64(e.fileId) && InInt32(e.size) && TagOf(e) < 0x1_0000_0000
  }

  /** An entry after the cache: the stem plus the type's extension as name,
      the path built from it, the same offset, ID, size and type. */
  function CacheView(e: ForgeEntry, archivePath: string): ForgeEntry
  {
    CachedEntry(Stem(e.name), TagOf(e), e.size, e.offset, e.fileId, archivePath)
  }

  lemma Pow256Values()
    ensures Pow256(1) == 0x100 && Pow256(4) == 0x1_0000_0000 && Pow256(8) == 0x1_0000_0000_0000_0000
  {
    assert Pow256(2) == 0x1_0000;
    assert Pow256(4) == 0x1_0000_0000 by { assert Pow256(3) == 0x100_0000; }
    assert Pow256(8) == 0x1_0000_0000_0000_0000 by {
      assert Pow256(6) == 0x1_0000_0000_0000 by { assert Pow256(5) == 0x100_0000_0000; }
      assert Pow256(7) == 0x100_0000_0000_0000;
    }
  }

  /** WriteEntry then ReadEntry gives back offset, file ID and size. */
  lemma EntryRoundTrip(d: seq<byte>, p: nat, e: ForgeEntry, target: ForgeEntry)
    requires InInt64(e.offset) && InInt64(e.fileId) && InInt32(e.size)
    requires p + 20 <= |d| && d[p..p + 20] == EntryBytes(e)
    ensures IntAt(d, p, 8) == e.offset && IntAt(d, p + 8, 8) == e.fileId && IntAt(d, p + 16, 4) == e.size
    ensures ParseEntry(d, p, target) == Ok(Parsed(target.(offset := e.offset, fileId := e.fileId, size := e.size), p + 20))
  {
    Pow256Values();
    var a, b, c := Encode(e.offset, 8), Encode(e.fileId, 8), Encode(e.size, 4);
    SliceSplit(d, p, a + b, c);
    SliceSplit(d, p, a, b);
    IntAtOfEncode(d, p, e.offset, 8);
    IntAtOfEncode(d, p + 8, e.fileId, 8);
    IntAtOfEncode(d, p + 16, e.size, 4);
  }

  /** Where the parts of one cache record sit. */
  lemma CacheEntryLayout(d: seq<byte>, p: nat, e: ForgeEntry)
    requires p + |CacheEntryBytes(e)| <= |d| && d[p..p + |CacheEntryBytes(e)|] == CacheEntryBytes(e)
    ensures var q := p + |Stem(e.name)| + 1;
      |CacheEntryBytes(e)| == |Stem(e.name)| + 33
      && d[p..q] == StringZ(Stem(e.name))
      && d[q + 8..q + 12] == Encode(TagOf(e), 4)
      && d[q + 12..q + 32] == EntryBytes(e)
  {
    var a := StringZ(Stem(e.name));
    var b := Encode(e.size, 8);
    var c := Encode(TagOf(e), 4);
    var t := EntryBytes(e);
    SliceSplit(d, p, a + b + c, t);
    SliceSplit(d, p, a + b, c);
    SliceSplit(d, p, a, b);
  }

  /** The record at p holds the stem, type, offset, ID and size of e. */
  predicate CacheFieldsHold(d: seq<byte>, p: nat, e: ForgeEntry)
  {
    var q := p + |Stem(e.name)| + 1;
    ReadStringZ(d, p) == Ok(Parsed(Stem(e.name), q)) && CacheTailHolds(d, q, e)
  }

  /** The 32 bytes after the stem at q hold the size, type, offset, ID and
      size of e (the first size is not read back). */
  predicate CacheTailHolds(d: seq<byte>, q: nat, e: ForgeEntry)
  {
    q + 32 <= |d|
    && UIntAt(d, q + 8, 4) == TagOf(e)
    && IntAt(d, q + 12, 8) == e.offset && IntAt(d, q + 20, 8) == e.fileId && IntAt(d, q + 28, 4) == e.size
  }

  /** A type written as four bytes reads back. */
  lemma TagAtOfEncode(d: seq<byte>, q: nat, tag: nat)
    requires tag < 0x1_0000_0000
    requires q + 4 <= |d| && d[q..q + 4] == Encode(tag, 4)
    ensures UIntAt(d, q, 4) == tag
  {
    Pow256Values();
    UIntAtOfEncode(d, q, tag, 4);
  }

  /** The stem of a cache record reads back. */
  lemma CacheStemAt(d: seq<byte>, p: nat, e: ForgeEntry)
    requires Cacheable(e)
    requires p + |CacheEntryBytes(e)| <= |d| && d[p..p + |CacheEntryBytes(e)|] == CacheEntryBytes(e)
    ensures |CacheEntryBytes(e)| == |Stem(e.name)| + 33
    ensures ReadStringZ(d, p) == Ok(Parsed(Stem(e.name), p + |Stem(e.name)| + 1))
  {
    CacheEntryLayout(d, p, e);
    ReadStringZOfStringZ(d, p, Stem(e.name));
  }

  /** The type and the entry fields of a cache record read back. */
  lemma CacheTailAt(d: seq<byte>, e: ForgeEntry, q: nat)
    requires InInt64(e.offset) && InInt64(e.fileId) && InInt32(e.size) && TagOf(e) < 0x1_0000_0000
    requires q + 32 <= |d| && d[q + 8..q + 12] == Encode(TagOf(e), 4) && d[q + 12..q + 32] == EntryBytes(e)
    ensures CacheTailHolds(d, q, e)
  {
    TagAtOfEncode(d, q + 8, TagOf(e));
    EntryRoundTrip(d, q + 12, e, NewEntry);
  }

  /** The bytes of one cache record hold the stem, the type and the entry. */
  lemma CacheEntryFields(d: seq<byte>, p: nat, e: ForgeEntry)
    requires Cacheable(e)
    requires p + |CacheEntryBytes(e)| <= |d| && d[p..p + |CacheEntryBytes(e)|] == CacheEntryBytes(e)
    ensures |CacheEntryBytes(e)| == |Stem(e.name)| + 33
    ensures CacheFieldsHold(d, p, e)
  {
    CacheStemAt(d, p, e);
    CacheEntryLayout(d, p, e);
    CacheTailAt(d, e, p + |Stem(e.name)| + 1);
  }

  /** A record written for e from p up to next reads back as e's cached
      view and ends at next. */
  lemma CacheEntryRoundTrip(d: seq<byte>, p: nat, e: ForgeEntry, archivePath: string, next: nat)
    requires Cacheable(e)
    requires next == p + |CacheEntryBytes(e)| <= |d| && d[p..next] == CacheEntryBytes(e)
    ensures ParseCacheEntry(d, p, archivePath) == Ok(Parsed(CacheView(e, archivePath), next))
  {
    CacheEntryFields(d, p, e);
    CacheEntryOfFields(d, p, e, archivePath, next);
  }

  /** A record whose fields hold the stem, type, offset, ID and size of e
      reads back as the cached view of e. */
  lemma CacheEntryOfFields(d: seq<byte>, p: nat, e: ForgeEntry, archivePath: string, next: nat)
    requires CacheFieldsHold(d, p, e) && next == p + |Stem(e.name)| + 33
    ensures ParseCacheEntry(d, p, archivePath) == Ok(Parsed(CacheView(e, archivePath), next))
  {
    var s := Stem(e.name);
    ParseCacheEntryOf(d, p, s, p + |s| + 1, archivePath, TagOf(e), e);
  }

  /** ParseCacheEntry in terms of the values its fields hold. */
  lemma ParseCacheEntryOf(d: seq<byte>, p: nat, s: string, q: nat, archivePath: string, tag: nat, e: ForgeEntry)
    requires ReadStringZ(d, p) == Ok(Parsed(s, q)) && q + 32 <= |d|
    requires UIntAt(d, q + 8, 4) == tag
    requires IntAt(d, q + 12, 8) == e.offset && IntAt(d, q + 20, 8) == e.fileId && IntAt(d, q + 28, 4) == e.size
    ensures ParseCacheEntry(d, p, archivePath) == Ok(Parsed(CachedEntry(s, tag, e.size, e.offset, e.fileId, archivePath), q + 32))
  {
    var t, size, offset, id := UIntAt(d, q + 8, 4), IntAt(d, q + 28, 4), IntAt(d, q + 12, 8), IntAt(d, q + 20, 8);
    assert ParseCacheEntry(d, p, archivePath) == Ok(Parsed(CachedEntry(s, t, size, offset, id, archivePath), q + 32));
    assert t == tag && size == e.size && offset == e.offset && id == e.fileId;
  }

  /** The entries after the cache, in order. */
  function CacheViews(es: seq<ForgeEntry>, archivePath: string): (vs: seq<ForgeEntry>)
    ensures |vs| == |es|
  {
    seq(|es|, i requires 0 <= i < |es| => CacheView(es[i], archivePath))
  }

  lemma Assoc(a: seq<byte>, b: seq<byte>, c: seq<byte>)
    ensures a + (b + c) == a + b + c
  {
  }

  lemma SplitAt<T>(s: seq<T>, i: nat)
    requires i < |s|
    ensures s == s[..i] + ([s[i]] + s[i + 1..])
    ensures s[..i + 1] == s[..i] + [s[i]]
    ensures ([s[i]] + s[i + 1..])[1..] == s[i + 1..]
  {
  }

  lemma {:induction false} FlattenAppend(xs: seq<seq<byte>>, ys: seq<seq<byte>>)
    ensures Flatten(xs + ys) == Flatten(xs) + Flatten(ys)
  {
    if xs == [] {
      assert [] + ys == ys;
    } else {
      assert (xs + ys)[0] == xs[0];
      assert (xs + ys)[1..] == xs[1..] + ys;
      FlattenAppend(xs[1..], ys);
      Assoc(xs[0], Flatten(xs[1..]), Flatten(ys));
    }
  }

  /** Flatten around piece i. */
  lemma FlattenSplit(parts: seq<seq<byte>>, i: nat)
    requires i < |parts|
    ensures Flatten(parts) == Flatten(parts[..i]) + parts[i] + Flatten(parts[i + 1..])
    ensures Flatten(parts[..i + 1]) == Flatten(parts[..i]) + parts[i]
  {
    var front, x, back := parts[..i], parts[i], parts[i + 1..];
    SplitAt(parts, i);
    FlattenAppend(front, [x] + back);
    assert Flatten([x] + back) == x + Flatten(back);
    Assoc(Flatten(front), x, Flatten(back));
    FlattenAppend(front, [x]);
    assert Flatten([x]) == x + Flatten([]);
    assert x + [] == x;
  }

  /** Where piece i starts when the pieces are laid out from p. */
  function PartStart(parts: seq<seq<byte>>, p: nat, i: nat): nat
    requires i <= |parts|
  {
    p + |Flatten(parts[..i])|
  }

  /** Piece i + 1 starts where piece i ends. */
  lemma PartStartStep(parts: seq<seq<byte>>, p: nat, i: nat)
    requires i < |parts|
    ensures PartStart(parts, p, i) + |parts[i]| == PartStart(parts, p, i + 1)
  {
    FlattenSplit(parts, i);
  }

  /** The pieces before i, piece i and the pieces after it make up the whole. */
  lemma FlattenAround(parts: seq<seq<byte>>, i: nat)
    requires i < |parts|
    ensures Flatten(parts) == Flatten(parts[..i]) + parts[i] + Flatten(parts[i + 1..])
  {
    FlattenSplit(parts, i);
  }

  /** Piece i lies between its start and the start of the next piece. */
  lemma FlattenWindow(d: seq<byte>, p: nat, parts: seq<seq<byte>>, i: nat)
    requires i < |parts|
    requires p + |Flatten(parts)| <= |d| && d[p..p + |Flatten(parts)|] == Flatten(parts)
    ensures PartStart(parts, p, i) + |parts[i]| == PartStart(parts, p, i + 1) <= |d|
    ensures d[PartStart(parts, p, i)..PartStart(parts, p, i) + |parts[i]|] == parts[i]
  {
    PartStartStep(parts, p, i);
    FlattenAround(parts, i);
    Middle(d, p, Flatten(parts), Flatten(parts[..i]), parts[i], Flatten(parts[i + 1..]), PartStart(parts, p, i));
  }

  /** The records of the first i + 1 entries. */
  lemma CacheRecordsSnoc(es: seq<ForgeEntry>, i: nat)
    requires i < |es|
    ensures CacheRecords(es[..i + 1]) == CacheRecords(es[..i]) + [CacheEntryBytes(es[i])]
  {
  }

  /** Writing entry i after the first i entries gives the first i + 1. */
  lemma CacheWriteStep(start: seq<byte>, es: seq<ForgeEntry>, i: nat)
    requires i < |es|
    ensures start + CacheEntriesBytes(es[..i]) + CacheEntryBytes(es[i]) == start + CacheEntriesBytes(es[..i + 1])
  {
    var parts := CacheRecords(es[..i]);
    var x := CacheEntryBytes(es[i]);
    CacheRecordsSnoc(es, i);
    FlattenAppend(parts, [x]);
    assert Flatten([x]) == x + Flatten([]);
    assert x + [] == x;
    Assoc(start, Flatten(parts), x);
  }

  /** The middle part of a window of the data that holds a + b + c. */
  lemma Middle(d: seq<byte>, p: nat, w: seq<byte>, a: seq<byte>, b: seq<byte>, c: seq<byte>, s: nat)
    requires p + |w| <= |d| && d[p..p + |w|] == w && w == a + b + c
    requires s == p + |a|
    ensures s + |b| <= |d| && d[s..s + |b|] == b
  {
    SliceSplit(d, p, a + b, c);
    SliceSplit(d, p, a, b);
  }

  /** Where the record of entry i sits among the records of es. */
  function CacheEntryStart(es: seq<ForgeEntry>, p: nat, i: nat): nat
    requires i <= |es|
  {
    PartStart(CacheRecords(es), p, i)
  }

  /** The record of entry i lies between its start and the start of the
      next entry. */
  lemma CacheEntryWindow(d: seq<byte>, p: nat, es: seq<ForgeEntry>, i: nat)
    requires i < |es|
    requires p + |CacheEntriesBytes(es)| <= |d| && d[p..p + |CacheEntriesBytes(es)|] == CacheEntriesBytes(es)
    ensures var s := CacheEntryStart(es, p, i);
      s + |CacheEntryBytes(es[i])| == CacheEntryStart(es, p, i + 1) <= |d|
      && d[s..s + |CacheEntryBytes(es[i])|] == CacheEntryBytes(es[i])
  {
    FlattenWindow(d, p, CacheRecords(es), i);
  }

  /** The same, with the start, count and end named. */
  lemma ParseCacheEntriesRun(d: seq<byte>, pos: seq<nat>, vals: seq<ForgeEntry>, archivePath: string, start: nat, n: nat, end: nat)
    requires |pos| == |vals| + 1 && n == |vals| && pos[0] == start && pos[n] == end
    requires forall i :: 0 <= i < |vals| ==> ReadsTo(CacheEntryReader(archivePath), d, pos[i], vals[i], pos[i + 1])
    ensures ParseCacheEntries(d, start, n, archivePath) == Ok(Parsed(vals, end))
  {
    ReadManySteps(d, pos, vals, CacheEntryReader(archivePath));
  }

  /** A record that fails after records that parse makes the run fail. */
  lemma ParseCacheEntriesFail(d: seq<byte>, pos: seq<nat>, vals: seq<ForgeEntry>, archivePath: string, start: nat, n: nat, i: nat)
    requires |pos| == |vals| + 1 && i == |vals| < n && pos[0] == start
    requires forall k :: 0 <= k < |vals| ==> ReadsTo(CacheEntryReader(archivePath), d, pos[k], vals[k], pos[k + 1])
    requires ParseCacheEntry(d, pos[i], archivePath).Fail?
    ensures ParseCacheEntries(d, start, n, archivePath).Fail?
  {
    ReadManyFailAfter(d, pos, vals, n - i, CacheEntryReader(archivePath));
  }

  /** Each record of the run parses to the cached view of its entry and
      ends where the next one starts. */
  lemma CacheEntryAt(d: seq<byte>, p: nat, es: seq<ForgeEntry>, i: nat, archivePath: string)
    requires i < |es| && Cacheable(es[i])
    requires p + |CacheEntriesBytes(es)| <= |d| && d[p..p + |CacheEntriesBytes(es)|] == CacheEntriesBytes(es)
    ensures ParseCacheEntry(d, CacheEntryStart(es, p, i), archivePath)
      == Ok(Parsed(CacheView(es[i], archivePath), CacheEntryStart(es, p, i + 1)))
  {
    CacheEntryWindow(d, p, es, i);
    CacheEntryRoundTrip(d, CacheEntryStart(es, p, i), es[i], archivePath, CacheEntryStart(es, p, i + 1));
  }

  lemma CacheEntriesRoundTrip(d: seq<byte>, p: nat, es: seq<ForgeEntry>, archivePath: string)
    requires forall i :: 0 <= i < |es| ==> Cacheable(es[i])
    requires p + |CacheEntriesBytes(es)| <= |d| && d[p..p + |CacheEntriesBytes(es)|] == CacheEntriesBytes(es)
    ensures ParseCacheEntries(d, p, |es|, archivePath).Ok?
    ensures ParseCacheEntries(d, p, |es|, archivePath).value.value == CacheViews(es, archivePath)
    ensures ParseCacheEntries(d, p, |es|, archivePath).value.next == p + |CacheEntriesBytes(es)|
  {
    var pos := seq(|es| + 1, i requires 0 <= i <= |es| => CacheEntryStart(es, p, i));
    var vals := CacheViews(es, archivePath);
    forall i | 0 <= i < |es|
      ensures ReadsTo(CacheEntryReader(archivePath), d, pos[i], vals[i], pos[i + 1])
    {
      assert pos[i] == CacheEntryStart(es, p, i) && pos[i + 1] == CacheEntryStart(es, p, i + 1);
      assert vals[i] == CacheView(es[i], archivePath);
      CacheEntryAt(d, p, es, i, archivePath);
    }
    assert CacheRecords(es)[..|es|] == CacheRecords(es);
    ParseCacheEntriesRun(d, pos, vals, archivePath, p, |es|, p + |CacheEntriesBytes(es)|);
  }

  lemma CacheHeaderRoundTrip(d: seq<byte>, p: nat, h: ArchiveHeader, entryCount: int)
    requires InInt64(h.startPos) && h.version < 0x1_0000_0000_0000_0000 && h.padding1 < 0x100
    requires InInt32(h.fileVersion) && InInt64(h.headerOffset) && InInt32(entryCount)
    requires p + 33 <= |d| && d[p..p + 33] == CacheHeaderBytes(h, entryCount)
    ensures IntAt(d, p, 8) == h.startPos && UIntAt(d, p + 8, 8) == h.version && UIntAt(d, p + 16, 1) == h.padding1
    ensures IntAt(d, p + 17, 4) == h.fileVersion && IntAt(d, p + 21, 8) == h.headerOffset && IntAt(d, p + 29, 4) == entryCount
  {
    Pow256Values();
    var e1, e2, e3 := Encode(h.startPos, 8), Encode(h.version, 8), Encode(h.padding1, 1);
    var e4, e5, e6 := Encode(h.fileVersion, 4), Encode(h.headerOffset, 8), Encode(entryCount, 4);
    SliceSplit(d, p, e1 + e2 + e3 + e4 + e5, e6);
    SliceSplit(d, p, e1 + e2 + e3 + e4, e5);
    SliceSplit(d, p, e1 + e2 + e3, e4);
    SliceSplit(d, p, e1 + e2, e3);
    SliceSplit(d, p, e1, e2);
    IntAtOfEncode(d, p, h.startPos, 8);
    UIntAtOfEncode(d, p + 8, h.version, 8);
    UIntAtOfEncode(d, p + 16, h.padding1, 1);
    IntAtOfEncode(d, p + 17, h.fileVersion, 4);
    IntAtOfEncode(d, p + 21, h.headerOffset, 8);
    IntAtOfEncode(d, p + 29, entryCount, 4);
  }

  /** ParseStartupCache at the start of the bytes, in terms of the header
      values and the entries that follow them. */
  lemma ParseStartupCacheOf(d: seq<byte>, archivePath: string, h: ArchiveHeader, entryCount: int,
                            entries: seq<ForgeEntry>, next: nat)
    requires 33 <= |d|
    requires IntAt(d, 0, 8) == h.startPos && UIntAt(d, 8, 8) == h.version && UIntAt(d, 16, 1) == h.padding1
    requires IntAt(d, 17, 4) == h.fileVersion && IntAt(d, 21, 8) == h.headerOffset && IntAt(d, 29, 4) == entryCount
    requires ParseCacheEntries(d, 33, CacheCount(entryCount), archivePath) == Ok(Parsed(entries, next))
    ensures ParseStartupCache(d, 0, archivePath) == Ok(Parsed(CacheImage(h, entryCount, entries), next))
  {
  }

  /** The header of a written startup cache reads back field by field. */
  lemma StartupCacheHeaderBack(d: seq<byte>, h: ArchiveHeader, entryCount: int, es: seq<ForgeEntry>)
    requires InInt64(h.startPos) && h.version < 0x1_0000_0000_0000_0000 && h.padding1 < 0x100
    requires InInt32(h.fileVersion) && InInt64(h.headerOffset) && InInt32(entryCount)
    requires d == StartupCacheBytes(h, entryCount, es)
    ensures 33 <= |d|
    ensures IntAt(d, 0, 8) == h.startPos && UIntAt(d, 8, 8) == h.version && UIntAt(d, 16, 1) == h.padding1
    ensures IntAt(d, 17, 4) == h.fileVersion && IntAt(d, 21, 8) == h.headerOffset && IntAt(d, 29, 4) == entryCount
  {
    var n := if CacheCount(entryCount) <= |es| then CacheCount(entryCount) else |es|;
    var head := CacheHeaderBytes(h, entryCount);
    var body := CacheEntriesBytes(es[..n]);
    assert d == head + body;
    assert d[0..|d|] == d;
    SliceSplit(d, 0, head, body);
    CacheHeaderRoundTrip(d, 0, h, entryCount);
  }

  /** The entries of a written startup cache read back as their cached
      views, up to the end of the bytes. */
  lemma StartupCacheEntriesBack(d: seq<byte>, h: ArchiveHeader, entryCount: int, es: seq<ForgeEntry>, archivePath: string)
    requires CacheCount(entryCount) <= |es|
    requires forall i :: 0 <= i < |es| ==> Cacheable(es[i])
    requires d == StartupCacheBytes(h, entryCount, es)
    ensures ParseCacheEntries(d, 33, CacheCount(entryCount), archivePath)
      == Ok(Parsed(CacheViews(es[..CacheCount(entryCount)], archivePath), |d|))
  {
    var n := CacheCount(entryCount);
    var head := CacheHeaderBytes(h, entryCount);
    var prefix := es[..n];
    var body := CacheEntriesBytes(prefix);
    assert d == head + body;
    assert d[0..|d|] == d;
    SliceSplit(d, 0, head, body);
    forall i | 0 <= i < |prefix|
      ensures Cacheable(prefix[i])
    {
      assert prefix[i] == es[i];
    }
    CacheEntriesRoundTrip(d, 33, prefix, archivePath);
  }

  /** WriteStartupCache then ReadStartupCache: the header values come back,
      and each entry comes back as its CacheView. */
  lemma StartupCacheRoundTrip(h: ArchiveHeader, entryCount: int, es: seq<ForgeEntry>, archivePath: string)
    requires InInt64(h.startPos) && h.version < 0x1_0000_0000_0000_0000 && h.padding1 < 0x100
    requires InInt32(h.fileVersion) && InInt64(h.headerOffset) && InInt32(entryCount)
    requires CacheCount(entryCount) <= |es|
    requires forall i :: 0 <= i < |es| ==> Cacheable(es[i])
    ensures var d := StartupCacheBytes(h, entryCount, es);
      ParseStartupCache(d, 0, archivePath)
      == Ok(Parsed(CacheImage(h, entryCount, CacheViews(es[..CacheCount(entryCount)], archivePath)), |d|))
  {
    var d := StartupCacheBytes(h, entryCount, es);
    StartupCacheHeaderBack(d, h, entryCount, es);
    StartupCacheEntriesBack(d, h, entryCount, es, archivePath);
    ParseStartupCacheOf(d, archivePath, h, entryCount, CacheViews(es[..CacheCount(entryCount)], archivePath), |d|);
  }

  /** An entry read from an archive keeps its name, path, offset, ID, size
      and type through the cache, when its type has an extension or its
      name has no '.'. */
  lemma ArchiveEntrySurvivesCache(e: ForgeEntry, archivePath: string, s: string)
    requires e.name == s + Extension(TagOf(e)) && (Mapped(TagOf(e)) || '.' !in s)
    requires e.path == archivePath + "\\" + e.name
    ensures CacheView(e, archivePath).name == e.name && CacheView(e, archivePath).path == e.path
    ensures CacheView(e, archivePath).offset == e.offset && CacheView(e, archivePath).fileId == e.fileId
    ensures CacheView(e, archivePath).size == e.size && TagOf(CacheView(e, archivePath)) == TagOf(e)
  {
    NameSurvivesCache(s, TagOf(e));
  }

  // ---------------------------------------------------------------------
  // The archive object

  /** ForgeDirectoryEntry: the archive's root directory. */
  class DirectoryEntry {
    const name: string
    const path: string
    var files: seq<ForgeEntry>

    constructor (name: string, path: string)
      ensures this.name == name && this.path == path && files == []
    {
      this.name := name;
      this.path := path;
      files := [];
    }
  }

  /** ForgeEntry.ReadEntry on a reader. */
  method ReadEntry(br: ByteReader, e: ForgeEntry) returns (r: Result<ForgeEntry>)
    modifies br
    ensures ParseEntry(br.data, old(br.position), e).Ok? ==>
      r == Ok(ParseEntry(br.data, old(br.position), e).value.value)
      && br.position == ParseEntry(br.data, old(br.position), e).value.next
    ensures ParseEntry(br.data, old(br.position), e).Fail? ==> r == Fail(EndOfStream)
  {
    var offset :- br.ReadInt64();
    var fileId :- br.ReadInt64();
    var size :- br.ReadInt32();
    r := Ok(e.(offset := offset, fileId := fileId, size := size));
  }

  /** ForgeEntry.WriteEntry */
  method WriteEntry(bw: ByteWriter, e: ForgeEntry)
    modifies bw
    ensures bw.written == old(bw.written) + EntryBytes(e)
  {
    bw.WriteInt(e.offset, 8);
    bw.WriteInt(e.fileId, 8);
    bw.WriteInt(e.size, 4);
  }

  /** ForgeNameTable.Read */
  method ReadNameRecord(br: ByteReader) returns (r: Result<NameRecord>)
    modifies br
    ensures old(br.position) + 192 <= |br.data| ==>
      r == Ok(RecordAt(br.data, old(br.position))) && br.position == old(br.position) + 192
    ensures old(br.position) + 192 > |br.data| ==> r.Fail?
  {
    ghost var p := br.position;
    var head :- ReadRecordHead(br);
    var chars := br.ReadBytes(128);
    var raw := chars.value;
    var tail :- ReadRecordTail(br);
    var (dataSize, fileDataId, unknownC, tag, unknown1C, unknown20, nextFileCount, previousFileCount, unknown28, timestamp)
      := head;
    var name := RecordName(raw, tag);
    r := Ok(NameRecord(dataSize, fileDataId, unknownC, tag, unknown1C, unknown20, nextFileCount, previousFileCount,
                       unknown28, timestamp, name, tail.0, tail.1, tail.2, tail.3, tail.4));
  }

  /** The ten fields before the name: DataSize, FileDataID, UnknownC, the
      resource type, Unknown1C, Unknown20, NextFileCount,
      PreviousFileCount, Unknown28 and Timestamp. */
  method ReadRecordHead(br: ByteReader) returns (r: Result<(int, int, int, nat, int, int, int, int, int, int)>)
    modifies br
    ensures var d, p := br.data, old(br.position);
      p + 44 <= |d| ==>
        && r == Ok((IntAt(d, p, 4), IntAt(d, p + 4, 8), IntAt(d, p + 12, 4), UIntAt(d, p + 16, 4), IntAt(d, p + 20, 4),
                    IntAt(d, p + 24, 4), IntAt(d, p + 28, 4), IntAt(d, p + 32, 4), IntAt(d, p + 36, 4), IntAt(d, p + 40, 4)))
        && br.position == p + 44
    ensures old(br.position) + 44 > |br.data| ==> r.Fail?
  {
    var dataSize :- br.ReadInt32();
    var fileDataId :- br.ReadInt64();
    var unknownC :- br.ReadInt32();
    var tag :- br.ReadUInt32();
    var unknown1C :- br.ReadInt32();
    var unknown20 :- br.ReadInt32();
    var nextFileCount :- br.ReadInt32();
    var previousFileCount :- br.ReadInt32();
    var unknown28 :- br.ReadInt32();
    var timestamp :- br.ReadInt32();
    r := Ok((dataSize, fileDataId, unknownC, tag, unknown1C, unknown20, nextFileCount, previousFileCount, unknown28,
             timestamp));
  }

  /** The five i32 fields after the name: UnknownAC to UnknownBC. */
  method ReadRecordTail(br: ByteReader) returns (r: Result<(int, int, int, int, int)>)
    modifies br
    ensures var d, p := br.data, old(br.position);
      p + 20 <= |d| ==>
        && r == Ok((IntAt(d, p, 4), IntAt(d, p + 4, 4), IntAt(d, p + 8, 4), IntAt(d, p + 12, 4), IntAt(d, p + 16, 4)))
        && br.position == p + 20
    ensures old(br.position) + 20 > |br.data| ==> r.Fail?
  {
    var unknownAC :- br.ReadInt32();
    var unknownB0 :- br.ReadInt32();
    var unknownB4 :- br.ReadInt32();
    var unknownB8 :- br.ReadInt32();
    var unknownBC :- br.ReadInt32();
    r := Ok((unknownAC, unknownB0, unknownB4, unknownB8, unknownBC));
  }

  /** The loop of WriteStartupCache: entries 0 .. n - 1, failing at the
      first subscript past the end of the list. */
  method WriteCacheEntries(bw: ByteWriter, es: seq<ForgeEntry>, n: nat) returns (r: Result<()>)
    modifies bw
    ensures r.Ok? <==> n <= |es|
    ensures bw.written == old(bw.written) + CacheEntriesBytes(es[..if n <= |es| then n else |es|])
  {
    ghost var start := old(bw.written);
    assert es[..0] == [];
    var i := 0;
    while i < n
      invariant 0 <= i <= n && i <= |es|
      invariant bw.written == start + CacheEntriesBytes(es[..i])
    {
      if i >= |es| {
        return Fail(IndexOutOfRange);
      }
      WriteCacheEntry(bw, es[i]);
      CacheWriteStep(start, es, i);
      i := i + 1;
    }
    r := Ok(());
  }

  method WriteCacheEntry(bw: ByteWriter, entry: ForgeEntry)
    modifies bw
    ensures bw.written == old(bw.written) + CacheEntryBytes(entry)
  {
    var name := Stem(entry.name);
    bw.WriteStringNullTerminated(name);
    bw.WriteInt(entry.size, 8);
    bw.WriteInt(TagOf(entry), 4);
    WriteEntry(bw, entry);
  }

  /** ReadStartupCache for one entry, with the path built from the extended
      name. This deviates from FORGE/ForgeFile.cs:217, which builds the path
      from the stem (CacheEntryAsWritten). */
  method ReadCacheEntry(br: ByteReader, archivePath: string) returns (r: Result<ForgeEntry>)
    modifies br
    ensures ParseCacheEntry(br.data, old(br.position), archivePath).Ok? ==>
      r == Ok(ParseCacheEntry(br.data, old(br.position), archivePath).value.value)
      && br.position == ParseCacheEntry(br.data, old(br.position), archivePath).value.next
    ensures ParseCacheEntry(br.data, old(br.position), archivePath).Fail? ==> r.Fail?
  {
    ghost var start := br.position;
    var name :- br.ReadStringNullTerminated();
    ghost var q := br.position;
    var size :- br.ReadInt64();
    var tag :- br.ReadUInt32();
    var e :- ReadEntry(br, ForgeEntry(name, "", size, 0, 0, Some(CacheRecord(name, tag))));
    ParseCacheEntryOf(br.data, start, name, q, archivePath, tag, e);
    var full := name + Extension(tag);
    r := Ok(e.(name := full, path := archivePath + "\\" + full));
  }

  /** n cached entries read one after the other. */
  method ReadCacheEntryList(br: ByteReader, n: nat, archivePath: string) returns (r: Result<seq<ForgeEntry>>)
    modifies br
    ensures ParseCacheEntries(br.data, old(br.position), n, archivePath).Ok? ==>
      r == Ok(ParseCacheEntries(br.data, old(br.position), n, archivePath).value.value)
      && br.position == ParseCacheEntries(br.data, old(br.position), n, archivePath).value.next
    ensures ParseCacheEntries(br.data, old(br.position), n, archivePath).Fail? ==> r.Fail?
  {
    ghost var d := br.data;
    ghost var pos: seq<nat> := [br.position];
    var done: seq<ForgeEntry> := [];
    var i := 0;
    while i < n
      invariant br.data == d && i <= n
      invariant |pos| == |done| + 1 == i + 1 && pos[0] == old(br.position) && pos[i] == br.position
      invariant forall k :: 0 <= k < |done| ==> ReadsTo(CacheEntryReader(archivePath), d, pos[k], done[k], pos[k + 1])
    {
      ghost var q := br.position;
      var e := ReadCacheEntry(br, archivePath);
      if e.Fail? {
        ParseCacheEntriesFail(d, pos, done, archivePath, old(br.position), n, i);
        return Fail(e.error);
      }
      assert ReadsTo(CacheEntryReader(archivePath), d, q, e.value, br.position);
      done := done + [e.value];
      pos := pos + [br.position];
      i := i + 1;
    }
    ParseCacheEntriesRun(d, pos, done, archivePath, old(br.position), n, br.position);
    r := Ok(done);
  }

  class ForgeArchive {
    const name: string
    const path: string
    var header: ArchiveHeader
    var subHeader: SubHeader
    var dataHeader: DataHeader
    var allEntries: seq<ForgeEntry>
    var root: DirectoryEntry?
    var children: Option<seq<ForgeArchive>>

    /** The file name and the (lower-cased) relative path of the archive. */
    constructor (name: string, path: string)
      ensures this.name == name && this.path == path
      ensures allEntries == [] && root == null && children == None
    {
      this.name := name;
      this.path := path;
      header := ArchiveHeader(0, 0, 0, 0, 0);
      subHeader := SubHeader(0, 0, 0, 0, 0, 0, 0, 0, 0);
      dataHeader := DataHeader(0, 0, 0, 0, 0, 0, 0, 0);
      allEntries := [];
      root := null;
      children := None;
    }

    method ReadHeader(br: ByteReader) returns (r: Result<()>)
      modifies this`header, br
      ensures ParseArchiveHeader(br.data, old(br.position)).Ok? ==>
        r.Ok? && header == ParseArchiveHeader(br.data, old(br.position)).value.value
        && br.position == ParseArchiveHeader(br.data, old(br.position)).value.next
      ensures ParseArchiveHeader(br.data, old(br.position)).Fail? ==>
        r == Fail(ParseArchiveHeader(br.data, old(br.position)).error)
    {
      var start := br.position;
      var version :- br.ReadUInt64();
      var padding :- br.ReadByte();
      var fileVersion :- br.ReadInt32();
      var headerOffset :- br.ReadInt64();
      header := ArchiveHeader(start, version, padding, fileVersion, headerOffset);
      if version != ArchiveMagic {
        return Fail(BadMagic);
      }
      r := Ok(());
    }

    method ReadSubHeader(br: ByteReader) returns (r: Result<()>)
      modifies this`subHeader, br
      ensures ParseSubHeader(br.data, header.headerOffset).Ok? ==>
        r.Ok? && subHeader == ParseSubHeader(br.data, header.headerOffset).value
      ensures ParseSubHeader(br.data, header.headerOffset).Fail? ==>
        r == Fail(ParseSubHeader(br.data, header.headerOffset).error)
    {
      var ok :- br.SetPosition(header.headerOffset);
      var s :- ReadSubHeaderFields(br);
      subHeader := s;
      r := Ok(());
    }

    /** The nine reads of ReadSubHeader, from the current position. */
    static method ReadSubHeaderFields(br: ByteReader) returns (r: Result<SubHeader>)
      modifies br
      ensures ParseSubHeader(br.data, old(br.position)).Ok? ==> r == ParseSubHeader(br.data, old(br.position))
      ensures ParseSubHeader(br.data, old(br.position)).Fail? ==> r == Fail(EndOfStream)
    {
      var entryCount :- br.ReadInt32();
      var unknown4 :- br.ReadInt32();
      var unknown8 :- br.ReadInt32();
      var unknownC :- br.ReadInt32();
      var rest :- ReadSubHeaderRest(br);
      r := Ok(SubHeader(entryCount, unknown4, unknown8, unknownC, rest.0, rest.1, rest.2, rest.3, rest.4));
    }

    /** Unknown10 (i32), Unknown14 (i64), MaximumEntryCount (i32), Unknown20
        (i32), DataOffset (i64): 28 bytes. */
    static method ReadSubHeaderRest(br: ByteReader) returns (r: Result<(int, int, int, int, int)>)
      modifies br
      ensures var d, o := br.data, old(br.position);
        o + 28 <= |d| ==> r == Ok((IntAt(d, o, 4), IntAt(d, o + 4, 8), IntAt(d, o + 12, 4), IntAt(d, o + 16, 4), IntAt(d, o + 20, 8)))
      ensures old(br.position) + 28 > |br.data| ==> r == Fail(EndOfStream)
    {
      var unknown10 :- br.ReadInt32();
      var unknown14 :- br.ReadInt64();
      var maximumEntryCount :- br.ReadInt32();
      var unknown20 :- br.ReadInt32();
      var dataOffset :- br.ReadInt64();
      r := Ok((unknown10, unknown14, maximumEntryCount, unknown20, dataOffset));
    }

    /** The entries loop over the 20-byte records. */
    method ReadEntries(entries: ByteReader, count: int) returns (r: Result<()>)
      requires entries.position == 0
      modifies this`allEntries, entries
      ensures ParseEntries(entries.data, count).Ok? ==> r.Ok? && allEntries == ParseEntries(entries.data, count).value
      ensures ParseEntries(entries.data, count).Fail? ==> r == Fail(EndOfStream)
    {
      allEntries := [];
      var n := if count > 0 then count else 0;
      var i := 0;
      while i < n
        invariant 0 <= i <= n && entries.position == 20 * i <= |entries.data|
        invariant |allEntries| == i
        invariant forall k :: 0 <= k < i ==> 20 * k + 20 <= |entries.data| && allEntries[k] == EntryAt(entries.data, 20 * k)
      {
        var e := ReadEntry(entries, NewEntry);
        if e.Fail? {
          assert 20 * n > |entries.data|;
          return Fail(e.error);
        }
        assert e.value == EntryAt(entries.data, 20 * i);
        allEntries := allEntries + [e.value];
        i := i + 1;
      }
      EntriesAre(entries.data, count, allEntries);
      r := Ok(());
    }

    /** The fixed 48-byte part of ReadDataHeader. */
    static method ReadDataHeaderFields(br: ByteReader, offset: int) returns (r: Result<DataHeader>)
      modifies br
      ensures ParseDataHeader(br.data, offset).Ok? ==>
        r == ParseDataHeader(br.data, offset) && br.position == offset + 48
      ensures ParseDataHeader(br.data, offset).Fail? ==> r == Fail(ParseDataHeader(br.data, offset).error)
    {
      var ok :- br.SetPosition(offset);
      var front :- ReadDataHeaderHalf(br);
      var back :- ReadDataHeaderHalf(br);
      r := Ok(DataHeader(front.0, front.1, front.2, front.3, back.0, back.1, back.2, back.3));
    }

    /** Each half of the data header is two i32 fields and two i64 fields:
        IndexCount, Padding2, TableOffset, NextDataOffset and IndexStart,
        IndexEnd, NameTableOffset, Padding3. */
    static method ReadDataHeaderHalf(br: ByteReader) returns (r: Result<(int, int, int, int)>)
      modifies br
      ensures var d, o := br.data, old(br.position);
        o + 24 <= |d| ==> r == Ok((IntAt(d, o, 4), IntAt(d, o + 4, 4), IntAt(d, o + 8, 8), IntAt(d, o + 16, 8))) && br.position == o + 24
      ensures old(br.position) + 24 > |br.data| ==> r == Fail(EndOfStream)
    {
      var a :- br.ReadInt32();
      var b :- br.ReadInt32();
      var c :- br.ReadInt64();
      var e :- br.ReadInt64();
      r := Ok((a, b, c, e));
    }

    method ReadDataHeader(br: ByteReader) returns (r: Result<()>)
      modifies this`dataHeader, this`allEntries, br
      ensures ParseDataSection(br.data, subHeader.dataOffset, subHeader.entryCount).Ok? ==>
        r.Ok? && dataHeader == ParseDataSection(br.data, subHeader.dataOffset, subHeader.entryCount).value.header
        && allEntries == ParseDataSection(br.data, subHeader.dataOffset, subHeader.entryCount).value.entries
      ensures ParseDataSection(br.data, subHeader.dataOffset, subHeader.entryCount).Fail? ==>
        r == Fail(ParseDataSection(br.data, subHeader.dataOffset, subHeader.entryCount).error)
    {
      var h :- ReadDataHeaderFields(br, subHeader.dataOffset);
      dataHeader := h;
      var entriesData :- br.ReadBytes(WrapInt32(20 * h.indexCount));
      var entries := new ByteReader(entriesData);
      r := ReadEntries(entries, subHeader.entryCount);
    }

    method ReadNameTable(br: ByteReader) returns (r: Result<()>)
      modifies this`allEntries, br
      ensures ParseNameTable(br.data, dataHeader, old(allEntries), path).Ok? ==>
        r.Ok? && allEntries == ParseNameTable(br.data, dataHeader, old(allEntries), path).value
      ensures ParseNameTable(br.data, dataHeader, old(allEntries), path).Fail? ==>
        r == Fail(ParseNameTable(br.data, dataHeader, old(allEntries), path).error)
    {
      var ok :- br.SetPosition(dataHeader.nameTableOffset);
      var entriesData :- br.ReadBytes(WrapInt32(192 * dataHeader.indexCount));
      var nametable := new ByteReader(entriesData);
      r := NameAllEntries(nametable);
    }

    /** The loop of ReadNameTable: the record at 192 * i names entry i. */
    method NameAllEntries(nametable: ByteReader) returns (r: Result<()>)
      requires nametable.position == 0
      modifies this`allEntries, nametable
      ensures NameEntries(nametable.data, old(allEntries), path).Ok? ==>
        r.Ok? && allEntries == NameEntries(nametable.data, old(allEntries), path).value
      ensures NameEntries(nametable.data, old(allEntries), path).Fail? ==> r == Fail(EndOfStream)
    {
      ghost var before := allEntries;
      ghost var buf := nametable.data;
      var i := 0;
      while i < |allEntries|
        invariant 0 <= i <= |allEntries| == |before|
        invariant nametable.data == buf && nametable.position == 192 * i <= |buf|
        invariant forall k :: 0 <= k < i ==>
          192 * k + 192 <= |buf| && allEntries[k] == Named(before[k], RecordAt(buf, 192 * k), path)
        invariant forall k :: i <= k < |before| ==> allEntries[k] == before[k]
      {
        var named := NameEntry(nametable, i);
        if !named {
          return Fail(EndOfStream);
        }
        i := i + 1;
      }
      r := Ok(());
    }

    /** One step of ReadNameTable: the record at the reader names entry i. */
    method NameEntry(nametable: ByteReader, i: nat) returns (named: bool)
      requires i < |allEntries| && nametable.position == 192 * i
      modifies this`allEntries, nametable
      ensures named <==> 192 * i + 192 <= |nametable.data|
      ensures named ==> nametable.position == 192 * i + 192
      ensures named ==> allEntries == old(allEntries)[i := Named(old(allEntries)[i], RecordAt(nametable.data, 192 * i), path)]
    {
      var table := ReadNameRecord(nametable);
      if table.Fail? {
        return false;
      }
      allEntries := allEntries[i := Named(allEntries[i], table.value, path)];
      named := true;
    }

    method CreateDirectories()
      modifies this`root
      ensures root != null && fresh(root)
      ensures root.name == name && root.path == path && root.files == allEntries
    {
      var dir := new DirectoryEntry(name, path);
      root := dir;
      var i := 0;
      while i < |allEntries|
        invariant 0 <= i <= |allEntries| && dir.files == allEntries[..i]
        modifies dir
      {
        dir.files := dir.files + [allEntries[i]];
        i := i + 1;
      }
    }

    /** The header and the sub-header it points to. */
    method ReadFrontSections(br: ByteReader) returns (r: Result<()>)
      modifies this`header, this`subHeader, br
      ensures ParseArchiveHeader(br.data, old(br.position)).Fail? ==>
        r == Fail(ParseArchiveHeader(br.data, old(br.position)).error)
      ensures ParseArchiveHeader(br.data, old(br.position)).Ok? ==>
        header == ParseArchiveHeader(br.data, old(br.position)).value.value
        && (ParseSubHeader(br.data, header.headerOffset).Ok? ==>
              r.Ok? && subHeader == ParseSubHeader(br.data, header.headerOffset).value)
        && (ParseSubHeader(br.data, header.headerOffset).Fail? ==>
              r == Fail(ParseSubHeader(br.data, header.headerOffset).error))
    {
      var ok :- ReadHeader(br);
      r := ReadSubHeader(br);
    }

    /** The data header, its entries and the name table it points to. */
    method ReadBackSections(br: ByteReader) returns (r: Result<()>)
      modifies this`dataHeader, this`allEntries, br
      ensures var ds := ParseDataSection(br.data, subHeader.dataOffset, subHeader.entryCount);
        && (ds.Fail? ==> r == Fail(ds.error))
        && (ds.Ok? ==> dataHeader == ds.value.header)
        && (ds.Ok? && ParseNameTable(br.data, ds.value.header, ds.value.entries, path).Ok? ==>
              r.Ok? && allEntries == ParseNameTable(br.data, ds.value.header, ds.value.entries, path).value)
        && (ds.Ok? && ParseNameTable(br.data, ds.value.header, ds.value.entries, path).Fail? ==>
              r == Fail(ParseNameTable(br.data, ds.value.header, ds.value.entries, path).error))
    {
      var ok :- ReadDataHeader(br);
      r := ReadNameTable(br);
    }

    /** The four sections of ReadStructure, each at the offset stored in
        the one before it. */
    method ReadSections(br: ByteReader) returns (r: Result<()>)
      modifies this`header, this`subHeader, this`dataHeader, this`allEntries, br
      ensures ParseArchive(br.data, old(br.position), path).Ok? ==>
        var a := ParseArchive(br.data, old(br.position), path).value;
        r.Ok? && header == a.header && subHeader == a.subHeader && dataHeader == a.dataHeader
        && allEntries == a.entries
      ensures ParseArchive(br.data, old(br.position), path).Fail? ==>
        r == Fail(ParseArchive(br.data, old(br.position), path).error)
    {
      ghost var d, p := br.data, br.position;
      ghost var h := ParseArchiveHeader(d, p);
      ghost var s := if h.Ok? then ParseSubHeader(d, h.value.value.headerOffset) else Fail(EndOfStream);
      ghost var ds := if h.Ok? && s.Ok? then ParseDataSection(d, s.value.dataOffset, s.value.entryCount) else Fail(EndOfStream);
      ghost var named := if h.Ok? && s.Ok? && ds.Ok? then ParseNameTable(d, ds.value.header, ds.value.entries, path) else Fail(EndOfStream);
      ArchiveStages(d, p, path, h, s, ds, named);
      r := ReadFrontSections(br);
      if r.Fail? {
        return;
      }
      r := ReadBackSections(br);
    }

    method ReadStructure(br: ByteReader) returns (r: Result<()>)
      modifies this`header, this`subHeader, this`dataHeader, this`allEntries, this`root, this`children, br
      ensures ParseArchive(br.data, old(br.position), path).Ok? ==>
        && r.Ok? && ParseArchive(br.data, old(br.position), path) == Ok(Archive(header, subHeader, dataHeader, allEntries))
        && root != null && fresh(root)
        && root.name == name && root.path == path && root.files == allEntries && children == Some([])
      ensures ParseArchive(br.data, old(br.position), path).Fail? ==>
        r == Fail(ParseArchive(br.data, old(br.position), path).error)
    {
      r := ReadSections(br);
      if r.Fail? {
        return;
      }
      CreateDirectories();
      children := Some([]);
    }

    /** The header part of WriteStartupCache. */
    method WriteCacheHeader(bw: ByteWriter)
      modifies bw
      ensures bw.written == old(bw.written) + CacheHeaderBytes(header, subHeader.entryCount)
    {
      bw.WriteInt(header.startPos, 8);
      bw.WriteInt(header.version, 8);
      bw.WriteInt(header.padding1, 1);
      bw.WriteInt(header.fileVersion, 4);
      bw.WriteInt(header.headerOffset, 8);
      bw.WriteInt(subHeader.entryCount, 4);
    }

    method WriteStartupCache(bw: ByteWriter) returns (r: Result<()>)
      modifies bw
      ensures r.Ok? <==> CacheCount(subHeader.entryCount) <= |allEntries|
      ensures bw.written == old(bw.written) + StartupCacheBytes(header, subHeader.entryCount, allEntries)
    {
      WriteCacheHeader(bw);
      r := WriteCacheEntries(bw, allEntries, CacheCount(subHeader.entryCount));
      Assoc(old(bw.written), CacheHeaderBytes(header, subHeader.entryCount),
        CacheEntriesBytes(allEntries[..if CacheCount(subHeader.entryCount) <= |allEntries| then CacheCount(subHeader.entryCount) else |allEntries|]));
    }

    /** The header part of ReadStartupCache. */
    method ReadCacheHeader(br: ByteReader) returns (r: Result<()>)
      modifies this`header, this`subHeader, br
      ensures old(br.position) + 33 <= |br.data| ==>
        (r.Ok? && br.position == old(br.position) + 33
         && header == ParseStartupCacheHeader(br.data, old(br.position))
         && subHeader == old(subHeader).(entryCount := IntAt(br.data, old(br.position) + 29, 4)))
      ensures old(br.position) + 33 > |br.data| ==> r.Fail?
    {
      var startPos :- br.ReadInt64();
      var version :- br.ReadUInt64();
      var padding :- br.ReadByte();
      var fileVersion :- br.ReadInt32();
      var headerOffset :- br.ReadInt64();
      var entryCount :- br.ReadInt32();
      header := ArchiveHeader(startPos, version, padding, fileVersion, headerOffset);
      subHeader := subHeader.(entryCount := entryCount);
      r := Ok(());
    }

    /** ReadStartupCache, with each entry's path built from its extended name.
        This is the intended behaviour and deviates from the source
        (FORGE/ForgeFile.cs:217 builds the path from the stem, as
        CacheEntryAsWritten does). */
    method ReadStartupCache(br: ByteReader) returns (r: Result<()>)
      modifies this`header, this`subHeader, this`allEntries, this`root, br
      ensures ParseStartupCache(br.data, old(br.position), path).Ok? ==>
        var c := ParseStartupCache(br.data, old(br.position), path).value;
        r.Ok? && br.position == c.next
        && header == c.value.header && subHeader == old(subHeader).(entryCount := c.value.entryCount)
        && allEntries == c.value.entries
        && root != null && fresh(root) && root.name == name && root.path == path && root.files == allEntries
      ensures ParseStartupCache(br.data, old(br.position), path).Fail? ==> r.Fail?
    {
      var ok :- ReadCacheHeader(br);
      allEntries := [];
      ok :- ReadCacheEntries(br, CacheCount(subHeader.entryCount));
      CreateDirectories();
      r := Ok(());
    }

    /** The loop of ReadStartupCache: n entries appended to AllEntries. */
    method ReadCacheEntries(br: ByteReader, n: nat) returns (r: Result<()>)
      modifies this`allEntries, br
      ensures ParseCacheEntries(br.data, old(br.position), n, path).Ok? ==>
        r.Ok? && allEntries == old(allEntries) + ParseCacheEntries(br.data, old(br.position), n, path).value.value
        && br.position == ParseCacheEntries(br.data, old(br.position), n, path).value.next
      ensures ParseCacheEntries(br.data, old(br.position), n, path).Fail? ==> r.Fail?
    {
      var entries := ReadCacheEntryList(br, n, path);
      if entries.Fail? {
        return Fail(entries.error);
      }
      allEntries := allEntries + entries.value;
      r := Ok(());
    }
  }
}

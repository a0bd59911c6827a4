# FORGE archives and resources, modelled in Dafny

This project models the reading core of CodeX.Games.ACOdyssey: the
FORGE archive container of the game's data files and the binary resource
records stored in it.

- **Archive container** (`ForgeFile`). This covers:
  - the 21-byte header and its 'scimitar' magic;
  - the sub-header and the data header, each found at an offset stored in the section before it;
  - the 20-byte entry records;
  - the 192-byte name records, whose names are filtered to printable ASCII and gain an extension chosen by resource type;
  - the synthetic root directory;
  - the startup-cache writer and reader;
  - `FindEntryByFileID`.
- **Self-describing headers.** File references, base objects, objects and the two pointer kinds. Their "check" flags decide how many bytes they consume.
- **Compressed-block container** (`ForgeCrypto`). This covers:
  - the scan for the second occurrence of the compression magic;
  - the block index;
  - the concatenation of stored or decompressed blocks;
  - `RecurringIndexes` and `GetCompressedBounds`.
- **Reference resolution** (`ForgeFileManager`, `ForgeDataFileMgr`). This covers:
  - first-match lookups across all archives;
  - the (type, hash) stream index;
  - the LOD-selector mesh choice;
  - the entities of an entity group;
  - the materials of a model;
  - the startup cache's choice between a cached and a freshly parsed archive.
- **Polymorphic dispatch.** The five entity-component types, and the world components chosen by `CreateWorldComponent`.
- **Resource readers.** Model, vertex and index data, material, texture, texture set, LOD selector, cell data, entity and entity group, world, and gameplay coordinator.
- **Resource files.** These cover:
  - the embedded-resource loops of the LOD-selector, entity-group and material files;
  - the mesh-group piece dictionary with its `_index` renaming on key collisions.

Every reader is specified by a pure function from (bytes, position) to a
parsed value and the next position, or to a failure. Each C# exception
becomes a `Fail`: end of stream, a negative array size, an explicit
`throw`, an index out of range, or a duplicate dictionary key. Where the
source works step by step on a reader or on object fields, a class or
method does the same work with loops and invariants, and its
postcondition ties the result to the specification function. The lemmas
state the properties the format promises, including:

- how many bytes each header consumes;
- round trips between writer and reader;
- first-match and last-writer-wins lookups;
- the renaming rules of the mesh-group dictionary;
- the tiling of the embedded resources;
- the layout of every vertex stride.

## Model

| member | source | states |
|---|---|---|
| ForgeCrypto.ReadInt64Magic | FORGE/ForgeCrypto.cs:95 | the int64 read at a position equals 1154322941026740787 exactly when the magic's eight bytes are stored there |
| ForgeCrypto.Scan | FORGE/ForgeCrypto.cs:93-100 | the scan keeps the offsets already found and adds only later offsets that hold the magic, at most two in all |
| ForgeCrypto.ScanFindsFirstHits | FORGE/ForgeCrypto.cs:93-100 | the offsets scanned are the first (at most two) occurrences of the magic, in order, with nothing skipped |
| ForgeCrypto.LocateFindsFirstHits | FORGE/ForgeCrypto.cs:87-104 | LocateRawDataIdentifier returns the first occurrences of the magic: at most two, non-overlapping, each fully inside the stream |
| ForgeCrypto.FirstHitsUnique | FORGE/ForgeCrypto.cs:87-104 | the first-occurrence property determines the offsets uniquely |
| ForgeCrypto.ScanReadsPrefix | FORGE/ForgeCrypto.cs:93-100 | once two offsets are found the scan stops: data agreeing up to the end of the second magic gives the same offsets |
| ForgeCrypto.LocateRawDataIdentifier | FORGE/ForgeCrypto.cs:87-104 | the method's loop returns exactly the first-occurrence offsets and restores the stream position |
| ForgeCrypto.OodleDecompress | FORGE/ForgeCrypto.cs:224-252 | a negative size fails, size 0 yields nothing, an empty input fails (Oodle is not called and 0 is reported), and any other result has exactly the requested size or fails |
| ForgeCrypto.ReadBlockTable | FORGE/ForgeCrypto.cs:41-48 | blockCount (uncompressed, compressed) pairs are read in order, 8 bytes each; short data fails with end of stream |
| ForgeCrypto.ReadContainerHeader | FORGE/ForgeCrypto.cs:28-48 | the header (int64 identifier, int16 version, compression byte, 4 skipped bytes, int32 count) and block table; the identifier is the magic when the scan found it there |
| ForgeCrypto.ReadChunk | FORGE/ForgeCrypto.cs:53-60 | a chunk is a checksum and CompressedSize stored bytes; equal sizes keep the bytes, different sizes go through the codec |
| ForgeCrypto.ReadChunks | FORGE/ForgeCrypto.cs:51-61 | one chunk per index entry, in index order |
| ForgeCrypto.Decompress | FORGE/ForgeCrypto.cs:13-69 | fewer than two magics give the input unchanged |
| ForgeCrypto.ChunksLength | FORGE/ForgeCrypto.cs:51-67 | when the stored bytes are all present, the concatenated chunks are as long as the sum of the uncompressed sizes |
| ForgeCrypto.DecompressLength | FORGE/ForgeCrypto.cs:13-69 | the output of a complete container has the total uncompressed size of its blocks |
| ForgeCrypto.StoredChunksIgnoreCodec | FORGE/ForgeCrypto.cs:59 | blocks whose two sizes agree never reach Oodle |
| ForgeCrypto.StoredBlocksIgnoreCodec | FORGE/ForgeCrypto.cs:59 | a container of stored blocks decodes the same with any codec |
| ForgeCrypto.BlockTableReadSuffix | FORGE/ForgeCrypto.cs:41-48 | the block table depends only on the bytes from its position on |
| ForgeCrypto.ChunksReadSuffix | FORGE/ForgeCrypto.cs:51-61 | the chunks depend only on the bytes from their position on |
| ForgeCrypto.HeaderIgnoresType | FORGE/ForgeCrypto.cs:31 | the compression-type byte is read but nothing depends on it |
| ForgeCrypto.CompressionTypeIgnored | FORGE/ForgeCrypto.cs:31 | changing the compression-type byte leaves DecompressData's output unchanged |
| ForgeCrypto.ChecksumIgnored | FORGE/ForgeCrypto.cs:55 | the checksum is read but affects neither the chunk nor the next position |
| ForgeCrypto.ReadContainerPrefix | FORGE/ForgeCrypto.cs:28-37 | the 19 header bytes are read and the block count returned; fewer than 19 bytes fail |
| ForgeCrypto.ReadBlockIndex | FORGE/ForgeCrypto.cs:41-48 | the loop fills the index with the block table's pairs, or fails with end of stream |
| ForgeCrypto.ReadContainer | FORGE/ForgeCrypto.cs:26-48 | seeking to the container and reading its header agrees with ReadContainerHeader |
| ForgeCrypto.ReadDataChunk | FORGE/ForgeCrypto.cs:53-60 | one iteration agrees with ReadChunk, including its failure |
| ForgeCrypto.ReadDataChunks | FORGE/ForgeCrypto.cs:51-61 | the loop's chunks equal ReadChunks, or it fails the same way |
| ForgeCrypto.ConcatenateChunks | FORGE/ForgeCrypto.cs:63-68 | the output stream is the decoded chunks concatenated in order |
| ForgeCrypto.DecompressData | FORGE/ForgeCrypto.cs:13-69 | the method's result equals Decompress of the input, whose properties are the lemmas above |
| ForgeCrypto.Recurring | FORGE/ForgeCrypto.cs:131-146 | null arrays, a negative length and a length beyond toFind give an empty list |
| ForgeCrypto.WindowMatchesSound | FORGE/ForgeCrypto.cs:152-166 | every pair from the offset loop marks a window of master equal to the scratch buffer |
| ForgeCrypto.WindowMatchesComplete | FORGE/ForgeCrypto.cs:152-166 | every offset where master holds the scratch buffer yields its pair |
| ForgeCrypto.AllMatchesSound | FORGE/ForgeCrypto.cs:147-167 | every pair marks a window of master equal to some window of toFind |
| ForgeCrypto.AllMatchesComplete | FORGE/ForgeCrypto.cs:147-167 | every window of master equal to a window of toFind is reported |
| ForgeCrypto.RecurringSound | FORGE/ForgeCrypto.cs:131-170 | a returned pair (j, e) has e == j + length - 1, fits in master and matches a window of toFind |
| ForgeCrypto.RecurringComplete | FORGE/ForgeCrypto.cs:131-170 | every match of a window of toFind in master is returned |
| ForgeCrypto.RecurringMatches | FORGE/ForgeCrypto.cs:131-170 | both directions: a pair is returned exactly when it marks such a match |
| ForgeCrypto.CounterExample | FORGE/ForgeCrypto.cs:154-161 | the innermost loop sets counterExample exactly when master and the scratch buffer differ in the window |
| ForgeCrypto.AppendWindowMatches | FORGE/ForgeCrypto.cs:152-166 | the middle loop appends the pairs of every offset where the scratch buffer occurs |
| ForgeCrypto.CopyWindow | FORGE/ForgeCrypto.cs:149-150 | the first inner loop copies the window of toFind into the scratch buffer |
| ForgeCrypto.AllWindowMatches | FORGE/ForgeCrypto.cs:145-167 | the outer loop over every window start i <= toFind.Length - length gives AllMatches: each window's matches, in window order |
| ForgeCrypto.RecurringIndexes | FORGE/ForgeCrypto.cs:131-170 | the method's list equals Recurring, characterised by the lemmas above |
| ForgeCrypto.CompressedBounds | FORGE/ForgeCrypto.cs:286-289 | GetCompressedBounds in unsigned 32-bit arithmetic stays below 2^32 |
| ForgeCrypto.CompressedBoundsCover | FORGE/ForgeCrypto.cs:286-289 | the bound is at least the size, adds at most 274 bytes per started 4 MiB, and adds nothing below 0x3C0001 |
| ForgeData.Vector2AsInt16 | FORGE/ForgeData.cs:14-22 | two int16s, X then Y, read in the reader's byte order; succeeds exactly when 4 bytes remain and advances by 4 |
| ForgeData.Vector3AsInt16 | FORGE/ForgeData.cs:24-33 | three int16s in X, Y, Z stream order; succeeds exactly when 6 bytes remain and advances by 6 |
| ForgeData.Vector4AsByte | FORGE/ForgeData.cs:35-45 | four unsigned bytes X, Y, Z, W; succeeds exactly when 4 bytes remain |
| ForgeData.ComponentRanges | FORGE/ForgeData.cs:14-45 | every int16 component lies in -32768..32767 and every byte component in 0..255 |
| ForgeData.LittleEndianInt16 | FORGE/ForgeData.cs:9 | in the default little-endian order an int16 is its low byte plus 256 times its high byte, as two's complement |
| ForgeData.ForgeDataReader.constructor | FORGE/ForgeData.cs:9-12 | a reader over the input at position 0, little-endian unless told otherwise |
| ForgeData.ForgeDataReader.ReadVector2AsInt16 | FORGE/ForgeData.cs:14-22 | the method returns Vector2AsInt16 at the old position and moves past it, or fails |
| ForgeData.ForgeDataReader.ReadVector3AsInt16 | FORGE/ForgeData.cs:24-33 | the method returns Vector3AsInt16 at the old position and moves past it, or fails |
| ForgeData.ForgeDataReader.ReadVector4AsByte | FORGE/ForgeData.cs:35-45 | the method returns Vector4AsByte at the old position and moves past it, or fails |
| IndexData.SwappedInvolution | Resources/ForgeModel.cs:515-521 | the swap loop undone by itself: swapping twice gives the indices back |
| IndexData.SwappedTriangle | Resources/ForgeModel.cs:515-521 | every whole triangle (a, b, c) becomes (b, a, c) |
| IndexData.IndexDataOf | Resources/ForgeModel.cs:495-523 | a result needs the mesh index inside both primitive tables and has 3 * PrimitiveCount indices (32-bit wrapped); never a length of 1 modulo 3 |
| IndexData.IndexDataRaw | Resources/ForgeModel.cs:505-513 | swapped back, the indices are the uint16s stored in the index buffer from byte 2 * IndexStart on |
| IndexData.SwapPairs | Resources/ForgeModel.cs:515-521 | the in-place loop succeeds unless a lone index sits at the end (faceData[i + 1] out of range), and then leaves Swapped of the old contents |
| IndexData.ReadIndexData | Resources/ForgeModel.cs:495-523 | the method's fresh array equals IndexDataOf, and it fails exactly where IndexDataOf fails |
| IndexData.TrianglesInBounds | Resources/ForgeModel.cs:594-611 | the triangle loop of CalculateNormals reads indices[i + 2]: it fails with an index out of range exactly when the count is not a multiple of 3 |
| IndexData.NormalsFailOnTrailingPair | Resources/ForgeModel.cs:594-611 | a mesh whose index count is 2 modulo 3 makes CalculateNormals throw |
| ForgeObjects.ReadFileReference | FORGE/ForgeFile.cs:464-473 | with check, a nonzero Num ends the record after one byte; otherwise Num, IsManaged and an int64 FileID, 10 bytes; short data fails |
| ForgeObjects.ReadBaseObject | FORGE/ForgeFile.cs:486-491 | three uint32s, always 12 bytes |
| ForgeObjects.ReadForgeObject | FORGE/ForgeFile.cs:502-510 | with check, a Num of 3 ends the record after one byte; otherwise Num and the 12-byte base object |
| ForgeObjects.ReadBaseObjectPtr | FORGE/ForgeFile.cs:529-538 | the file reference, then with check and a nonzero Num the position moves by newOffset and FileType stays 0; otherwise a uint32 FileType, 14 bytes in all |
| ForgeObjects.ReadObjectPtr | FORGE/ForgeFile.cs:551-566 | with check, Num 0 moves the position by newOffset and Num 3 ends the record; otherwise an int64 FileID follows the Num byte |
| ForgeObjects.ReadResourceHeader | Resources/ForgeMaterial.cs:75-81 | ResourceIdentifier, FileSize and FileNameSize, then FileNameSize one-byte chars: the name is as long as its size and ends the header |
| ForgeObjects.ReadReference | FORGE/ForgeFile.cs:464-473 | read without check a file reference is always 10 bytes |
| ForgeObjects.ReadPtr | FORGE/ForgeFile.cs:529-538 | read without check a base object pointer is always 14 bytes |
| ForgeObjects.ReadObject | FORGE/ForgeFile.cs:502-510 | read without check a ForgeObject is always 13 bytes |
| ForgeObjects.ReadHandle | FORGE/ForgeFile.cs:551-566 | read without check an object pointer is always 9 bytes |
| ForgeObjects.ReadOptionalHeader | Resources/ForgeMaterial.cs:73-82 | `if (!skipHeader)`: a skipped header reads nothing, otherwise the resource header is read and can fail |
| ForgeObjects.HeaderLayoutSizes | FORGE/ForgeFile.cs:447-567 | the unchecked layouts have the sizes the source's comments give: 0xC, 0xA, 0xD, 0xE and 0x9 |
| Material.CodesAreAligned | Resources/ForgeMaterial.cs:318-347 | every registry code is a multiple of 65536 with a type index below 29 |
| Material.MisalignedCodeIgnored | Resources/ForgeMaterial.cs:349-354 | a first code that is not a multiple of 65536 never decides, so DataType alone names the kind |
| Material.ReadMask | Resources/ForgeMaterial.cs:252-313 | a mask is its 12-byte base object and 8 (Mask) or 16 (Mask16b) bytes |
| Material.ReadTextureSelector | Resources/ForgeMaterial.cs:222-233 | three uint32s and two file references: always 32 bytes |
| Material.ReadObjectValue | Resources/ForgeMaterial.cs:183-196 | Num, ClassID and DataType2, then IsManaged only when DataType2 differs from DataType, then a texture selector |
| Material.ReadValue | Resources/ForgeMaterial.cs:177-206 | no kind reads nothing; ForgeObject, float, Vector4, uint and int are read by kind; any other kind throws "Unknown DynamicProperty" |
| Material.PrefixOf | Resources/ForgeMaterial.cs:172-177 | Hash, DataType, Type and Unknown1, with the kind looked up by GetType(Type, DataType) |
| Material.UntypedProperty | Resources/ForgeMaterial.cs:178-181 | without a kind the property is its 16-byte prefix |
| Material.UnreadableKindFails | Resources/ForgeMaterial.cs:205-206 | a known kind outside the five readable ones fails the whole read |
| Material.TypedPropertySize | Resources/ForgeMaterial.cs:183-204 | a typed property's size is 16 plus its value's: 4 for float, uint and int, 16 for Vector4, and 45 or 46 for a ForgeObject depending on whether the two data types differ |
| Material.SettingsLayout | Resources/ForgeMaterial.cs:85-96 | template, texture set, mask, blend mode, alpha mode and test value are 49 bytes; the 0xE skip before them is not among them |
| Material.ShadingLayout | Resources/ForgeMaterial.cs:130-141 | the back-face material, the five float words, Mask16b and TAADitherFactor are 59 bytes |
| Material.FixedPartLayout | Resources/ForgeMaterial.cs:84-141 | everything before NumProperties is 141 bytes |
| Material.PropertiesFollow | Resources/ForgeMaterial.cs:143-149 | the properties are exactly NumProperties dynamic properties read one after the other after the fixed part; a negative count fails |
| Material.ReadMaterial | Resources/ForgeMaterial.cs:71-150 | the method agrees with ParseMaterial: the same material and end position, or a failure where the parse fails |
| Material.ReadBody | Resources/ForgeMaterial.cs:84-149 | the method agrees with ReadMaterialBody |
| ForgeFile.ExtensionShape | FORGE/ForgeFile.cs:384-410 | the extension is empty exactly for the types the switch does not name; otherwise it is a dot and a word without further dots |
| ForgeFile.KeepPrintable | FORGE/ForgeFile.cs:382 | `Regex.Replace(Name, "[^ -~]", "")`: the result keeps only characters in 0x20-0x7E and is no longer than the input |
| ForgeFile.KeepPrintableAppend | FORGE/ForgeFile.cs:382 | the filter works character by character: it distributes over concatenation |
| ForgeFile.KeepPrintableKeeps | FORGE/ForgeFile.cs:382 | a printable name is left as it is |
| ForgeFile.KeepPrintableIdempotent | FORGE/ForgeFile.cs:382 | filtering twice is filtering once |
| ForgeFile.ParseSubHeader | FORGE/ForgeFile.cs:66-78 | the sub-header at HeaderOffset; EntryCount is an int32 |
| ForgeFile.ParseDataHeader | FORGE/ForgeFile.cs:80-90 | the data header at DataOffset; IndexCount is an int32 |
| ForgeFile.ParseEntries | FORGE/ForgeFile.cs:92-101 | EntryCount entries from the 20-byte records of the 20 * IndexCount buffer, entry i from record i; a buffer too short for EntryCount records fails |
| ForgeFile.ParseDataSection | FORGE/ForgeFile.cs:80-102 | the data header and max(EntryCount, 0) entries; success means EntryCount does not exceed a non-negative IndexCount |
| ForgeFile.RecordName | FORGE/ForgeFile.cs:376-410 | the 128 name characters filtered to 0x20-0x7E, then the type's extension: every character of the name is printable |
| ForgeFile.ParseNameRecord | FORGE/ForgeFile.cs:364-411 | a name record is exactly 192 bytes; short data fails; the name is printable |
| ForgeFile.NameEntries | FORGE/ForgeFile.cs:104-120 | entry i takes the record at 192 * i: its name table, name and path `Path + "\\" + Name`; succeeds exactly when the buffer holds a record per entry |
| ForgeFile.ArchiveStages | FORGE/ForgeFile.cs:141-149 | ReadStructure reads header, sub-header, data header and name table in order; the first that fails decides the error |
| ForgeFile.ArchiveSections | FORGE/ForgeFile.cs:50-90 | an archive opens only on the 'scimitar' magic 8241996789220729715, and each section is the one at the offset stored in the section before it |
| ForgeFile.ArchiveEntries | FORGE/ForgeFile.cs:92-120 | the archive has max(EntryCount, 0) entries, each named from its name record, with path `Path + "\\" + Name` and a printable name |
| ForgeFile.NamedEntriesShape | FORGE/ForgeFile.cs:110-119 | every named entry has its record, the record's name, and the path built from it |
| ForgeFile.TooManyEntriesFail | FORGE/ForgeFile.cs:92-101 | an EntryCount above a non-negative IndexCount runs the entry loop past the buffer, and ReadStructure fails |
| ForgeFile.FirstWithFileId | FORGE/ForgeFile.cs:186 | `FirstOrDefault(e => e.FileID == fileID)`: the first index with the ID, or none exactly when no entry has it |
| ForgeFile.FindEntryByFileId | FORGE/ForgeFile.cs:182-191 | null exactly when no archive holds the ID; otherwise an entry with that ID |
| ForgeFile.FindEntryIsFirst | FORGE/ForgeFile.cs:182-191 | the entry found is the first match, archives in list order and entries in order |
| ForgeFile.LastDot | FORGE/ForgeFile.cs:273 | `LastIndexOf('.')`: a '.' with none after it, and none exactly when the name has no '.' |
| ForgeFile.Stem | FORGE/ForgeFile.cs:273 | the name cut at its last '.', a prefix of the name; a name without '.' is kept whole |
| ForgeFile.StemOfExtended | FORGE/ForgeFile.cs:220-273 | the stem written drops exactly the extension the reader appends |
| ForgeFile.NameSurvivesCache | FORGE/ForgeFile.cs:220-273 | written then read back, a name keeps its value when its type has an extension, or when it had no '.' |
| ForgeFile.EntryBytes | FORGE/ForgeFile.cs:316-321 | WriteEntry writes 20 bytes |
| ForgeFile.CacheRecords | FORGE/ForgeFile.cs:266-279 | one record per entry, in order |
| ForgeFile.CacheHeaderBytes | FORGE/ForgeFile.cs:259-264 | the cache header is 33 bytes |
| ForgeFile.ParseCacheEntry | FORGE/ForgeFile.cs:206-246 | the intended reading of one cache record: a zero-terminated stem, Size, the type and the 20-byte entry; the name gains the type's extension and the path is built from that name; the record ends after it starts |
| ForgeFile.CacheEntryAsWritten | FORGE/ForgeFile.cs:217 | the record as ReadStartupCache reads it: it succeeds exactly when the corrected reading does, with the same fields and end, except that the path is built from the stem stored in the record |
| ForgeFile.CachePathLacksExtension | FORGE/ForgeFile.cs:217-246 | as written, a record of a type with an extension gets a path without that extension, unlike its name; the corrected reader's path ends with the name |
| ForgeFile.ParseCacheEntries | FORGE/ForgeFile.cs:204-253 | EntryCount records read one after the other |
| ForgeFile.EntryRoundTrip | FORGE/ForgeFile.cs:309-321 | WriteEntry then ReadEntry gives back Offset, FileID and Size |
| ForgeFile.CacheEntryLayout | FORGE/ForgeFile.cs:273-277 | a written record is the zero-terminated stem, the 8-byte size, the 4-byte type and the 20-byte entry |
| ForgeFile.TagAtOfEncode | FORGE/ForgeFile.cs:211-214 | a resource type written as four bytes reads back as the same uint32 |
| ForgeFile.CacheStemAt | FORGE/ForgeFile.cs:206-208 | the stem at the head of a written record reads back, ending after its zero byte |
| ForgeFile.CacheTailAt | FORGE/ForgeFile.cs:209-218 | after the stem, the written type, offset, ID and size read back |
| ForgeFile.CacheEntryFields | FORGE/ForgeFile.cs:273-277 | a written record is 33 bytes longer than its stem and holds the stem, type and entry fields |
| ForgeFile.CacheEntryRoundTrip | FORGE/ForgeFile.cs:206-277 | a record written for an entry reads back as that entry's cached view and ends where it was written to |
| ForgeFile.CacheEntryOfFields | FORGE/ForgeFile.cs:206-218 | a record holding an entry's fields reads back as that entry's cached view |
| ForgeFile.ParseCacheEntryOf | FORGE/ForgeFile.cs:206-218 | the record read is determined by the stem, the type and the ReadEntry fields that follow |
| ForgeFile.CacheViews | FORGE/ForgeFile.cs:204-253 | one cached entry per written entry |
| ForgeFile.CacheEntryAt | FORGE/ForgeFile.cs:204-253 | in a written run, record i reads back as the cached view of entry i and ends where record i + 1 starts |
| ForgeFile.CacheEntriesRoundTrip | FORGE/ForgeFile.cs:204-279 | a written run of records reads back as the cached views of its entries and ends at the end of the run |
| ForgeFile.CacheHeaderRoundTrip | FORGE/ForgeFile.cs:195-264 | the six header fields written read back unchanged |
| ForgeFile.ParseStartupCacheOf | FORGE/ForgeFile.cs:193-255 | the cache read from the start is the header values and the entries read after them |
| ForgeFile.StartupCacheHeaderBack | FORGE/ForgeFile.cs:195-264 | the header of a written startup cache reads back field by field |
| ForgeFile.StartupCacheEntriesBack | FORGE/ForgeFile.cs:204-279 | the records of a written startup cache read back as the cached views of its first EntryCount entries |
| ForgeFile.StartupCacheRoundTrip | FORGE/ForgeFile.cs:193-280 | WriteStartupCache then (intended) ReadStartupCache gives back the header values and each entry's cached view, consuming every byte written |
| ForgeFile.ArchiveEntrySurvivesCache | FORGE/ForgeFile.cs:193-280 | an entry named by its name table (the name has its type's extension or no '.') survives the cache with name, path, offset, ID, size and type unchanged |
| ForgeFile.DirectoryEntry.constructor | FORGE/ForgeFile.cs:124-129 | a directory with the archive's name and path and no files |
| ForgeFile.ReadEntry | FORGE/ForgeFile.cs:309-314 | Offset, FileID and Size read on a reader; too few bytes fail with end of stream |
| ForgeFile.WriteEntry | FORGE/ForgeFile.cs:316-321 | appends EntryBytes to what was written |
| ForgeFile.ReadNameRecord | FORGE/ForgeFile.cs:364-411 | the method reads the 192-byte record at the position; short data fails |
| ForgeFile.ReadRecordHead | FORGE/ForgeFile.cs:366-375 | the ten fields before the name, 44 bytes; short data fails |
| ForgeFile.ReadRecordTail | FORGE/ForgeFile.cs:377-381 | the five int32 fields after the name, 20 bytes; short data fails |
| ForgeFile.WriteCacheEntries | FORGE/ForgeFile.cs:266-279 | the loop writes the records of entries 0 .. n - 1 and fails at the first subscript past the end of AllEntries |
| ForgeFile.WriteCacheEntry | FORGE/ForgeFile.cs:273-277 | appends the record of one entry |
| ForgeFile.ReadCacheEntry | FORGE/ForgeFile.cs:206-247 | the method agrees with ParseCacheEntry, the corrected reading |
| ForgeFile.ReadCacheEntryList | FORGE/ForgeFile.cs:204-253 | n records read one after the other agree with ParseCacheEntries |
| ForgeFile.ForgeArchive.constructor | FORGE/ForgeFile.cs:41-48 | the archive's file name and lower-cased relative path, with no entries, root or children |
| ForgeFile.ForgeArchive.ReadHeader | FORGE/ForgeFile.cs:50-64 | agrees with ParseArchiveHeader: StartPos is the start, and a version other than 'scimitar' fails |
| ForgeFile.ForgeArchive.ReadSubHeader | FORGE/ForgeFile.cs:66-78 | agrees with ParseSubHeader at HeaderOffset |
| ForgeFile.ForgeArchive.ReadEntries | FORGE/ForgeFile.cs:93-101 | the entries loop sets AllEntries to ParseEntries, or fails with end of stream |
| ForgeFile.ForgeArchive.ReadDataHeader | FORGE/ForgeFile.cs:80-102 | agrees with ParseDataSection at DataOffset |
| ForgeFile.ForgeArchive.ReadNameTable | FORGE/ForgeFile.cs:104-120 | agrees with ParseNameTable at NameTableOffset |
| ForgeFile.ForgeArchive.NameAllEntries | FORGE/ForgeFile.cs:110-119 | the loop names every entry from its record, as NameEntries does, or fails with end of stream |
| ForgeFile.ForgeArchive.NameEntry | FORGE/ForgeFile.cs:112-118 | one iteration names entry i from the record at 192 * i and changes no other entry |
| ForgeFile.ForgeArchive.CreateDirectories | FORGE/ForgeFile.cs:122-139 | a fresh root with the archive's name and path whose files are AllEntries in order |
| ForgeFile.ForgeArchive.ReadFrontSections | FORGE/ForgeFile.cs:143-144 | the header and the sub-header it points to |
| ForgeFile.ForgeArchive.ReadBackSections | FORGE/ForgeFile.cs:145-146 | the data header, its entries and the name table it points to |
| ForgeFile.ForgeArchive.ReadSections | FORGE/ForgeFile.cs:143-146 | the four sections agree with ParseArchive |
| ForgeFile.ForgeArchive.ReadStructure | FORGE/ForgeFile.cs:141-149 | the archive read agrees with ParseArchive, whose lemmas are above, and Children becomes empty |
| ForgeFile.ForgeArchive.WriteCacheHeader | FORGE/ForgeFile.cs:259-264 | appends the 33 header bytes |
| ForgeFile.ForgeArchive.WriteStartupCache | FORGE/ForgeFile.cs:257-280 | appends the header and the first EntryCount records, and fails when EntryCount exceeds the entries |
| ForgeFile.ForgeArchive.ReadCacheHeader | FORGE/ForgeFile.cs:195-200 | the six header fields, 33 bytes; short data fails |
| ForgeFile.ForgeArchive.ReadStartupCache | FORGE/ForgeFile.cs:193-255 | agrees with ParseStartupCache (the corrected reading of the path): the header, EntryCount and entries it parses, the position where it ends, the rest of the sub-header unchanged, a fresh root holding the entries; only those fields change |
| ForgeFile.ForgeArchive.ReadCacheEntries | FORGE/ForgeFile.cs:204-253 | the loop appends the n records read to AllEntries |
| EntityRecords.ReadParticleHead | Resources/ForgeEntityGroup.cs:267-278 | the particle fields before its shape take 56 bytes; fewer remaining fail |
| EntityRecords.ReadParticleTail | Resources/ForgeEntityGroup.cs:279-288 | the particle fields after its shape take 55 bytes; fewer remaining fail |
| EntityRecords.ReadFireParticle | Resources/ForgeEntityGroup.cs:267-289 | FireParticle.Read succeeds exactly when 111 bytes remain, and reads 111 bytes |
| EntityRecords.ReadEmitterHead | Resources/ForgeEntityGroup.cs:344-356 | the emitter fields up to its orientation angle take 34 bytes |
| EntityRecords.ReadSoundEmitter | Resources/ForgeEntityGroup.cs:344-371 | SoundEmitter.Read succeeds exactly when 66 bytes remain and reads 66; the four counts it reads allocate no elements |
| EntityRecords.ReadSoundSubComponent | Resources/ForgeEntityGroup.cs:305-317 | SimpleSoundSubComponent.Read succeeds exactly when 105 bytes remain and reads 105 |
| EntityRecords.ReadSoundRtpc | Resources/ForgeEntityGroup.cs:385-395 | SoundRTPC.Read succeeds exactly when 36 bytes remain and reads 36 |
| EntityRecords.ReadTimeOfDayTransition | Resources/ForgeEntityGroup.cs:425-432 | TimeOfDayTransition.Read succeeds exactly when 21 bytes remain and reads 21 |
| EntityRecords.ReadCollisionFilter | Resources/ForgeEntityGroup.cs:665-681 | CollisionFilterInfo.Read succeeds exactly when 29 bytes remain and reads 29 |
| EntityRecords.ReadShapeOverride | Resources/ForgeEntityGroup.cs:579-588 | ListShapeOverrideData.Read succeeds exactly when 42 bytes remain and reads 42 |
| EntityRecords.ReadRigidBodyHead | Resources/ForgeEntityGroup.cs:614-630 | the rigid body fields up to its quality take 55 bytes |
| EntityRecords.ReadRigidBody | Resources/ForgeEntityGroup.cs:614-643 | RigidBody.Read succeeds exactly when 100 bytes remain and reads 100 |
| EntityRecords.ReadTypingInfo | Resources/ForgeEntityGroup.cs:863-875 | GuidanceObjectTypingInfo.Read succeeds exactly when 22 bytes remain and reads 22 |
| EntityRecords.ReadGuidanceObject | Resources/ForgeEntityGroup.cs:831-845 | GuidanceObject.Read succeeds exactly when 51 bytes remain and reads 51 |
| EntityRecords.GuidanceDataSplit | Resources/ForgeEntityGroup.cs:695-714 | a read GuidanceSystemData is its counted objects run at offset 0xD followed directly by its counted points run |
| EntityRecords.GuidanceObjectsRun | Resources/ForgeEntityGroup.cs:698-705 | a counted run of guidance objects takes its 4-byte count plus 51 bytes per object |
| EntityRecords.GuidanceDataLayout | Resources/ForgeEntityGroup.cs:695-714 | GuidanceSystemData: the object count at offset 0xD, 51 bytes per object, then the point count and 12 bytes per point; the read ends right after the points |
| EntityRecords.ReadEdgeFilter | Resources/ForgeEntityGroup.cs:736-751 | EdgeFilter.Read succeeds exactly when 36 bytes remain and reads 36 |
| EntityRecords.ReadPartNode | Resources/ForgeEntityGroup.cs:805-814 | PartNode.Read succeeds exactly when 24 bytes remain and reads 24 |
| EntityRecords.ReadPartitionerHead | Resources/ForgeEntityGroup.cs:768-784 | the leaf count is the uint32 at offset 15; the leafs take 2 bytes each and are followed by a 24-byte node |
| EntityRecords.ReadPartitioner | Resources/ForgeEntityGroup.cs:768-790 | Partitioner.Read holds as many leafs as the uint32 at offset 15 says |
| EntityRecords.ReadEntityDescriptor | Resources/ForgeEntityGroup.cs:451-463 | EntityDescriptor.Read succeeds exactly when 32 bytes remain and reads 32 |
| EntityRecords.ReadDataLayerFilter | Resources/ForgeEntityGroup.cs:475-486 | DataLayerFilter.Read takes 12 bytes; the action count read is the uint32 at offset 4, so a filter needs no action bytes only when it is 0 |
| EntityRecords.ReadGameStateData | Resources/ForgeEntityGroup.cs:514-528 | GameStateData.Read: the object's Num is the byte at offset 4, and the read then continues 9 bytes in when it is 3 and 21 bytes in otherwise |
| EntityRecords.ReadStreamableTexture | Resources/ForgeEntityGroup.cs:542-555 | StreamableTexture.Read: as many textures as the count at offset 12, 9 bytes each after it |
| EntityGroup.ReadEntityComponent | Resources/ForgeEntityGroup.cs:134-166 | a component is read by the reader of its pointer's type, and carries that type; a type outside CLASSIC, GUIDANCE_SYSTEM, RIGID_BODY, SOUND and FIRE fails |
| EntityGroup.ReadEntityHead | Resources/ForgeEntityGroup.cs:125-167 | Hierarchy is a checked pointer with offset 3 (4 bytes when its first byte is not 0, else 14); GlobalMatrix has 16 entries; every component has an entity component type |
| EntityGroup.ReadVisibilityFlags | Resources/ForgeEntityGroup.cs:169-183 | the fifteen flag bytes from SkipGroupMatrixUpdate to IgnoreOcclusionForLODLevel: 15 bytes, fewer fail |
| EntityGroup.ReadCategoryFlags | Resources/ForgeEntityGroup.cs:184-197 | EntityCategory to LightMask: 26 bytes, fewer fail |
| EntityGroup.ReadEntityFlags | Resources/ForgeEntityGroup.cs:169-197 | the flag block after the components: 41 bytes, fewer fail |
| EntityGroup.ReadEntityBounds | Resources/ForgeEntityGroup.cs:199-213 | DeconstructionGroupMask through BoundingVolumeType: 74 bytes, fewer fail |
| EntityGroup.ReadStreamableTextures | Resources/ForgeEntityGroup.cs:234-239 | exactly four streamable textures |
| EntityGroup.ReadEntityTail | Resources/ForgeEntityGroup.cs:215-243 | the descriptor, the data layer filter, the counted UI visuals, the six culling bytes, the reset data, four textures and the grid type and LOD indices |
| EntityGroup.ReadEntityBody | Resources/ForgeEntityGroup.cs:125-243 | everything after the optional reference: a full entity with the reference given and the head read first |
| EntityGroup.ReadEntity | Resources/ForgeEntityGroup.cs:112-244 | a group entity is the body alone; a single entity starts with a 10-byte reference, and a reference whose Num (first byte) is not 0 ends the read with only that reference |
| EntityGroup.ReferenceNum | FORGE/ForgeFile.cs:464-473 | the Num of a file reference is its first byte |
| EntityGroup.EntityComponentsTyped | Resources/ForgeEntityGroup.cs:137-166 | every component of an entity read has one of the five entity component types |
| EntityGroup.SingleEntitiesShape | Resources/ForgeEntityGroup.cs:112-123 | a counted run of single entities holds only entities that are a bare reference with Num not 0, or a full body with a Num-0 reference |
| EntityGroup.SingleEntityShapes | Resources/ForgeEntityGroup.cs:112-123 | every single entity read at any position has that shape |
| EntityGroup.ReadGroupEntity | Resources/ForgeEntityGroup.cs:29 | the group's own entity is read with singleEntity false: a full body with no reference |
| EntityGroup.ParseEntityGroup | Resources/ForgeEntityGroup.cs:19-47 | a group read has a root entity without reference, a display order array of NumEntity slots, and NumUIEntities not above NumEntity (a larger one indexes past the array and fails) |
| EntityGroup.ParseGroupWith | Resources/ForgeEntityGroup.cs:19-47 | the same with the entity readers as parameters: header, root, counted children, NumUIEntities and the display order |
| EntityGroup.ParseGroupEntities | Resources/ForgeEntityGroup.cs:30-46 | the counted children then the display order; the header and root are kept |
| EntityGroup.ParseGroupDisplay | Resources/ForgeEntityGroup.cs:40-46 | UIEntitiesDisplayOrder has NumEntity slots, of which the first NumUIEntities are read; more than NumEntity fails |
| EntityGroup.ForgeEntityGroup.constructor | Resources/ForgeEntityGroup.cs:15-17 | no arrays and zero counts |
| EntityGroup.ForgeEntityGroup.Read | Resources/ForgeEntityGroup.cs:19-47 | the fields read agree with ParseEntityGroup; a failure of the reader is a failure of ParseEntityGroup |
| EntityGroup.ForgeEntityGroup.ReadWith | Resources/ForgeEntityGroup.cs:19-47 | Read with the entity readers as parameters, agreeing with ParseGroupWith |
| EntityGroup.ReadChildren | Resources/ForgeEntityGroup.cs:30-46 | the loops fill the child array and the display order array as ParseGroupEntities says |
| EntityGroupFiles.GroupBlockTags | Files/EntityGroupFile.cs:48-77 | a block is accepted only for NONE, MESH, MATERIAL, TEXTURE_SET and LOD_SELECTOR; any other tag fails once its header is read |
| EntityGroupFiles.GroupPaddingBlock | Files/EntityGroupFile.cs:50-52 | a NONE block is its header and four more bytes |
| EntityGroupFiles.GroupNamedBlocks | Files/EntityGroupFile.cs:53-74 | a MESH block holds the embedded model read after the header, and a LOD_SELECTOR block the selector read after it, given the header as its own; both end where the resource ends |
| EntityGroupFiles.GroupResourceBlocks | Files/EntityGroupFile.cs:59-68 | MATERIAL and TEXTURE_SET blocks hold the resource read right after the header and end where it ends |
| EntityGroupFiles.EmbedsAppend | Files/EntityGroupFile.cs:48-77 | sorting one more block extends the four collections by its resource alone |
| EntityGroupFiles.SelectorsCarryHeaders | Files/EntityGroupFile.cs:69-74 | every LOD selector the loop collects carries the header of its block |
| EntityGroupFiles.EmbedsPrepend | Files/EntityGroupFile.cs:48-77 | a block sorted before others puts its selector first |
| EntityGroupFiles.ReadGroupBlock | Files/EntityGroupFile.cs:41-77 | one iteration of the loop on a reader agrees with ParseGroupBlockWith |
| EntityGroupFiles.EntityGroupFile.constructor | Files/EntityGroupFile.cs:11-26 | a fresh entity group and empty collections |
| EntityGroupFiles.EntityGroupFile.Load | Files/EntityGroupFile.cs:28-80 | the entity group read and the four collections agree with LoadEntityGroupFile, whose lemmas are above; any failure is a failure of it |
| EntityGroupFiles.EntityGroupFile.LoadWith | Files/EntityGroupFile.cs:28-80 | Load with the readers as parameters |
| EntityGroupFiles.EntityGroupFile.Add | Files/EntityGroupFile.cs:48-77 | the switch appends a block's resource to its own collection and leaves the others |
| EntityGroupFiles.EntityGroupFile.ReadEmbedded | Files/EntityGroupFile.cs:33-79 | fresh empty collections, then blocks until the position reaches the end; the collections are those of the blocks ReadBlocks reads |
| Components.ReadPrefix | FORGE/ForgeComponents.cs:35-40 | Active, OptimizedForHardwareInstancing, the LOD base object and the bit field: exactly 15 bytes, fewer fail |
| Components.ReadVisualHead | FORGE/ForgeComponents.cs:47-52 | the graphic object reference, then 0xD bytes skipped, then the LOD selector instance |
| Components.ReadVisualTail | FORGE/ForgeComponents.cs:54-74 | the settings to BVScale take 145 bytes; the auto resizer's check byte at offset 8 must be non-zero (zero throws); the permutation count allocates nothing since StaticPermutation reads nothing |
| Components.ReadRigidBodyMotion | FORGE/ForgeComponents.cs:147-203 | seven flags, the 16-entry transform and the rest: 112 bytes, fewer fail |
| Components.ReadAudio | FORGE/ForgeComponents.cs:218-227 | as many sub-emitters as the count, 105 bytes each, then the voice index |
| Components.ReadEffectReferences | FORGE/ForgeComponents.cs:277-299 | the eight effect references: 80 bytes, fewer fail |
| Components.ReadFireEffects | FORGE/ForgeComponents.cs:272-301 | FireSettings, Unknown1, the eight effects and IsPersistent: 95 bytes, fewer fail |
| Components.ReadFireTail | FORGE/ForgeComponents.cs:302-318 | any positive NumLightVisuals throws "not implemented" |
| Components.ReadFire | FORGE/ForgeComponents.cs:257-319 | a fire component read has no light visuals |
| Components.ReadClassic | FORGE/ForgeComponents.cs:33-75 | a classic component with the prefix read before it |
| Components.ReadGuidanceSystemComponent | FORGE/ForgeComponents.cs:92-109 | a guidance system component with the prefix |
| Components.ReadRigidBodyComponent | FORGE/ForgeComponents.cs:147-203 | a rigid body component with the prefix |
| Components.ReadAudioComponent | FORGE/ForgeComponents.cs:216-228 | an audio component with the prefix |
| Components.ReadFireComponent | FORGE/ForgeComponents.cs:257-319 | a fire component with the prefix |
| Components.ReadComponentBody | FORGE/ForgeComponents.cs:33-319 | the body read for a type is a component of that type, with the prefix |
| Components.ReadComponent | Resources/ForgeEntityGroup.cs:137-166 | an unknown type fails before anything is read; a component read has the type asked for and the prefix read first |
| Components.EntityComponentTypesDistinct | Resources/ForgeEntityGroup.cs:137-161 | the five component types are distinct, so each case selects its own class |
| Components.ReadAudioFrom | FORGE/ForgeComponents.cs:216-228 | the loop fills the sub-emitter array as ReadAudio says |
| Components.ReadComponentFrom | FORGE/ForgeComponents.cs:33-319 | Component.Read and the subclasses' Read on a reader agree with ReadComponent |
| Components.ReadComponentBodyFrom | FORGE/ForgeComponents.cs:33-319 | the body after the prefix agrees with ReadComponentBody |
| ForgeModel.MeshShape | Resources/ForgeModel.cs:296-338 | one mesh holds as many positions as its instancing entry declares, texture coordinates for none or all of them, the index data of its draw primitive, the header's name, and a stride of 16 plus 12 with normals and 8 with texture coordinates |
| ForgeModel.MeshNext | Resources/ForgeModel.cs:305 | the next iteration's vertex offset is the current one plus one vertex width per vertex |
| ForgeModel.MeshStepsAdvance | Resources/ForgeModel.cs:294-305 | every iteration moves the vertex offset on by the bytes of its own vertices |
| ForgeModel.CreateMeshesOf | Resources/ForgeModel.cs:281-347 | no draw primitives is invalid data; otherwise one mesh per draw primitive |
| ForgeModel.CreateMeshesAt | Resources/ForgeModel.cs:286-305 | mesh k is built from the running offset: the vertex bytes of all draw primitives before it |
| ForgeModel.ReadMesh | Resources/ForgeModel.cs:296-338 | the loop body agrees with one step of CreateMeshesOf |
| ForgeModel.CreateMeshes | Resources/ForgeModel.cs:281-347 | the Meshes array the loop fills is CreateMeshesOf, whose lemmas are above |
| ForgeModel.ReadModelScalars | Resources/ForgeModel.cs:168-172 | DescriptorMask to EstimatedMemoryUsage: 11 bytes in five fields, fewer fail |
| ForgeModel.ReadModelPrefix | Resources/ForgeModel.cs:165-172 | BaseObjectPtrModel and the scalars: 25 bytes, fewer fail |
| ForgeModel.ModelArraysShape | Resources/ForgeModel.cs:175-202 | SubMesh and SubMeshesBlendShapeID throw on Read, so a model read has both counts 0; the bones take 81 bytes each, 12 + 81 * NumBones in all |
| ForgeModel.ModelScalarsLayout | Resources/ForgeModel.cs:168-172 | the scalars are 11 bytes in five fields, all needed |
| ForgeModel.MorphScalarsLayout | Resources/ForgeModel.cs:260-264 | the morph scalars are 17 bytes in five fields |
| ForgeModel.DynamicScalarsLayout | Resources/ForgeModel.cs:274-278 | the dynamic-mesh scalars are 17 bytes in five fields |
| ForgeModel.ReadModelTrailer | Resources/ForgeModel.cs:260-278 | the scalars after MorphMappings: 43 bytes, fewer fail |
| ForgeModel.ReadModelFlags | Resources/ForgeModel.cs:231-246 | the sixteen flags Dynamic to MorphEnabled: 16 bytes |
| ForgeModel.TailReferencesShape | Resources/ForgeModel.cs:218-229 | TracePreciseMeshShape, then NumMaterials at byte 10, then that many 10-byte references |
| ForgeModel.TailMorphShape | Resources/ForgeModel.cs:231-278 | MorphMapping throws on Read, so NumMappings was 0 and the rest of the tail is 73 bytes |
| ForgeModel.ParseModel | Resources/ForgeModel.cs:152-279 | the header is there exactly when it was not skipped, and there is one mesh per draw primitive, at least one |
| ForgeModel.ReadModelContent | Resources/ForgeModel.cs:165-278 | after the header: head, body, CreateMeshes, tail; the header is kept |
| ForgeModel.ReadModelGeometry | Resources/ForgeModel.cs:204-216 | the body, then one mesh per draw primitive of its compiled mesh |
| ForgeModel.ReadHead | Resources/ForgeModel.cs:165-202 | the head read on a reader agrees with ReadModelHead |
| ForgeModel.ReadArrays | Resources/ForgeModel.cs:175-202 | the three array loops agree with ReadModelArrays |
| ForgeModel.ReadBody | Resources/ForgeModel.cs:204-214 | agrees with ReadModelBody |
| ForgeModel.ReadTail | Resources/ForgeModel.cs:218-278 | agrees with ReadModelTail |
| ForgeModel.ReadReferencesPart | Resources/ForgeModel.cs:218-229 | agrees with ReadTailReferences |
| ForgeModel.ReadMorphPart | Resources/ForgeModel.cs:231-278 | agrees with ReadTailMorph |
| ForgeModel.ReadModel | Resources/ForgeModel.cs:152-279 | ForgeModel.Read on a reader agrees with ParseModel |
| ForgeModel.ReadContent | Resources/ForgeModel.cs:165-278 | agrees with ReadModelContent |
| ForgeModel.ReadGeometry | Resources/ForgeModel.cs:204-216 | agrees with ReadModelGeometry |
| ModelRecords.ReadDataBuffer | Resources/ForgeModel.cs:965-970 | ForgeDataBuffer.Read: an int32 size then max(size, 0) bytes; fails exactly when those bytes are not there |
| ModelRecords.ReadPrimitiveInfo | Resources/ForgeModel.cs:943-951 | ClusteredPrimitiveInfo: 24 bytes, the index start at offset 16 |
| ModelRecords.ReadMeshPrimitive | Resources/ForgeModel.cs:918-929 | MeshPrimitive: 36 bytes, NumVertices at offset 20 and PrimitiveCount at 28 |
| ModelRecords.ReadInstancing | Resources/ForgeModel.cs:888-901 | ForgeMeshInstancingData: 30 bytes, NumVertices the uint16 at offset 17 |
| ModelRecords.ReadMeshBone | Resources/ForgeModel.cs:1008-1016 | MeshBone: 81 bytes, the bone ID at offset 12 |
| ModelRecords.ReadProxyTriangle | Resources/ForgeModel.cs:1202-1220 | SkinWrapProxyMeshTriangle: 64 bytes, 13 plane values |
| ModelRecords.ReadProxyTarget | Resources/ForgeModel.cs:1234-1247 | SkinWrapProxyMeshTarget: as many 2-byte offsets as the count at offset 16 |
| ModelRecords.ReadSkinWrapProxy | Resources/ForgeModel.cs:1049-1102 | a proxy whose first byte is 3 is a one-byte stub; any other is the full proxy |
| ModelRecords.ReadProxyBody | Resources/ForgeModel.cs:1049-1102 | the six arrays after the proxy's object make a full proxy |
| ModelRecords.ReadSkinWrapLayer | Resources/ForgeModel.cs:1129-1178 | a layer whose first byte is 3 is a one-byte stub; any other is the full layer |
| ModelRecords.ReadLayerBody | Resources/ForgeModel.cs:1129-1178 | the arrays after the layer's object make a full layer |
| ModelRecords.LayerWeightsFilled | Resources/ForgeModel.cs:1129-1178 | the Weights loop runs over the weight index arrays, not NumWeights: more index arrays than weight slots fails, otherwise exactly the first slots are filled |
| ModelRecords.ReadClusteredHead | Resources/ForgeModel.cs:755-764 | the clustered mesh scalars: 38 bytes, the stored stride at offset 18 and the dynamic stride at 22 |
| ModelRecords.ReadClusteredMeshData | Resources/ForgeModel.cs:753-802 | the eight data buffers are all read |
| ModelRecords.ClusteredStride | Resources/ForgeModel.cs:760-801 | the final VertexStride is the stored one unless it is 8 or 16, and then the dynamic one |
| ModelRecords.ReadMeshData | Resources/ForgeModel.cs:832-871 | ForgeMeshData reads five buffers |
| ModelGeometry.CorrectVertexBuffer | Resources/ForgeModel.cs:525-547 | an empty VertexBuffer1 means VertexBuffer0; a failure is "invalid vertex data buffer" |
| ModelGeometry.CorrectVertexBufferChoice | Resources/ForgeModel.cs:527-545 | otherwise the buffer is the first of the four whose length is the wrapped uint product numVertices * stride, and the call fails exactly when none has it |
| ModelGeometry.ReadColorTexcoord | Resources/ForgeModel.cs:626-627 | one record is 8 bytes: a colour, then two int16s, the first doubled |
| ModelGeometry.Buffer0Texcoords | Resources/ForgeModel.cs:372-375 | only stride 12 reads texture coordinates from VertexBuffer0, one per vertex of the instancing entry |
| ModelGeometry.VertexDataOf | Resources/ForgeModel.cs:349-493 | a result needs the draw primitive in both arrays, and has one position per vertex of the instancing entry |
| ModelGeometry.VerticesData | Resources/ForgeModel.cs:377-490 | n vertices read give n positions |
| ModelGeometry.VertexDataSemantics | Resources/ForgeModel.cs:372-490 | the code has 'N' exactly when the stride lists normals and there are vertices, 'T' exactly when it lists texture coordinates or is 12; the offset moves on one vertex width per vertex; the mesh stride follows |
| ModelGeometry.TexcoordsFromBuffer0 | Resources/ForgeModel.cs:619-631 | the loop over a new reader of VertexBuffer0 agrees with Buffer0Texcoords |
| ModelGeometry.ReadVertexData | Resources/ForgeModel.cs:349-493 | the method agrees with VertexDataOf |
| VertexRecords.SlotStep | Resources/ForgeModel.cs:383-477 | one slot of a stride's case moves on by its width and adds a normal or texture coordinate only when it is that slot |
| VertexRecords.ReadSlots | Resources/ForgeModel.cs:383-477 | a stride's slots in order: normal and texture coordinate present exactly when in the layout |
| VertexRecords.VertexShape | Resources/ForgeModel.cs:381-480 | a vertex record read needs stride 6 or more (the default case moves back otherwise), takes the stride's width, has a normal and texture coordinate exactly when the case reads them, and swaps X and Y of the position |
| VertexRecords.ReadVertices | Resources/ForgeModel.cs:378-488 | n vertex records give n vertices |
| VertexRecords.ReadVerticesShape | Resources/ForgeModel.cs:378-488 | n records take n vertex widths; every vertex has a normal and texture coordinate exactly when the stride lists them |
| VertexRecords.UniformCounts | Resources/ForgeModel.cs:383-477 | when every vertex has a normal there is one per vertex, when none has there are none; the same for texture coordinates |
| VertexRecords.ReadSlot | Resources/ForgeModel.cs:383-477 | one slot read through a ForgeDataReader agrees with SlotStep |
| VertexRecords.ReadVertex | Resources/ForgeModel.cs:380-480 | one vertex read slot by slot agrees with VertexAt |
| VertexRecords.ReadVertexLists | Resources/ForgeModel.cs:362-488 | the loop's lists are the positions, normals and texture coordinates of ReadVertices |
| VertexSemantics.SemanticsCode | Resources/ForgeModel.cs:578-592 | the code has P and C always, N exactly when there are normals, T exactly when there are texture coordinates, nothing else, in element order |
| VertexSemantics.SemanticsStride | Resources/ForgeModel.cs:303-328 | actualStride is 16 plus 12 for a normal and 8 for a texture coordinate |
| VertexSemantics.LayoutStrideAppend | Resources/ForgeModel.cs:307-328 | the stride loop adds up element by element |
| VertexSlots.WidthUpToFive | Resources/ForgeModel.cs:383-477 | a case of at most five slots is as wide as its slots |
| VertexSlots.LayoutWidth | Resources/ForgeModel.cs:381-477 | every stride from 6 on reads VertexWidth bytes per vertex with its position: the stride itself, except 44 bytes for stride 48 |
| VertexSlots.LayoutSlots | Resources/ForgeModel.cs:383-477 | the strides whose case reads a normal, and those whose case reads a texture coordinate |
| LodSelector.DescriptorHeadLayout | Resources/ForgeLODSelector.cs:99-114 | the fixed part of a LODDescriptor is 53 bytes with seven scalars, and is read exactly when they are there |
| LodSelector.ArraysLayout | Resources/ForgeLODSelector.cs:116-131 | NumMaterials then 10 bytes per material reference, then NumBones then 4 bytes per bone ID |
| LodSelector.DescriptorArrays | Resources/ForgeLODSelector.cs:97-132 | a descriptor is its 53-byte fixed part followed by the two counted arrays |
| LodSelector.PrefixLayout | Resources/ForgeLODSelector.cs:46-53 | BaseObjectPtrLODSelector and the scalars: 25 bytes, fewer fail |
| LodSelector.TrailerLayout | Resources/ForgeLODSelector.cs:62-72 | the trailer is ten flags and a byte: 11 bytes |
| LodSelector.ReadDescriptors | Resources/ForgeLODSelector.cs:55-60 | LODDescs always holds five descriptors, read in order |
| LodSelector.SelectorLayout | Resources/ForgeLODSelector.cs:46-72 | the prefix, five descriptors each starting where the previous one ends, then the trailer |
| LodSelector.HeaderChoice | Resources/ForgeLODSelector.cs:35-44 | the header is read and kept exactly when skipHeader is false; with it skipped, the selector is the body alone |
| LodSelector.ReadLodDescriptor | Resources/ForgeLODSelector.cs:97-132 | LODDescriptor.Read on a reader agrees with ReadDescriptor |
| LodSelector.ReadArrays | Resources/ForgeLODSelector.cs:116-131 | the material and bone loops agree with ReadDescriptorArrays |
| LodSelector.ReadSelector | Resources/ForgeLODSelector.cs:46-72 | the prefix, the loop over the five descriptors and the trailer agree with ReadSelectorBody |
| LodSelector.ReadTail | Resources/ForgeLODSelector.cs:62-72 | agrees with ReadSelectorTail |
| LodSelector.ReadDescriptorArray | Resources/ForgeLODSelector.cs:55-60 | the loop fills a fresh five-element array as ReadDescriptors says |
| LodSelector.ReadLodSelector | Resources/ForgeLODSelector.cs:33-73 | ForgeLODSelector.Read on a reader agrees with ParseLodSelector |
| LodSelectorFiles.LodBlockTags | Files/LODSelectorFile.cs:58-83 | a block is accepted only for NONE, MESH, MATERIAL and TEXTURE_SET; any other tag fails once its header is read |
| LodSelectorFiles.LodPaddingBlock | Files/LODSelectorFile.cs:60-62 | a NONE block is its header and four more bytes |
| LodSelectorFiles.LodMeshBlock | Files/LODSelectorFile.cs:63-70 | a MESH block holds the model read after the header, named after the header, and the raw bytes from the block start to where it ends, which is where the model ends unless the length overflows the int32 cast |
| LodSelectorFiles.LodResourceBlocks | Files/LODSelectorFile.cs:71-80 | MATERIAL and TEXTURE_SET blocks hold the resource read after the header and end where it ends |
| LodSelectorFiles.LodSelectorFileSelector | Files/LODSelectorFile.cs:39-47 | the selector is read with its header from the start, and the loop starts where it ends |
| LodSelectorFiles.ReadMeshEntry | Files/LODSelectorFile.cs:63-70 | the MESH case on a reader: the model, then back to the block start and `(int)(temp2 - temp)` raw bytes, agreeing with ParseMeshEntry |
| LodSelectorFiles.ReadLodBlock | Files/LODSelectorFile.cs:49-83 | one iteration of the loop on a reader agrees with ParseLodBlockWith |
| LodSelectorFiles.LodSelectorFile.constructor | Files/LODSelectorFile.cs:11-33 | no selector and empty collections |
| LodSelectorFiles.LodSelectorFile.Load | Files/LODSelectorFile.cs:35-85 | the selector and the three collections agree with LoadLodSelectorFile, whatever the collections held before |
| LodSelectorFiles.LodSelectorFile.LoadWith | Files/LODSelectorFile.cs:35-85 | Load with the resource readers as parameters |
| LodSelectorFiles.CollectedStep | Files/LODSelectorFile.cs:63-80 | appending one block's resource to a collection keeps it equal to what the blocks read so far select |
| LodSelectorFiles.LodSelectorFile.ReadEmbedded | Files/LODSelectorFile.cs:47-84 | blocks until the position reaches the end; the collections are those of the blocks ReadBlocks reads |
| MaterialFiles.MaterialBlockTags | Files/MaterialFile.cs:46-61 | only TEXTURE_MAP and TEXTURE_SET are accepted; any other tag, NONE included, fails once its header is read |
| MaterialFiles.MaterialBlockContents | Files/MaterialFile.cs:48-58 | a TEXTURE_MAP block holds the texture read after the header, named after it; a TEXTURE_SET block the set read after it; both end where the resource ends |
| MaterialFiles.EmbedsAppend | Files/MaterialFile.cs:46-61 | sorting one more block extends the collections by its resource alone |
| MaterialFiles.EmbedsCount | Files/MaterialFile.cs:46-61 | every block lands in exactly one of the two collections |
| MaterialFiles.EmbeddedTexturesNamed | Files/MaterialFile.cs:51 | every texture collected is named after the header of its block |
| MaterialFiles.TexturesPrepend | Files/MaterialFile.cs:46-61 | a block sorted before others puts its texture first |
| MaterialFiles.ReadMaterialBlock | Files/MaterialFile.cs:38-61 | one iteration on a reader agrees with ParseMaterialBlockWith |
| MaterialFiles.MaterialFile.constructor | Files/MaterialFile.cs:12-25 | no material and empty collections |
| MaterialFiles.MaterialFile.Load | Files/MaterialFile.cs:27-63 | the material and the two collections agree with LoadMaterialFile |
| MaterialFiles.MaterialFile.LoadWith | Files/MaterialFile.cs:27-63 | Load with the resource readers as parameters |
| MaterialFiles.MaterialFile.Add | Files/MaterialFile.cs:46-61 | the switch appends a block's resource to its own collection and keeps the material |
| MaterialFiles.MaterialFile.ReadEmbedded | Files/MaterialFile.cs:32-62 | fresh empty collections, then blocks until the end, as ReadBlocks reads them |
| MeshGroupFiles.Split | Files/MeshGroupFile.cs:63 | `Split('.')` gives at least one part |
| MeshGroupFiles.JoinSplit | Files/MeshGroupFile.cs:63-67 | joining the parts with the separator gives the string back |
| MeshGroupFiles.SplitParts | Files/MeshGroupFile.cs:63-65 | no part holds a separator, and there is more than one part exactly when there is a separator |
| MeshGroupFiles.JoinLast | Files/MeshGroupFile.cs:67-68 | the last part comes after the last separator of the join |
| MeshGroupFiles.Decimal | Files/MeshGroupFile.cs:70 | the index is written in decimal digits |
| MeshGroupFiles.NoDotNoRename | Files/MeshGroupFile.cs:62-66 | a name is renamed exactly when it has a '.' |
| MeshGroupFiles.RenameBeforeLastDot | Files/MeshGroupFile.cs:62-71 | a name with '.' gets `_<index>` right before its last '.' |
| MeshGroupFiles.SplitAtLast | Files/MeshGroupFile.cs:63-68 | a name with '.' is the join of all parts but the last, a '.', and a last part without '.' |
| MeshGroupFiles.LastSeparator | Files/MeshGroupFile.cs:67-68 | a name split at its last '.' splits at the index of that '.' |
| MeshGroupFiles.LoadPieces | Files/MeshGroupFile.cs:25-27 | the dictionary stays empty when the models or the entity group are null |
| MeshGroupFiles.FreePieces | Files/MeshGroupFile.cs:33-80 | a null piece is skipped without counting; a piece whose key is free is stored under it and counted |
| MeshGroupFiles.CollidingPieceDropped | Files/MeshGroupFile.cs:60-80 | a piece whose key is taken and whose name has no '.' is dropped but still counted |
| MeshGroupFiles.CollidingPieceRenamed | Files/MeshGroupFile.cs:60-73 | a piece whose key is taken and whose name has a '.' is renamed and stored under the hash of its new name; if that key is taken too, Add throws |
| MeshGroupFiles.AddAllGrows | Files/MeshGroupFile.cs:29-83 | the loops never change or remove a stored entry, count every non-null piece, and add at most one entry per piece (pieces as values; the in-place rename of a shared piece is under Left out) |
| MeshGroupFiles.EntriesFrom | Files/MeshGroupFile.cs:29-31 | the pieces from model i on are those of model i, then the rest |
| MeshGroupFiles.AddAllStep | Files/MeshGroupFile.cs:31-82 | running the inner loop over one more piece |
| MeshGroupFiles.MeshGroupFile.constructor | Files/MeshGroupFile.cs:10-21 | the entity group and models given, an empty dictionary |
| MeshGroupFiles.MeshGroupFile.Add | Files/MeshGroupFile.cs:31-80 | one piece: the dictionary and index afterwards are exactly AddPiece's; false exactly when the renamed key is already taken (Dictionary.Add throws); the renamed piece is a stored copy (see Left out) |
| MeshGroupFiles.MeshGroupFile.Load | Files/MeshGroupFile.cs:23-85 | a fresh dictionary, then the nested loops; the dictionary is LoadPieces, and a duplicate renamed key fails it; the models are unchanged because pieces are values (see Left out) |
| Texture.Low16 | Resources/ForgeTexture.cs:51-53 | `(ushort)` keeps the value modulo 2^16 and below 2^16 |
| Texture.Low8 | Resources/ForgeTexture.cs:58 | `(byte)` keeps the value modulo 2^8 and below 2^8 |
| Texture.CastsKeepSmallValues | Resources/ForgeTexture.cs:51-58 | a value is kept by the cast exactly when it fits; the byte of the ushort is the byte of the value |
| Texture.ConvertToFormatIsTable | Resources/ForgeTexture.cs:117-139 | ConvertToFormat is the switch's table, with BC7 for every value the switch does not list |
| Texture.FormatSources | Resources/ForgeTexture.cs:117-139 | each format other than BC7 comes from exactly the DXT values its case lists (BC1SRGB from DXT1 and DXT1A) |
| Texture.TextureFieldsSizes | Resources/ForgeTexture.cs:51-66 | Width through UserCategory: eight int32s, the uint32 ArraySize, six booleans and the uint32 UserCategory, 46 bytes and 16 values |
| Texture.CompiledSizes | Resources/ForgeTexture.cs:156-174 | ReadCompiledTextureMap reads 61 bytes and 16 values |
| Texture.CompiledRestSizes | Resources/ForgeTexture.cs:166-173 | the fields after Format in the compiled map: 29 bytes, 8 values |
| Texture.ReadOwnFields | Resources/ForgeTexture.cs:48-66 | the base object pointer and the texture's sixteen fields succeed exactly when their 60 bytes are there |
| Texture.ReadCompiledMap | Resources/ForgeTexture.cs:156-174 | the compiled map succeeds exactly when its 61 bytes are there and ends 61 bytes on |
| Texture.HeaderCheck | Resources/ForgeTexture.cs:32-46 | with skipHeader nothing is read; otherwise a short header fails, a header of another resource type fails with the "not a texture map" error, and a TEXTURE_MAP header yields its file name |
| Texture.WrongTypeFails | Resources/ForgeTexture.cs:42-45 | a header whose type is not TEXTURE_MAP makes the whole read fail |
| Texture.TopMipLayout | Resources/ForgeTexture.cs:72-78 | one top-mip record is identifier, padding byte, file handle and an unknown int64: 21 bytes, the handle 5 bytes in |
| Texture.TopMipsLayout | Resources/ForgeTexture.cs:69-78 | after 7 skipped bytes the two records take 42 bytes and the first handle is the int64 at offset 12 |
| Texture.TailLayout | Resources/ForgeTexture.cs:69-98 | the data is read inline exactly when fileIDs[0] is 0 or skipHeader is set; then it is the int32 size and that many bytes after the compiled map, otherwise the read ends after the map |
| Texture.MapAndDataLayout | Resources/ForgeTexture.cs:81-91 | the compiled map takes 61 bytes, and inline data is a 4-byte size followed by exactly that many bytes |
| Texture.EmbeddedIsInline | Resources/ForgeTexture.cs:86-91 | a texture read with skipHeader always has inline data and no name |
| Texture.SurfaceChoice | Resources/ForgeTexture.cs:92-98 | without inline data, width, height, mip levels and format are the compiled map's |
| Texture.MipDataLayout | Resources/ForgeTexture.cs:101-115 | ReadMipData skips 0x12 bytes, keeps the next FileSize - 0x12 bytes as the data, sets one mip level and changes nothing else; a FileSize under 0x12 or short data fails |
| Texture.ReadTexture | Resources/ForgeTexture.cs:30-99 | the method on a DataReader fails exactly when ParseTexture does and otherwise returns its texture and ends at its end |
| Texture.ReadTail | Resources/ForgeTexture.cs:69-98 | the skips, the fileIDs loop, the compiled map and the inline data agree with ReadTextureTail |
| Texture.ReadCompiledAndData | Resources/ForgeTexture.cs:81-91 | the compiled map and inline data agree with ReadMapAndData |
| Texture.ReadMip | Resources/ForgeTexture.cs:101-115 | the method agrees with ReadMipData |
| TextureSet.MapsLayout | Resources/ForgeTextureSet.cs:45-85 | the fourteen map references succeed exactly when their 140 bytes are there |
| TextureSet.MapAt | Resources/ForgeTextureSet.cs:45-85 | map i is the unchecked reference 10 * i bytes in |
| TextureSet.BodyLayout | Resources/ForgeTextureSet.cs:42-87 | the body (pointer, fourteen maps, UserCategory) is 158 bytes and succeeds exactly when they are there |
| TextureSet.HeaderChoice | Resources/ForgeTextureSet.cs:31-40 | with skipHeader the body starts at once; otherwise after the resource header, whose type is not checked |
| TextureSet.ForgeTextureSet.constructor | Resources/ForgeTextureSet.cs:25-27 | a new set has no pointer, no maps and UserCategory 0 |
| TextureSet.ForgeTextureSet.Read | Resources/ForgeTextureSet.cs:29-88 | the fields are set to what ParseTextureSet reads, and the read fails exactly when it does |
| CellData.CellDataLayout | Resources/ForgeCellData.cs:17-39 | after the header and 0xE skipped bytes: the count, ten bytes per object reference, NumberOfObjectsToActivate and OwnerRelatedIndex |
| CellData.ForgeCellData.constructor | Resources/ForgeCellData.cs:13-15 | a new cell has no objects and zero counts |
| CellData.ForgeCellData.Read | Resources/ForgeCellData.cs:17-39 | the fields and a fresh Objects array hold what ParseCellData reads; the read fails exactly when it does |
| CellData.ForgeCellData.ReadBody | Resources/ForgeCellData.cs:28-38 | the count loop and the trailer fill the fields as ReadCellBody reads them |
| VisualRecords.ReadShaderConstants | Resources/ForgeEntityGroup.cs:992-1020 | VisualShaderConstants is eight base objects, the DataLayout word and 16 data bytes: 116 bytes, fewer fail |
| VisualRecords.ReadLayoutObjects | Resources/ForgeEntityGroup.cs:998-1017 | the seven layout base objects take 84 bytes, fewer fail |
| VisualRecords.ReadConstantsContainer | Resources/ForgeEntityGroup.cs:940-971 | a nonzero check byte ends the container after one byte; a count of zero or less ends it 18 bytes on; otherwise the unique constants and the indirection ints follow, and the check byte read is kept |
| VisualRecords.ReadPermutationsArray | Resources/ForgeEntityGroup.cs:1077-1090 | a permutations array is its 12-byte base object, the count and 10 bytes per static permutation reference |
| VisualRecords.ReadStaticPermutations | Resources/ForgeEntityGroup.cs:1036-1064 | an object whose Num is 3 ends the container after its one byte; the object's Num is the byte read |
| VisualRecords.ReadBoundingVolume | Resources/ForgeEntityGroup.cs:2108-2116 | a bounding volume is a base object, two vectors and the type: 40 bytes, fewer fail |
| VisualRecords.ReadLodConsts | Resources/ForgeEntityGroup.cs:1107-1117 | InstanceLODConsts is a base object, five distances and the level: 36 bytes, fewer fail |
| VisualRecords.ReadMaterialInfo | Resources/ForgeEntityGroup.cs:1239-1251 | 13 skipped bytes, two object pointers and a reference: 41 bytes, fewer fail |
| VisualRecords.ReadCompiledMeshInstance | Resources/ForgeEntityGroup.cs:1198-1214 | 34 bytes with NumStreams the int32 14 bytes in; a negative count fails as the array allocation does |
| VisualRecords.ReadGraphicInstance | Resources/ForgeEntityGroup.cs:1150-1182 | a nonzero check byte in the shader constants makes an invalid instance one byte long; the instance is invalid exactly when that byte is nonzero |
| VisualRecords.ReadInstanceHead | Resources/ForgeEntityGroup.cs:895-901 | as many matrices as the count read first |
| VisualRecords.ReadLodInstances | Resources/ForgeEntityGroup.cs:918-923 | exactly five LOD instance records |
| VisualRecords.ReadSelectorInstance | Resources/ForgeEntityGroup.cs:893-924 | a LODSelectorInstance has the counted matrices and five LOD instance records |
| VisualRecords.InvalidLodTakesOneByte | Resources/ForgeEntityGroup.cs:1150-1160 | a graphic object instance data record whose check byte is nonzero is that one byte, an invalid instance carrying the byte |
| VisualRecords.InvalidRun | Resources/ForgeEntityGroup.cs:918-923 | a run of n such one-byte records reads as the n invalid instances of those bytes and ends n bytes on |
| VisualRecords.InvalidLodsTakeOneByteEach | Resources/ForgeEntityGroup.cs:918-923 | five LOD records that each start with a nonzero check byte take one byte each and are all invalid |
| VisualRecords.ReadAutoResizer | Resources/ForgeEntityGroup.cs:1262-1270 | a nonzero check byte ends the resizer after one byte; a zero one throws as not implemented |
| World.ReadGridPlacement | Resources/ForgeWorld.cs:120-123 | BottomLeftX/Y/Z and GridDimensionLevel0: 16 bytes, fewer fail |
| World.ReadGridDescription | Resources/ForgeWorld.cs:110-130 | a grid description is 59 bytes, fewer fail; DefaultLoadingDistance is the uint16 24 bytes in and CellSize the int32 after it |
| World.ReadWorldEngineData | Resources/ForgeWorld.cs:297-304 | a base object, MaxSoundDistance (the byte 12 bytes in) and DeathHeight: 17 bytes |
| World.ReadWorldMapParameters | Resources/ForgeEntityGroup.cs:2085-2094 | a base object and the four bounds: 28 bytes, fewer fail |
| World.ReadSkyCounters | Resources/ForgeWorld.cs:400-402 | MaxCullingDistance, EstimatedMemoryUsage and CompiledStarCount: 12 bytes, the star count the last uint32 |
| World.ReadLayeredSky | Resources/ForgeWorld.cs:392-415 | a layered sky is 69 bytes with four buffer references, DescriptorMask the byte 14 bytes in |
| World.ReadCubeMapTail | Resources/ForgeWorld.cs:495-501 | CubeMapSize, AddCloudInSkyCubeMap and the five trailing floats: 25 bytes |
| World.ReadLocalCubeMapSettings | Resources/ForgeWorld.cs:479-502 | 79 bytes, the eight LightMapKeyFrames being the floats 22 bytes in |
| World.ReadCubeMapEntry | Resources/ForgeWorld.cs:515-525 | a base object and two object pointers: 30 bytes, fewer fail |
| World.ReadCubeMapEntries | Resources/ForgeWorld.cs:439-446 | a count and 30 bytes per cube map entry |
| World.ReadLocalCubeMapContainer | Resources/ForgeWorld.cs:431-456 | an object, the 79-byte settings, then the local and the global counted entries, 30 bytes each |
| World.ReadCollectionSettings | Resources/ForgeWorld.cs:569-592 | an object and eighteen floats: 85 bytes |
| World.ReadGraceForceSettings | Resources/ForgeWorld.cs:612-626 | an object, Enabled, TextureSize and seven floats: 46 bytes |
| World.ReadGraphicHead | Resources/ForgeWorld.cs:194-210 | the layered sky starts 13 bytes in, the cube map container 92 bytes in, and two references follow it |
| World.ReadGraphicLighting | Resources/ForgeWorld.cs:212-226 | five sun flags, the shadow factor, the mask byte, six buffer flags, the shadow count and a flag: 21 bytes |
| World.ReadWorldParticleSystems | Resources/ForgeWorld.cs:228-229 | a checked object pointer with newOffset 3: 4 bytes when Num is 0, one when it is 3, nine otherwise |
| World.ReadDeconstruction | Resources/ForgeWorld.cs:231-239 | Near, Far, DeconstructionEnabled, the mask and two floats: 37 bytes |
| World.ReadWorldMapView | Resources/ForgeWorld.cs:240-255 | the origin through ReflectionMaxDistance: 64 bytes |
| World.ReadGraphicDistances | Resources/ForgeWorld.cs:231-255 | the deconstruction block and the world map view: 101 bytes |
| World.ReadGraphicTail | Resources/ForgeWorld.cs:257-283 | PhotoMode through FarLightsSourceEndDistanceScale: 202 bytes with three segment references |
| World.ReadGraphicBody | Resources/ForgeWorld.cs:212-283 | WorldParticleSystems follows the 21-byte lighting block and 303 bytes follow it |
| World.ReadWorldGraphicData | Resources/ForgeWorld.cs:192-284 | WorldGraphicData starts with its head |
| World.ReadWorldComponentWith | Resources/ForgeWorld.cs:339-349 | each component is read after a 14-byte pointer whose FileType is its ComponentType, with the kind CreateWorldComponent gives; an unknown FileType fails |
| World.ParseRegionLayoutWith | Resources/ForgeWorld.cs:322-356 | the regions are the counted references 13 bytes in |
| World.RegionComponentsMatchKind | Resources/ForgeWorld.cs:339-349 | each stored component holds the data of the kind its tag created |
| World.ParseRegionComponents | Resources/ForgeWorld.cs:336-355 | the counted components, the map parameters and the two flags PartialWorld and HasPartialInstallExtraDataSource |
| World.ComponentsTagged | Resources/ForgeWorld.cs:339-349 | every stored component carries a tag CreateWorldComponent accepts and the kind it creates for that tag |
| World.RegionLayoutManager.constructor | Resources/ForgeWorld.cs:318-320 | a new manager has no regions and no components |
| World.RegionLayoutManager.Read | Resources/ForgeWorld.cs:322-356 | the fields hold what ParseRegionLayout reads; the read fails exactly when it does |
| World.RegionLayoutManager.ReadWith | Resources/ForgeWorld.cs:322-356 | Read with the component reader as a parameter |
| World.RegionLayoutManager.Store | Resources/ForgeWorld.cs:327-355 | the arrays and counts are stored and the fields equal the layout read |
| World.ReadRegionLayoutFrom | Resources/ForgeWorld.cs:322-356 | the layout with fresh Regions and Components arrays holding its lists |
| World.ReadRegionComponentsFrom | Resources/ForgeWorld.cs:336-355 | the component loop, the map parameters and the flags agree with ParseRegionComponents |
| World.ReadWorldPortals | Resources/ForgeWorld.cs:59-78 | three references, the counted transition portals 30 bytes in and the data layer reference: 44 + 10 per portal bytes |
| World.ParseWorldWith | Resources/ForgeWorld.cs:28-88 | after the resource header the grids follow; every component of the region layout is tagged |
| World.WorldProxiesSatisfy | Resources/ForgeWorld.cs:50-57 | whatever the proxy reader promises of one entity holds of every terrain shadow proxy; with ReadSingleEntity (EntityGroup.SingleEntityShapes) each proxy is a bare reference with Num not 0 or a full entity |
| World.ParseWorldGrids | Resources/ForgeWorld.cs:38-57 | the grid pointer, the counted grid descriptions 14 bytes in and the counted shadow proxies after them |
| World.ParseWorldRest | Resources/ForgeWorld.cs:59-84 | the grids and proxies are kept and the portals are read first |
| World.ParseWorldLayout | Resources/ForgeWorld.cs:86-87 | the RegionLayoutManager ends the world |
| World.ForgeWorld.constructor | Resources/ForgeWorld.cs:24-26 | a new world has no arrays, no graphic or engine data and an empty manager |
| World.ForgeWorld.ReadWith | Resources/ForgeWorld.cs:28-88 | the fields hold what ParseWorldWith reads; the read fails exactly when it does |
| World.ForgeWorld.Store | Resources/ForgeWorld.cs:38-87 | the arrays, the manager and the values read are stored |
| World.ForgeWorld.StoreArrays | Resources/ForgeWorld.cs:41-75 | the three arrays, their counts and the manager are stored |
| World.ForgeWorld.StoreValues | Resources/ForgeWorld.cs:38-84 | the pointer, the references and the graphic and engine data are stored and the arrays are untouched |
| World.ReadWorldFrom | Resources/ForgeWorld.cs:28-88 | everything Read reads, with the arrays it fills, agrees with ParseWorldWith |
| World.ReadWorldHeadFrom | Resources/ForgeWorld.cs:30-57 | the header, the grid pointer and the grid and proxy loops |
| World.ReadWorldTailFrom | Resources/ForgeWorld.cs:59-87 | the portals, the graphic and engine data and the manager agree with ParseWorldRest |
| World.ReadWorldGridsFrom | Resources/ForgeWorld.cs:38-57 | the grid and proxy loops agree with ParseWorldGrids |
| World.ReadWorldRestFrom | Resources/ForgeWorld.cs:59-84 | the portals and the graphic and engine data |
| World.ReadWorldLayoutFrom | Resources/ForgeWorld.cs:86-87 | a fresh RegionLayoutManager, read |
| World.ReadWorldPortalsFrom | Resources/ForgeWorld.cs:59-78 | the portal loop agrees with ReadWorldPortals |
| WorldRecords.ReadSoundInstance | Resources/ForgeEntityGroup.cs:1958-1964 | SoundInstance always fails: after its base object it throws as not implemented |
| WorldRecords.ReadSoundState | Resources/ForgeEntityGroup.cs:1975-1981 | SoundState always fails: after its object pointer it throws as not implemented |
| WorldRecords.ReadCurveKey | Resources/ForgeEntityGroup.cs:1355-1365 | an FCurveKey is 45 bytes with six point words |
| WorldRecords.ReadCurve | Resources/ForgeEntityGroup.cs:1324-1339 | an FCurve is 21 bytes and 45 per key |
| WorldRecords.ReadCurveFloat | Resources/ForgeEntityGroup.cs:1295-1310 | as many curves as the count 13 bytes in |
| WorldRecords.ReadAmbientEventManager | Resources/ForgeEntityGroup.cs:1377-1384 | a base object and the spawn director reference: 22 bytes |
| WorldRecords.ReadZoneSpawnerManager | Resources/ForgeEntityGroup.cs:1396-1460 | as many entity summaries as the count 40 bytes in, 9 bytes each |
| WorldRecords.ReadTrackingReferences | Resources/ForgeEntityGroup.cs:1680-1712 | the eight tracking references take 80 bytes |
| WorldRecords.ReadEventTracking | Resources/ForgeEntityGroup.cs:1680-1712 | the event tracking manager is 104 bytes with eight references |
| WorldRecords.ReadSectionLinks | Resources/ForgeEntityGroup.cs:1519-1574 | as many linked sections as the count, 9 bytes each, then 2 bytes |
| WorldRecords.ReadSectionTail | Resources/ForgeEntityGroup.cs:1519-1574 | the section after its object shapes is 27 bytes |
| WorldRecords.ReadSectionHandle | Resources/ForgeEntityGroup.cs:1519-1574 | a section read as a handle is a 9-byte object pointer |
| WorldRecords.ReadFullSection | Resources/ForgeEntityGroup.cs:1519-1574 | a section read in full is a full section |
| WorldRecords.ReadFullSectionWith | Resources/ForgeEntityGroup.cs:1519-1574 | the same with the tail reader as a parameter |
| WorldRecords.FullSectionEmptyParts | Resources/ForgeEntityGroup.cs:1519-1574 | a full section is read only when its portal and object shape counts are 0, the parts it cannot read |
| WorldRecords.ReadOcclusionTable | Resources/ForgeEntityGroup.cs:1613-1634 | the table is read only when its count 14 bytes in is 0, and ends 2 bytes per lower bound after 22 |
| WorldRecords.RemoveNuls | Resources/ForgeEntityGroup.cs:2039 | the result has no NUL and is no longer than the input |
| WorldRecords.RemoveNulsKeepsOthers | Resources/ForgeEntityGroup.cs:2039 | every other character occurs as often as before; the length drops by the number of NULs |
| WorldRecords.RemoveNulsKeepsClean | Resources/ForgeEntityGroup.cs:2039 | a string without NULs is unchanged, so the removal is idempotent |
| WorldRecords.RemoveNulsAppend | Resources/ForgeEntityGroup.cs:2039 | the removal distributes over concatenation |
| WorldRecords.UiCharCount | Resources/ForgeEntityGroup.cs:2039 | `TempStringLength * 2 + 2` in 32-bit int arithmetic: always an int32, and 2 * length + 2 whenever that does not overflow |
| WorldRecords.UiCharCountWraps | Resources/ForgeEntityGroup.cs:2039 | the product wraps: length 0x7FFFFFFF reads 0 characters and -2147483647 reads 4 |
| WorldRecords.ReadUiText | Resources/ForgeEntityGroup.cs:2037-2039 | the length read first and the wrapped `length * 2 + 2` one-byte characters after it, NULs removed; it succeeds exactly when that count is non-negative and the characters are there |
| WorldRecords.ReadUiString | Resources/ForgeEntityGroup.cs:2032-2040 | TempStringLength is the int32 16 bytes in and the text is the wrapped `length * 2 + 2` bytes after it, NULs removed |
| WorldRecords.ReadDesyncSettings | Resources/ForgeEntityGroup.cs:1997-2018 | three UI strings |
| WorldRecords.ReadDisplayName | Resources/ForgeEntityGroup.cs:1739-1754 | a non-negative length, that many one-byte characters, and a terminator byte only when the length is positive |
| WorldRecords.ReadSpawnInfo | Resources/ForgeEntityGroup.cs:1739-1754 | the object, the display name and the objective reference: 27 bytes plus the name and its terminator |
| WorldRecords.ReadParamsTail | Resources/ForgeEntityGroup.cs:1861-1898 | the parameters after the tag builder take 38 or 51 bytes as the selection filter's first byte is nonzero or zero |
| WorldRecords.ReadFactionSelector | Resources/ForgeEntityGroup.cs:1940-1947 | a base object and the faction pointer: 21 bytes |
| WorldComponents.CreateCoreWorld | FORGE/ForgeComponents.cs:338-348 | the arms before the unknown-data group create a component exactly for their eleven types, each of the kind its type names |
| WorldComponents.CreateManagerWorld | FORGE/ForgeComponents.cs:367-377 | the next eleven arms create a component exactly for their types, each of its own kind |
| WorldComponents.CreateSettingsWorld | FORGE/ForgeComponents.cs:378-389 | the remaining arms create a component exactly for their types, each of its own kind |
| WorldComponents.CreateWorldComponent | FORGE/ForgeComponents.cs:334-392 | a component is created exactly for the listed types; any other type throws "Unknown component type" |
| WorldComponents.CreateWorldComponentRoundTrip | FORGE/ForgeComponents.cs:334-392 | a class of its own is created by exactly one type, the one TypeOfKind names |
| WorldComponents.CreateOfTypeOfKind | FORGE/ForgeComponents.cs:334-392 | each class with a type of its own is what that type creates |
| WorldComponents.CreateOfCoreKind | FORGE/ForgeComponents.cs:338-348 | the same for the first arms |
| WorldComponents.CreateOfManagerKind | FORGE/ForgeComponents.cs:367-377 | the same for the manager arms |
| WorldComponents.CreateOfSettingsKind | FORGE/ForgeComponents.cs:378-389 | the same for the settings arms |
| WorldComponents.EntityTypesAreNotWorldTypes | FORGE/ForgeComponents.cs:334-392 | an entity component type given to CreateWorldComponent throws |
| WorldComponents.CoordinatorTypes | FORGE/ForgeComponents.cs:340-346 | GAMEPLAY_COORDINATOR and ABSTRACT_GAMEPLAY_COORDINATOR create the coordinator with abstractGameplay false and true |
| WorldComponents.ReadNavigation | FORGE/ForgeComponents.cs:416-425 | NavMeshGridLayoutCellizeOverride and two references: 24 bytes |
| WorldComponents.ReadGameplayCoordinator | FORGE/ForgeComponents.cs:452-463 | the coordinator is read with the component's abstractGameplay, so its logic is a crowd life exactly when that is set |
| WorldComponents.ReadDeferredCast | FORGE/ForgeComponents.cs:474-477 | 8 bytes |
| WorldComponents.ReadMissionIntroActivator | FORGE/ForgeComponents.cs:488-491 | only the activator count: 4 bytes |
| WorldComponents.ReadCrowdHerder | FORGE/ForgeComponents.cs:504-509 | 12 bytes |
| WorldComponents.ReadAmbianceHead | FORGE/ForgeComponents.cs:538-560 | the wind settings, the wind data reference and the two times: 74 bytes |
| WorldComponents.ReadTransitions | FORGE/ForgeComponents.cs:538-578 | exactly two time-of-day transitions, 42 bytes |
| WorldComponents.ReadAmbianceMiddle | FORGE/ForgeComponents.cs:538-578 | the lock settings and the two ambiance references: 49 bytes |
| WorldComponents.ReadVisualAmbiance | FORGE/ForgeComponents.cs:538-578 | a visual ambiance has exactly two transitions |
| WorldComponents.ReadGameAiWorld | FORGE/ForgeComponents.cs:590-597 | the ambient event and zone spawner managers |
| WorldComponents.ReadBulkWorld | FORGE/ForgeComponents.cs:608-611 | 4 bytes |
| WorldComponents.ReadPhysicsWorld | FORGE/ForgeComponents.cs:624-629 | Gravity and the broad phase bounds: 40 bytes |
| WorldComponents.ReadPermanentIconManager | FORGE/ForgeComponents.cs:643-662 | read only when both counts are 0, as the entries are unknown data; then 8 bytes |
| WorldComponents.ReadSpaceWorld | FORGE/ForgeComponents.cs:675-685 | the global section read in full, then its handle |
| WorldComponents.ReadTransformPrediction | FORGE/ForgeComponents.cs:697-701 | MaxDistance and a flag: 5 bytes |
| WorldComponents.ReadWorldBookmark | FORGE/ForgeComponents.cs:713-723 | read only when the bookmark count is 0; then 4 bytes |
| WorldComponents.ReadAiNetworkInterface | FORGE/ForgeComponents.cs:734-738 | one reference: 10 bytes |
| WorldComponents.ReadMetaAi | FORGE/ForgeComponents.cs:757-781 | read only when its first count is 0; then 131 bytes with four flags |
| WorldComponents.ReadRideableSummoning | FORGE/ForgeComponents.cs:792-795 | one float: 4 bytes |
| WorldComponents.ReadPersonalRideableManager | FORGE/ForgeComponents.cs:807-817 | as many handler references as the count, 10 bytes each |
| WorldComponents.ReadSoundRfxManager | FORGE/ForgeComponents.cs:829-835 | a reference and PositionEspilon: 14 bytes |
| WorldComponents.ReadGameWorldAreaFog | FORGE/ForgeComponents.cs:876-900 | 74 bytes |
| WorldComponents.ReadSoundBank | FORGE/ForgeComponents.cs:922-926 | one reference: 10 bytes |
| WorldComponents.ReadSoundRiverManager | FORGE/ForgeComponents.cs:938-944 | a reference and MaxSearchDistance: 14 bytes |
| WorldComponents.ReadInteriorManager | FORGE/ForgeComponents.cs:956-966 | read only when the interior settings count is 0; then 4 bytes |
| WorldComponents.ReadDebugSpawnTail | FORGE/ForgeComponents.cs:1017-1145 | read only when the chariot info count is 0 |
| WorldComponents.ReadDebugSettings | FORGE/ForgeComponents.cs:1017-1145 | the result is a debug settings component |
| WorldComponents.ReadUiWorld | FORGE/ForgeComponents.cs:1157-1166 | as many HUD mode words as the count |
| WorldComponents.ReadBlobSettings | FORGE/ForgeComponents.cs:1195-1216 | 70 bytes with three spawn distances and fourteen further words |
| WorldComponents.ReadSpawnSettings | FORGE/ForgeComponents.cs:1248-1272 | 88 bytes with three NPC limits and nineteen floats |
| WorldComponents.ReadAcSoundAmbience | FORGE/ForgeComponents.cs:1292-1324 | read only when the sound state count is 0; then as many state index bytes as the second count |
| WorldComponents.ReadDesyncManager | FORGE/ForgeComponents.cs:1335-1339 | the desynchronization settings with three UI strings |
| WorldComponents.ReadCrewAssistance | FORGE/ForgeComponents.cs:1350-1354 | a checked object pointer whose Num is the first byte |
| WorldComponents.ReadWorldTagRules | FORGE/ForgeComponents.cs:1366-1376 | as many rule references as the count, 10 bytes each |
| WorldComponents.ReadCoreComponent | FORGE/ForgeComponents.cs:395-630 | the data read is of the component's own kind; a component that reads nothing consumes no byte |
| WorldComponents.ReadManagerComponent | FORGE/ForgeComponents.cs:632-901 | the same for the manager components |
| WorldComponents.ReadSettingsComponent | FORGE/ForgeComponents.cs:903-1377 | the same for the settings components |
| WorldComponents.ReadWorldComponent | FORGE/ForgeComponents.cs:395-1377 | the virtual Read yields data of the component's own kind; components that read nothing consume no byte |
| WorldComponents.UnknownTypesReadNothing | FORGE/ForgeComponents.cs:349-403 | each unknown-data type creates UnknownWorldComponent, whose Read consumes nothing |
| Gameplay.ReadControlOptions | FORGE/ForgeGameplayCoordinator.cs:159-168 | a base object and four flags: 16 bytes |
| Gameplay.ReadConfiguration | FORGE/ForgeGameplayCoordinator.cs:181-188 | 21 bytes |
| Gameplay.ReadBuildTag | FORGE/ForgeGameplayCoordinator.cs:442-448 | 16 bytes |
| Gameplay.BuildTagsLayout | FORGE/ForgeGameplayCoordinator.cs:417-430 | a 13-byte header, the count and 16 bytes per tag; a negative count fails |
| Gameplay.ReadDynamicReference | FORGE/ForgeGameplayCoordinator.cs:461-471 | 31 bytes |
| Gameplay.ReadCharacterSelector | FORGE/ForgeGameplayCoordinator.cs:484-493 | 22 bytes |
| Gameplay.ReadCheckedHandle | FORGE/ForgeGameplayCoordinator.cs:252-256 | a pointer read with check: one byte when its first byte is 0 or 3, nine otherwise |
| Gameplay.ReadSpecHeader | FORGE/ForgeGameplayCoordinator.cs:208-217 | a 14-byte base object pointer when objectPtr is set, a 13-byte object otherwise |
| Gameplay.ReadStrategy | FORGE/ForgeGameplayCoordinator.cs:219-228 | SpawnStrategyParams (13 bytes) with defaultStrategy, BlobStrategyParams (21 bytes) without |
| Gameplay.ReadPositionFixed | FORGE/ForgeGameplayCoordinator.cs:309-325 | the 54 bytes before the reference position |
| Gameplay.ReadPositionBase | FORGE/ForgeGameplayCoordinator.cs:309-325 | the fixed part and the checked reference position: 55 or 63 bytes |
| Gameplay.ReadPosition | FORGE/ForgeGameplayCoordinator.cs:230-239 | the static part is present exactly when defaultPosition is off |
| Gameplay.StaticPositionAddsEleven | FORGE/ForgeGameplayCoordinator.cs:340-348 | the static variant reads the same base and exactly eleven more bytes |
| Gameplay.ReadSpecHead | FORGE/ForgeGameplayCoordinator.cs:208-239 | the header, strategy and position variants follow the three switches |
| Gameplay.ReadSpecification | FORGE/ForgeGameplayCoordinator.cs:206-257 | SpawningSpecification.Read: each of the three variants follows its switch |
| Gameplay.SpecTailLayout | FORGE/ForgeGameplayCoordinator.cs:250-256 | a flag and two checked pointers: 3 to 19 bytes |
| Gameplay.ReadPlayer | FORGE/ForgeGameplayCoordinator.cs:97-110 | the player and first-person specifications as objects, the eagle one as a pointer; only the first-person one has the blob strategy and the static position |
| Gameplay.ReadCrowdLife | FORGE/ForgeGameplayCoordinator.cs:128-144 | 58 bytes |
| Gameplay.ReadLogic | FORGE/ForgeGameplayCoordinator.cs:34-38 | the logic is a crowd life exactly when abstractGameplay is set |
| Gameplay.ActionPackLayout | FORGE/ForgeGameplayCoordinator.cs:559-577 | Num 3 ends the pack after one byte; otherwise 25 bytes with three counts, and a negative count fails |
| Gameplay.ConstraintsLayout | FORGE/ForgeGameplayCoordinator.cs:512-542 | the constraints take a count and nine bytes per pointer after the settings' head |
| Gameplay.ReadOutputs | FORGE/ForgeGameplayCoordinator.cs:43-77 | the twelve outputs, 13 bytes each |
| Gameplay.CoordinatorShape | FORGE/ForgeGameplayCoordinator.cs:29-78 | the logic follows abstractGameplay and the last 156 bytes are the twelve outputs |
| Gameplay.ReadSpecificationFrom | FORGE/ForgeGameplayCoordinator.cs:206-257 | the EntityParams loop on a reader agrees with ReadSpecification |
| Gameplay.ReadPlayerFrom | FORGE/ForgeGameplayCoordinator.cs:97-110 | agrees with ReadPlayer |
| Gameplay.ReadSettingsFrom | FORGE/ForgeGameplayCoordinator.cs:512-542 | agrees with ReadSettings |
| Gameplay.ReadCoordinator | FORGE/ForgeGameplayCoordinator.cs:29-78 | agrees with ParseCoordinator |
| Embedded.ReadBlocks | Files/EntityGroupFile.cs:39-79 | at or past the end of the data the loop reads nothing |
| Embedded.BlocksStep | Files/EntityGroupFile.cs:39-79 | one iteration reads the block at the position and the loop goes on where it ended |
| Embedded.BlocksCover | Files/LODSelectorFile.cs:47-84 | the blocks read are consecutive: each starts where the previous ended, before the end of the data, and the last ends at or past the end |
| Embedded.BlocksFailAt | Files/MaterialFile.cs:36-62 | a block that cannot be read fails the whole loop with its error |
| Embedded.Select | Files/EntityGroupFile.cs:49-76 | a list of the file object holds at most one item per block |
| Embedded.SelectAppend | Files/EntityGroupFile.cs:49-76 | the switch appends to a list only the resource its block announces, in stream order |
| EmbeddedResources.EmbeddedModel | Files/EntityGroupFile.cs:54-58 | a mesh read with skipHeader carries no resource header |
| EmbeddedResources.EmbeddedLodSelector | Files/EntityGroupFile.cs:70-74 | a LOD selector read with skipHeader carries no resource header |
| EmbeddedResources.EmbeddedTexture | Files/MaterialFile.cs:48-52 | a texture read with skipHeader has its data inline and no name |
| Chains.Chain | Resources/ForgeModel.cs:294-305 | a run that succeeds from i yields exactly n - i items |
| Chains.ChainStep | Resources/ForgeModel.cs:294-305 | iteration i yields its item and hands its end offset to iteration i + 1 |
| Chains.ChainAt | Resources/ForgeModel.cs:286-305 | when step j moves the offset by w(j), item k is what step k yields at the start offset plus the widths of the steps before it |
| ForgeFileManagers.EntryFromAllArchives | FORGE/ForgeFileManager.cs:542-557 | a found entry has the ID and its data; nothing is found exactly when no archive's first entry with the ID has data |
| ForgeFileManagers.EntryIsFirstUsable | FORGE/ForgeFileManager.cs:542-557 | the entry found is the first with the ID in the first archive whose first such entry has data; every archive before it has none |
| ForgeFileManagers.FlattenStep | FORGE/ForgeFileManager.cs:791-805 | the archives' entries in order: one more archive appends its entries |
| ForgeFileManagers.IndexAppend | FORGE/ForgeFileManager.cs:795-804 | one more entry stores it under its type and hash, after all earlier entries |
| ForgeFileManagers.Lookup | FORGE/ForgeFileManager.cs:808-818 | nothing is found exactly when the index is null or lacks the type or the hash |
| ForgeFileManagers.LastWith | FORGE/ForgeFileManager.cs:795-804 | the last entry with the type and the hash; none exactly when no entry has both |
| ForgeFileManagers.IndexHoldsLast | FORGE/ForgeFileManager.cs:787-818 | after Init, TryGetStreamEntry finds the last entry of all archives with the type and hash, so later entries replace earlier ones; an entry whose type does not parse is never found |
| ForgeFileManagers.ForgeDataFileMgr.constructor | FORGE/ForgeFileManager.cs:781-785 | the manager keeps the file manager and has no index yet |
| ForgeFileManagers.ForgeDataFileMgr.Init | FORGE/ForgeFileManager.cs:787-806 | the index holds every entry of every archive whose type parses, by type and hash |
| ForgeFileManagers.ForgeDataFileMgr.TryGetStreamEntry | FORGE/ForgeFileManager.cs:808-818 | a found entry is the one stored under the type and hash |
| ForgeFileManagers.AsFound | FORGE/ForgeFileManager.cs:517-527 | a lookup result is returned as found exactly when the entry exists |
| ForgeFileManagers.FirstMesh | FORGE/ForgeFileManager.cs:530-534 | the first embedded mesh exists exactly when the file has a non-empty mesh dictionary |
| ForgeFileManagers.ChooseLodRules | FORGE/ForgeFileManager.cs:510-539 | at the first descriptor that can end the loop: a nonzero stream handle returns its lookup even when it misses; otherwise an object that resolves; otherwise the first embedded mesh; a descriptor that passes hands on to the next |
| ForgeFileManagers.NoRuleApplies | FORGE/ForgeFileManager.cs:510-539 | when every descriptor passes the result is (null, null) |
| ForgeFileManagers.NoMeshesOnlyEntries | FORGE/ForgeFileManager.cs:510-539 | without embedded meshes the loop only yields archive entries that resolve |
| ForgeFileManagers.LoadLodUnresolved | FORGE/ForgeFileManager.cs:487-540 | a nonzero ID that resolves to nothing gives (null, null), as does ID 0 without an embedded selector; an embedded selector yields only archive entries |
| ForgeFileManagers.FirstSelectorWith | FORGE/ForgeFileManager.cs:468-475 | the first embedded selector whose pointer has the ID; none exactly when no selector has it |
| ForgeFileManagers.GroupEntities | FORGE/ForgeFileManager.cs:448-485 | at most one entity per component |
| ForgeFileManagers.ComponentRules | FORGE/ForgeFileManager.cs:458-482 | a component without a graphic object ID yields nothing; one whose ID does not resolve uses the first embedded selector with that ID, which yields only archive entries |
| ForgeFileManagers.MaterialIds | FORGE/ForgeFileManager.cs:639-646 | the material IDs of the instancing records, in order |
| ForgeFileManagers.Resolving | FORGE/ForgeFileManager.cs:648-669 | the IDs that resolve to an entry with data, in order |
| ForgeFileManagers.LoadMaterialsPerId | FORGE/ForgeFileManager.cs:637-671 | one material per ID that resolves, in order, each loaded from that ID's entry |
| ForgeFileManagers.LastFresh | FORGE/ForgeFileManager.cs:717-734 | none exactly when no root has the path and a matching time |
| ForgeFileManagers.CacheChoice | FORGE/ForgeFileManager.cs:125-134 | after LoadStartupCache, GetArchive returns the last root with the path whose time matched, and parses the file when there is none |
| ForgeFileManagers.StaleAppend | FORGE/ForgeFileManager.cs:730-733 | the cache is marked dirty exactly when some root's time differs from its file's |
| ForgeFileManagers.ForgeFileManager.constructor | FORGE/ForgeFileManager.cs:21-23 | the manager starts with its archives, no cache, not dirty and no data file manager |
| ForgeFileManagers.ForgeFileManager.GetEntryFromAllArchives | FORGE/ForgeFileManager.cs:542-557 | the loop agrees with EntryFromAllArchives |
| ForgeFileManagers.ForgeFileManager.LoadLodSelector | FORGE/ForgeFileManager.cs:487-540 | the method agrees with LoadLod |
| ForgeFileManagers.ForgeFileManager.GetEntitiesFromEntityGroup | FORGE/ForgeFileManager.cs:448-485 | fails or gives null exactly when EntitiesOf does; otherwise two lists of the same length whose pairs are its entities |
| ForgeFileManagers.ForgeFileManager.LoadComponent | FORGE/ForgeFileManager.cs:458-482 | one iteration agrees with ComponentEntity |
| ForgeFileManagers.ForgeFileManager.LoadMaterials | FORGE/ForgeFileManager.cs:637-671 | the loop agrees with LoadMaterialsOf on the instancing records' material IDs |
| ForgeFileManagers.ForgeFileManager.LoadStartupCache | FORGE/ForgeFileManager.cs:697-737 | a missing cache file marks the cache dirty and changes nothing else; otherwise the cache holds the roots whose time matches, dirty if any did not, and a fresh data file manager is created |
| ForgeFileManagers.ForgeFileManager.GetArchive | FORGE/ForgeFileManager.cs:125-134 | the cached archive when the cache has the path, a fresh parse otherwise |

## Left out

- DataStream.DataReader.ReadData: the CodeX DataReader is not part of this model. Its ReadBytes is modelled as strict: fewer bytes than asked for is a failure. It might instead return what is left, as System.IO.BinaryReader does (Stream.ByteReader.ReadBytes, Cursor.ReadBytesClamped).
- Cursor.ReadBytes: the strict read the resource readers use. It fails on a short buffer rather than returning a shorter run.
- Cursor.ReadChars: reads one byte per character. Only ASCII names are covered; multi-byte encodings are not.
- ForgeObjects.ReadFloats: every ReadSingle is kept as its raw 32-bit word. Floating-point values and arithmetic are not modelled.
- ModelGeometry.ReadVertexData: positions and texture coordinates are the int16 values read. The position's X/Y swap is kept. The `scaleFactor * 0.0001f` multiply of positions and normals, the normal normalisation, and the texcoord `/ 2048` of CreateVertexBufferForCodeX are floating-point work and are not modelled.
- ForgeCrypto.OodleDecompress: the native Oodle codec is a parameter. The contract assumed of it is that it returns exactly the requested number of bytes or fails. Compression (`ForgeCompression.Compress`) and the DLL set-up in `Init` are not modelled.
- LodSelector.ReadSelector: the fields the C# resource objects set are modelled as the value the reader returns, as they are for every resource reader. Only the file classes, ForgeArchive, ForgeDataReader, ForgeDataFileMgr, ForgeFileManager and MeshGroupFile keep fields that their methods update.
- CreateDirectories: ForgeFile.ForgeArchive.CreateDirectories does not model the `e.Archive = this` back-reference that every entry receives (ForgeFile.cs:136). Entries carry no owning archive, so "every root file names this archive" is not stated.
- ForgeFile.ForgeArchive.ReadStructure: an entry has no owning-archive field (see CreateDirectories), and the archive has no nested child archives (the source never fills them).
- Embedded.ReadBlocks: a block that does not end past its start stops the loop with NoProgress. The source's loop would run forever on such a block. It cannot arise there, because every block starts with a 12-byte header, but the model does not prove this.
- ForgeFileManagers.EntryFromAllArchives: an archive is its entry list. What CodeX does outside this repository is a parameter: EnsureFileData (an entry's bytes or null), the JenkHash short-name hash (ForgeFileManagers.ForgeDataFileMgr.Init), a file's last-write time (ForgeFileManagers.ForgeFileManager.LoadStartupCache), the archive parser (ForgeFileManagers.ForgeFileManager.GetArchive), and the resource loaders (LoadLodSelector, LoadMaterials).
- ForgeFileManagers.ForgeFileManager.LoadStartupCache: `DateTime` last-write times are plain integers, compared for equality. Opening and serialising the cache file are not modelled.
- MeshGroupFiles.MeshGroupFile.Load: on a failure (a second key collision) the pieces dictionary is left unstated; the source keeps the pieces added before the throw. The transformation matrix Load builds and never uses is not modelled. The hash is a parameter.
- MeshGroupFiles.MeshGroupFile.Load: pieces are values, not shared objects. Files/MeshGroupFile.cs:70 renames the Piece object in place, and that object is also held by the input models' PiecePacks and by any entry already stored for it. In the source those holders then see the new name. The model stores a renamed copy, keeps `models` unchanged and leaves the earlier entry with the old name. For example, Models = [A, A] with A holding {k -> P named "x.mesh"} gives {k -> P, h -> P}, with P named "x_1.mesh" in the source. The model gives {k -> "x.mesh", h -> "x_1.mesh"}.
- MeshGroupFiles.MeshGroupFile.Add: the rename of a colliding piece is stored as a copy, so the in-place rename that the input models and stored entries see through the shared Piece (Files/MeshGroupFile.cs:70) is not modelled.
- MeshGroupFiles.AddAllGrows: "a stored entry never changes" holds of the dictionary's values as the model keeps them. In the source, a stored Piece object is renamed when the same object comes up again and collides (Files/MeshGroupFile.cs:70).
- ForgeFile.ForgeArchive.ReadStartupCache: the path is built from the extended name, not the stem (see Findings). The as-written reader is ForgeFile.CacheEntryAsWritten.
- The ForgeFile constructor (FileInfo), ExtractFile's file opening, InitArchives, console output, text dumps (ConvertToText, ToString) and the NotImplementedException stubs are I/O or user-interface code, and are not modelled.
- The rendering glue is not modelled: CreateMeshes' layout and shader objects, CreateVertexBufferForCodeX, the float normals of CalculateNormals (only its index bounds test is modelled), ConstructPiecePack, InstanciatePieces and SetTransformationMatrice.
- World.ForgeWorld.ReadWith: ForgeWorld.Read is modelled with its three readers as parameters. There is no concrete ForgeWorld.Read or ParseWorld that plugs in EntityGroup.ReadSingleEntity, ReadGraphicAndEngine and WorldComponents.ReadWorldComponent, because one proof obligation holding both the entity reader tree and the world component tree is beyond the solver budget. What holds of the proxies with the single-entity reader is stated through World.WorldProxiesSatisfy and EntityGroup.SingleEntityShapes; the component tree is instantiated in World.RegionLayoutManager.Read.
- The wrappers that only build a reader and call Read (Files/EntityFile.cs, WorldFile.cs, TextureFile.cs, TextureSetFile.cs, CellDataFile.cs) are not modelled beyond the Read they call (for WorldFile.cs, World.ForgeWorld.ReadWith; see its line above).
- The full ForgeResourceType and BoneID enumerations are not modelled. Only the tags used in dispatch and in the extension table have concrete values; other tags are kept as raw numbers.

## Findings

| source | as written | input that shows it | evidently intended | confidence | as-written member | corrected member |
|---|---|---|---|---|---|---|
| FORGE/ForgeFile.cs:217 | ReadStartupCache sets `entry.Path = Path + "\\" + entry.Name` before the switch appends the type's extension to `entry.Name` | a MESH record with stem "a" in an archive at P gets Name `a.mesh` but Path `P\a` | Path `P\a.mesh`, the path ReadNameTable gives the same entry on a fresh parse | not executed | ForgeFile.CacheEntryAsWritten, ForgeFile.CachePathLacksExtension | ForgeFile.ParseCacheEntry, ForgeFile.StartupCacheRoundTrip |

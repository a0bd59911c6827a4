/** ForgeFileManager and ForgeDataFileMgr (FORGE/ForgeFileManager.cs): the
    lookups across all loaded archives, the stream-entry index, the choice
    of the mesh a LOD selector points at, the entities of an entity group,
    the materials of a model, and the startup cache's choice between a
    cached and a freshly parsed archive.

    An archive is its entry list (AllEntries). What CodeX does outside this
    repository is a parameter: EnsureFileData (an entry's bytes or null),
    the short-name hash of an entry, and the last-write time of a file. */
module ForgeFileManagers {
  import opened Wrappers
  import opened Bytes
  import opened ForgeObjects
  import ForgeFile
  import ForgeModel
  import ModelRecords
  import Material
  import LodSelector
  import Components
  import EntityGroup
  import LodSelectorFiles
  import EntityGroupFiles
  import MaterialFiles

  type ForgeEntry = ForgeFile.ForgeEntry

  /** EnsureFileData(entry, null): the entry's bytes, or null. */
  type FileData = ForgeEntry -> Option<seq<byte>>

  // ---------------------------------------------------------------------
  // GetEntryFromAllArchives

  /** The archive's first entry with the ID has data. */
  predicate Usable(entries: seq<ForgeEntry>, fileId: int, fileData: FileData)
  {
    var i := ForgeFile.FirstWithFileId(entries, fileId);
    i.Some? && fileData(entries[i.value]).Some?
  }

  /** The archives in order; in each, the first entry with the ID; an entry
      without data sends the scan on to the next archive. */
  function EntryFromAllArchives(archives: seq<seq<ForgeEntry>>, fileId: int, fileData: FileData)
    : (r: Option<(ForgeEntry, seq<byte>)>)
    ensures r.Some? ==> r.value.0.fileId == fileId && fileData(r.value.0) == Some(r.value.1)
    ensures r.None? <==> forall a :: 0 <= a < |archives| ==> !Usable(archives[a], fileId, fileData)
  {
    if archives == [] then None
    else
      var rest := EntryFromAllArchives(archives[1..], fileId, fileData);
      assert forall a :: 1 <= a < |archives| ==> archives[a] == archives[1..][a - 1];
      match ForgeFile.FirstWithFileId(archives[0], fileId)
      case Some(i) =>
        if fileData(archives[0][i]).Some? then Some((archives[0][i], fileData(archives[0][i]).value)) else rest
      case None => rest
  }

  /** The entry found is the first entry with the ID of the first archive
      whose first such entry has data. */
  lemma {:induction false} EntryIsFirstUsable(archives: seq<seq<ForgeEntry>>, fileId: int, fileData: FileData)
    returns (a: nat, i: nat)
    requires EntryFromAllArchives(archives, fileId, fileData).Some?
    ensures a < |archives| && ForgeFile.FirstWithFileId(archives[a], fileId) == Some(i)
    ensures EntryFromAllArchives(archives, fileId, fileData).value.0 == archives[a][i]
    ensures forall b :: 0 <= b < a ==> !Usable(archives[b], fileId, fileData)
    decreases |archives|
  {
    var first := ForgeFile.FirstWithFileId(archives[0], fileId);
    if first.Some? && fileData(archives[0][first.value]).Some? {
      a, i := 0, first.value;
    } else {
      var b, j := EntryIsFirstUsable(archives[1..], fileId, fileData);
      a, i := b + 1, j;
      forall c | 0 <= c < a
        ensures !Usable(archives[c], fileId, fileData)
      {
        if c > 0 {
          assert archives[c] == archives[1..][c - 1];
        }
      }
    }
  }

  // ---------------------------------------------------------------------
  // ForgeDataFileMgr

  /** Enum.TryParse(entry.ResourceType): an entry gets its ResourceType from
      its name table, so exactly the named entries parse, to the name
      table's identifier; an unnamed entry keeps "File", which does not. */
  function ResourceTypeOf(e: ForgeEntry): Option<nat>
  {
    if e.nameTable.Some? then Some(e.nameTable.value.resourceIdentifier) else None
  }

  /** StreamEntries: resource type, then short-name hash, to entry. */
  type StreamIndex = map<nat, map<nat, ForgeEntry>>

  /** The entries of all the archives, archive after archive. */
  function Flatten(archives: seq<seq<ForgeEntry>>): seq<ForgeEntry>
  {
    if archives == [] then [] else Flatten(archives[..|archives| - 1]) + archives[|archives| - 1]
  }

  /** One iteration of Init: an entry whose type parses is stored in its
      type's bucket, replacing an entry with the same hash. */
  function Insert(index: StreamIndex, e: ForgeEntry, hash: ForgeEntry -> nat): StreamIndex
  {
    match ResourceTypeOf(e)
    case None => index
    case Some(t) =>
      var bucket := if t in index then index[t] else map[];
      index[t := bucket[hash(e) := e]]
  }

  function IndexOf(es: seq<ForgeEntry>, hash: ForgeEntry -> nat): StreamIndex
  {
    if es == [] then map[] else Insert(IndexOf(es[..|es| - 1], hash), es[|es| - 1], hash)
  }

  lemma FlattenStep(archives: seq<seq<ForgeEntry>>, a: nat)
    requires a < |archives|
    ensures Flatten(archives[..a + 1]) == Flatten(archives[..a]) + archives[a]
  {
    assert archives[..a + 1][..a] == archives[..a];
  }

  lemma IndexAppend(es: seq<ForgeEntry>, e: ForgeEntry, hash: ForgeEntry -> nat)
    ensures IndexOf(es + [e], hash) == Insert(IndexOf(es, hash), e, hash)
  {
    assert (es + [e])[..|es|] == es;
  }

  /** TryGetStreamEntry on an index that may be null. */
  function Lookup(index: Option<StreamIndex>, h: nat, t: nat): (r: Option<ForgeEntry>)
    ensures r.None? <==> index.None? || t !in index.value || h !in index.value[t]
  {
    if index.Some? && t in index.value && h in index.value[t] then Some(index.value[t][h]) else None
  }

  /** The last entry of the list with the type and the hash. */
  function LastWith(es: seq<ForgeEntry>, t: nat, h: nat, hash: ForgeEntry -> nat): (r: Option<ForgeEntry>)
    ensures r.Some? ==> r.value in es && ResourceTypeOf(r.value) == Some(t) && hash(r.value) == h
    ensures r.None? <==> forall i :: 0 <= i < |es| ==> !(ResourceTypeOf(es[i]) == Some(t) && hash(es[i]) == h)
  {
    if es == [] then None
    else
      var e := es[|es| - 1];
      if ResourceTypeOf(e) == Some(t) && hash(e) == h then Some(e)
      else
        var r := LastWith(es[..|es| - 1], t, h, hash);
        assert forall i :: 0 <= i < |es| - 1 ==> es[i] == es[..|es| - 1][i];
        r
  }

  /** The index answers each (type, hash) with the last entry of that type
      and hash: later entries overwrite earlier ones, and an entry whose
      type does not parse is never found. */
  lemma {:induction false} IndexHoldsLast(es: seq<ForgeEntry>, t: nat, h: nat, hash: ForgeEntry -> nat)
    ensures Lookup(Some(IndexOf(es, hash)), h, t) == LastWith(es, t, h, hash)
    decreases |es|
  {
    if es != [] {
      IndexHoldsLast(es[..|es| - 1], t, h, hash);
    }
  }

  class ForgeDataFileMgr {
    const fileManager: ForgeFileManager
    var streamEntries: Option<StreamIndex>

    constructor (fman: ForgeFileManager)
      ensures fileManager == fman && streamEntries == None
    {
      fileManager := fman;
      streamEntries := None;
    }

    /** Init: a fresh index, then every entry of every archive whose type
        parses, stored by type and hash. */
    method Init(hash: ForgeEntry -> nat)
      modifies this
      ensures streamEntries == Some(IndexOf(Flatten(fileManager.allArchives), hash))
    {
      var index: StreamIndex := map[];
      var archives := fileManager.allArchives;
      ghost var done: seq<ForgeEntry> := [];
      var a := 0;
      while a < |archives|
        invariant 0 <= a <= |archives|
        invariant done == Flatten(archives[..a])
        invariant index == IndexOf(done, hash)
      {
        var entries := archives[a];
        FlattenStep(archives, a);
        ghost var before := done;
        var j := 0;
        while j < |entries|
          invariant 0 <= j <= |entries|
          invariant done == before + entries[..j]
          invariant index == IndexOf(done, hash)
        {
          var entry := entries[j];
          var t := ResourceTypeOf(entry);
          IndexAppend(done, entry, hash);
          if t.Some? {
            var bucket := if t.value in index then index[t.value] else map[];
            index := index[t.value := bucket[hash(entry) := entry]];
          }
          assert entries[..j + 1] == entries[..j] + [entry];
          done := done + [entry];
          j := j + 1;
        }
        assert entries[..j] == entries;
        a := a + 1;
      }
      assert archives[..a] == archives;
      streamEntries := Some(index);
    }

    /** TryGetStreamEntry: null when the index is null, or the type or the
        hash is absent; the stored entry otherwise. */
    function TryGetStreamEntry(h: nat, t: nat): (r: Option<ForgeEntry>)
      reads this
      ensures r.Some? ==> streamEntries.Some? && t in streamEntries.value && h in streamEntries.value[t]
      ensures r.Some? ==> r.value == streamEntries.value[t][h]
    {
      Lookup(streamEntries, h, t)
    }
  }

  // ---------------------------------------------------------------------
  // LoadLODSelector

  /** What LoadLODSelector returns when it is not (null, null): an archive
      entry and its bytes, or an embedded mesh and its raw block. */
  datatype FoundObject = EntryObject(entry: ForgeEntry) | MeshObject(name: string, model: ForgeModel.Model)
  datatype Found = Found(obj: FoundObject, data: seq<byte>)

  function AsFound(e: Option<(ForgeEntry, seq<byte>)>): (r: Option<Found>)
    ensures r.Some? <==> e.Some?
  {
    if e.Some? then Some(Found(EntryObject(e.value.0), e.value.1)) else None
  }

  /** The first embedded mesh, when the file has one. */
  function FirstMesh(meshes: Option<seq<LodSelectorFiles.MeshEntry>>): (r: Option<Found>)
    ensures r.Some? <==> meshes.Some? && |meshes.value| > 0
  {
    if meshes.Some? && |meshes.value| > 0 then
      var m := meshes.value[0];
      Some(Found(MeshObject(m.name, m.model), m.raw))
    else None
  }

  function StreamId(desc: LodSelector.LodDescriptor): int { desc.head.streamObjectHandle.fileId }
  function ObjectId(desc: LodSelector.LodDescriptor): int { desc.head.obj.fileId }

  /** The descriptor loop: the first descriptor with a stream handle
      decides; otherwise one whose object resolves; otherwise, for a
      descriptor with an object, the first embedded mesh. */
  function ChooseLod(descs: seq<LodSelector.LodDescriptor>, archives: seq<seq<ForgeEntry>>, fileData: FileData,
                     meshes: Option<seq<LodSelectorFiles.MeshEntry>>): Option<Found>
  {
    if descs == [] then None
    else
      var d := descs[0];
      if StreamId(d) != 0 then AsFound(EntryFromAllArchives(archives, StreamId(d), fileData))
      else if ObjectId(d) != 0 && EntryFromAllArchives(archives, ObjectId(d), fileData).Some? then
        AsFound(EntryFromAllArchives(archives, ObjectId(d), fileData))
      else if ObjectId(d) != 0 && FirstMesh(meshes).Some? then FirstMesh(meshes)
      else ChooseLod(descs[1..], archives, fileData, meshes)
  }

  /** A descriptor that does not end the loop. */
  predicate Passes(d: LodSelector.LodDescriptor, archives: seq<seq<ForgeEntry>>, fileData: FileData,
                   meshes: Option<seq<LodSelectorFiles.MeshEntry>>)
  {
    StreamId(d) == 0 &&
    (ObjectId(d) == 0 || (EntryFromAllArchives(archives, ObjectId(d), fileData).None? && FirstMesh(meshes).None?))
  }

  /** The rules, for the first descriptor i that can end the loop: a stream
      handle decides even when its lookup misses; then an object that
      resolves; then the first embedded mesh. */
  lemma {:induction false} ChooseLodRules(descs: seq<LodSelector.LodDescriptor>, archives: seq<seq<ForgeEntry>>,
                                          fileData: FileData, meshes: Option<seq<LodSelectorFiles.MeshEntry>>, i: nat)
    requires i < |descs|
    requires forall j :: 0 <= j < i ==> Passes(descs[j], archives, fileData, meshes)
    ensures var r := ChooseLod(descs, archives, fileData, meshes);
      var d := descs[i];
      var found := EntryFromAllArchives(archives, ObjectId(d), fileData);
      && (StreamId(d) != 0 ==> r == AsFound(EntryFromAllArchives(archives, StreamId(d), fileData)))
      && (StreamId(d) == 0 && ObjectId(d) != 0 && found.Some? ==> r == AsFound(found))
      && (StreamId(d) == 0 && ObjectId(d) != 0 && found.None? && FirstMesh(meshes).Some? ==> r == FirstMesh(meshes))
      && (Passes(d, archives, fileData, meshes) ==> r == ChooseLod(descs[i + 1..], archives, fileData, meshes))
  {
    if i > 0 {
      assert Passes(descs[0], archives, fileData, meshes);
      assert descs[1..][i - 1] == descs[i] && descs[1..][i..] == descs[i + 1..];
      ChooseLodRules(descs[1..], archives, fileData, meshes, i - 1);
    }
  }

  /** When no descriptor ends the loop, the result is (null, null). */
  lemma {:induction false} NoRuleApplies(descs: seq<LodSelector.LodDescriptor>, archives: seq<seq<ForgeEntry>>,
                                         fileData: FileData, meshes: Option<seq<LodSelectorFiles.MeshEntry>>)
    requires forall j :: 0 <= j < |descs| ==> Passes(descs[j], archives, fileData, meshes)
    ensures ChooseLod(descs, archives, fileData, meshes) == None
  {
    if descs != [] {
      assert Passes(descs[0], archives, fileData, meshes);
      assert forall j :: 0 <= j < |descs| - 1 ==> descs[1..][j] == descs[j + 1];
      NoRuleApplies(descs[1..], archives, fileData, meshes);
    }
  }

  /** Without embedded meshes the loop only yields archive entries. */
  lemma {:induction false} NoMeshesOnlyEntries(descs: seq<LodSelector.LodDescriptor>, archives: seq<seq<ForgeEntry>>,
                                               fileData: FileData)
    ensures var r := ChooseLod(descs, archives, fileData, None);
      r.Some? ==> r.value.obj.EntryObject? && EntryFromAllArchives(archives, r.value.obj.entry.fileId, fileData).Some?
  {
    if descs != [] {
      NoMeshesOnlyEntries(descs[1..], archives, fileData);
    }
  }

  /** LODSelectorFile.Load as a parameter. */
  type LodLoader = seq<byte> -> Result<LodSelectorFiles.LodContents>

  /** LoadLODSelector(fileID, lod): a nonzero ID is looked up and its bytes
      loaded as a LOD selector file with its embedded meshes; ID 0 with an
      embedded selector uses that selector, which has no embedded meshes;
      then the descriptor loop. */
  function LoadLod(fileId: int, lod: Option<LodSelector.Selector>, archives: seq<seq<ForgeEntry>>, fileData: FileData,
                   load: LodLoader): Result<Option<Found>>
  {
    if fileId != 0 then
      match EntryFromAllArchives(archives, fileId, fileData)
      case None => Ok(None)
      case Some(e) =>
        var c :- load(e.1);
        Ok(ChooseLod(c.selector.1.descriptors, archives, fileData, Some(c.meshes)))
    else if lod.Some? then Ok(ChooseLod(lod.value.descriptors, archives, fileData, None))
    else Ok(None)
  }

  /** (null, null) for a nonzero ID that does not resolve, and for ID 0
      without an embedded selector; an embedded selector yields only
      archive entries. */
  lemma LoadLodUnresolved(fileId: int, lod: Option<LodSelector.Selector>, archives: seq<seq<ForgeEntry>>,
                          fileData: FileData, load: LodLoader)
    ensures fileId != 0 && EntryFromAllArchives(archives, fileId, fileData).None? ==>
      LoadLod(fileId, lod, archives, fileData, load) == Ok(None)
    ensures fileId == 0 && lod.None? ==> LoadLod(fileId, lod, archives, fileData, load) == Ok(None)
    ensures var r := LoadLod(fileId, lod, archives, fileData, load);
      fileId == 0 && r.Ok? && r.value.Some? ==> r.value.value.obj.EntryObject?
  {
    if fileId == 0 && lod.Some? {
      NoMeshesOnlyEntries(lod.value.descriptors, archives, fileData);
    }
  }

  // ---------------------------------------------------------------------
  // GetEntitiesFromEntityGroup

  /** Component.GraphicObject: only a classic (visual) component reads one;
      the others leave it null. */
  function GraphicObjectOf(c: Components.Component): Option<FileReference>
  {
    if c.ClassicComponent? then Some(c.visual.graphicObject) else None
  }

  /** The file ID of an embedded selector's own pointer. */
  function SelectorFileId(s: (Option<ResourceHeader>, LodSelector.Selector)): int
  {
    s.1.ptr.reference.fileId
  }

  /** The first embedded selector whose pointer has the ID. */
  function FirstSelectorWith(embedded: seq<(Option<ResourceHeader>, LodSelector.Selector)>, fileId: int): (r: Option<nat>)
    ensures r.Some? ==> r.value < |embedded| && SelectorFileId(embedded[r.value]) == fileId
    ensures r.Some? ==> forall k :: 0 <= k < r.value ==> SelectorFileId(embedded[k]) != fileId
    ensures r.None? <==> forall k :: 0 <= k < |embedded| ==> SelectorFileId(embedded[k]) != fileId
  {
    if embedded == [] then None
    else if SelectorFileId(embedded[0]) == fileId then Some(0)
    else match FirstSelectorWith(embedded[1..], fileId)
      case None => None
      case Some(k) => Some(k + 1)
  }

  /** One component: skipped without a graphic object or with ID 0; its LOD
      selector loaded by ID; failing that, the first embedded selector with
      the ID, loaded as ID 0. */
  function ComponentEntity(c: Components.Component, embedded: seq<(Option<ResourceHeader>, LodSelector.Selector)>,
                           archives: seq<seq<ForgeEntry>>, fileData: FileData, load: LodLoader): Result<Option<Found>>
  {
    var g := GraphicObjectOf(c);
    if g.None? || g.value.fileId == 0 then Ok(None)
    else
      var lod :- LoadLod(g.value.fileId, None, archives, fileData, load);
      if lod.Some? then Ok(lod)
      else match FirstSelectorWith(embedded, g.value.fileId)
        case None => Ok(None)
        case Some(i) => LoadLod(0, Some(embedded[i].1), archives, fileData, load)
  }

  /** The loop over the components, in order: the first component whose
      selector fails to load ends it with that failure. */
  function GroupEntities(cs: seq<Components.Component>, embedded: seq<(Option<ResourceHeader>, LodSelector.Selector)>,
                         archives: seq<seq<ForgeEntry>>, fileData: FileData, load: LodLoader): (r: Result<seq<Found>>)
    ensures r.Ok? ==> |r.value| <= |cs|
  {
    if cs == [] then Ok([])
    else
      var e :- ComponentEntity(cs[0], embedded, archives, fileData, load);
      Prepend(if e.Some? then [e.value] else [], GroupEntities(cs[1..], embedded, archives, fileData, load))
  }

  /** GetEntitiesFromEntityGroup: (null, null) when the group's own entity
      has no components, the loop otherwise. */
  function EntitiesOf(root: EntityGroup.Entity, embedded: seq<(Option<ResourceHeader>, LodSelector.Selector)>,
                      archives: seq<seq<ForgeEntry>>, fileData: FileData, load: LodLoader): Result<Option<seq<Found>>>
  {
    if !root.Entity? then Ok(None)
    else
      var fs :- GroupEntities(root.head.components, embedded, archives, fileData, load);
      Ok(Some(fs))
  }

  /** A component without a graphic object, or with ID 0, adds nothing; one
      whose selector does not resolve by ID falls back on the first embedded
      selector with that ID, which yields only archive entries. */
  lemma ComponentRules(c: Components.Component, embedded: seq<(Option<ResourceHeader>, LodSelector.Selector)>,
                       archives: seq<seq<ForgeEntry>>, fileData: FileData, load: LodLoader)
    ensures GraphicObjectOf(c).None? || GraphicObjectOf(c).value.fileId == 0 ==>
      ComponentEntity(c, embedded, archives, fileData, load) == Ok(None)
    ensures var g := GraphicObjectOf(c);
      g.Some? && g.value.fileId != 0 && EntryFromAllArchives(archives, g.value.fileId, fileData).None? ==>
      var i := FirstSelectorWith(embedded, g.value.fileId);
      i.Some? ==>
        && ComponentEntity(c, embedded, archives, fileData, load) == LoadLod(0, Some(embedded[i.value].1), archives, fileData, load)
        && (ComponentEntity(c, embedded, archives, fileData, load).Ok? &&
            ComponentEntity(c, embedded, archives, fileData, load).value.Some? ==>
              ComponentEntity(c, embedded, archives, fileData, load).value.value.obj.EntryObject?)
  {
    var g := GraphicObjectOf(c);
    if g.Some? && g.value.fileId != 0 && EntryFromAllArchives(archives, g.value.fileId, fileData).None? {
      var i := FirstSelectorWith(embedded, g.value.fileId);
      if i.Some? {
        LoadLodUnresolved(0, Some(embedded[i.value].1), archives, fileData, load);
      }
    }
  }

  // ---------------------------------------------------------------------
  // LoadMaterials

  /** The material IDs of the instancing records, in order. */
  function MaterialIds(ins: seq<ModelRecords.Instancing>): (r: seq<int>)
    ensures |r| == |ins| && forall i :: 0 <= i < |ins| ==> r[i] == ins[i].material.fileId
  {
    if ins == [] then [] else MaterialIds(ins[..|ins| - 1]) + [ins[|ins| - 1].material.fileId]
  }

  /** MaterialFile.Load, keeping the material, as a parameter. */
  type MaterialLoader = seq<byte> -> Result<Material.Material>

  /** The loop over the IDs: each ID looked up as GetEntryFromAllArchives
      does, and the material of the entry found loaded and kept; a load
      that fails ends the loop with that failure. */
  function LoadMaterialsOf(ids: seq<int>, archives: seq<seq<ForgeEntry>>, fileData: FileData, load: MaterialLoader)
    : Result<seq<Material.Material>>
  {
    if ids == [] then Ok([])
    else
      match EntryFromAllArchives(archives, ids[0], fileData)
      case None => LoadMaterialsOf(ids[1..], archives, fileData, load)
      case Some(e) =>
        var m :- load(e.1);
        Prepend([m], LoadMaterialsOf(ids[1..], archives, fileData, load))
  }

  /** The IDs that resolve to an entry with data. */
  function Resolving(ids: seq<int>, archives: seq<seq<ForgeEntry>>, fileData: FileData): (r: seq<int>)
    ensures |r| <= |ids|
    ensures forall k :: 0 <= k < |r| ==> r[k] in ids && EntryFromAllArchives(archives, r[k], fileData).Some?
  {
    if ids == [] then []
    else
      var rest := Resolving(ids[1..], archives, fileData);
      assert forall k :: 0 <= k < |rest| ==> rest[k] in ids;
      if EntryFromAllArchives(archives, ids[0], fileData).Some? then [ids[0]] + rest else rest
  }

  /** One material per ID that resolves, in order, the material of that
      ID's entry. */
  lemma {:induction false} LoadMaterialsPerId(ids: seq<int>, archives: seq<seq<ForgeEntry>>, fileData: FileData,
                                              load: MaterialLoader)
    requires LoadMaterialsOf(ids, archives, fileData, load).Ok?
    ensures var ms := LoadMaterialsOf(ids, archives, fileData, load).value;
      var rs := Resolving(ids, archives, fileData);
      && |ms| == |rs|
      && forall k :: 0 <= k < |rs| ==> load(EntryFromAllArchives(archives, rs[k], fileData).value.1) == Ok(ms[k])
  {
    if ids != [] {
      var tail := LoadMaterialsOf(ids[1..], archives, fileData, load);
      var rs, rest := Resolving(ids, archives, fileData), Resolving(ids[1..], archives, fileData);
      match EntryFromAllArchives(archives, ids[0], fileData)
      case None =>
        LoadMaterialsPerId(ids[1..], archives, fileData, load);
        assert rs == rest;
      case Some(e) =>
        var m := load(e.1).value;
        assert tail.Ok? && LoadMaterialsOf(ids, archives, fileData, load).value == [m] + tail.value;
        LoadMaterialsPerId(ids[1..], archives, fileData, load);
        assert rs == [ids[0]] + rest;
    }
  }

  /** The material a material file holds, for the concrete loader. */
  function MaterialOfFile(d: seq<byte>): Result<Material.Material>
  {
    var f :- MaterialFiles.LoadMaterialFile(d);
    Ok(f.0)
  }

  // ---------------------------------------------------------------------
  // The startup cache and GetArchive

  /** LoadStartupCache's loop: a root is cached under its path when its
      stored time equals the file's last-write time; a later root with the
      same path replaces an earlier one. */
  function CacheOf<A>(roots: seq<(string, int, A)>, lastWrite: string -> int): map<string, A>
  {
    if roots == [] then map[]
    else
      var m := CacheOf(roots[..|roots| - 1], lastWrite);
      var (path, time, archive) := roots[|roots| - 1];
      if time == lastWrite(path) then m[path := archive] else m
  }

  /** Some root's stored time differs from its file's. */
  predicate Stale<A>(roots: seq<(string, int, A)>, lastWrite: string -> int)
  {
    exists i :: 0 <= i < |roots| && roots[i].1 != lastWrite(roots[i].0)
  }

  /** The archive of the last root with the path whose time matches. */
  function LastFresh<A>(roots: seq<(string, int, A)>, lastWrite: string -> int, path: string): (r: Option<A>)
    ensures r.None? <==> forall i :: 0 <= i < |roots| ==> roots[i].0 != path || roots[i].1 != lastWrite(path)
  {
    if roots == [] then None
    else
      var last := roots[|roots| - 1];
      if last.0 == path && last.1 == lastWrite(path) then Some(last.2)
      else
        assert forall i :: 0 <= i < |roots| - 1 ==> roots[i] == roots[..|roots| - 1][i];
        LastFresh(roots[..|roots| - 1], lastWrite, path)
  }

  /** GetArchive: the cached archive when the cache has the path, a freshly
      parsed one otherwise. */
  function CachedOrParsed<A>(cache: Option<map<string, A>>, path: string, parse: string -> A): A
  {
    if cache.Some? && path in cache.value then cache.value[path] else parse(path)
  }

  /** After LoadStartupCache, GetArchive returns the last root with the path
      whose time matched, and parses the archive afresh when there is
      none. */
  lemma {:induction false} CacheChoice<A>(roots: seq<(string, int, A)>, lastWrite: string -> int, path: string,
                                         parse: string -> A)
    ensures var latest := LastFresh(roots, lastWrite, path);
      CachedOrParsed(Some(CacheOf(roots, lastWrite)), path, parse) == (if latest.Some? then latest.value else parse(path))
  {
    if roots != [] {
      CacheChoice(roots[..|roots| - 1], lastWrite, path, parse);
    }
  }

  lemma StaleAppend<A>(roots: seq<(string, int, A)>, root: (string, int, A), lastWrite: string -> int)
    ensures Stale(roots + [root], lastWrite) <==> Stale(roots, lastWrite) || root.1 != lastWrite(root.0)
  {
    var rs := roots + [root];
    if root.1 != lastWrite(root.0) {
      assert rs[|roots|] == root;
    }
    if Stale(roots, lastWrite) {
      var i :| 0 <= i < |roots| && roots[i].1 != lastWrite(roots[i].0);
      assert rs[i] == roots[i];
    }
    if Stale(rs, lastWrite) && root.1 == lastWrite(root.0) {
      var i :| 0 <= i < |rs| && rs[i].1 != lastWrite(rs[i].0);
      assert i < |roots| && roots[i] == rs[i];
    }
  }

  // ---------------------------------------------------------------------
  // ForgeFileManager

  class ForgeFileManager {
    /** AllArchives, each as its entry list. */
    var allArchives: seq<seq<ForgeEntry>>
    var startupCache: Option<map<string, ForgeFile.ForgeArchive>>
    var startupCacheDirty: bool
    var dataFileMgr: ForgeDataFileMgr?

    constructor (archives: seq<seq<ForgeEntry>>)
      ensures allArchives == archives && startupCache == None && !startupCacheDirty && dataFileMgr == null
    {
      allArchives, startupCache, startupCacheDirty, dataFileMgr := archives, None, false, null;
    }

    /** GetEntryFromAllArchives. */
    method GetEntryFromAllArchives(fileId: int, fileData: FileData) returns (r: Option<(ForgeEntry, seq<byte>)>)
      ensures r == EntryFromAllArchives(allArchives, fileId, fileData)
    {
      var a := 0;
      while a < |allArchives|
        invariant 0 <= a <= |allArchives|
        invariant EntryFromAllArchives(allArchives, fileId, fileData) == EntryFromAllArchives(allArchives[a..], fileId, fileData)
      {
        var entries := allArchives[a];
        var i := ForgeFile.FirstWithFileId(entries, fileId);
        if i.Some? {
          var data := fileData(entries[i.value]);
          if data.Some? {
            return Some((entries[i.value], data.value));
          }
        }
        assert allArchives[a..][1..] == allArchives[a + 1..];
        a := a + 1;
      }
      return None;
    }

    /** LoadLODSelector(fileID, lod), with LODSelectorFile.Load as a
        parameter. */
    method LoadLodSelector(fileId: int, lod: Option<LodSelector.Selector>, fileData: FileData, load: LodLoader)
      returns (r: Result<Option<Found>>)
      ensures r == LoadLod(fileId, lod, allArchives, fileData, load)
    {
      var descs: seq<LodSelector.LodDescriptor>;
      var meshes: Option<seq<LodSelectorFiles.MeshEntry>>;
      if fileId != 0 {
        var data := GetEntryFromAllArchives(fileId, fileData);
        if data.None? {
          return Ok(None);
        }
        var c :- load(data.value.1);
        descs, meshes := c.selector.1.descriptors, Some(c.meshes);
      } else if lod.Some? {
        descs, meshes := lod.value.descriptors, None;
      } else {
        return Ok(None);
      }
      var i := 0;
      while i < |descs|
        invariant 0 <= i <= |descs|
        invariant forall j :: 0 <= j < i ==> Passes(descs[j], allArchives, fileData, meshes)
      {
        var d := descs[i];
        if StreamId(d) != 0 {
          ChooseLodRules(descs, allArchives, fileData, meshes, i);
          var e := GetEntryFromAllArchives(StreamId(d), fileData);
          return Ok(AsFound(e));
        } else if ObjectId(d) != 0 {
          var e := GetEntryFromAllArchives(ObjectId(d), fileData);
          if e.Some? {
            ChooseLodRules(descs, allArchives, fileData, meshes, i);
            return Ok(AsFound(e));
          }
          if meshes.Some? && |meshes.value| > 0 {
            ChooseLodRules(descs, allArchives, fileData, meshes, i);
            return Ok(FirstMesh(meshes));
          }
        }
        i := i + 1;
      }
      NoRuleApplies(descs, allArchives, fileData, meshes);
      return Ok(None);
    }

    /** GetEntitiesFromEntityGroup: two lists, entries (or embedded models)
        and their bytes, of the same length. */
    method GetEntitiesFromEntityGroup(groupFile: EntityGroupFiles.EntityGroupFile, fileData: FileData, load: LodLoader)
      returns (r: Result<Option<(seq<FoundObject>, seq<seq<byte>>)>>)
      ensures var spec := EntitiesOf(groupFile.entityGroup.root, groupFile.embeddedLodSelectors, allArchives, fileData, load);
        && (r.Fail? <==> spec.Fail?)
        && (r.Ok? ==> (r.value.None? <==> spec.value.None?))
        && (r.Ok? && r.value.Some? ==>
              var (objs, datas) := r.value.value;
              |objs| == |datas| == |spec.value.value| &&
              forall i :: 0 <= i < |objs| ==> Found(objs[i], datas[i]) == spec.value.value[i])
    {
      var root := groupFile.entityGroup.root;
      if !root.Entity? {
        return Ok(None);
      }
      var cs := root.head.components;
      var embedded := groupFile.embeddedLodSelectors;
      var objs: seq<FoundObject> := [];
      var datas: seq<seq<byte>> := [];
      ghost var found: seq<Found> := [];
      PrependNothing(GroupEntities(cs, embedded, allArchives, fileData, load));
      var i := 0;
      while i < |cs|
        invariant 0 <= i <= |cs|
        invariant GroupEntities(cs, embedded, allArchives, fileData, load)
               == Prepend(found, GroupEntities(cs[i..], embedded, allArchives, fileData, load))
        invariant |objs| == |datas| == |found|
        invariant forall k :: 0 <= k < |objs| ==> Found(objs[k], datas[k]) == found[k]
      {
        assert cs[i..][0] == cs[i] && cs[i..][1..] == cs[i + 1..];
        var e := LoadComponent(cs[i], embedded, fileData, load);
        if e.Fail? {
          return Fail(e.error);
        }
        var more := if e.value.Some? then [e.value.value] else [];
        PrependTwice(found, more, GroupEntities(cs[i + 1..], embedded, allArchives, fileData, load));
        if e.value.Some? {
          objs, datas := objs + [e.value.value.obj], datas + [e.value.value.data];
        }
        found := found + more;
        i := i + 1;
      }
      assert found + [] == found;
      r := Ok(Some((objs, datas)));
    }

    /** One component of GetEntitiesFromEntityGroup's loop. */
    method LoadComponent(c: Components.Component, embedded: seq<(Option<ResourceHeader>, LodSelector.Selector)>,
                         fileData: FileData, load: LodLoader)
      returns (r: Result<Option<Found>>)
      ensures r == ComponentEntity(c, embedded, allArchives, fileData, load)
    {
      var g := GraphicObjectOf(c);
      if g.None? || g.value.fileId == 0 {
        return Ok(None);
      }
      r := LoadLodSelector(g.value.fileId, None, fileData, load);
      if r.Fail? || r.value.Some? {
        return;
      }
      var j := 0;
      while j < |embedded|
        invariant 0 <= j <= |embedded|
        invariant forall k :: 0 <= k < j ==> SelectorFileId(embedded[k]) != g.value.fileId
      {
        if SelectorFileId(embedded[j]) == g.value.fileId {
          r := LoadLodSelector(0, Some(embedded[j].1), fileData, load);
          return;
        }
        j := j + 1;
      }
    }

    /** LoadMaterials: the material IDs of the model's instancing records,
        then for each the first entry found with data, loaded as a material
        file. */
    method LoadMaterials(model: ForgeModel.Model, fileData: FileData, load: MaterialLoader)
      returns (r: Result<seq<Material.Material>>)
      ensures r == LoadMaterialsOf(MaterialIds(model.body.compiled.instancing), allArchives, fileData, load)
    {
      var ins := model.body.compiled.instancing;
      var ids: seq<int> := [];
      var i := 0;
      while i < |ins|
        invariant 0 <= i <= |ins|
        invariant ids == MaterialIds(ins[..i])
      {
        assert ins[..i + 1][..i] == ins[..i];
        ids := ids + [ins[i].material.fileId];
        i := i + 1;
      }
      assert ins[..i] == ins;
      var materials: seq<Material.Material> := [];
      PrependNothing(LoadMaterialsOf(ids, allArchives, fileData, load));
      var k := 0;
      while k < |ids|
        invariant 0 <= k <= |ids|
        invariant LoadMaterialsOf(ids, allArchives, fileData, load)
               == Prepend(materials, LoadMaterialsOf(ids[k..], allArchives, fileData, load))
      {
        assert ids[k..][0] == ids[k] && ids[k..][1..] == ids[k + 1..];
        var e := GetEntryFromAllArchives(ids[k], fileData);
        if e.Some? {
          var m :- load(e.value.1);
          PrependTwice(materials, [m], LoadMaterialsOf(ids[k + 1..], allArchives, fileData, load));
          materials := materials + [m];
        }
        k := k + 1;
      }
      assert materials + [] == materials;
      r := Ok(materials);
    }

    /** LoadStartupCache, with the roots the cache file holds (none when it
        does not exist) and each file's last-write time as parameters. */
    method LoadStartupCache(roots: Option<seq<(string, int, ForgeFile.ForgeArchive)>>, lastWrite: string -> int)
      modifies this
      ensures allArchives == old(allArchives)
      ensures roots.None? ==>
        startupCacheDirty && startupCache == old(startupCache) && dataFileMgr == old(dataFileMgr)
      ensures roots.Some? ==>
        && startupCache == Some(CacheOf(roots.value, lastWrite))
        && startupCacheDirty == (old(startupCacheDirty) || Stale(roots.value, lastWrite))
        && dataFileMgr != null && fresh(dataFileMgr) && dataFileMgr.fileManager == this
        && dataFileMgr.streamEntries == None
    {
      if roots.None? {
        startupCacheDirty := true;
        return;
      }
      var rs := roots.value;
      var cache: map<string, ForgeFile.ForgeArchive> := map[];
      var dirty := startupCacheDirty;
      var i := 0;
      while i < |rs|
        invariant 0 <= i <= |rs|
        invariant allArchives == old(allArchives)
        invariant cache == CacheOf(rs[..i], lastWrite)
        invariant dirty == (old(startupCacheDirty) || Stale(rs[..i], lastWrite))
      {
        var (path, time, archive) := rs[i];
        assert rs[..i + 1][..i] == rs[..i] && rs[..i + 1][i] == rs[i];
        assert rs[..i + 1] == rs[..i] + [rs[i]];
        StaleAppend(rs[..i], rs[i], lastWrite);
        if time != lastWrite(path) {
          dirty := true;
        } else {
          cache := cache[path := archive];
        }
        i := i + 1;
      }
      assert rs[..i] == rs;
      startupCache, startupCacheDirty := Some(cache), dirty;
      dataFileMgr := new ForgeDataFileMgr(this);
    }

    /** GetArchive, with the fresh parse of the file as a parameter. */
    method GetArchive(path: string, parse: string -> ForgeFile.ForgeArchive) returns (a: ForgeFile.ForgeArchive)
      ensures a == CachedOrParsed(startupCache, path, parse)
    {
      if startupCache.Some? && path in startupCache.value {
        return startupCache.value[path];
      }
      a := parse(path);
    }
  }
}

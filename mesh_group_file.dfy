/** MeshGroupFile.Load (Files/MeshGroupFile.cs:23-85): the pieces of every
    model of an entity group gathered into one dictionary keyed by hash. A
    piece whose key is already taken is renamed `<stem>_<index>.<ext>` and
    stored under the hash of its new name, or dropped when its name has no
    '.'. The hash (JenkHash.GenHash) is a parameter. */
module MeshGroupFiles {
  import opened Wrappers
  import EntityGroupFiles

  // ---------------------------------------------------------------------
  // Strings

  /** String.Split(c): the parts between the separators, empty parts kept. */
  function Split(s: string, c: char): (parts: seq<string>)
    ensures |parts| >= 1
    decreases |s|
  {
    if s == [] then [[]]
    else
      var rest := Split(s[1..], c);
      if s[0] == c then [[]] + rest else [[s[0]] + rest[0]] + rest[1..]
  }

  /** String.Join(c, parts). */
  function Join(parts: seq<string>, c: char): string
  {
    if |parts| == 0 then []
    else if |parts| == 1 then parts[0]
    else parts[0] + [c] + Join(parts[1..], c)
  }

  /** Joining the parts gives the string back. */
  lemma {:induction false} JoinSplit(s: string, c: char)
    ensures Join(Split(s, c), c) == s
    decreases |s|
  {
    if s != [] {
      JoinSplit(s[1..], c);
      var rest := Split(s[1..], c);
      if s[0] == c {
        assert ([[]] + rest)[1..] == rest;
      } else if |rest| > 1 {
        assert ([[s[0]] + rest[0]] + rest[1..])[1..] == rest[1..];
      }
      assert s == [s[0]] + s[1..];
    }
  }

  /** No part holds a separator, and there is more than one part exactly
      when there is a separator. */
  lemma {:induction false} SplitParts(s: string, c: char)
    ensures |Split(s, c)| > 1 <==> c in s
    ensures forall i :: 0 <= i < |Split(s, c)| ==> c !in Split(s, c)[i]
    decreases |s|
  {
    if s != [] {
      SplitParts(s[1..], c);
      assert c in s <==> s[0] == c || c in s[1..];
      var rest := Split(s[1..], c);
      if s[0] != c {
        var parts := Split(s, c);
        forall i | 0 <= i < |parts|
          ensures c !in parts[i]
        {
          if i > 0 {
            assert parts[i] == rest[i];
          }
        }
      }
    }
  }

  /** The last part of a join of two or more parts comes after the last
      separator. */
  lemma {:induction false} JoinLast(parts: seq<string>, c: char)
    requires |parts| >= 2
    ensures Join(parts, c) == Join(parts[..|parts| - 1], c) + [c] + parts[|parts| - 1]
  {
    if |parts| > 2 {
      JoinLast(parts[1..], c);
      assert parts[1..][..|parts| - 2] == parts[..|parts| - 1][1..];
    }
  }

  /** index.ToString(): the decimal digits of a number. */
  function Decimal(n: nat): (r: string)
    ensures |r| >= 1 && forall i :: 0 <= i < |r| ==> '0' <= r[i] <= '9'
  {
    var digit := ('0' as int + n % 10) as char;
    if n < 10 then [digit] else Decimal(n / 10) + [digit]
  }

  /** The new name of a piece whose key is taken: the index inserted before
      the part after the last '.', none when the name has no '.'. */
  function RenamedName(name: string, index: nat): (r: Option<string>)
  {
    var parts := Split(name, '.');
    if |parts| > 1 then Some(Join(parts[..|parts| - 1], '.') + "_" + Decimal(index) + "." + parts[|parts| - 1])
    else None
  }

  /** A name without '.' is not renamed. */
  lemma NoDotNoRename(name: string, index: nat)
    ensures RenamedName(name, index).None? <==> '.' !in name
  {
    SplitParts(name, '.');
  }

  /** A name with '.' gets `_<index>` right before its last '.'. */
  lemma RenameBeforeLastDot(name: string, index: nat, k: nat)
    requires k < |name| && name[k] == '.' && '.' !in name[k + 1..]
    ensures RenamedName(name, index) == Some(name[..k] + "_" + Decimal(index) + name[k..])
  {
    assert name[k] in name;
    SplitAtLast(name);
    var parts := Split(name, '.');
    var stem, ext := Join(parts[..|parts| - 1], '.'), parts[|parts| - 1];
    LastSeparator(name, stem, ext, k);
    var d := Decimal(index);
    assert name[k..] == "." + ext;
    assert stem + "_" + d + "." + ext == name[..k] + "_" + d + name[k..];
  }

  /** A name with '.' splits into more than one part, and is the join of
      all parts but the last, a '.', and a last part without '.'. */
  lemma SplitAtLast(name: string)
    requires '.' in name
    ensures var parts := Split(name, '.');
      && |parts| > 1
      && name == Join(parts[..|parts| - 1], '.') + "." + parts[|parts| - 1]
      && '.' !in parts[|parts| - 1]
  {
    var parts := Split(name, '.');
    SplitParts(name, '.');
    JoinSplit(name, '.');
    JoinLast(parts, '.');
  }

  /** A string split at its last '.' splits at the index of that '.'. */
  lemma LastSeparator(name: string, stem: string, ext: string, k: nat)
    requires name == stem + "." + ext && '.' !in ext
    requires k < |name| && name[k] == '.' && '.' !in name[k + 1..]
    ensures stem == name[..k] && ext == name[k + 1..]
  {
    assert name[|stem|] == '.';
  }

  // ---------------------------------------------------------------------
  // The pieces

  /** A Piece: its name and whatever else it holds, which Load does not
      look at. */
  datatype Piece<T> = Piece(name: Option<string>, body: T)

  /** One entry of a model's `Pieces` dictionary, in enumeration order. */
  type Entry<T> = (nat, Option<Piece<T>>)

  /** A PiecePack whose `Pieces` may be null. */
  datatype PiecePack<T> = PiecePack(pieces: Option<seq<Entry<T>>>)

  /** `model?.Pieces ?? Enumerable.Empty`: a null model or null dictionary
      has no entries. */
  function PackEntries<T>(m: Option<PiecePack<T>>): seq<Entry<T>>
  {
    if m.Some? && m.value.pieces.Some? then m.value.pieces.value else []
  }

  /** The entries the two nested loops visit, model after model. */
  function Entries<T>(models: seq<Option<PiecePack<T>>>): seq<Entry<T>>
  {
    if models == [] then [] else PackEntries(models[0]) + Entries(models[1..])
  }

  /** The dictionary being filled and the running index. */
  datatype Table<T> = Table(pieces: map<nat, Piece<T>>, index: nat)

  /** One iteration of the inner loop. */
  function AddPiece<T>(t: Table<T>, e: Entry<T>, hash: string -> nat): Result<Table<T>>
  {
    if e.1.None? then Ok(t)
    else
      var piece := e.1.value;
      if e.0 in t.pieces then
        var name := if piece.name.Some? then piece.name.value else "";
        match RenamedName(name, t.index)
        case None => Ok(t.(index := t.index + 1))
        case Some(n) =>
          if hash(n) in t.pieces then Fail(DuplicateKey)
          else Ok(Table(t.pieces[hash(n) := piece.(name := Some(n))], t.index + 1))
      else Ok(Table(t.pieces[e.0 := piece], t.index + 1))
  }

  function AddAll<T>(t: Table<T>, es: seq<Entry<T>>, hash: string -> nat): Result<Table<T>>
    decreases |es|
  {
    if es == [] then Ok(t)
    else
      var t' :- AddPiece(t, es[0], hash);
      AddAll(t', es[1..], hash)
  }

  /** Load as a function of the models and whether the entity group is
      set: an empty dictionary when either is null. */
  function LoadPieces<T>(models: Option<seq<Option<PiecePack<T>>>>, hasGroup: bool, hash: string -> nat)
    : (r: Result<map<nat, Piece<T>>>)
    ensures models.None? || !hasGroup ==> r == Ok(map[])
  {
    if models.None? || !hasGroup then Ok(map[])
    else
      var t :- AddAll(Table(map[], 0), Entries(models.value), hash);
      Ok(t.pieces)
  }

  /** The number of entries whose piece is not null. */
  function Present<T>(es: seq<Entry<T>>): nat
  {
    if es == [] then 0 else (if es[0].1.Some? then 1 else 0) + Present(es[1..])
  }

  // ---------------------------------------------------------------------
  // Properties

  /** A null piece is skipped without counting; a piece whose key is free
      is stored unchanged under it. */
  lemma FreePieces<T>(t: Table<T>, e: Entry<T>, hash: string -> nat)
    ensures e.1.None? ==> AddPiece(t, e, hash) == Ok(t)
    ensures e.1.Some? && e.0 !in t.pieces ==>
      AddPiece(t, e, hash) == Ok(Table(t.pieces[e.0 := e.1.value], t.index + 1))
  {
  }

  /** A piece whose key is taken and whose name has no '.' (or is null) is
      dropped, but still counted. */
  lemma CollidingPieceDropped<T>(t: Table<T>, e: Entry<T>, hash: string -> nat)
    requires e.1.Some? && e.0 in t.pieces
    requires e.1.value.name.None? || '.' !in e.1.value.name.value
    ensures AddPiece(t, e, hash) == Ok(t.(index := t.index + 1))
  {
    var name := if e.1.value.name.Some? then e.1.value.name.value else "";
    NoDotNoRename(name, t.index);
  }

  /** A piece whose key is taken and whose name has a last '.' at k is
      renamed with the index before that '.' and stored under the hash of
      its new name; if that key is taken too, Dictionary.Add throws. */
  lemma CollidingPieceRenamed<T>(t: Table<T>, e: Entry<T>, hash: string -> nat, k: nat)
    requires e.1.Some? && e.0 in t.pieces && e.1.value.name.Some?
    requires var name := e.1.value.name.value; k < |name| && name[k] == '.' && '.' !in name[k + 1..]
    ensures var name := e.1.value.name.value;
      var n := name[..k] + "_" + Decimal(t.index) + name[k..];
      && (hash(n) in t.pieces ==> AddPiece(t, e, hash) == Fail(DuplicateKey))
      && (hash(n) !in t.pieces ==>
            AddPiece(t, e, hash) == Ok(Table(t.pieces[hash(n) := e.1.value.(name := Some(n))], t.index + 1)))
  {
    RenameBeforeLastDot(e.1.value.name.value, t.index, k);
  }

  /** The loop never changes or removes an entry it has stored, counts every
      piece that is not null, and adds at most one entry per piece. */
  lemma {:induction false} AddAllGrows<T>(t: Table<T>, es: seq<Entry<T>>, hash: string -> nat)
    requires AddAll(t, es, hash).Ok?
    ensures var r := AddAll(t, es, hash).value;
      && (forall k :: k in t.pieces ==> k in r.pieces && r.pieces[k] == t.pieces[k])
      && r.index == t.index + Present(es)
      && |r.pieces| <= |t.pieces| + Present(es)
    decreases |es|
  {
    if es != [] {
      var t' := AddPiece(t, es[0], hash).value;
      AddAllGrows(t', es[1..], hash);
      if es[0].1.Some? && (t'.pieces != t.pieces) {
        assert |t'.pieces| <= |t.pieces| + 1;
      }
    }
  }

  /** The entries of the models from i on: those of model i, then the rest. */
  lemma EntriesFrom<T>(models: seq<Option<PiecePack<T>>>, i: nat)
    requires i < |models|
    ensures Entries(models[i..]) == PackEntries(models[i]) + Entries(models[i + 1..])
  {
    assert models[i..][1..] == models[i + 1..];
  }

  /** Running the loop over one more entry. */
  lemma AddAllStep<T>(t: Table<T>, es: seq<Entry<T>>, j: nat, rest: seq<Entry<T>>, hash: string -> nat)
    requires j < |es|
    ensures AddAll(t, es[j..] + rest, hash) ==
      (if AddPiece(t, es[j], hash).Fail? then Fail(AddPiece(t, es[j], hash).error)
       else AddAll(AddPiece(t, es[j], hash).value, es[j + 1..] + rest, hash))
  {
    assert (es[j..] + rest)[0] == es[j];
    assert (es[j..] + rest)[1..] == es[j + 1..] + rest;
  }

  // ---------------------------------------------------------------------
  // The C# object

  class MeshGroupFile<T> {
    var entityGroup: EntityGroupFiles.EntityGroupFile?
    var models: Option<seq<Option<PiecePack<T>>>>
    var modelsCount: nat
    var pieces: map<nat, Piece<T>>

    constructor (ps: seq<Option<PiecePack<T>>>, group: EntityGroupFiles.EntityGroupFile?)
      ensures entityGroup == group && models == Some(ps) && modelsCount == |ps| && pieces == map[]
    {
      entityGroup, models, modelsCount, pieces := group, Some(ps), |ps|, map[];
    }

    /** One iteration of the inner loop: a null piece is skipped, a free key
        takes the piece, a taken key renames it (or drops a name without
        '.'); false when the renamed key is taken too. */
    method Add(e: Entry<T>, index: nat, hash: string -> nat) returns (added: bool, index': nat)
      modifies this
      ensures entityGroup == old(entityGroup) && models == old(models) && modelsCount == old(modelsCount)
      ensures added <==> AddPiece(Table(old(pieces), index), e, hash).Ok?
      ensures added ==> AddPiece(Table(old(pieces), index), e, hash).value == Table(pieces, index')
    {
      var (key, value) := e;
      index' := index;
      added := true;
      if value.Some? {
        var piece := value.value;
        if key in pieces {
          var name := if piece.name.Some? then piece.name.value else "";
          var renamed := RenamedName(name, index);
          if renamed.Some? {
            if hash(renamed.value) in pieces {
              return false, index;
            }
            pieces := pieces[hash(renamed.value) := piece.(name := renamed)];
          }
        } else {
          pieces := pieces[key := piece];
        }
        index' := index + 1;
      }
    }

    /** Load: a fresh dictionary, then, when both the models and the entity
        group are set, the two nested loops. */
    method Load(hash: string -> nat) returns (r: Result<()>)
      modifies this
      ensures entityGroup == old(entityGroup) && models == old(models) && modelsCount == old(modelsCount)
      ensures r.Fail? ==> LoadPieces(models, entityGroup != null, hash).Fail?
      ensures r.Ok? ==> LoadPieces(models, entityGroup != null, hash) == Ok(pieces)
    {
      pieces := map[];
      if models.Some? && entityGroup != null {
        var ms := models.value;
        var index: nat := 0;
        var i := 0;
        assert ms[0..] == ms;
        while i < |ms|
          invariant 0 <= i <= |ms|
          invariant models == Some(ms) && entityGroup == old(entityGroup) && modelsCount == old(modelsCount)
          invariant AddAll(Table(map[], 0), Entries(ms), hash) == AddAll(Table(pieces, index), Entries(ms[i..]), hash)
        {
          var es := PackEntries(ms[i]);
          EntriesFrom(ms, i);
          var j := 0;
          while j < |es|
            invariant 0 <= j <= |es|
            invariant models == Some(ms) && entityGroup == old(entityGroup) && modelsCount == old(modelsCount)
            invariant AddAll(Table(map[], 0), Entries(ms), hash)
              == AddAll(Table(pieces, index), es[j..] + Entries(ms[i + 1..]), hash)
          {
            AddAllStep(Table(pieces, index), es, j, Entries(ms[i + 1..]), hash);
            var added;
            added, index := Add(es[j], index, hash);
            if !added {
              return Fail(DuplicateKey);
            }
            j := j + 1;
          }
          assert es[j..] + Entries(ms[i + 1..]) == Entries(ms[i + 1..]);
          i := i + 1;
        }
      }
      r := Ok(());
    }
  }
}

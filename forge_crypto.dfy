/** ForgeCrypto (FORGE/ForgeCrypto.cs): finding the compressed-data magic in
    a resource, decoding the block container that follows it, and the byte
    pattern search RecurringIndexes. The Oodle codec itself is native code;
    it enters the model as a function parameter. */
module ForgeCrypto {
  import opened Wrappers
  import opened Bytes
  import opened Cursor
  import opened Stream

  /** The int64 that opens a compressed block container. */
  const CompressionMagic: int := 1154322941026740787

  /** The native Oodle call: given the compressed bytes and the size the
      caller expects, the bytes it wrote, or None when it reports an error. */
  type Codec = (seq<byte>, nat) -> Option<seq<byte>>

  // ---------------------------------------------------------------------------
  // LocateRawDataIdentifier
  // ---------------------------------------------------------------------------

  /** The magic is stored at q. It is below 2^63, so reading those eight
      bytes as a signed or as an unsigned int64 gives the same answer. */
  predicate IsMagicAt(d: seq<byte>, q: nat)
  {
    q + 8 <= |d| && LeValue(d[q..q + 8]) == CompressionMagic
  }

  lemma Pow256Of8()
    ensures Pow256(8) == 0x1_0000_0000_0000_0000
  {
    assert Pow256(1) == 0x100;
    assert Pow256(2) == 0x1_0000;
    assert Pow256(3) == 0x100_0000;
    assert Pow256(4) == 0x1_0000_0000;
    assert Pow256(5) == 0x100_0000_0000;
    assert Pow256(6) == 0x1_0000_0000_0000;
    assert Pow256(7) == 0x100_0000_0000_0000;
  }

  /** The int64 the reader returns at q equals the magic exactly when the
      magic is stored there. */
  lemma ReadInt64Magic(d: seq<byte>, q: nat)
    requires q + 8 <= |d|
    ensures (ReadI64(d, q).value.value == CompressionMagic) == IsMagicAt(d, q)
  {
    UIntAtValue(d, q, 8);
    Pow256Of8();
  }

  /** The scan loop from position q with the offsets found so far: a hit
      jumps 8 bytes, a miss moves on by one, and it stops after two hits or
      when fewer than 8 bytes remain. */
  function Scan(d: seq<byte>, q: nat, acc: seq<nat>): (r: seq<nat>)
    ensures |acc| <= |r| && r[..|acc|] == acc
    ensures forall i :: |acc| <= i < |r| ==> q <= r[i] && IsMagicAt(d, r[i])
    ensures |acc| <= 2 ==> |r| <= 2
    decreases |d| - q
  {
    if |acc| >= 2 || q + 8 > |d| then acc
    else if IsMagicAt(d, q) then Scan(d, q + 8, acc + [q])
    else Scan(d, q + 1, acc)
  }

  /** The offsets LocateRawDataIdentifier returns for a stream holding d. */
  function Locate(d: seq<byte>): (r: seq<nat>)
  {
    Scan(d, 0, [])
  }

  predicate NoHitIn(d: seq<byte>, a: nat, b: nat)
  {
    forall q :: a <= q < b ==> !IsMagicAt(d, q)
  }

  /** Where the search for the next hit starts after the hits in acc. */
  function Resume(acc: seq<nat>): nat
  {
    if acc == [] then 0 else acc[|acc| - 1] + 8
  }

  /** acc are the first hits of a scan that has reached q. */
  predicate HitsSoFar(d: seq<byte>, acc: seq<nat>, q: nat)
  {
    && |acc| <= 2
    && (forall i :: 0 <= i < |acc| ==> IsMagicAt(d, acc[i]))
    && (|acc| >= 1 ==> NoHitIn(d, 0, acc[0]))
    && (|acc| == 2 ==> acc[0] + 8 <= acc[1] && NoHitIn(d, acc[0] + 8, acc[1]))
    && Resume(acc) <= q
    && (|acc| < 2 ==> NoHitIn(d, Resume(acc), q))
  }

  /** The reference definition of the result: at most two magic occurrences,
      the first one in the data, then the first one starting at least 8 bytes
      after it (so the two never overlap), and no further occurrence when
      fewer than two are returned. */
  predicate FirstHits(d: seq<byte>, r: seq<nat>)
  {
    HitsSoFar(d, r, Resume(r)) && (|r| < 2 ==> NoHitIn(d, Resume(r), |d|))
  }

  lemma {:induction false} ScanFindsFirstHits(d: seq<byte>, q: nat, acc: seq<nat>)
    requires HitsSoFar(d, acc, q)
    ensures FirstHits(d, Scan(d, q, acc))
    decreases |d| - q
  {
    if |acc| >= 2 {
    } else if q + 8 > |d| {
      assert NoHitIn(d, Resume(acc), |d|);
    } else if IsMagicAt(d, q) {
      HitStep(d, q, acc);
      ScanFindsFirstHits(d, q + 8, acc + [q]);
    } else {
      MissStep(d, q, acc);
      ScanFindsFirstHits(d, q + 1, acc);
    }
  }

  /** A hit at q joins the first hits, and the scan resumes past it. */
  lemma HitStep(d: seq<byte>, q: nat, acc: seq<nat>)
    requires HitsSoFar(d, acc, q) && |acc| < 2 && IsMagicAt(d, q)
    ensures HitsSoFar(d, acc + [q], q + 8)
  {
    var acc' := acc + [q];
    assert acc'[..|acc|] == acc;
    assert |acc| == 1 ==> acc'[0] == acc[0] && Resume(acc) == acc[0] + 8;
  }

  /** No hit at q: the scan moves on by one byte. */
  lemma MissStep(d: seq<byte>, q: nat, acc: seq<nat>)
    requires HitsSoFar(d, acc, q) && |acc| < 2 && !IsMagicAt(d, q)
    ensures HitsSoFar(d, acc, q + 1)
  {
  }

  lemma LocateFindsFirstHits(d: seq<byte>)
    ensures FirstHits(d, Locate(d))
    ensures |Locate(d)| <= 2
    ensures |Locate(d)| == 2 ==> Locate(d)[0] + 8 <= Locate(d)[1]
    ensures forall i :: 0 <= i < |Locate(d)| ==> Locate(d)[i] + 8 <= |d|
  {
    ScanFindsFirstHits(d, 0, []);
  }

  /** FirstHits pins the result down: no other sequence of offsets has it. */
  lemma {:induction false} FirstHitsUnique(d: seq<byte>, r1: seq<nat>, r2: seq<nat>)
    requires FirstHits(d, r1) && FirstHits(d, r2)
    ensures r1 == r2
  {
    if |r1| >= 1 { assert IsMagicAt(d, r1[0]); }
    if |r2| >= 1 { assert IsMagicAt(d, r2[0]); }
    if |r1| == 2 { assert IsMagicAt(d, r1[1]); }
    if |r2| == 2 { assert IsMagicAt(d, r2[1]); }
    assert |r1| == |r2|;
    assert forall i :: 0 <= i < |r1| ==> r1[i] == r2[i];
  }

  /** The scan reads no byte at or beyond the end of the second hit, so data
      that agrees up to there gives the same offsets. */
  lemma {:induction false} ScanReadsPrefix(d: seq<byte>, e: seq<byte>, q: nat, acc: seq<nat>)
    requires |acc| <= 2 && |d| == |e|
    requires |Scan(d, q, acc)| == 2
    requires forall i :: 0 <= i < |d| && i < Scan(d, q, acc)[1] + 8 ==> d[i] == e[i]
    ensures Scan(e, q, acc) == Scan(d, q, acc)
    decreases |d| - q
  {
    if |acc| >= 2 || q + 8 > |d| {
    } else {
      var r := Scan(d, q, acc);
      assert q <= r[1];
      assert d[q..q + 8] == e[q..q + 8];
      if IsMagicAt(d, q) {
        ScanReadsPrefix(d, e, q + 8, acc + [q]);
      } else {
        ScanReadsPrefix(d, e, q + 1, acc);
      }
    }
  }

  /** LocateRawDataIdentifier: scans the whole stream from position 0 and
      puts the position back where it was. */
  method LocateRawDataIdentifier(reader: ByteReader) returns (offsets: seq<nat>)
    modifies reader
    ensures offsets == Locate(reader.data)
    ensures reader.position == old(reader.position)
  {
    offsets := [];
    var originalPos := reader.position;
    reader.position := 0;
    while reader.position + 8 <= |reader.data| && |offsets| < 2
      invariant |offsets| <= 2
      invariant Scan(reader.data, reader.position, offsets) == Locate(reader.data)
      decreases |reader.data| - reader.position
    {
      ReadInt64Magic(reader.data, reader.position);
      var v := reader.ReadInt64();
      if v.Ok? && v.value == CompressionMagic {
        offsets := offsets + [reader.position - 8];
      } else {
        reader.position := reader.position - 7;
      }
    }
    reader.position := originalPos;
  }

  // ---------------------------------------------------------------------------
  // DecompressData
  // ---------------------------------------------------------------------------

  /** One entry of the block index. */
  datatype Block = Block(uncompressedSize: int, compressedSize: int)

  /** One data chunk: its checksum, its stored bytes and its decoded bytes. */
  datatype Chunk = Chunk(checksum: int, data: seq<byte>, uncompressedData: seq<byte>)

  /** The container header at the second magic occurrence. */
  datatype Container = Container(identifier: int, version: int, compression: nat, blocks: seq<Block>)

  /** ForgeCompression.Decompress: allocates the expected size (negative
      fails), skips the native call when either buffer is empty (it then
      reports 0 bytes), and fails unless the reported size is the expected one. */
  function OodleDecompress(data: seq<byte>, size: int, codec: Codec): (r: Result<seq<byte>>)
    ensures r.Ok? ==> 0 <= size && |r.value| == size
    ensures size < 0 ==> r == Fail(NegativeLength)
    ensures size == 0 ==> r == Ok([])
    ensures size > 0 && data == [] ==> r == Fail(CodecFailure)
    ensures size > 0 && data != [] ==>
      (r.Ok? <==> codec(data, size).Some? && |codec(data, size).value| == size)
    ensures r.Ok? && size > 0 ==> r.value == codec(data, size).value
  {
    if size < 0 then Fail(NegativeLength)
    else if data == [] || size == 0 then (if size == 0 then Ok([]) else Fail(CodecFailure))
    else match codec(data, size)
      case Some(out) => if |out| == size then Ok(out) else Fail(CodecFailure)
      case None => Fail(CodecFailure)
  }

  /** The index entry stored at q: uncompressed size, then compressed size. */
  function BlockAt(d: seq<byte>, q: nat): Block
    requires q + 8 <= |d|
  {
    Block(ReadI32(d, q).value.value, ReadI32(d, q + 4).value.value)
  }

  /** n index entries from p. */
  function ReadBlockTable(d: seq<byte>, p: nat, n: nat): (r: Result<Parsed<seq<Block>>>)
    ensures r.Ok? <==> n == 0 || p + 8 * n <= |d|
    ensures r.Fail? ==> r.error == EndOfStream
    ensures r.Ok? ==> r.value.next == p + 8 * n && |r.value.value| == n
    ensures r.Ok? ==> forall i :: 0 <= i < n ==> r.value.value[i] == BlockAt(d, p + 8 * i)
    decreases n
  {
    if n == 0 then Ok(Parsed([], p))
    else if p + 8 > |d| then Fail(EndOfStream)
    else
      var rest :- ReadBlockTable(d, p + 8, n - 1);
      Ok(Parsed([BlockAt(d, p)] + rest.value, rest.next))
  }

  /** The header at x: the 8-byte identifier, an int16 version, the
      compression-type byte, 4 skipped bytes, an int32 block count and the
      block index. */
  function ReadContainerHeader(d: seq<byte>, x: nat): (r: Result<Parsed<Container>>)
    ensures r.Ok? <==>
      (x + 19 <= |d| && ReadI32(d, x + 15).value.value >= 0
       && x + 19 + 8 * ReadI32(d, x + 15).value.value <= |d|)
    ensures r.Ok? ==>
      (&& r.value.value.identifier == ReadI64(d, x).value.value
       && r.value.value.version == ReadI16(d, x + 8).value.value
       && r.value.value.compression == d[x + 10] as nat
       && |r.value.value.blocks| == ReadI32(d, x + 15).value.value
       && r.value.next == x + 19 + 8 * |r.value.value.blocks|
       && forall i :: 0 <= i < |r.value.value.blocks| ==>
            r.value.value.blocks[i] == BlockAt(d, x + 19 + 8 * i))
    ensures IsMagicAt(d, x) && r.Ok? ==> r.value.value.identifier == CompressionMagic
  {
    var identifier :- ReadI64(d, x);
    ReadInt64Magic(d, x);
    var version :- ReadI16(d, identifier.next);
    var compression :- ReadU8(d, version.next);
    var count :- ReadCount(d, compression.next + 4);
    var table :- ReadBlockTable(d, count.next, count.value);
    assert d[x + 10..x + 11] == [d[x + 10]];
    Ok(Parsed(Container(identifier.value, version.value, compression.value, table.value), table.next))
  }

  /** One data chunk at p: an int32 checksum that is never checked, then
      compressedSize bytes (fewer when the stream ends first); a block whose
      two sizes agree is kept as stored, any other goes through the codec. */
  function ReadChunk(d: seq<byte>, p: nat, b: Block, codec: Codec): (r: Result<Parsed<Chunk>>)
    ensures r.Ok? ==> 0 <= b.compressedSize && |r.value.value.data| <= b.compressedSize
    ensures r.Ok? ==> r.value.next == p + 4 + |r.value.value.data|
    ensures r.Ok? && b.compressedSize == b.uncompressedSize ==>
      r.value.value.uncompressedData == r.value.value.data
    ensures r.Ok? && b.compressedSize != b.uncompressedSize ==>
      |r.value.value.uncompressedData| == b.uncompressedSize
    ensures r.Ok? && p + 4 + b.compressedSize <= |d| ==>
      |r.value.value.data| == b.compressedSize
      && r.value.value.data == d[p + 4..p + 4 + b.compressedSize]
      && |r.value.value.uncompressedData| == b.uncompressedSize
  {
    var checksum :- ReadI32(d, p);
    var data :- ReadBytesClamped(d, checksum.next, b.compressedSize);
    var out :- if b.compressedSize == b.uncompressedSize then Ok(data.value)
               else OodleDecompress(data.value, b.uncompressedSize, codec);
    Ok(Parsed(Chunk(checksum.value, data.value, out), data.next))
  }

  /** The chunks of the given blocks, in index order, from p. */
  function ReadChunks(d: seq<byte>, p: nat, blocks: seq<Block>, codec: Codec): (r: Result<seq<Chunk>>)
    ensures r.Ok? ==> |r.value| == |blocks|
    decreases |blocks|
  {
    if blocks == [] then Ok([])
    else
      var c :- ReadChunk(d, p, blocks[0], codec);
      var rest :- ReadChunks(d, c.next, blocks[1..], codec);
      Ok([c.value] + rest)
  }

  /** The decoded bytes of the chunks, in order. */
  function Concat(chunks: seq<Chunk>): seq<byte>
  {
    if chunks == [] then [] else chunks[0].uncompressedData + Concat(chunks[1..])
  }

  /** DecompressData's result for the input d. */
  function Decompress(d: seq<byte>, codec: Codec): (r: Result<seq<byte>>)
    ensures |Locate(d)| < 2 ==> r == Ok(d)
  {
    var offsets := Locate(d);
    if |offsets| < 2 then Ok(d) else DecompressAt(d, offsets[1], codec)
  }

  /** The container at x: its header, then one chunk per block, joined. */
  function DecompressAt(d: seq<byte>, x: nat, codec: Codec): (r: Result<seq<byte>>)
  {
    var header :- ReadContainerHeader(d, x);
    var chunks :- ReadChunks(d, header.next, header.value.blocks, codec);
    Ok(Concat(chunks))
  }

  /** The bytes the chunks of the given blocks occupy in full. */
  function ChunkStreamSize(blocks: seq<Block>): nat
  {
    if blocks == [] then 0
    else 4 + (if blocks[0].compressedSize < 0 then 0 else blocks[0].compressedSize) + ChunkStreamSize(blocks[1..])
  }

  function TotalUncompressed(blocks: seq<Block>): int
  {
    if blocks == [] then 0 else blocks[0].uncompressedSize + TotalUncompressed(blocks[1..])
  }

  lemma {:induction false} ChunksLength(d: seq<byte>, p: nat, blocks: seq<Block>, codec: Codec)
    requires ReadChunks(d, p, blocks, codec).Ok?
    requires p + ChunkStreamSize(blocks) <= |d|
    ensures |Concat(ReadChunks(d, p, blocks, codec).value)| == TotalUncompressed(blocks)
    decreases |blocks|
  {
    if blocks != [] {
      var c := ReadChunk(d, p, blocks[0], codec).value;
      var cs := ReadChunks(d, p, blocks, codec).value;
      assert cs[1..] == ReadChunks(d, c.next, blocks[1..], codec).value;
      ChunksLength(d, c.next, blocks[1..], codec);
    }
  }

  /** When every chunk lies wholly inside the input and every codec call
      returns the size asked for, the output holds exactly the sum of the
      uncompressed sizes. */
  lemma DecompressLength(d: seq<byte>, codec: Codec)
    requires |Locate(d)| == 2 && ReadContainerHeader(d, Locate(d)[1]).Ok?
    requires Decompress(d, codec).Ok?
    requires ReadContainerHeader(d, Locate(d)[1]).value.next
             + ChunkStreamSize(ReadContainerHeader(d, Locate(d)[1]).value.value.blocks) <= |d|
    ensures |Decompress(d, codec).value| ==
            TotalUncompressed(ReadContainerHeader(d, Locate(d)[1]).value.value.blocks)
  {
    var header := ReadContainerHeader(d, Locate(d)[1]).value;
    ChunksLength(d, header.next, header.value.blocks, codec);
  }

  predicate AllStored(blocks: seq<Block>)
  {
    forall i :: 0 <= i < |blocks| ==> blocks[i].compressedSize == blocks[i].uncompressedSize
  }

  lemma {:induction false} StoredChunksIgnoreCodec(d: seq<byte>, p: nat, blocks: seq<Block>, c1: Codec, c2: Codec)
    requires AllStored(blocks)
    ensures ReadChunks(d, p, blocks, c1) == ReadChunks(d, p, blocks, c2)
    decreases |blocks|
  {
    if blocks != [] {
      assert ReadChunk(d, p, blocks[0], c1) == ReadChunk(d, p, blocks[0], c2);
      var c := ReadChunk(d, p, blocks[0], c1);
      if c.Ok? {
        StoredChunksIgnoreCodec(d, c.value.next, blocks[1..], c1, c2);
      }
    }
  }

  /** A container whose blocks all have equal sizes decodes without the
      codec: any two codecs give the same result. */
  lemma StoredBlocksIgnoreCodec(d: seq<byte>, c1: Codec, c2: Codec)
    requires |Locate(d)| == 2 && ReadContainerHeader(d, Locate(d)[1]).Ok?
    requires AllStored(ReadContainerHeader(d, Locate(d)[1]).value.value.blocks)
    ensures Decompress(d, c1) == Decompress(d, c2)
  {
    var header := ReadContainerHeader(d, Locate(d)[1]).value;
    StoredChunksIgnoreCodec(d, header.next, header.value.blocks, c1, c2);
  }

  /** d and e hold the same bytes from p on. */
  predicate AgreeFrom(d: seq<byte>, e: seq<byte>, p: nat)
  {
    |d| == |e| && forall i :: p <= i < |d| ==> d[i] == e[i]
  }

  lemma {:induction false} BlockTableReadSuffix(d: seq<byte>, e: seq<byte>, p: nat, n: nat)
    requires AgreeFrom(d, e, p)
    ensures ReadBlockTable(d, p, n) == ReadBlockTable(e, p, n)
    decreases n
  {
    if n > 0 && p + 8 <= |d| {
      assert d[p..p + 4] == e[p..p + 4];
      assert d[p + 4..p + 8] == e[p + 4..p + 8];
      BlockTableReadSuffix(d, e, p + 8, n - 1);
    }
  }

  lemma {:induction false} ChunksReadSuffix(d: seq<byte>, e: seq<byte>, p: nat, blocks: seq<Block>, codec: Codec)
    requires AgreeFrom(d, e, p)
    ensures ReadChunks(d, p, blocks, codec) == ReadChunks(e, p, blocks, codec)
    decreases |blocks|
  {
    if blocks != [] {
      if p + 4 <= |d| {
        assert d[p..p + 4] == e[p..p + 4];
        var n := blocks[0].compressedSize;
        var k := if n <= Available(d, p + 4) then n else Available(d, p + 4);
        if 0 < k {
          assert d[p + 4..p + 4 + k] == e[p + 4..p + 4 + k];
        }
      }
      assert ReadChunk(d, p, blocks[0], codec) == ReadChunk(e, p, blocks[0], codec);
      var c := ReadChunk(d, p, blocks[0], codec);
      if c.Ok? {
        ChunksReadSuffix(d, e, c.value.next, blocks[1..], codec);
      }
    }
  }

  /** Two inputs that differ at most in the compression-type byte at x + 10
      have the same header apart from that byte. */
  lemma HeaderIgnoresType(d: seq<byte>, e: seq<byte>, x: nat)
    requires |d| == |e| && forall i :: 0 <= i < |d| && i != x + 10 ==> d[i] == e[i]
    ensures ReadContainerHeader(d, x).Ok? == ReadContainerHeader(e, x).Ok?
    ensures ReadContainerHeader(d, x).Ok? ==>
      ReadContainerHeader(d, x).value.next == ReadContainerHeader(e, x).value.next
      && ReadContainerHeader(d, x).value.value.blocks == ReadContainerHeader(e, x).value.value.blocks
  {
    if x + 19 <= |d| {
      assert d[x..x + 8] == e[x..x + 8];
      assert d[x + 8..x + 10] == e[x + 8..x + 10];
      assert d[x + 15..x + 19] == e[x + 15..x + 19];
      var count := ReadI32(d, x + 15).value.value;
      if count >= 0 {
        assert AgreeFrom(d, e, x + 19);
        BlockTableReadSuffix(d, e, x + 19, count);
      }
    }
  }

  /** The compression-type byte of the header does not affect the output. */
  lemma CompressionTypeIgnored(d: seq<byte>, v: byte, codec: Codec)
    requires |Locate(d)| == 2 && Locate(d)[1] + 10 < |d|
    ensures Decompress(d[Locate(d)[1] + 10 := v], codec) == Decompress(d, codec)
  {
    var x := Locate(d)[1];
    var e := d[x + 10 := v];
    ScanReadsPrefix(d, e, 0, []);
    assert Locate(e) == Locate(d);
    HeaderIgnoresType(d, e, x);
    var h := ReadContainerHeader(d, x);
    if h.Ok? {
      assert AgreeFrom(d, e, h.value.next);
      ChunksReadSuffix(d, e, h.value.next, h.value.value.blocks, codec);
    }
    assert DecompressAt(e, x, codec) == DecompressAt(d, x, codec);
  }

  /** The checksum in front of a chunk does not affect how the chunk decodes
      or where the next one starts. */
  lemma ChecksumIgnored(d: seq<byte>, p: nat, c: nat, v: byte, b: Block, codec: Codec)
    requires p <= c < p + 4 && c < |d|
    ensures ReadChunk(d, p, b, codec).Ok? == ReadChunk(d[c := v], p, b, codec).Ok?
    ensures ReadChunk(d, p, b, codec).Ok? ==>
      ReadChunk(d, p, b, codec).value.next == ReadChunk(d[c := v], p, b, codec).value.next
      && ReadChunk(d, p, b, codec).value.value.uncompressedData ==
         ReadChunk(d[c := v], p, b, codec).value.value.uncompressedData
  {
    var e := d[c := v];
    var n := b.compressedSize;
    if p + 4 <= |d| {
      var k := if n <= Available(d, p + 4) then n else Available(d, p + 4);
      if 0 < k {
        assert d[p + 4..p + 4 + k] == e[p + 4..p + 4 + k];
      }
    }
  }

  lemma {:induction false} ConcatSnoc(chunks: seq<Chunk>, c: Chunk)
    ensures Concat(chunks + [c]) == Concat(chunks) + c.uncompressedData
    decreases |chunks|
  {
    if chunks == [] {
      assert [] + [c] == [c];
    } else {
      assert (chunks + [c])[1..] == chunks[1..] + [c];
      ConcatSnoc(chunks[1..], c);
    }
  }

  /** The fixed part of the container header: identifier, version,
      compression type and 4 skipped bytes; the result is the block count. */
  method ReadContainerPrefix(reader: ByteReader) returns (r: Result<int>)
    modifies reader
    ensures old(reader.position) + 19 <= |reader.data| ==>
      r == Ok(ReadI32(reader.data, old(reader.position) + 15).value.value)
      && reader.position == old(reader.position) + 19
    ensures old(reader.position) + 19 > |reader.data| ==> r == Fail(EndOfStream)
  {
    var identifier :- reader.ReadInt64();
    var version :- reader.ReadInt16();
    var compression :- reader.ReadByte();
    reader.position := reader.position + 4;
    r := reader.ReadInt32();
  }

  /** The `indices` loop: blockCount (uncompressed, compressed) pairs. */
  method ReadBlockIndex(reader: ByteReader, blockCount: nat) returns (r: Result<array<Block>>)
    modifies reader
    ensures ReadBlockTable(reader.data, old(reader.position), blockCount).Ok? ==>
      r.Ok? && fresh(r.value)
      && r.value[..] == ReadBlockTable(reader.data, old(reader.position), blockCount).value.value
      && reader.position == ReadBlockTable(reader.data, old(reader.position), blockCount).value.next
    ensures ReadBlockTable(reader.data, old(reader.position), blockCount).Fail? ==> r == Fail(EndOfStream)
  {
    var tableStart := reader.position;
    var indices := new Block[blockCount](_ => Block(0, 0));
    for i := 0 to blockCount
      invariant reader.position == tableStart + 8 * i
      invariant i > 0 ==> tableStart + 8 * i <= |reader.data|
      invariant forall k :: 0 <= k < i ==> indices[k] == BlockAt(reader.data, tableStart + 8 * k)
    {
      var uncompressedSize :- reader.ReadInt32();
      var compressedSize :- reader.ReadInt32();
      indices[i] := Block(uncompressedSize, compressedSize);
    }
    return Ok(indices);
  }

  /** The container header and the block index. */
  method ReadContainer(reader: ByteReader) returns (r: Result<array<Block>>)
    modifies reader
    ensures ReadContainerHeader(reader.data, old(reader.position)).Ok? ==>
      r.Ok? && fresh(r.value)
      && r.value[..] == ReadContainerHeader(reader.data, old(reader.position)).value.value.blocks
      && reader.position == ReadContainerHeader(reader.data, old(reader.position)).value.next
    ensures ReadContainerHeader(reader.data, old(reader.position)).Fail? ==>
      r == Fail(ReadContainerHeader(reader.data, old(reader.position)).error)
  {
    ghost var x := reader.position;
    var blockCount :- ReadContainerPrefix(reader);
    if blockCount < 0 {
      return Fail(NegativeLength);
    }
    r := ReadBlockIndex(reader, blockCount);
  }

  /** Reading the chunks of blocks[i..] is reading chunk i, then the rest. */
  lemma ReadChunksStep(d: seq<byte>, p: nat, blocks: seq<Block>, i: nat, codec: Codec)
    requires i < |blocks|
    ensures ReadChunk(d, p, blocks[i], codec).Fail? ==>
      ReadChunks(d, p, blocks[i..], codec) == Fail(ReadChunk(d, p, blocks[i], codec).error)
    ensures ReadChunk(d, p, blocks[i], codec).Ok? ==>
      ReadChunks(d, p, blocks[i..], codec) ==
      Prepend([ReadChunk(d, p, blocks[i], codec).value.value],
              ReadChunks(d, ReadChunk(d, p, blocks[i], codec).value.next, blocks[i + 1..], codec))
  {
    assert blocks[i..][1..] == blocks[i + 1..];
    assert blocks[i..][0] == blocks[i];
  }

  /** One iteration of the `chunks` loop: the checksum, the stored bytes,
      and the decoded bytes. */
  method ReadDataChunk(reader: ByteReader, b: Block, codec: Codec) returns (r: Result<Chunk>)
    modifies reader
    ensures ReadChunk(reader.data, old(reader.position), b, codec).Ok? ==>
      r == Ok(ReadChunk(reader.data, old(reader.position), b, codec).value.value)
      && reader.position == ReadChunk(reader.data, old(reader.position), b, codec).value.next
    ensures ReadChunk(reader.data, old(reader.position), b, codec).Fail? ==>
      r == Fail(ReadChunk(reader.data, old(reader.position), b, codec).error)
  {
    var checksum :- reader.ReadInt32();
    var data :- reader.ReadBytes(b.compressedSize);
    var out: seq<byte>;
    if b.compressedSize == b.uncompressedSize {
      out := data;
    } else {
      out :- OodleDecompress(data, b.uncompressedSize, codec);
    }
    return Ok(Chunk(checksum, data, out));
  }

  /** The `chunks` loop: one chunk per index entry, in index order. */
  method ReadDataChunks(reader: ByteReader, indices: array<Block>, codec: Codec) returns (r: Result<array<Chunk>>)
    modifies reader
    ensures ReadChunks(reader.data, old(reader.position), indices[..], codec).Ok? ==>
      r.Ok? && fresh(r.value) && r.value[..] == ReadChunks(reader.data, old(reader.position), indices[..], codec).value
    ensures ReadChunks(reader.data, old(reader.position), indices[..], codec).Fail? ==>
      r == Fail(ReadChunks(reader.data, old(reader.position), indices[..], codec).error)
  {
    ghost var all := ReadChunks(reader.data, reader.position, indices[..], codec);
    var chunks := new Chunk[indices.Length](_ => Chunk(0, [], []));
    assert indices[0..] == indices[..];
    assert chunks[..0] == [];
    if all.Ok? {
      assert [] + all.value == all.value;
    }
    var i := 0;
    while i < indices.Length
      invariant 0 <= i <= indices.Length
      invariant all == Prepend(chunks[..i], ReadChunks(reader.data, reader.position, indices[i..], codec))
    {
      ghost var done := chunks[..i];
      ReadChunksStep(reader.data, reader.position, indices[..], i, codec);
      var step := ReadDataChunk(reader, indices[i], codec);
      if step.Fail? {
        return Fail(step.error);
      }
      var chunk := step.value;
      chunks[i] := chunk;
      assert chunks[..i + 1] == done + [chunk];
      PrependTwice(done, [chunk], ReadChunks(reader.data, reader.position, indices[i + 1..], codec));
      i := i + 1;
    }
    assert indices[i..] == [];
    assert chunks[..i] == chunks[..];
    return Ok(chunks);
  }

  /** Writes every decoded chunk to the output, in order. */
  method ConcatenateChunks(chunks: array<Chunk>) returns (output: seq<byte>)
    ensures output == Concat(chunks[..])
  {
    output := [];
    for j := 0 to chunks.Length
      invariant output == Concat(chunks[..j])
    {
      assert chunks[..j + 1] == chunks[..j] + [chunks[j]];
      ConcatSnoc(chunks[..j], chunks[j]);
      output := output + chunks[j].uncompressedData;
    }
    assert chunks[..chunks.Length] == chunks[..];
  }

  /** DecompressData: the input unchanged unless the magic occurs twice,
      otherwise the decoded blocks of the container at the second one. */
  method DecompressData(rawData: seq<byte>, codec: Codec) returns (r: Result<seq<byte>>)
    ensures r == Decompress(rawData, codec)
  {
    var reader := new ByteReader(rawData);
    var identifierOffsets := LocateRawDataIdentifier(reader);
    if |identifierOffsets| < 2 {
      return Ok(rawData);
    }
    reader.position := identifierOffsets[1];
    var indices :- ReadContainer(reader);
    var chunks :- ReadDataChunks(reader, indices, codec);
    var output := ConcatenateChunks(chunks);
    return Ok(output);
  }

  // ---------------------------------------------------------------------------
  // RecurringIndexes
  // ---------------------------------------------------------------------------

  /** The pairs (j, j + |w| - 1) for every j >= start at which master holds w. */
  function WindowMatches(master: seq<byte>, w: seq<byte>, start: nat): seq<(int, int)>
    decreases |master| + 1 - start
  {
    if start + |w| > |master| then []
    else (if master[start..start + |w|] == w then [(start, start + |w| - 1)] else [])
         + WindowMatches(master, w, start + 1)
  }

  /** The matches of every window of toFind of the given length from window i on. */
  function AllMatches(master: seq<byte>, toFind: seq<byte>, length: nat, i: nat): seq<(int, int)>
    decreases |toFind| + 1 - i
  {
    if i + length > |toFind| then []
    else WindowMatches(master, toFind[i..i + length], 0) + AllMatches(master, toFind, length, i + 1)
  }

  /** RecurringIndexes on possibly null arrays. */
  function Recurring(master: Option<seq<byte>>, toFind: Option<seq<byte>>, length: int): (r: seq<(int, int)>)
    ensures master.None? || toFind.None? || length < 0 ==> r == []
    ensures toFind.Some? && length > |toFind.value| ==> r == []
  {
    if master.None? || toFind.None? || length < 0 || length > |toFind.value| then []
    else AllMatches(master.value, toFind.value, length, 0)
  }

  /** toFind holds s as its window of the given length at k. */
  predicate WindowAt(toFind: seq<byte>, k: nat, length: nat, s: seq<byte>)
  {
    k + length <= |toFind| && toFind[k..k + length] == s
  }

  /** s is the window of toFind of the given length at some k >= from. */
  ghost predicate InToFind(toFind: seq<byte>, from: nat, length: nat, s: seq<byte>)
  {
    exists k :: from <= k && WindowAt(toFind, k, length, s)
  }

  lemma WindowMatchesStep(master: seq<byte>, w: seq<byte>, j: nat)
    ensures j + |w| > |master| ==> WindowMatches(master, w, j) == []
    ensures j + |w| <= |master| ==>
      WindowMatches(master, w, j) ==
      (if master[j..j + |w|] == w then [(j, j + |w| - 1)] else []) + WindowMatches(master, w, j + 1)
  {
  }

  lemma {:induction false} WindowMatchesSound(master: seq<byte>, w: seq<byte>, start: nat, m: nat)
    requires m < |WindowMatches(master, w, start)|
    ensures var pr := WindowMatches(master, w, start)[m];
      start <= pr.0 && pr.0 + |w| <= |master| && pr.1 == pr.0 + |w| - 1
      && master[pr.0..pr.0 + |w|] == w
    decreases |master| + 1 - start
  {
    WindowMatchesStep(master, w, start);
    var head := if master[start..start + |w|] == w then [(start, start + |w| - 1)] else [];
    if m >= |head| {
      assert WindowMatches(master, w, start)[m] == WindowMatches(master, w, start + 1)[m - |head|];
      WindowMatchesSound(master, w, start + 1, m - |head|);
    }
  }

  lemma {:induction false} WindowMatchesComplete(master: seq<byte>, w: seq<byte>, start: nat, j: nat)
    requires start <= j && j + |w| <= |master| && master[j..j + |w|] == w
    ensures (j, j + |w| - 1) in WindowMatches(master, w, start)
    decreases j - start
  {
    if start < j {
      WindowMatchesComplete(master, w, start + 1, j);
    }
  }

  lemma {:induction false} AllMatchesSound(master: seq<byte>, toFind: seq<byte>, length: nat, i: nat, m: nat)
    requires m < |AllMatches(master, toFind, length, i)|
    ensures var pr := AllMatches(master, toFind, length, i)[m];
      0 <= pr.0 && pr.0 + length <= |master| && pr.1 == pr.0 + length - 1
      && InToFind(toFind, i, length, master[pr.0..pr.0 + length])
    decreases |toFind| + 1 - i
  {
    var w := toFind[i..i + length];
    var here := WindowMatches(master, w, 0);
    var all := AllMatches(master, toFind, length, i);
    assert all == here + AllMatches(master, toFind, length, i + 1);
    if m >= |here| {
      var pr := AllMatches(master, toFind, length, i + 1)[m - |here|];
      assert all[m] == pr;
      AllMatchesSound(master, toFind, length, i + 1, m - |here|);
      InToFindWiden(toFind, i, length, master[pr.0..pr.0 + length]);
    } else {
      assert all[m] == here[m];
      HereMatchSound(master, toFind, length, i, m);
    }
  }

  /** A window found at some k >= i + 1 is found at some k >= i. */
  lemma InToFindWiden(toFind: seq<byte>, i: nat, length: nat, s: seq<byte>)
    requires InToFind(toFind, i + 1, length, s)
    ensures InToFind(toFind, i, length, s)
  {
    var k :| i + 1 <= k && WindowAt(toFind, k, length, s);
    assert i <= k;
  }

  /** A match of the window at i lies in the master and is that window. */
  lemma HereMatchSound(master: seq<byte>, toFind: seq<byte>, length: nat, i: nat, m: nat)
    requires i + length <= |toFind| && m < |WindowMatches(master, toFind[i..i + length], 0)|
    ensures var pr := WindowMatches(master, toFind[i..i + length], 0)[m];
      0 <= pr.0 && pr.0 + length <= |master| && pr.1 == pr.0 + length - 1
      && InToFind(toFind, i, length, master[pr.0..pr.0 + length])
  {
    var w := toFind[i..i + length];
    WindowMatchesSound(master, w, 0, m);
    var pr := WindowMatches(master, w, 0)[m];
    assert WindowAt(toFind, i, length, master[pr.0..pr.0 + length]);
  }

  lemma {:induction false} AllMatchesComplete(master: seq<byte>, toFind: seq<byte>, length: nat, i: nat, k: nat, j: nat)
    requires i <= k && j + length <= |master| && WindowAt(toFind, k, length, master[j..j + length])
    ensures (j, j + length - 1) in AllMatches(master, toFind, length, i)
    decreases k - i
  {
    if i < k {
      AllMatchesComplete(master, toFind, length, i + 1, k, j);
    } else {
      WindowMatchesComplete(master, toFind[k..k + length], 0, j);
    }
  }

  lemma RecurringSound(master: seq<byte>, toFind: seq<byte>, length: int, j: nat, e: int)
    requires (j, e) in Recurring(Some(master), Some(toFind), length)
    ensures 0 <= length <= |toFind| && e == j + length - 1 && j + length <= |master|
    ensures InToFind(toFind, 0, length, master[j..j + length])
  {
    var r := Recurring(Some(master), Some(toFind), length);
    var m :| 0 <= m < |r| && r[m] == (j, e);
    AllMatchesSound(master, toFind, length, 0, m);
  }

  lemma RecurringComplete(master: seq<byte>, toFind: seq<byte>, length: int, j: nat, k: nat)
    requires 0 <= length && j + length <= |master| && WindowAt(toFind, k, length, master[j..j + length])
    ensures (j, j + length - 1) in Recurring(Some(master), Some(toFind), length)
  {
    AllMatchesComplete(master, toFind, length, 0, k, j);
  }

  /** A pair (j, e) is returned exactly when e == j + length - 1 and the
      length bytes of master at j equal some window of toFind. */
  lemma RecurringMatches(master: seq<byte>, toFind: seq<byte>, length: int, j: nat, e: int)
    ensures (j, e) in Recurring(Some(master), Some(toFind), length) <==>
      (0 <= length <= |toFind| && e == j + length - 1 && j + length <= |master|
       && InToFind(toFind, 0, length, master[j..j + length]))
  {
    if (j, e) in Recurring(Some(master), Some(toFind), length) {
      RecurringSound(master, toFind, length, j, e);
    }
    if 0 <= length <= |toFind| && e == j + length - 1 && j + length <= |master|
       && InToFind(toFind, 0, length, master[j..j + length]) {
      var k :| 0 <= k && WindowAt(toFind, k, length, master[j..j + length]);
      RecurringComplete(master, toFind, length, j, k);
    }
  }

  function Contents(a: array?<byte>): Option<seq<byte>>
    reads a
  {
    if a == null then None else Some(a[..])
  }

  /** The innermost loop: whether master differs from the scratch buffer
      somewhere in the window at j. */
  method CounterExample(master: array<byte>, subRegion: array<byte>, j: nat) returns (counterExample: bool)
    requires j + subRegion.Length <= master.Length
    ensures counterExample <==> master[..][j..j + subRegion.Length] != subRegion[..]
  {
    counterExample := false;
    var k := 0;
    while k < subRegion.Length
      invariant 0 <= k <= subRegion.Length
      invariant forall t :: 0 <= t < k ==> master[j + t] == subRegion[t]
    {
      if master[j + k] != subRegion[k] {
        counterExample := true;
        assert master[..][j..j + subRegion.Length][k] != subRegion[..][k];
        break;
      }
      k := k + 1;
    }
    if !counterExample {
      assert master[..][j..j + subRegion.Length] == subRegion[..];
    }
  }

  /** The middle loop: appends a pair for every offset of master at which
      the scratch buffer occurs. */
  method AppendWindowMatches(master: array<byte>, subRegion: array<byte>, result: seq<(int, int)>)
    returns (extended: seq<(int, int)>)
    ensures extended == result + WindowMatches(master[..], subRegion[..], 0)
  {
    ghost var m := master[..];
    ghost var w := subRegion[..];
    var length := subRegion.Length;
    extended := result;
    var j := 0;
    while j < master.Length - length + 1
      invariant 0 <= j
      invariant extended + WindowMatches(m, w, j) == result + WindowMatches(m, w, 0)
      decreases master.Length - length + 1 - j
    {
      var counterExample := CounterExample(master, subRegion, j);
      WindowMatchesStep(m, w, j);
      if !counterExample {
        assert extended + ([(j, j + length - 1)] + WindowMatches(m, w, j + 1))
            == (extended + [(j, j + length - 1)]) + WindowMatches(m, w, j + 1);
        extended := extended + [(j, j + length - 1)];
      } else {
        assert [] + WindowMatches(m, w, j + 1) == WindowMatches(m, w, j + 1);
      }
      j := j + 1;
    }
    WindowMatchesStep(m, w, j);
    assert extended + [] == extended;
  }

  /** The first inner loop: copies the window of toFind at i into the
      scratch buffer. */
  method CopyWindow(toFind: array<byte>, i: nat, subRegion: array<byte>)
    requires i + subRegion.Length <= toFind.Length && subRegion != toFind
    modifies subRegion
    ensures subRegion[..] == toFind[i..i + subRegion.Length]
  {
    for j := 0 to subRegion.Length
      invariant subRegion[..j] == toFind[i..i + j]
    {
      subRegion[j] := toFind[j + i];
      assert subRegion[..j + 1] == subRegion[..j] + [subRegion[j]];
    }
    assert subRegion[..] == subRegion[..subRegion.Length];
  }

  lemma AllMatchesStep(master: seq<byte>, toFind: seq<byte>, length: nat, i: nat)
    ensures i + length > |toFind| ==> AllMatches(master, toFind, length, i) == []
    ensures i + length <= |toFind| ==>
      AllMatches(master, toFind, length, i) ==
      WindowMatches(master, toFind[i..i + length], 0) + AllMatches(master, toFind, length, i + 1)
  {
  }

  /** Appending the matches of window i keeps the loop's account. */
  lemma WindowDone(m: seq<byte>, f: seq<byte>, length: nat, i: nat, before: seq<(int, int)>, after: seq<(int, int)>)
    requires i + length <= |f|
    requires before + AllMatches(m, f, length, i) == AllMatches(m, f, length, 0)
    requires after == before + WindowMatches(m, f[i..i + length], 0)
    ensures after + AllMatches(m, f, length, i + 1) == AllMatches(m, f, length, 0)
  {
    AllMatchesStep(m, f, length, i);
    assert before + (WindowMatches(m, f[i..i + length], 0) + AllMatches(m, f, length, i + 1))
        == after + AllMatches(m, f, length, i + 1);
  }

  /** The loop of RecurringIndexes over every window of toFind, each copied
      into the scratch buffer and compared with master at every offset. */
  method AllWindowMatches(master: array<byte>, toFind: array<byte>, length: nat) returns (result: seq<(int, int)>)
    requires length <= toFind.Length
    ensures result == AllMatches(master[..], toFind[..], length, 0)
  {
    result := [];
    ghost var m := master[..];
    ghost var f := toFind[..];
    var subRegion := new byte[length];
    var i := 0;
    while i <= toFind.Length - length
      invariant 0 <= i
      invariant master[..] == m && toFind[..] == f
      invariant result + AllMatches(m, f, length, i) == AllMatches(m, f, length, 0)
      decreases toFind.Length - length + 1 - i
    {
      CopyWindow(toFind, i, subRegion);
      ghost var before := result;
      result := AppendWindowMatches(master, subRegion, result);
      WindowDone(m, f, length, i, before, result);
      i := i + 1;
    }
    AllMatchesStep(m, f, length, i);
    assert result + [] == result;
  }

  /** RecurringIndexes: no matches for a null array, a negative length or a
      length longer than toFind; otherwise the matches of every window. */
  method RecurringIndexes(master: array?<byte>, toFind: array?<byte>, length: int) returns (result: seq<(int, int)>)
    ensures result == Recurring(Contents(master), Contents(toFind), length)
  {
    result := [];
    if master == null {
      return;
    } else if toFind == null {
      return;
    } else if length < 0 {
      return;
    } else if length > toFind.Length {
      return;
    }
    result := AllWindowMatches(master, toFind, length);
  }

  // ---------------------------------------------------------------------------
  // GetCompressedBounds
  // ---------------------------------------------------------------------------

  /** GetCompressedBounds in 32-bit unsigned arithmetic: the size plus 274
      bytes per 4 MiB, the size first rounded by 256 KiB - 1. */
  function CompressedBounds(bufferSize: nat): (r: nat)
    requires bufferSize < 0x1_0000_0000
    ensures r < 0x1_0000_0000
  {
    (bufferSize + 274 * (((bufferSize + 0x3FFFF) % 0x1_0000_0000) / 0x400000)) % 0x1_0000_0000
  }

  /** For any buffer whose length fits a C# int nothing wraps: the bound is
      never smaller than the input and adds at most 274 bytes for each
      started 4 MiB. */
  lemma CompressedBoundsCover(bufferSize: nat)
    requires bufferSize < 0x8000_0000
    ensures bufferSize <= CompressedBounds(bufferSize)
    ensures CompressedBounds(bufferSize) <= bufferSize + 274 * (bufferSize / 0x400000 + 1)
    ensures bufferSize < 0x3C0001 ==> CompressedBounds(bufferSize) == bufferSize
  {
    var k := (bufferSize + 0x3FFFF) / 0x400000;
    assert k <= 512;
    assert k <= bufferSize / 0x400000 + 1;
  }
}

/** The loop the resource files run after their main resource
    (Files/LODSelectorFile.cs:47-84, Files/EntityGroupFile.cs:39-79,
    Files/MaterialFile.cs:36-62): while the position is before the end of the
    data, one embedded block (a resource header and the resource it
    announces) is read. */
module Embedded {
  import opened Wrappers
  import opened Bytes
  import opened Cursor

  /** A reader of one record at a position. */
  type Reader<T> = (seq<byte>, nat) -> Result<Parsed<T>>

  /** The blocks read one after another from p until the position reaches
      the end of the data. A block that does not end past its start stops
      the run with NoProgress. */
  function ReadBlocks<B>(d: seq<byte>, p: nat, block: (seq<byte>, nat) -> Result<Parsed<B>>): (r: Result<seq<B>>)
    ensures p >= |d| ==> r == Ok([])
    decreases if p < |d| then |d| - p else 0
  {
    if p >= |d| then Ok([])
    else
      var b :- block(d, p);
      if b.next <= p then Fail(NoProgress)
      else
        var rest :- ReadBlocks(d, b.next, block);
        Ok([b.value] + rest)
  }

  /** One iteration: the block at p, then the blocks after it. */
  lemma BlocksStep<B>(d: seq<byte>, p: nat, block: (seq<byte>, nat) -> Result<Parsed<B>>, b: B, next: nat)
    requires p < |d| && p < next && block(d, p) == Ok(Parsed(b, next))
    ensures ReadBlocks(d, p, block) == Prepend([b], ReadBlocks(d, next, block))
  {
  }

  /** The positions the blocks of a run start at. */
  function BlockStarts<B>(d: seq<byte>, p: nat, block: (seq<byte>, nat) -> Result<Parsed<B>>): seq<nat>
    decreases if p < |d| then |d| - p else 0
  {
    if p >= |d| then []
    else
      var b := block(d, p);
      if b.Fail? || b.value.next <= p then [] else [p] + BlockStarts(d, b.value.next, block)
  }

  /** A successful run tiles the data from p to the end: block i starts
      where block i-1 ended, every block starts before the end and ends past
      its start, and the last one ends at or past the end. */
  lemma {:induction false} BlocksCover<B>(d: seq<byte>, p: nat, block: (seq<byte>, nat) -> Result<Parsed<B>>)
    requires ReadBlocks(d, p, block).Ok?
    ensures var bs, st := ReadBlocks(d, p, block).value, BlockStarts(d, p, block);
      && |st| == |bs|
      && (|st| == 0 <==> p >= |d|)
      && (|st| > 0 ==> st[0] == p && block(d, st[|st| - 1]).Ok? && block(d, st[|st| - 1]).value.next >= |d|)
      && (forall i :: 0 <= i < |st| ==>
            && st[i] < |d| && block(d, st[i]).Ok? && block(d, st[i]).value.value == bs[i]
            && st[i] < block(d, st[i]).value.next)
      && (forall i :: 0 <= i < |st| - 1 ==> block(d, st[i]).value.next == st[i + 1])
    decreases if p < |d| then |d| - p else 0
  {
    if p < |d| {
      var b := block(d, p).value;
      BlocksCover(d, b.next, block);
      var st' := BlockStarts(d, b.next, block);
      var st := BlockStarts(d, p, block);
      assert st == [p] + st';
      if |st'| == 0 {
        assert b.next >= |d|;
      }
    }
  }

  /** A failing block at the start of the run fails the whole run with its
      error: the loop does not skip a block it cannot read. */
  lemma BlocksFailAt<B>(d: seq<byte>, p: nat, block: (seq<byte>, nat) -> Result<Parsed<B>>)
    requires p < |d| && block(d, p).Fail?
    ensures ReadBlocks(d, p, block) == Fail(block(d, p).error)
  {
  }

  /** The items `pick` takes from the blocks, in stream order: one list of
      the C# file object. */
  function Select<B, T>(bs: seq<B>, pick: B -> Option<T>): (r: seq<T>)
    ensures |r| <= |bs|
  {
    if bs == [] then []
    else (if pick(bs[0]).Some? then [pick(bs[0]).value] else []) + Select(bs[1..], pick)
  }

  /** Appending a block appends what `pick` takes from it. */
  lemma {:induction false} SelectAppend<B, T>(bs: seq<B>, b: B, pick: B -> Option<T>)
    ensures Select(bs + [b], pick) == Select(bs, pick) + (if pick(b).Some? then [pick(b).value] else [])
    decreases |bs|
  {
    if bs == [] {
      assert [b][1..] == [];
    } else {
      assert (bs + [b])[1..] == bs[1..] + [b];
      SelectAppend(bs[1..], b, pick);
    }
  }
}

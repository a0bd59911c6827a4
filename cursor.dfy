/** A read cursor over an in-memory byte buffer: the data and a position.
    Every reader is a function from (data, position) to a parsed value and the
    position just after it, or to a failure. Fixed-width reads fail when they
    would run past the end; seeks (`Position += n`) never fail unless they make
    the position negative, and may leave the position beyond the end, where
    every later read fails. */
module Cursor {
  import opened Wrappers
  import opened Bytes

  /** A value and the position just after it. */
  datatype Parsed<+T> = Parsed(value: T, next: nat)

  /** The n bytes at p, or end of stream. */
  function Take(d: seq<byte>, p: nat, n: nat): (r: Result<Parsed<seq<byte>>>)
    ensures r.Ok? <==> p + n <= |d|
    ensures r.Ok? ==> r.value.next == p + n && |r.value.value| == n
    ensures r.Ok? ==> forall i :: 0 <= i < n ==> r.value.value[i] == d[p + i]
    ensures r.Fail? ==> r.error == EndOfStream
  {
    if p + n <= |d| then Ok(Parsed(d[p..p + n], p + n)) else Fail(EndOfStream)
  }

  /** The n-byte unsigned value stored at p, low byte first. */
  function UIntAt(d: seq<byte>, p: nat, n: nat): (v: nat)
    requires p + n <= |d|
    ensures v < Pow256(n)
    decreases n
  {
    if n == 0 then 0 else d[p] as nat + 256 * UIntAt(d, p + 1, n - 1)
  }

  /** UIntAt is the little-endian value of the n-byte window at p. */
  lemma {:induction false} UIntAtValue(d: seq<byte>, p: nat, n: nat)
    requires p + n <= |d|
    ensures UIntAt(d, p, n) == LeValue(d[p..p + n])
    decreases n
  {
    if n > 0 {
      UIntAtValue(d, p + 1, n - 1);
      assert d[p..p + n][1..] == d[p + 1..p + n];
    }
  }

  /** The n-byte two's-complement value stored at p. */
  function IntAt(d: seq<byte>, p: nat, n: nat): int
    requires 1 <= n && p + n <= |d|
  {
    ToSigned(UIntAt(d, p, n), n)
  }

  /** An n-byte little-endian unsigned integer. */
  function ReadUInt(d: seq<byte>, p: nat, n: nat): (r: Result<Parsed<nat>>)
    ensures r.Ok? <==> p + n <= |d|
    ensures r.Ok? ==> r.value.next == p + n && r.value.value == UIntAt(d, p, n)
    ensures r.Fail? ==> r.error == EndOfStream
  {
    if p + n <= |d| then Ok(Parsed(UIntAt(d, p, n), p + n)) else Fail(EndOfStream)
  }

  /** An n-byte little-endian two's-complement integer. */
  function ReadInt(d: seq<byte>, p: nat, n: nat): (r: Result<Parsed<int>>)
    requires 1 <= n
    ensures r.Ok? <==> p + n <= |d|
    ensures r.Ok? ==> r.value.next == p + n && r.value.value == IntAt(d, p, n)
    ensures r.Fail? ==> r.error == EndOfStream
  {
    if p + n <= |d| then Ok(Parsed(IntAt(d, p, n), p + n)) else Fail(EndOfStream)
  }

  function ReadU8(d: seq<byte>, p: nat): Result<Parsed<nat>> { ReadUInt(d, p, 1) }
  function ReadU16(d: seq<byte>, p: nat): Result<Parsed<nat>> { ReadUInt(d, p, 2) }
  function ReadU32(d: seq<byte>, p: nat): Result<Parsed<nat>> { ReadUInt(d, p, 4) }
  function ReadU64(d: seq<byte>, p: nat): Result<Parsed<nat>> { ReadUInt(d, p, 8) }
  function ReadI16(d: seq<byte>, p: nat): Result<Parsed<int>> { ReadInt(d, p, 2) }
  function ReadI32(d: seq<byte>, p: nat): Result<Parsed<int>> { ReadInt(d, p, 4) }
  function ReadI64(d: seq<byte>, p: nat): Result<Parsed<int>> { ReadInt(d, p, 8) }

  /** ReadBoolean: one byte, true when it is not zero. */
  function ReadBool(d: seq<byte>, p: nat): Result<Parsed<bool>>
  {
    var b :- ReadU8(d, p);
    Ok(Parsed(b.value != 0, b.next))
  }

  /** `Position += delta`: fails only when the new position would be negative. */
  function Seek(p: nat, delta: int): (r: Result<nat>)
    ensures r.Ok? <==> p + delta >= 0
    ensures r.Ok? ==> r.value == p + delta
  {
    if p + delta >= 0 then Ok(p + delta) else Fail(NegativeLength)
  }

  /** A C# `char` read from one byte (the archives store ASCII names). */
  function Chars(bs: seq<byte>): (s: string)
    ensures |s| == |bs|
    ensures forall i :: 0 <= i < |bs| ==> s[i] as int == bs[i] as int
  {
    if bs == [] then [] else [bs[0] as int as char] + Chars(bs[1..])
  }

  /** DataReader.ReadBytes / ReadChars: exactly n bytes; a negative n or a
      short buffer fails. */
  function ReadBytes(d: seq<byte>, p: nat, n: int): (r: Result<Parsed<seq<byte>>>)
    ensures r.Ok? <==> 0 <= n && p + n <= |d|
    ensures r.Ok? ==> r.value.next == p + n && r.value.value == d[p..p + n]
  {
    if n < 0 then Fail(NegativeLength) else Take(d, p, n)
  }

  function ReadChars(d: seq<byte>, p: nat, n: int): (r: Result<Parsed<string>>)
    ensures r.Ok? <==> 0 <= n && p + n <= |d|
    ensures r.Ok? ==> r.value.next == p + n && |r.value.value| == n
  {
    var b :- ReadBytes(d, p, n);
    Ok(Parsed(Chars(b.value), b.next))
  }

  /** The CodeX `ReadStringNullTerminated` helper: one character per byte up
      to the first zero byte, which is consumed; no zero before the end fails. */
  function ReadStringZ(d: seq<byte>, p: nat): (r: Result<Parsed<string>>)
    ensures r.Ok? ==> p < r.value.next <= |d|
    ensures r.Fail? ==> r.error == EndOfStream
    decreases |d| - p
  {
    if p >= |d| then Fail(EndOfStream)
    else if d[p] == 0 then Ok(Parsed("", p + 1))
    else
      var rest :- ReadStringZ(d, p + 1);
      Ok(Parsed([d[p] as int as char] + rest.value, rest.next))
  }

  /** ReadStringZ stops at the first zero byte and returns the bytes before
      it as characters. */
  lemma {:induction false} ReadStringZContents(d: seq<byte>, p: nat)
    ensures var r := ReadStringZ(d, p);
      r.Ok? ==> d[r.value.next - 1] == 0 && 0 !in d[p..r.value.next - 1]
                && r.value.value == Chars(d[p..r.value.next - 1])
    decreases |d| - p
  {
    if p < |d| && d[p] != 0 && ReadStringZ(d, p + 1).Ok? {
      ReadStringZContents(d, p + 1);
      var q := ReadStringZ(d, p + 1).value.next - 1;
      assert d[p..q] == [d[p]] + d[p + 1..q];
      assert d[p..q][1..] == d[p + 1..q];
    }
  }

  /** ReadStringZ fails exactly when no zero byte follows p. */
  lemma {:induction false} ReadStringZFails(d: seq<byte>, p: nat)
    ensures ReadStringZ(d, p).Fail? <==> p >= |d| || 0 !in d[p..]
    decreases |d| - p
  {
    if p < |d| && d[p] != 0 {
      ReadStringZFails(d, p + 1);
      assert d[p..] == [d[p]] + d[p + 1..];
    }
  }

  /** Bytes left between p and the end (none once p is past the end). */
  function Available(d: seq<byte>, p: nat): nat
  {
    if p <= |d| then |d| - p else 0
  }

  /** System.IO.BinaryReader.ReadBytes / ReadChars: a negative count throws,
      otherwise it returns at most n bytes, fewer at the end of the stream. */
  function ReadBytesClamped(d: seq<byte>, p: nat, n: int): (r: Result<Parsed<seq<byte>>>)
    ensures r.Ok? <==> 0 <= n
    ensures r.Ok? ==> |r.value.value| == (if n <= Available(d, p) then n else Available(d, p))
    ensures r.Ok? ==> r.value.next == p + |r.value.value|
    ensures r.Ok? && r.value.value != [] ==> r.value.value == d[p..p + |r.value.value|]
  {
    if n < 0 then Fail(NegativeLength)
    else
      var k := if n <= Available(d, p) then n else Available(d, p);
      if k == 0 then Ok(Parsed([], p)) else Ok(Parsed(d[p..p + k], p + k))
  }

  // ---------------------------------------------------------------------
  // Layouts: records made only of fixed-width fields and skips

  /** One fixed-width read, or a skip of n bytes (`Position += n`). Floats are
      kept as their raw 32-bit words; a Flag is a ReadBoolean (0 or 1). */
  datatype Field = U8 | Flag | U16 | I16 | U32 | I32 | F32 | U64 | I64 | Gap(n: nat)

  type Layout = seq<Field>

  function FieldSize(f: Field): nat
  {
    match f
    case U8 => 1
    case Flag => 1
    case U16 => 2
    case I16 => 2
    case U32 => 4
    case I32 => 4
    case F32 => 4
    case U64 => 8
    case I64 => 8
    case Gap(n) => n
  }

  /** Bytes a layout advances the position by. */
  function Size(l: Layout): nat
  {
    if l == [] then 0 else FieldSize(l[0]) + Size(l[1..])
  }

  /** Values a layout yields: one per field that is not a skip. */
  function Count(l: Layout): nat
  {
    if l == [] then 0 else (if l[0].Gap? then 0 else 1) + Count(l[1..])
  }

  /** Bytes that must be present for a layout to be read: everything up to the
      end of its last real field (a trailing skip needs no data). */
  function Reach(l: Layout): nat
  {
    if l == [] then 0
    else if l[0].Gap? && Reach(l[1..]) == 0 then 0
    else FieldSize(l[0]) + Reach(l[1..])
  }

  function ReadField(d: seq<byte>, p: nat, f: Field): (r: Result<Parsed<int>>)
    requires !f.Gap?
    ensures r.Ok? <==> p + FieldSize(f) <= |d|
    ensures r.Ok? ==> r.value.next == p + FieldSize(f)
  {
    match f
    case U8 => ReadUInt(d, p, 1)
    case Flag =>
      var b :- ReadUInt(d, p, 1);
      Ok(Parsed(if b.value != 0 then 1 else 0, b.next))
    case U16 => ReadUInt(d, p, 2)
    case I16 => ReadInt(d, p, 2)
    case U32 => ReadUInt(d, p, 4)
    case I32 => ReadInt(d, p, 4)
    case F32 => ReadUInt(d, p, 4)
    case U64 => ReadUInt(d, p, 8)
    case I64 => ReadInt(d, p, 8)
  }

  /** Reads the fields of a layout in order. */
  function ReadFields(d: seq<byte>, p: nat, l: Layout): (r: Result<Parsed<seq<int>>>)
    ensures r.Ok? <==> (Reach(l) == 0 || p + Reach(l) <= |d|)
    ensures r.Ok? ==> r.value.next == p + Size(l) && |r.value.value| == Count(l)
    decreases |l|
  {
    if l == [] then Ok(Parsed([], p))
    else if l[0].Gap? then
      ReadFields(d, p + l[0].n, l[1..])
    else
      var v :- ReadField(d, p, l[0]);
      var rest :- ReadFields(d, v.next, l[1..]);
      Ok(Parsed([v.value] + rest.value, rest.next))
  }

  /** A layout made of fields only reaches exactly as far as it advances. */
  lemma {:induction false} ReachOfGapless(l: Layout)
    requires forall i :: 0 <= i < |l| ==> !l[i].Gap?
    ensures Reach(l) == Size(l)
    ensures l != [] ==> Reach(l) > 0
  {
    if l != [] {
      ReachOfGapless(l[1..]);
    }
  }

  lemma {:induction false} SizeAppend(a: Layout, b: Layout)
    ensures Size(a + b) == Size(a) + Size(b)
    ensures Count(a + b) == Count(a) + Count(b)
  {
    if a == [] {
      assert a + b == b;
    } else {
      assert (a + b)[1..] == a[1..] + b;
      SizeAppend(a[1..], b);
    }
  }

  /** Reading a concatenated layout is reading one layout after the other. */
  lemma {:induction false} ReadFieldsAppend(d: seq<byte>, p: nat, a: Layout, b: Layout)
    ensures ReadFields(d, p, a + b) ==
      (match ReadFields(d, p, a)
       case Fail(e) => Fail(e)
       case Ok(x) =>
         match ReadFields(d, x.next, b)
         case Fail(e) => Fail(e)
         case Ok(y) => Ok(Parsed(x.value + y.value, y.next)))
    decreases |a|
  {
    if a == [] {
      assert a + b == b;
      var y := ReadFields(d, p, b);
      if y.Ok? {
        assert [] + y.value.value == y.value.value;
      }
    } else {
      assert (a + b)[0] == a[0];
      assert (a + b)[1..] == a[1..] + b;
      if a[0].Gap? {
        ReadFieldsAppend(d, p + a[0].n, a[1..], b);
      } else {
        var v := ReadField(d, p, a[0]);
        if v.Ok? {
          ReadFieldsAppend(d, v.value.next, a[1..], b);
          var x := ReadFields(d, v.value.next, a[1..]);
          if x.Ok? {
            var y := ReadFields(d, x.value.next, b);
            if y.Ok? {
              assert [v.value.value] + (x.value.value + y.value.value) == ([v.value.value] + x.value.value) + y.value.value;
            }
          }
        }
      }
    }
  }

  // ---------------------------------------------------------------------
  // Counted arrays

  /** An int32 element count followed by `new T[count]`: a negative count fails. */
  function ReadCount(d: seq<byte>, p: nat): (r: Result<Parsed<nat>>)
    ensures r.Ok? ==> r.value.next == p + 4
    ensures ReadI32(d, p).Ok? && ReadI32(d, p).value.value < 0 ==> r == Fail(NegativeLength)
    ensures ReadI32(d, p).Ok? && ReadI32(d, p).value.value >= 0 ==>
              r.Ok? && r.value.value == ReadI32(d, p).value.value
    ensures ReadI32(d, p).Fail? ==> r.Fail? && r.error == EndOfStream
  {
    var c :- ReadI32(d, p);
    if c.value < 0 then Fail(NegativeLength) else Ok(Parsed(c.value, c.next))
  }

  /** n records of one layout, in order. */
  function ReadLayoutArray(d: seq<byte>, p: nat, n: nat, l: Layout): (r: Result<Parsed<seq<seq<int>>>>)
    ensures r.Ok? ==> |r.value.value| == n && r.value.next == p + n * Size(l)
    ensures r.Ok? ==> forall i :: 0 <= i < n ==> |r.value.value[i]| == Count(l)
    decreases n
  {
    if n == 0 then Ok(Parsed([], p))
    else
      var x :- ReadFields(d, p, l);
      var rest :- ReadLayoutArray(d, x.next, n - 1, l);
      assert n * Size(l) == Size(l) + (n - 1) * Size(l);
      Ok(Parsed([x.value] + rest.value, rest.next))
  }

  /** A layout array fits exactly when its n records fit end to end. */
  lemma {:induction false} LayoutArrayFits(d: seq<byte>, p: nat, n: nat, l: Layout)
    requires Reach(l) == Size(l) && Size(l) > 0
    ensures ReadLayoutArray(d, p, n, l).Ok? <==> p + n * Size(l) <= |d| || n == 0
    decreases n
  {
    if n > 0 {
      assert n * Size(l) == Size(l) + (n - 1) * Size(l);
      LayoutArrayFits(d, p + Size(l), n - 1, l);
    }
  }

  /** A count-prefixed array of layout records. */
  function ReadCountedLayout(d: seq<byte>, p: nat, l: Layout): (r: Result<Parsed<seq<seq<int>>>>)
    ensures r.Ok? ==> ReadCount(d, p).Ok? && |r.value.value| == ReadCount(d, p).value.value
    ensures r.Ok? ==> r.value.next == p + 4 + |r.value.value| * Size(l)
  {
    var c :- ReadCount(d, p);
    ReadLayoutArray(d, c.next, c.value, l)
  }

  /** n items of any reader, in stream order. */
  function ReadMany<T>(d: seq<byte>, p: nat, n: nat, item: (seq<byte>, nat) -> Result<Parsed<T>>): (r: Result<Parsed<seq<T>>>)
    ensures r.Ok? ==> |r.value.value| == n
    decreases n
  {
    if n == 0 then Ok(Parsed([], p))
    else
      var x :- item(d, p);
      var rest :- ReadMany(d, x.next, n - 1, item);
      Ok(Parsed([x.value] + rest.value, rest.next))
  }
  /** A run of items that each take w bytes and each satisfy P takes n * w
      bytes and holds only items satisfying P. */
  lemma {:induction false} ReadManyUniform<T>(d: seq<byte>, p: nat, n: nat, item: (seq<byte>, nat) -> Result<Parsed<T>>,
                                              w: nat, P: T -> bool)
    requires forall q: nat :: item(d, q).Ok? ==> item(d, q).value.next == q + w && P(item(d, q).value.value)
    requires ReadMany(d, p, n, item).Ok?
    ensures ReadMany(d, p, n, item).value.next == p + n * w
    ensures forall v :: v in ReadMany(d, p, n, item).value.value ==> P(v)
    decreases n
  {
    if n > 0 {
      var x := item(d, p).value;
      ReadManyUniform(d, x.next, n - 1, item, w, P);
      assert (n - 1) * w + w == n * w;
    }
  }

  /** The item reader reads v at p and stops at next. */
  ghost predicate ReadsTo<T>(item: (seq<byte>, nat) -> Result<Parsed<T>>, d: seq<byte>, p: nat, v: T, next: nat)
  {
    item(d, p) == Ok(Parsed(v, next))
  }

  /** vals were read one after the other, item i from pos[i] up to
      pos[i + 1]. */
  ghost predicate StepsTo<T>(item: (seq<byte>, nat) -> Result<Parsed<T>>, d: seq<byte>, pos: seq<nat>, vals: seq<T>)
  {
    |pos| == |vals| + 1 && forall i :: 0 <= i < |vals| ==> ReadsTo(item, d, pos[i], vals[i], pos[i + 1])
  }

  /** One more item read where the last one stopped extends the run. */
  lemma StepsToExtend<T>(item: (seq<byte>, nat) -> Result<Parsed<T>>, d: seq<byte>, pos: seq<nat>, vals: seq<T>, v: T, next: nat)
    requires StepsTo(item, d, pos, vals) && item(d, pos[|vals|]) == Ok(Parsed(v, next))
    ensures StepsTo(item, d, pos + [next], vals + [v])
  {
    var pos', vals' := pos + [next], vals + [v];
    forall i | 0 <= i < |vals'| ensures ReadsTo(item, d, pos'[i], vals'[i], pos'[i + 1]) {
      if i < |vals| {
        assert pos'[i] == pos[i] && pos'[i + 1] == pos[i + 1] && vals'[i] == vals[i];
      }
    }
  }

  /** Items that each read up to where the next one starts are what
      ReadMany returns. */
  lemma {:induction false} ReadManySteps<T>(d: seq<byte>, pos: seq<nat>, vals: seq<T>, item: (seq<byte>, nat) -> Result<Parsed<T>>)
    requires |pos| == |vals| + 1
    requires forall i :: 0 <= i < |vals| ==> ReadsTo(item, d, pos[i], vals[i], pos[i + 1])
    ensures ReadMany(d, pos[0], |vals|, item) == Ok(Parsed(vals, pos[|vals|]))
    decreases |vals|
  {
    if vals != [] {
      var pos', vals' := pos[1..], vals[1..];
      forall i | 0 <= i < |vals'|
        ensures ReadsTo(item, d, pos'[i], vals'[i], pos'[i + 1])
      {
        assert pos'[i] == pos[i + 1] && pos'[i + 1] == pos[i + 2] && vals'[i] == vals[i + 1];
      }
      ReadManySteps(d, pos', vals', item);
      assert ReadsTo(item, d, pos[0], vals[0], pos[1]);
      assert [vals[0]] + vals' == vals;
    }
  }

  /** Items that read one after the other, followed by a run that fails, make
      the whole run fail. */
  /** A run fails when the item after its first |vals| fails to read. */
  lemma ReadManyStopsAt<T>(d: seq<byte>, pos: seq<nat>, vals: seq<T>, n: nat, item: (seq<byte>, nat) -> Result<Parsed<T>>)
    requires |pos| == |vals| + 1 && |vals| < n
    requires forall i :: 0 <= i < |vals| ==> ReadsTo(item, d, pos[i], vals[i], pos[i + 1])
    requires item(d, pos[|vals|]).Fail?
    ensures ReadMany(d, pos[0], n, item).Fail?
  {
    assert ReadMany(d, pos[|vals|], n - |vals|, item).Fail?;
    ReadManyFailAfter(d, pos, vals, n - |vals|, item);
  }

  /** One more item read where the last one ended extends the run. */
  lemma ReadStepsExtend<T>(d: seq<byte>, pos: seq<nat>, vals: seq<T>, item: (seq<byte>, nat) -> Result<Parsed<T>>, v: T, next: nat)
    requires |pos| == |vals| + 1
    requires forall i :: 0 <= i < |vals| ==> ReadsTo(item, d, pos[i], vals[i], pos[i + 1])
    requires ReadsTo(item, d, pos[|vals|], v, next)
    ensures forall i :: 0 <= i < |vals| + 1 ==> ReadsTo(item, d, (pos + [next])[i], (vals + [v])[i], (pos + [next])[i + 1])
  {
    forall i | 0 <= i < |vals| + 1
      ensures ReadsTo(item, d, (pos + [next])[i], (vals + [v])[i], (pos + [next])[i + 1])
    {
      if i < |vals| {
        assert (pos + [next])[i] == pos[i] && (pos + [next])[i + 1] == pos[i + 1] && (vals + [v])[i] == vals[i];
      }
    }
  }

  lemma {:induction false} ReadManyFailAfter<T>(d: seq<byte>, pos: seq<nat>, vals: seq<T>, m: nat, item: (seq<byte>, nat) -> Result<Parsed<T>>)
    requires |pos| == |vals| + 1
    requires forall i :: 0 <= i < |vals| ==> ReadsTo(item, d, pos[i], vals[i], pos[i + 1])
    requires ReadMany(d, pos[|vals|], m, item).Fail?
    ensures ReadMany(d, pos[0], |vals| + m, item).Fail?
    decreases |vals|
  {
    if vals != [] {
      var pos', vals' := pos[1..], vals[1..];
      forall i | 0 <= i < |vals'|
        ensures ReadsTo(item, d, pos'[i], vals'[i], pos'[i + 1])
      {
        assert pos'[i] == pos[i + 1] && pos'[i + 1] == pos[i + 2] && vals'[i] == vals[i + 1];
      }
      ReadManyFailAfter(d, pos', vals', m, item);
      assert ReadsTo(item, d, pos[0], vals[0], pos[1]);
    }
  }
  /** Items that each advance by k make n items advance by n * k. */
  lemma {:induction false} ReadManyAdvance<T>(d: seq<byte>, p: nat, n: nat, item: (seq<byte>, nat) -> Result<Parsed<T>>, k: nat)
    requires forall q: nat :: item(d, q).Ok? ==> item(d, q).value.next == q + k
    ensures ReadMany(d, p, n, item).Ok? ==> ReadMany(d, p, n, item).value.next == p + n * k
    decreases n
  {
    if n > 0 && item(d, p).Ok? {
      ReadManyAdvance(d, item(d, p).value.next, n - 1, item, k);
      assert n * k == k + (n - 1) * k;
    }
  }

  /** A run of n items that each need exactly k bytes succeeds exactly when
      the n * k bytes are there. */
  lemma {:induction false} ReadManyFits<T>(d: seq<byte>, p: nat, n: nat, item: (seq<byte>, nat) -> Result<Parsed<T>>, k: nat)
    requires forall q: nat :: item(d, q).Ok? <==> q + k <= |d|
    requires forall q: nat :: item(d, q).Ok? ==> item(d, q).value.next == q + k
    ensures ReadMany(d, p, n, item).Ok? <==> n == 0 || p + n * k <= |d|
    ensures ReadMany(d, p, n, item).Ok? ==> ReadMany(d, p, n, item).value.next == p + n * k
    decreases n
  {
    if n > 0 {
      ReadManyFits(d, p + k, n - 1, item, k);
      assert n * k == k + (n - 1) * k;
    }
  }

  /** A run of booleans takes one byte each. */
  lemma BoolsFit(d: seq<byte>, p: nat, n: nat)
    ensures ReadMany(d, p, n, ReadBool).Ok? <==> n == 0 || p + n <= |d|
    ensures ReadMany(d, p, n, ReadBool).Ok? ==> ReadMany(d, p, n, ReadBool).value.next == p + n
  {
    ReadManyFits(d, p, n, ReadBool, 1);
  }

  /** With items that each advance by k, item i of a run is the item read at
      p + i * k. */
  lemma {:induction false} ReadManyFixedItems<T>(d: seq<byte>, p: nat, n: nat, item: (seq<byte>, nat) -> Result<Parsed<T>>, k: nat)
    requires forall q: nat :: item(d, q).Ok? ==> item(d, q).value.next == q + k
    requires ReadMany(d, p, n, item).Ok?
    ensures forall i :: 0 <= i < n ==>
      item(d, p + i * k) == Ok(Parsed(ReadMany(d, p, n, item).value.value[i], p + i * k + k))
    decreases n
  {
    if n > 0 {
      var vs := ReadMany(d, p, n, item).value.value;
      ReadManyFixedItems(d, p + k, n - 1, item, k);
      var rest := ReadMany(d, p + k, n - 1, item).value.value;
      assert vs == [item(d, p).value.value] + rest;
      forall i | 1 <= i < n
        ensures item(d, p + i * k) == Ok(Parsed(vs[i], p + i * k + k))
      {
        assert p + i * k == (p + k) + (i - 1) * k;
        assert vs[i] == rest[i - 1];
      }
    }
  }

  /** A count-prefixed array of items: `new T[count]` fails for a negative
      count, then count items follow. */
  function ReadCounted<T>(d: seq<byte>, p: nat, item: (seq<byte>, nat) -> Result<Parsed<T>>): (r: Result<Parsed<seq<T>>>)
    ensures r.Ok? ==> ReadCount(d, p).Ok? && |r.value.value| == ReadCount(d, p).value.value
  {
    var c :- ReadCount(d, p);
    ReadMany(d, c.next, c.value, item)
  }

  /** A count followed by that many items is a counted array. */
  lemma ReadCountedOf<T>(d: seq<byte>, p: nat, n: nat, vals: seq<T>, next: nat, item: (seq<byte>, nat) -> Result<Parsed<T>>)
    requires ReadCount(d, p) == Ok(Parsed(n, p + 4))
    requires ReadMany(d, p + 4, n, item) == Ok(Parsed(vals, next))
    ensures ReadCounted(d, p, item) == Ok(Parsed(vals, next))
  {
  }

  /** A count followed by items that fail is a counted array that fails. */
  lemma ReadCountedFails<T>(d: seq<byte>, p: nat, n: nat, item: (seq<byte>, nat) -> Result<Parsed<T>>)
    requires ReadCount(d, p) == Ok(Parsed(n, p + 4))
    requires ReadMany(d, p + 4, n, item).Fail?
    ensures ReadCounted(d, p, item).Fail?
  {
  }

  /** Reading a counted array of k-byte items consumes 4 + count * k bytes. */
  lemma ReadCountedAdvance<T>(d: seq<byte>, p: nat, item: (seq<byte>, nat) -> Result<Parsed<T>>, k: nat)
    requires forall q: nat :: item(d, q).Ok? ==> item(d, q).value.next == q + k
    ensures ReadCounted(d, p, item).Ok? ==>
      ReadCounted(d, p, item).value.next == p + 4 + |ReadCounted(d, p, item).value.value| * k
  {
    if ReadCount(d, p).Ok? {
      ReadManyAdvance(d, p + 4, ReadCount(d, p).value.value, item, k);
    }
  }

  /** A counted array of k-byte items that was read: its count, and where it
      ends. */
  lemma CountedRunAt<T>(d: seq<byte>, p: nat, item: (seq<byte>, nat) -> Result<Parsed<T>>, k: nat, vals: seq<T>, next: nat)
    requires forall q: nat :: item(d, q).Ok? ==> item(d, q).value.next == q + k
    requires ReadCounted(d, p, item) == Ok(Parsed(vals, next))
    ensures ReadCount(d, p) == Ok(Parsed(|vals|, p + 4))
    ensures next == p + 4 + |vals| * k
  {
    ReadCountedAdvance(d, p, item, k);
  }

  /** A counted array of records that always fail is read exactly when its
      count is 0. */
  lemma FailingArrayEmpty<T>(d: seq<byte>, p: nat, item: (seq<byte>, nat) -> Result<Parsed<T>>)
    requires forall q: nat :: item(d, q).Fail?
    ensures ReadCounted(d, p, item).Ok? <==> ReadCount(d, p) == Ok(Parsed(0, p + 4))
    ensures ReadCounted(d, p, item).Ok? ==> ReadCounted(d, p, item).value == Parsed([], p + 4)
  {
    if ReadCount(d, p).Ok? && ReadCount(d, p).value.value > 0 {
      assert item(d, p + 4).Fail?;
    }
  }

  /** A record whose Read throws before reading anything: SubMesh,
      SubMeshesBlendShapeID, MorphMapping, PermanentIconData, UILocationBase,
      SpacePortal, ObjectShape, TeleportBookmark, MetaAIObjective,
      InteriorSettings, SpawnChariotInfo and SpawnNPCInfoGroup. */
  function ReadUnknownData(d: seq<byte>, p: nat): (r: Result<Parsed<()>>)
    ensures r.Fail? && r.error == NotImplemented
  {
    Fail(NotImplemented)
  }

  /** A counted array of such records is read exactly when its count is 0. */
  lemma UnknownArrayEmpty(d: seq<byte>, p: nat)
    ensures ReadCounted(d, p, ReadUnknownData).Ok? <==> ReadCount(d, p) == Ok(Parsed(0, p + 4))
    ensures ReadCounted(d, p, ReadUnknownData).Ok? ==> ReadCounted(d, p, ReadUnknownData).value == Parsed([], p + 4)
  {
    FailingArrayEmpty(d, p, ReadUnknownData);
  }

  /** When every value the item reader returns has property P, every item
      of a run has it. */
  lemma {:induction false} ReadManyEach<T>(d: seq<byte>, p: nat, n: nat, item: (seq<byte>, nat) -> Result<Parsed<T>>,
                                           P: T -> bool)
    requires forall q: nat :: item(d, q).Ok? ==> P(item(d, q).value.value)
    ensures ReadMany(d, p, n, item).Ok? ==> forall i :: 0 <= i < n ==> P(ReadMany(d, p, n, item).value.value[i])
    decreases n
  {
    if n > 0 && ReadMany(d, p, n, item).Ok? {
      var x := item(d, p).value;
      ReadManyEach(d, x.next, n - 1, item, P);
      var rest := ReadMany(d, x.next, n - 1, item).value.value;
      assert ReadMany(d, p, n, item).value.value == [x.value] + rest;
    }
  }

  /** The same for a counted array. */
  lemma ReadCountedEach<T>(d: seq<byte>, p: nat, item: (seq<byte>, nat) -> Result<Parsed<T>>, P: T -> bool)
    requires forall q: nat :: item(d, q).Ok? ==> P(item(d, q).value.value)
    ensures ReadCounted(d, p, item).Ok? ==>
      forall i :: 0 <= i < |ReadCounted(d, p, item).value.value| ==> P(ReadCounted(d, p, item).value.value[i])
  {
    if ReadCount(d, p).Ok? {
      ReadManyEach(d, p + 4, ReadCount(d, p).value.value, item, P);
    }
  }

  /** The unsigned 32-bit item reader. */
  function U32Item(d: seq<byte>, p: nat): (r: Result<Parsed<nat>>)
    ensures r.Ok? ==> r.value.next == p + 4 && r.value.value < 0x1_0000_0000
  {
    ReadU32(d, p)
  }

  // ---------------------------------------------------------------------
  // Arrays filled by a loop with its own bound

  /** The number of records a loop of `count` iterations stores into a
      `slots`-long array before it runs past the array's end. */
  function SlotsFilled(slots: nat, count: int): (n: nat)
    ensures n <= slots
    ensures count >= 0 ==> n == if count < slots then count else slots
  {
    if count < 0 then 0 else if count < slots then count else slots
  }

  /** `new T[n]` with the records read at the front and null elsewhere. */
  function Padded<T>(xs: seq<T>, n: nat): (s: seq<Option<T>>)
    requires |xs| <= n
    ensures |s| == n
    ensures forall i :: 0 <= i < n ==> (s[i].Some? <==> i < |xs|)
    ensures forall i :: 0 <= i < |xs| ==> s[i] == Some(xs[i])
  {
    seq(n, i requires 0 <= i < n => if i < |xs| then Some(xs[i]) else None)
  }

  /** `new T[slots]`, then a loop of `count` iterations that each store the
      next record read at the next index: once the index reaches `slots`,
      the store throws. */
  function ReadIntoSlots<T>(d: seq<byte>, p: nat, slots: nat, count: int, item: (seq<byte>, nat) -> Result<Parsed<T>>)
    : (r: Result<Parsed<seq<Option<T>>>>)
    ensures count > slots ==> r.Fail?
    ensures count > slots && ReadMany(d, p, slots, item).Ok? ==> r == Fail(IndexOutOfRange)
    ensures r.Ok? ==> |r.value.value| == slots
    ensures r.Ok? ==> forall i :: 0 <= i < slots ==> (r.value.value[i].Some? <==> i < count)
  {
    var xs :- ReadMany(d, p, SlotsFilled(slots, count), item);
    if count > slots then Fail(IndexOutOfRange)
    else Ok(Parsed(Padded(xs.value, slots), xs.next))
  }
}

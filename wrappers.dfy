/** Failure-compatible result and option types shared by every reader.
    A C# exception (end of stream, a negative array size, an explicit `throw`,
    an index out of range, a duplicate dictionary key) becomes a `Fail`. */
module Wrappers {

  /** Why a read or an operation failed. */
  datatype Error =
    | EndOfStream      // a fixed-width read ran past the end of the data
    | NegativeLength   // `new T[n]`, `ReadBytes(n)` or a seek with a negative operand
    | BadMagic         // an archive header whose magic number is wrong
    | UnknownTag       // a type tag that a dispatch `switch` does not handle
    | NotImplemented   // a reader whose body is an unconditional `throw`
    | IndexOutOfRange  // an array subscript outside the array
    | DuplicateKey     // `Dictionary.Add` with a key already present
    | CodecFailure     // the block codec did not return the requested size
    | MissingData      // a null part that a method requires
    | WrongType        // a resource header whose type is not the one expected
    | InvalidData      // a check on values already read that throws
    | PositionOutOfRange // a MemoryStream position set beyond int.MaxValue
    | NoProgress       // an embedded block that does not end past its start

  datatype Result<+T> = Ok(value: T) | Fail(error: Error) {
    predicate IsFailure() { Fail? }

    function PropagateFailure<U>(): Result<U>
      requires Fail?
    {
      Fail(error)
    }

    function Extract(): T
      requires Ok?
    {
      value
    }
  }

  datatype Option<+T> = None | Some(value: T)

  /** Ok(xs + rest) for a successful rest, its failure otherwise: the result
      of a loop that has produced xs and still has to produce the rest. */
  function Prepend<T>(xs: seq<T>, r: Result<seq<T>>): Result<seq<T>>
  {
    if r.Ok? then Ok(xs + r.value) else Fail(r.error)
  }

  lemma PrependNothing<T>(r: Result<seq<T>>)
    ensures Prepend([], r) == r
  {
    if r.Ok? {
      assert [] + r.value == r.value;
    }
  }

  lemma PrependTwice<T>(xs: seq<T>, ys: seq<T>, r: Result<seq<T>>)
    ensures Prepend(xs, Prepend(ys, r)) == Prepend(xs + ys, r)
  {
    if r.Ok? {
      assert xs + (ys + r.value) == (xs + ys) + r.value;
    }
  }
}

/** Failure-compatible result types, and byte strings, shared by every module. */
module Wrappers {

  newtype byte = x: int | 0 <= x < 256

  type Bytes = seq<byte>

  /** Lexicographic order of byte strings. */
  predicate BytesLess(a: Bytes, b: Bytes) {
    b != [] && (a == [] || a[0] < b[0] || (a[0] == b[0] && BytesLess(a[1..], b[1..])))
  }

  function Concat(parts: seq<Bytes>): Bytes {
    if parts == [] then [] else parts[0] + Concat(parts[1..])
  }

  datatype Option<+T> = None | Some(value: T)

  datatype Result<+T, +E> = Ok(value: T) | Err(error: E) {
    predicate IsFailure() { Err? }

    function PropagateFailure<U>(): Result<U, E>
      requires Err?
    {
      Err(error)
    }

    function Extract(): T
      requires Ok?
    {
      value
    }
  }

  lemma {:induction false} ConcatOfAppend(a: seq<Bytes>, b: seq<Bytes>)
    ensures Concat(a + b) == Concat(a) + Concat(b)
  {
    if a == [] {
      assert [] + b == b;
    } else {
      assert (a + b)[1..] == a[1..] + b;
      ConcatOfAppend(a[1..], b);
    }
  }

  function Require<E>(condition: bool, error: E): Result<(), E> {
    if condition then Ok(()) else Err(error)
  }
}

/** Optional values and results with an error message, as used across the model. */
module Wrappers {
  datatype Option<T> = None | Some(value: T)

  /** A Python call that either returns a value or raises; the error names the exception. */
  datatype Result<T> = Ok(value: T) | Err(error: string)

  /** A list built so far in front of the list a later computation builds, or its error. */
  function Prepend<T>(prefix: seq<T>, r: Result<seq<T>>): Result<seq<T>>
  {
    match r
    case Err(e) => Err(e)
    case Ok(rest) => Ok(prefix + rest)
  }

  lemma PrependNothing<T>(r: Result<seq<T>>)
    ensures Prepend([], r) == r
  {
    if r.Ok? {
      assert [] + r.value == r.value;
    }
  }

  lemma PrependTwice<T>(a: seq<T>, b: seq<T>, r: Result<seq<T>>)
    ensures Prepend(a, Prepend(b, r)) == Prepend(a + b, r)
  {
    if r.Ok? {
      assert a + (b + r.value) == (a + b) + r.value;
    }
  }
}

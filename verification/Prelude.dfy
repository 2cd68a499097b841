/** Failure-carrying result types shared by the other modules. */
module Prelude {
  datatype Option<+T> = None | Some(value: T)

  datatype Result<+T, +E> = Ok(value: T) | Err(error: E)

  /** The integers lo .. hi-1. */
  function Range(lo: int, hi: int): (r: seq<int>)
    requires lo <= hi
    ensures |r| == hi - lo
  {
    seq(hi - lo, k => lo + k)
  }
}

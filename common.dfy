/** Optional values and results shared by every module of the model. */
module Wrappers {

  /** `undefined`/`null` versus a present value. */
  datatype Option<+T> = None | Some(value: T)

  /** A value, or the error that the source throws or returns instead. */
  datatype Result<+T, +E> = Success(value: T) | Failure(error: E)
}

/** Facts about sequences that several modules use. */
module Seqs {

  /** Concatenation is associative. */
  lemma AppendAssoc<T>(a: seq<T>, b: seq<T>, c: seq<T>)
    ensures a + (b + c) == a + b + c
  {
  }
}

/** Failure-carrying result types shared by every module of the model, and one fact about sequences. */
module Basics {

  /** A value that may be absent (Python's `None`). */
  datatype Option<+T> = None | Some(value: T)

  /**
   * What a Python call does when it may let an exception escape: it returns
   * a value, or an exception propagates out of it uncaught.
   */
  datatype Outcome<+T> = Returned(value: T) | Raised

  /** A Python assignment `x = e` where `e` either yields a value or raises `Error(message)`; the message is what `str(e)` gives. */
  datatype Result<+T> = Ok(value: T) | Error(message: string)

  /**
   * Appending is associative. Stated once so that proofs about growing
   * lists need not rediscover it element by element.
   */
  lemma AppendAssoc<T>(a: seq<T>, b: seq<T>, c: seq<T>)
    ensures (a + b) + c == a + (b + c)
  {
  }
}

/** Failure-compatible datatypes used across the model. */
module Wrappers {

  datatype Option<+T> = None | Some(value: T) {
    function GetOr(default: T): T {
      if Some? then value else default
    }
  }

  /** A value that proofs compare as a whole and never field by field. */
  datatype Whole<+T> = Whole(value: T)

  /**
   * Where a history stood at some moment. The object that keeps the history also keeps it an extension of what
   * its bookmarks hold, so whoever sets a bookmark can tell afterwards that nothing was taken back.
   */
  class Bookmark<T> {
    ghost var kept: T

    ghost constructor (kept: T)
      ensures this.kept == kept
    {
      this.kept := kept;
    }
  }
}

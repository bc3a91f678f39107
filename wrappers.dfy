/** Nullable slots: a Java reference that may be null, and the two-slot pair built from them. */
module Wrappers {

  /** A value that may be absent (a Java reference that may be null, or an Optional). */
  datatype Option<+T> = None | Some(value: T) {

    /** The value, or the given default when absent (Optional.orElse). */
    function GetOr(default: T): (v: T) {
      match this
      case Some(v) => v
      case None => default
    }
  }

  /** A pair whose two slots may each be null; getLeftOptional and getRightOptional read them. */
  datatype Pair<+L, +R> = Pair(left: Option<L>, right: Option<R>) {

    /** At most one of the two slots is populated. */
    predicate AtMostOneSlot() {
      !(left.Some? && right.Some?)
    }
  }
}

/** Optional values, results, and the two Python truthiness idioms the
    pipeline applies to strings (`s or None`, `s or ""`). */
module Wrappers {

  /** A value that may be absent: Python's `None` or a proto2 field whose has-bit is clear. */
  datatype Option<+T> = None | Some(value: T) {

    /** The value if present, else `default` (a proto2 getter on an unset field, or `x or default`). */
    function GetOr(default: T): T {
      match this
      case Some(v) => v
      case None => default
    }
  }

  /** The outcome of a step that can fail with an error value instead of raising. */
  datatype Result<+T, +E> = Success(value: T) | Failure(error: E)

  /** Python's `s or None` on a string: the empty string is falsy and becomes `None`. */
  function NoneIfEmpty(s: string): (r: Option<string>)
    ensures r.None? <==> s == ""
    ensures r.Some? ==> r.value == s
  {
    if s == "" then None else Some(s)
  }

  /** Concatenation is associative; stated once so that callers need not reason about indices. */
  lemma ConcatAssoc<T>(x: seq<T>, y: seq<T>, z: seq<T>)
    ensures (x + y) + z == x + (y + z)
  {
  }

  /** Element k of the middle part of `x + (y + z)` sits at index |x| + k. */
  lemma MiddleIndex<T>(x: seq<T>, y: seq<T>, z: seq<T>, k: int)
    requires 0 <= k < |y|
    ensures |x| + k < |x + (y + z)| && (x + (y + z))[|x| + k] == y[k]
  {
  }
}

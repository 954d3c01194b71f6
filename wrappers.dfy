/** Absent-or-present values, and JavaScript's notion of a "truthy" string. */
module Wrappers {

  /** A JSON field or query parameter that may be missing (undefined/null) or present. */
  datatype Option<+T> = None | Some(value: T) {
    function GetOr(default: T): T {
      match this
      case Some(v) => v
      case None => default
    }
  }

  /** A possibly-missing string is truthy in JavaScript exactly when it is present and non-empty. */
  predicate Truthy(s: Option<string>) {
    s.Some? && s.value != ""
  }

  /** Concatenation is associative; stated once so that proofs need not
      rediscover it element by element. */
  lemma AppendAssoc<T>(a: seq<T>, b: seq<T>, c: seq<T>)
    ensures (a + b) + c == a + (b + c)
  {
  }

  /** The parts of a sequence extended by one element. */
  lemma SnocParts<T>(x: seq<T>, e: T)
    ensures (x + [e])[..|x|] == x && (x + [e])[|x|] == e && |x + [e]| == |x| + 1
  {
  }
}

/** Failure-compatible wrappers and the byte-buffer type shared by every service. */
module Base {

  /** A value that may be absent: the source's `undefined`, `null` or a missing field. */
  datatype Option<+T> = None | Some(value: T) {
    function GetOr(default: T): T {
      match this
      case Some(v) => v
      case None => default
    }
  }

  /** The outcome of an operation that may throw; `Err` carries the thrown error's message. */
  datatype Result<+T> = Ok(value: T) | Err(message: string)

  /** One octet of an image or metadata body. */
  type Byte = bv8

  /** A Node.js `Buffer`: only its contents and length are observable here. */
  type Bytes = seq<Byte>

  /** The elements of a sequence, as a set. */
  function Elems<T>(s: seq<T>): set<T> {
    set x | x in s
  }

  /** No element occurs twice. */
  predicate Distinct<T(==)>(s: seq<T>) {
    forall i, j | 0 <= i < j < |s| :: s[i] != s[j]
  }

  /** `r` is `s` with some elements dropped and the rest kept in their order. */
  predicate IsSubsequence<T(==)>(r: seq<T>, s: seq<T>)
    decreases |s|
  {
    if r == [] then true
    else if s == [] then false
    else
      || (r[|r| - 1] == s[|s| - 1] && IsSubsequence(r[..|r| - 1], s[..|s| - 1]))
      || IsSubsequence(r, s[..|s| - 1])
  }

  /** Every sequence is a subsequence of itself. */
  lemma {:induction false} SubsequenceOfItself<T>(s: seq<T>)
    ensures IsSubsequence(s, s)
    decreases |s|
  {
    if s != [] {
      SubsequenceOfItself(s[..|s| - 1]);
    }
  }
}

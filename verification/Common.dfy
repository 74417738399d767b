/** Types and sequence facts shared by the component models. */
module Common {

  datatype Option<+T> = None | Some(value: T)

  type Byte = b: int | 0 <= b < 256
  type Bytes = seq<Byte>

  function Max(a: int, b: int): int {
    if a < b then b else a
  }

  lemma AppendAssociates<T>(a: seq<T>, b: seq<T>, c: seq<T>)
    ensures a + b + c == a + (b + c)
  {
  }

  /** The bytes a chunked stream delivers, in order. */
  function Concat<T>(chunks: seq<seq<T>>): seq<T> {
    if chunks == [] then [] else Concat(chunks[..|chunks| - 1]) + chunks[|chunks| - 1]
  }

  lemma ConcatSnoc<T>(chunks: seq<seq<T>>, chunk: seq<T>)
    ensures Concat(chunks + [chunk]) == Concat(chunks) + chunk
  {
    assert (chunks + [chunk])[..|chunks|] == chunks;
  }

  lemma TakeSnoc<T>(s: seq<T>, k: nat)
    requires 0 < k <= |s|
    ensures s[..k] == s[..k - 1] + [s[k - 1]]
  {
  }

  predicate Distinct<T(==)>(xs: seq<T>) {
    forall i, j :: 0 <= i < j < |xs| ==> xs[i] != xs[j]
  }
}

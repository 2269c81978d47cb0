/** Facts about sequences used as ordered collections. */
module Lists {

  /** A sequence holds each element at most once (set semantics). */
  ghost predicate NoDup<T>(s: seq<T>) {
    forall i, j :: 0 <= i < j < |s| ==> s[i] != s[j]
  }
}

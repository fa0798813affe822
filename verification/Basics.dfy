/** Small notions used throughout. */
module Basics {
  datatype Option<T> = None | Some(value: T)

  ghost predicate NoDup<T(!new)>(s: seq<T>) {
    forall i, j :: 0 <= i < j < |s| ==> s[i] != s[j]
  }

  /** Copy `len` elements of `src` into `dst`. */
  function Spliced<T>(dst: seq<T>, to: nat, src: seq<T>, from: nat, len: nat): (r: seq<T>)
    requires to + len <= |dst| && from + len <= |src|
    ensures |r| == |dst|
    ensures forall k :: 0 <= k < |dst| ==> r[k] == if to <= k < to + len then src[from + (k - to)] else dst[k]
  {
    dst[..to] + src[from..from + len] + dst[to + len..]
  }
}

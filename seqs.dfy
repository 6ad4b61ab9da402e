/** Searching a list by key, as `find` and `findIndex` do. */
module Seqs {

  /** Position of the first element of `s` whose key is `k`, or -1 when
      there is none. */
  function FirstIndex<T, K(==)>(s: seq<T>, key: T -> K, k: K): (r: int)
    ensures -1 <= r < |s|
    ensures r == -1 <==> forall j :: 0 <= j < |s| ==> key(s[j]) != k
    ensures 0 <= r ==> key(s[r]) == k && forall j :: 0 <= j < r ==> key(s[j]) != k
  {
    if s == [] then -1
    else if key(s[0]) == k then 0
    else
      var r := FirstIndex(s[1..], key, k);
      if r == -1 then -1 else r + 1
  }
}

/**
  Reference searches for an element of a sequence. The display-form parser
  and the proofs about removal from the non-proxy host list are built on them.
*/
module Seqs {

  /** The position of the first `x` in `s`, or -1 when `s` holds none. */
  function IndexOf<T(==)>(s: seq<T>, x: T): (r: int)
    ensures -1 <= r < |s|
    ensures r >= 0 ==> s[r] == x && forall k :: 0 <= k < r ==> s[k] != x
    ensures r == -1 ==> forall k :: 0 <= k < |s| ==> s[k] != x
  {
    if s == [] then -1
    else if s[0] == x then 0
    else
      var r := IndexOf(s[1..], x);
      if r == -1 then -1 else r + 1
  }

  /** The position of the last `x` in `s`, or -1 when `s` holds none. */
  function LastIndexOf<T(==)>(s: seq<T>, x: T): (r: int)
    ensures -1 <= r < |s|
    ensures r >= 0 ==> s[r] == x && forall k :: r < k < |s| ==> s[k] != x
    ensures r == -1 ==> forall k :: 0 <= k < |s| ==> s[k] != x
  {
    if s == [] then -1
    else if s[|s| - 1] == x then |s| - 1
    else LastIndexOf(s[..|s| - 1], x)
  }

  /** In `a + [x] + b` with no `x` in `a`, the first `x` is the one between them. */
  lemma IndexOfAfterPrefix<T>(a: seq<T>, x: T, b: seq<T>)
    requires x !in a
    ensures IndexOf(a + [x] + b, x) == |a|
  {
    var s := a + [x] + b;
    var i := IndexOf(s, x);
    assert s[|a|] == x;
    assert forall k :: 0 <= k < |a| ==> s[k] == a[k];
  }

  /** In `a + [x] + b` with no `x` in `b`, the last `x` is the one between them. */
  lemma LastIndexOfBeforeSuffix<T>(a: seq<T>, x: T, b: seq<T>)
    requires x !in b
    ensures LastIndexOf(a + [x] + b, x) == |a|
  {
    var s := a + [x] + b;
    var j := LastIndexOf(s, x);
    assert s[|a|] == x;
    assert s[|a| + 1..] == b;
  }
}

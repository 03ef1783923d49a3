/** Definitions shared by the modules of this model: the Option type (a C
    function that returns a pointer or NULL returns an Option here) and
    sequence helpers for the C arrays and pointer arrays. */
module Wrappers {

  datatype Option<+T> = None | Some(value: T)

  /** The prefix of `s` that keeps at most `n` elements. */
  function Take<T>(s: seq<T>, n: nat): (r: seq<T>)
    ensures |r| == if |s| < n then |s| else n
    ensures r == s[..|r|]
  {
    if |s| <= n then s else s[..n]
  }

  /** No element of `s` occurs twice. */
  predicate NoDup<T(==)>(s: seq<T>)
  {
    forall i, j :: 0 <= i < j < |s| ==> s[i] != s[j]
  }

  /** First index of `x` in `s`, or -1. */
  function IndexOf<T(==)>(s: seq<T>, x: T): (k: int)
    ensures -1 <= k < |s|
    ensures k >= 0 ==> s[k] == x && x !in s[..k]
    ensures k < 0 ==> x !in s
  {
    if |s| == 0 then -1
    else if s[0] == x then 0
    else
      var k := IndexOf(s[1..], x);
      assert k >= 0 ==> s[1..][..k] == s[1..k + 1];
      if k < 0 then -1 else k + 1
  }

  /** `s` without its element at `k`; `s` itself when `k` is not an index. */
  function RemoveAt<T>(s: seq<T>, k: int): seq<T>
  {
    if 0 <= k < |s| then s[..k] + s[k + 1..] else s
  }

  /** The characterisation in IndexOf's contract determines the index. */
  lemma IndexOfUnique<T>(s: seq<T>, x: T, k: int)
    requires 0 <= k < |s| && s[k] == x && x !in s[..k]
    ensures IndexOf(s, x) == k
  {
    var j := IndexOf(s, x);
    assert x in s;
    assert forall i :: 0 <= i < k ==> s[..k][i] == s[i];
    assert forall i :: 0 <= i < j ==> s[..j][i] == s[i];
  }

  lemma RemoveAtIndex<T>(s: seq<T>, k: int, i: int)
    requires 0 <= k < |s| && 0 <= i < |s| - 1
    ensures |RemoveAt(s, k)| == |s| - 1
    ensures RemoveAt(s, k)[i] == if i < k then s[i] else s[i + 1]
  {
  }

  lemma RemoveAtMembers<T>(s: seq<T>, k: nat)
    requires k < |s| && NoDup(s)
    ensures forall y :: y in RemoveAt(s, k) <==> y in s && y != s[k]
  {
    var r := RemoveAt(s, k);
    forall y | y in r
      ensures y in s && y != s[k]
    {
      var i :| 0 <= i < |r| && r[i] == y;
      RemoveAtIndex(s, k, i);
      var i' := if i < k then i else i + 1;
      assert s[i'] == y && i' != k;
    }
    forall y | y in s && y != s[k]
      ensures y in r
    {
      var i :| 0 <= i < |s| && s[i] == y;
      var i' := if i < k then i else i - 1;
      RemoveAtIndex(s, k, i');
      assert r[i'] == y;
    }
  }

  lemma RemoveAtNoDup<T>(s: seq<T>, k: nat)
    requires k < |s| && NoDup(s)
    ensures NoDup(RemoveAt(s, k))
  {
    var r := RemoveAt(s, k);
    forall i, j | 0 <= i < j < |r|
      ensures r[i] != r[j]
    {
      RemoveAtIndex(s, k, i);
      RemoveAtIndex(s, k, j);
    }
  }
}

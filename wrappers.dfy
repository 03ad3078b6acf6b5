/** Option and Result values that stand for Python's `None`/value returns and for
    exceptions that a caller catches. */
module Wrappers {

  datatype Option<+T> = None | Some(value: T)

  datatype Result<+T, +E> = Success(value: T) | Failure(error: E)

  /** The first `n` elements of `s`, or all of them when there are fewer: Python's `s[:n]`. */
  function Take<T>(s: seq<T>, n: nat): (r: seq<T>)
    ensures |r| == if |s| < n then |s| else n
    ensures r == s[..|r|]
  {
    if |s| <= n then s else s[..n]
  }

  /** The last `n` elements of `s`, or all of them when there are fewer: Python's `s[-n:]` for n > 0. */
  function TakeLast<T>(s: seq<T>, n: nat): (r: seq<T>)
    ensures |r| == if |s| < n then |s| else n
    ensures r == s[|s| - |r|..]
  {
    if |s| <= n then s else s[|s| - n..]
  }

  /** `[f(x) for x in xs]`. */
  function MapSeq<T, U>(f: T -> U, xs: seq<T>): (r: seq<U>)
    ensures |r| == |xs| && forall i :: 0 <= i < |xs| ==> r[i] == f(xs[i])
  {
    if xs == [] then [] else MapSeq(f, xs[..|xs| - 1]) + [f(xs[|xs| - 1])]
  }

  /** Mapping one more element appends its image. */
  lemma MapSeqStep<T, U>(f: T -> U, xs: seq<T>, i: nat)
    requires i < |xs|
    ensures MapSeq(f, xs[..i + 1]) == MapSeq(f, xs[..i]) + [f(xs[i])]
  {
    assert xs[..i + 1][..i] == xs[..i];
  }

  /** All the values when every element is present, and None as soon as one is missing. */
  function AllPresent<T>(xs: seq<Option<T>>): (r: Option<seq<T>>)
    ensures r.None? <==> exists i :: 0 <= i < |xs| && xs[i].None?
    ensures r.Some? ==> |r.value| == |xs| && forall i :: 0 <= i < |xs| ==> xs[i] == Some(r.value[i])
  {
    if xs == [] then Some([])
    else
      var n := |xs| - 1;
      var prev := AllPresent(xs[..n]);
      if prev.None? then
        assert exists i :: 0 <= i < |xs| && xs[i].None? by {
          var i :| 0 <= i < n && xs[..n][i].None?;
          assert xs[..n][i] == xs[i];
        }
        None
      else if xs[n].None? then None
      else
        assert forall i :: 0 <= i < n ==> xs[..n][i] == xs[i];
        Some(prev.value + [xs[n].value])
  }

  /** The values ys are the first |ys| elements of xs, all present. */
  ghost predicate PresentPrefix<T>(xs: seq<Option<T>>, ys: seq<T>)
  {
    |ys| <= |xs| && forall k :: 0 <= k < |ys| ==> xs[k] == Some(ys[k])
  }

  lemma PresentPrefixStep<T>(xs: seq<Option<T>>, ys: seq<T>, y: T)
    requires PresentPrefix(xs, ys) && |ys| < |xs| && xs[|ys|] == Some(y)
    ensures PresentPrefix(xs, ys + [y])
  {
    var next := ys + [y];
    forall k | 0 <= k < |next| ensures xs[k] == Some(next[k]) {
      if k < |ys| {
        assert next[k] == ys[k];
      }
    }
  }
}

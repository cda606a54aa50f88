/**
 * The snapshot builder's loops all have one shape: walk a list, and for each
 * element append zero or more output records. `FlatMap` is that shape.
 */
module Seqs {

  /** The concatenation of `f(x)` for every `x` of `s`, in order. */
  function FlatMap<T, U>(s: seq<T>, f: T -> seq<U>): seq<U>
    decreases |s|
  {
    if s == [] then [] else FlatMap(s[..|s| - 1], f) + f(s[|s| - 1])
  }

  /** One more element appends its outputs at the end. */
  lemma FlatMapSnoc<T, U>(s: seq<T>, x: T, f: T -> seq<U>)
    ensures FlatMap(s + [x], f) == FlatMap(s, f) + f(x)
  {
    assert (s + [x])[..|s + [x]| - 1] == s;
  }

  /** Walking a prefix one step further. */
  lemma FlatMapPrefix<T, U>(s: seq<T>, i: nat, f: T -> seq<U>)
    requires i < |s|
    ensures FlatMap(s[..i + 1], f) == FlatMap(s[..i], f) + f(s[i])
  {
    assert s[..i + 1] == s[..i] + [s[i]];
    FlatMapSnoc(s[..i], s[i], f);
  }

  /** An output is produced exactly when some element produces it. */
  lemma {:induction false} FlatMapMember<T, U>(s: seq<T>, f: T -> seq<U>, y: U)
    ensures y in FlatMap(s, f) <==> exists i :: 0 <= i < |s| && y in f(s[i])
    decreases |s|
  {
    if s != [] {
      var front := s[..|s| - 1];
      FlatMapMember(front, f, y);
      if exists i :: 0 <= i < |s| && y in f(s[i]) {
        var i :| 0 <= i < |s| && y in f(s[i]);
        if i < |front| {
          assert front[i] == s[i];
        }
      }
      if exists i :: 0 <= i < |front| && y in f(front[i]) {
        var i :| 0 <= i < |front| && y in f(front[i]);
        assert front[i] == s[i];
      }
    }
  }

  /** Elements that each produce nothing produce nothing together. */
  lemma {:induction false} FlatMapNothing<T, U>(s: seq<T>, f: T -> seq<U>)
    requires forall i :: 0 <= i < |s| ==> f(s[i]) == []
    ensures FlatMap(s, f) == []
    decreases |s|
  {
    if s != [] {
      var front := s[..|s| - 1];
      assert forall i :: 0 <= i < |front| ==> front[i] == s[i];
      FlatMapNothing(front, f);
    }
  }

  /** If `g` produces at least as much as `f` on every element, it does on the whole list. */
  lemma {:induction false} FlatMapLengthLe<T, U, W>(s: seq<T>, f: T -> seq<U>, g: T -> seq<W>)
    requires forall i :: 0 <= i < |s| ==> |f(s[i])| <= |g(s[i])|
    ensures |FlatMap(s, f)| <= |FlatMap(s, g)|
    decreases |s|
  {
    if s != [] {
      var front := s[..|s| - 1];
      assert forall i :: 0 <= i < |front| ==> front[i] == s[i];
      FlatMapLengthLe(front, f, g);
    }
  }

  /** Elements that each produce exactly one output produce them in order, one each. */
  lemma {:induction false} FlatMapSingletons<T, U>(s: seq<T>, f: T -> seq<U>)
    requires forall i :: 0 <= i < |s| ==> |f(s[i])| == 1
    ensures |FlatMap(s, f)| == |s|
    ensures forall i :: 0 <= i < |s| ==> FlatMap(s, f)[i] == f(s[i])[0]
    decreases |s|
  {
    if s != [] {
      var front := s[..|s| - 1];
      assert forall i :: 0 <= i < |front| ==> front[i] == s[i];
      FlatMapSingletons(front, f);
    }
  }

  /** The sum of `g(x)` over the elements of `s`. */
  function Sum<T>(s: seq<T>, g: T -> nat): nat
    decreases |s|
  {
    if s == [] then 0 else Sum(s[..|s| - 1], g) + g(s[|s| - 1])
  }

  /** The number of outputs is the sum of the numbers each element produces. */
  lemma {:induction false} FlatMapLength<T, U>(s: seq<T>, f: T -> seq<U>, g: T -> nat)
    requires forall i :: 0 <= i < |s| ==> g(s[i]) == |f(s[i])|
    ensures |FlatMap(s, f)| == Sum(s, g)
    decreases |s|
  {
    if s != [] {
      var front := s[..|s| - 1];
      assert forall i :: 0 <= i < |front| ==> front[i] == s[i];
      FlatMapLength(front, f, g);
    }
  }
}

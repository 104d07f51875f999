/**
 * FlatMap: each element of a sequence contributes a (possibly empty) run of
 * output, in order. The rules' loops append a label or a run of field errors
 * per visited item, so what they accumulate is a FlatMap of what they visit.
 */
module Seqs {

  function FlatMap<T, U>(s: seq<T>, f: T -> seq<U>): seq<U>
  {
    if s == [] then [] else FlatMap(s[..|s| - 1], f) + f(s[|s| - 1])
  }

  /** One more loop iteration adds the contribution of one more element. */
  lemma FlatMapStep<T, U>(s: seq<T>, k: nat, f: T -> seq<U>)
    requires k < |s|
    ensures FlatMap(s[..k + 1], f) == FlatMap(s[..k], f) + f(s[k])
  {
    assert s[..k + 1][..k] == s[..k];
  }

  lemma {:induction false} FlatMapAppend<T, U>(a: seq<T>, b: seq<T>, f: T -> seq<U>)
    ensures FlatMap(a + b, f) == FlatMap(a, f) + FlatMap(b, f)
    decreases |b|
  {
    if b != [] {
      var n := |b| - 1;
      assert (a + b)[..|a + b| - 1] == a + b[..n];
      FlatMapAppend(a, b[..n], f);
    } else {
      assert a + b == a;
    }
  }

  /** Nothing is accumulated iff no element contributes anything. */
  lemma {:induction false} FlatMapEmpty<T, U>(s: seq<T>, f: T -> seq<U>)
    ensures FlatMap(s, f) == [] <==> forall i :: 0 <= i < |s| ==> f(s[i]) == []
  {
    if s != [] {
      var n := |s| - 1;
      FlatMapEmpty(s[..n], f);
      assert forall i :: 0 <= i < n ==> s[..n][i] == s[i];
    }
  }

  /** What is accumulated comes from some element, and everything each element
      contributes is accumulated. */
  lemma {:induction false} FlatMapMember<T, U>(s: seq<T>, f: T -> seq<U>, x: U)
    ensures x in FlatMap(s, f) <==> exists i :: 0 <= i < |s| && x in f(s[i])
  {
    if s != [] {
      var n := |s| - 1;
      FlatMapMember(s[..n], f, x);
      assert FlatMap(s, f) == FlatMap(s[..n], f) + f(s[n]);
      if x in FlatMap(s[..n], f) {
        var i :| 0 <= i < n && x in f(s[..n][i]);
        assert s[..n][i] == s[i];
      }
      if exists i :: 0 <= i < |s| && x in f(s[i]) {
        var i :| 0 <= i < |s| && x in f(s[i]);
        if i < n {
          assert s[..n][i] == s[i];
        }
      }
    }
  }

  /** The accumulated multiset depends only on the multiset of the input, not
      on the order in which the input is visited. */
  lemma {:induction false} FlatMapPermutation<T, U>(a: seq<T>, b: seq<T>, f: T -> seq<U>)
    requires multiset(a) == multiset(b)
    ensures multiset(FlatMap(a, f)) == multiset(FlatMap(b, f))
    decreases |a|
  {
    if a == [] {
      assert |multiset(b)| == 0;
    } else {
      var x := a[0];
      assert x in multiset(b);
      var j :| 0 <= j < |b| && b[j] == x;
      var rest := b[..j] + b[j + 1..];
      RemoveAt(b, j);
      assert a == [x] + a[1..];
      assert multiset(a[1..]) == multiset(a) - multiset{x};
      FlatMapPermutation(a[1..], rest, f);
      FlatMapCons(x, a[1..], f);
      FlatMapAround(b, j, f);
      FlatMapAppend(b[..j], b[j + 1..], f);
      var fa, fb := FlatMap(a, f), FlatMap(b, f);
      var l, r := FlatMap(b[..j], f), FlatMap(b[j + 1..], f);
      calc {
        multiset(fa);
        multiset(f(x)) + multiset(FlatMap(a[1..], f));
        multiset(f(x)) + multiset(FlatMap(rest, f));
        multiset(f(x)) + multiset(l + r);
        multiset(l) + multiset(f(x)) + multiset(r);
        multiset(fb);
      }
    }
  }

  lemma FlatMapCons<T, U>(x: T, t: seq<T>, f: T -> seq<U>)
    ensures FlatMap([x] + t, f) == f(x) + FlatMap(t, f)
  {
    FlatMapAppend([x], t, f);
    assert [x][..0] == [];
  }

  lemma RemoveAt<T>(b: seq<T>, j: nat)
    requires j < |b|
    ensures multiset(b[..j] + b[j + 1..]) == multiset(b) - multiset{b[j]}
  {
    assert b == b[..j] + [b[j]] + b[j + 1..];
  }

  /** The contribution of element j sits between those of its neighbours. */
  lemma FlatMapAround<T, U>(b: seq<T>, j: nat, f: T -> seq<U>)
    requires j < |b|
    ensures FlatMap(b, f) == FlatMap(b[..j], f) + f(b[j]) + FlatMap(b[j + 1..], f)
  {
    assert b == b[..j + 1] + b[j + 1..];
    FlatMapAppend(b[..j + 1], b[j + 1..], f);
    FlatMapStep(b, j, f);
  }
}

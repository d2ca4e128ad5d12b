/** Sequence operations shared by the modules: filtering, flattening, and
    Python's `sorted(xs, key=...)` as a stable insertion sort under a comparator. */
module Seqs {

  /** `[x for x in s if keep(x)]` */
  function Filter<T>(s: seq<T>, keep: T -> bool): (r: seq<T>)
    ensures |r| <= |s|
    ensures forall x :: x in r ==> x in s && keep(x)
  {
    if s == [] then [] else (if keep(s[0]) then [s[0]] else []) + Filter(s[1..], keep)
  }

  lemma {:induction false} FilterAppend<T>(a: seq<T>, b: seq<T>, keep: T -> bool)
    ensures Filter(a + b, keep) == Filter(a, keep) + Filter(b, keep)
  {
    if a == [] {
      assert a + b == b;
    } else {
      assert (a + b)[0] == a[0] && (a + b)[1..] == a[1..] + b;
      FilterAppend(a[1..], b, keep);
      var h := if keep(a[0]) then [a[0]] else [];
      assert h + (Filter(a[1..], keep) + Filter(b, keep)) == (h + Filter(a[1..], keep)) + Filter(b, keep);
    }
  }

  function Flatten<T>(ss: seq<seq<T>>): seq<T> {
    if ss == [] then [] else ss[0] + Flatten(ss[1..])
  }

  lemma {:induction false} FlattenAppend<T>(a: seq<seq<T>>, b: seq<seq<T>>)
    ensures Flatten(a + b) == Flatten(a) + Flatten(b)
  {
    if a == [] {
      assert a + b == b;
    } else {
      assert (a + b)[0] == a[0] && (a + b)[1..] == a[1..] + b;
      FlattenAppend(a[1..], b);
      assert a[0] + (Flatten(a[1..]) + Flatten(b)) == (a[0] + Flatten(a[1..])) + Flatten(b);
    }
  }

  /** `[y for x in s for y in f(x)]`, built by appending `f` of each element in turn. */
  function FlatMap<T, U>(s: seq<T>, f: T -> seq<U>): (r: seq<U>)
  {
    if s == [] then [] else FlatMap(s[..|s| - 1], f) + f(s[|s| - 1])
  }

  lemma {:induction false} FlatMapAppend<T, U>(a: seq<T>, b: seq<T>, f: T -> seq<U>)
    ensures FlatMap(a + b, f) == FlatMap(a, f) + FlatMap(b, f)
    decreases |b|
  {
    if b == [] {
      assert a + b == a;
    } else {
      var c := b[..|b| - 1];
      assert (a + b)[..|a + b| - 1] == a + c;
      assert (a + b)[|a + b| - 1] == b[|b| - 1];
      FlatMapAppend(a, c, f);
    }
  }

  lemma AppendAssoc<T>(a: seq<T>, b: seq<T>, c: seq<T>)
    ensures (a + b) + c == a + (b + c)
  {
  }

  /** One more element appends its piece. */
  lemma FlatMapSnoc<T, U>(s: seq<T>, i: int, f: T -> seq<U>)
    requires 0 <= i < |s|
    ensures FlatMap(s[..i + 1], f) == FlatMap(s[..i], f) + f(s[i])
  {
    assert s[..i + 1][..i] == s[..i];
  }

  /** The first element's piece comes first. */
  lemma FlatMapCons<T, U>(s: seq<T>, f: T -> seq<U>)
    requires s != []
    ensures FlatMap(s, f) == f(s[0]) + FlatMap(s[1..], f)
  {
    assert s == [s[0]] + s[1..];
    FlatMapAppend([s[0]], s[1..], f);
    assert FlatMap([s[0]], f) == FlatMap([], f) + f(s[0]);
  }

  /** A property every piece has holds of every element of the result. */
  lemma {:induction false} FlatMapAll<T, U>(s: seq<T>, f: T -> seq<U>, p: U -> bool)
    requires forall x, k :: 0 <= k < |f(x)| ==> p(f(x)[k])
    ensures forall k :: 0 <= k < |FlatMap(s, f)| ==> p(FlatMap(s, f)[k])
  {
    if s != [] {
      var init := s[..|s| - 1];
      FlatMapAll(init, f, p);
      var last := f(s[|s| - 1]);
      var r := FlatMap(s, f);
      forall k | 0 <= k < |r|
        ensures p(r[k])
      {
        if k >= |FlatMap(init, f)| {
          assert r[k] == last[k - |FlatMap(init, f)|];
        } else {
          assert r[k] == FlatMap(init, f)[k];
        }
      }
    }
  }

  ghost predicate TotalPreorder<T(!new)>(le: (T, T) -> bool) {
    && (forall a, b :: le(a, b) || le(b, a))
    && (forall a, b, c :: le(a, b) && le(b, c) ==> le(a, c))
  }

  predicate SortedBy<T>(s: seq<T>, le: (T, T) -> bool) {
    forall i, j :: 0 <= i < j < |s| ==> le(s[i], s[j])
  }

  /** Puts `x` in front of the first element it does not follow, so that it
      stays ahead of the equal elements that came after it in the input. */
  function Insert<T>(x: T, s: seq<T>, le: (T, T) -> bool): (r: seq<T>)
    ensures multiset(r) == multiset(s) + multiset{x}
    ensures |r| == |s| + 1
  {
    if s == [] then [x]
    else if le(x, s[0]) then [x] + s
    else
      assert s == [s[0]] + s[1..];
      [s[0]] + Insert(x, s[1..], le)
  }

  function Sort<T>(s: seq<T>, le: (T, T) -> bool): (r: seq<T>)
    ensures multiset(r) == multiset(s)
    ensures |r| == |s|
  {
    if s == [] then []
    else
      assert s == [s[0]] + s[1..];
      Insert(s[0], Sort(s[1..], le), le)
  }

  lemma {:induction false} InsertSorted<T(!new)>(x: T, s: seq<T>, le: (T, T) -> bool)
    requires TotalPreorder(le)
    requires SortedBy(s, le)
    ensures SortedBy(Insert(x, s, le), le)
  {
    if s != [] && !le(x, s[0]) {
      InsertSorted(x, s[1..], le);
      var r := Insert(x, s[1..], le);
      forall k | 0 <= k < |r| ensures le(s[0], r[k]) {
        assert r[k] in multiset(r);
        assert r[k] in multiset(s[1..]) + multiset{x};
        if r[k] != x {
          assert r[k] in s[1..];
        }
      }
    }
  }

  lemma {:induction false} SortSorted<T(!new)>(s: seq<T>, le: (T, T) -> bool)
    requires TotalPreorder(le)
    ensures SortedBy(Sort(s, le), le)
  {
    if s != [] {
      SortSorted(s[1..], le);
      InsertSorted(s[0], Sort(s[1..], le), le);
    }
  }
}

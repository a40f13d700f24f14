/**
  Generic sequence operations used by the parsers (a loop that pushes the
  rows it keeps) and by the store (the rows a query selects, a `.single()`).
 */
module Seqs {

  import opened Wrappers

  /** The `Some` results of `f` over `xs`, in input order */
  function Collect<T, U>(xs: seq<T>, f: T -> Option<U>): (r: seq<U>)
    ensures |r| <= |xs|
  {
    if xs == [] then []
    else Collect(xs[..|xs| - 1], f) + Emit(f(xs[|xs| - 1]))
  }

  function Emit<U>(o: Option<U>): seq<U> {
    match o
    case Some(u) => [u]
    case None => []
  }

  lemma CollectSnoc<T, U>(xs: seq<T>, x: T, f: T -> Option<U>)
    ensures Collect(xs + [x], f) == Collect(xs, f) + Emit(f(x))
  {
    assert (xs + [x])[..|xs|] == xs;
  }

  /** One more element of a slice: what a loop over `xs[from..]` needs at each step */
  lemma CollectStep<T, U>(xs: seq<T>, from: nat, i: nat, f: T -> Option<U>)
    requires from <= i < |xs|
    ensures Collect(xs[from..i + 1], f) == Collect(xs[from..i], f) + Emit(f(xs[i]))
  {
    assert xs[from..i + 1] == xs[from..i] + [xs[i]];
    CollectSnoc(xs[from..i], xs[i], f);
  }

  /** Collecting over a concatenation concatenates the results: the kept elements keep their order */
  lemma {:induction false} CollectAppend<T, U>(xs: seq<T>, ys: seq<T>, f: T -> Option<U>)
    ensures Collect(xs + ys, f) == Collect(xs, f) + Collect(ys, f)
  {
    if ys == [] {
      assert xs + ys == xs;
    } else {
      var init := ys[..|ys| - 1];
      var last := ys[|ys| - 1];
      assert xs + ys == (xs + init) + [last];
      CollectAppend(xs, init, f);
      CollectSnoc(xs + init, last, f);
    }
  }

  /** The positions of `xs` where `f` gives `Some`, in order */
  function SomePositions<T, U>(xs: seq<T>, f: T -> Option<U>): (idx: seq<nat>)
    ensures |idx| == |Collect(xs, f)|
    ensures forall k :: 0 <= k < |idx| ==> idx[k] < |xs|
  {
    if xs == [] then []
    else SomePositions(xs[..|xs| - 1], f) + (if f(xs[|xs| - 1]).Some? then [|xs| - 1] else [])
  }

  /** The k-th output of Collect is `f`'s result at the k-th position */
  lemma {:induction false} SomePositionsResults<T, U>(xs: seq<T>, f: T -> Option<U>)
    ensures var idx := SomePositions(xs, f);
      forall k :: 0 <= k < |idx| ==> f(xs[idx[k]]) == Some(Collect(xs, f)[k])
  {
    if xs != [] {
      var n := |xs| - 1;
      var init := xs[..n];
      SomePositionsResults(init, f);
      var prev := SomePositions(init, f);
      var idx := SomePositions(xs, f);
      forall k | 0 <= k < |prev|
        ensures f(xs[idx[k]]) == Some(Collect(xs, f)[k])
      {
        assert idx[k] == prev[k] && xs[prev[k]] == init[prev[k]] && Collect(xs, f)[k] == Collect(init, f)[k];
      }
    }
  }

  ghost predicate StrictlyIncreasing(idx: seq<nat>) {
    forall k, l :: 0 <= k < l < |idx| ==> idx[k] < idx[l]
  }

  lemma {:induction false} SomePositionsIncrease<T, U>(xs: seq<T>, f: T -> Option<U>)
    ensures StrictlyIncreasing(SomePositions(xs, f))
  {
    if xs != [] {
      var n := |xs| - 1;
      SomePositionsIncrease(xs[..n], f);
      var prev := SomePositions(xs[..n], f);
      var idx := SomePositions(xs, f);
      assert idx == prev + (if f(xs[n]).Some? then [n] else []);
      forall k, l | 0 <= k < l < |idx|
        ensures idx[k] < idx[l]
      {
        assert idx[k] == prev[k] && prev[k] < |xs[..n]| == n;
        if l < |prev| {
          assert idx[l] == prev[l];
        } else {
          assert idx[l] == n;
        }
      }
    }
  }

  lemma {:induction false} SomePositionsCover<T, U>(xs: seq<T>, f: T -> Option<U>)
    ensures forall i :: 0 <= i < |xs| && f(xs[i]).Some? ==> i in SomePositions(xs, f)
  {
    if xs != [] {
      var n := |xs| - 1;
      var init := xs[..n];
      SomePositionsCover(init, f);
      forall i | 0 <= i < n && f(xs[i]).Some?
        ensures i in SomePositions(xs, f)
      {
        assert init[i] == xs[i];
      }
    }
  }

  /**
    The output of Collect is exactly the `Some` results, in order: there is a
    strictly increasing sequence of input positions, covering every position
    where `f` gives `Some`, whose results are the outputs.
   */
  lemma CollectIndices<T, U>(xs: seq<T>, f: T -> Option<U>) returns (idx: seq<nat>)
    ensures |idx| == |Collect(xs, f)|
    ensures forall k :: 0 <= k < |idx| ==> idx[k] < |xs| && f(xs[idx[k]]) == Some(Collect(xs, f)[k])
    ensures forall k, l :: 0 <= k < l < |idx| ==> idx[k] < idx[l]
    ensures forall i :: 0 <= i < |xs| && f(xs[i]).Some? ==> i in idx
  {
    idx := SomePositions(xs, f);
    SomePositionsResults(xs, f);
    SomePositionsIncrease(xs, f);
    SomePositionsCover(xs, f);
  }

  /** Positions in `xs[from..]` as positions in `xs` */
  function Shift(rel: seq<nat>, from: nat): (idx: seq<nat>)
    ensures |idx| == |rel| && forall k :: 0 <= k < |rel| ==> idx[k] == rel[k] + from
  {
    seq(|rel|, k requires 0 <= k < |rel| => rel[k] + from)
  }

  lemma ShiftedResults<T, U>(xs: seq<T>, from: nat, f: T -> Option<U>)
    requires from <= |xs|
    ensures var idx := Shift(SomePositions(xs[from..], f), from);
      forall k :: 0 <= k < |idx| ==> from <= idx[k] < |xs| && f(xs[idx[k]]) == Some(Collect(xs[from..], f)[k])
  {
    var ys := xs[from..];
    var rel := SomePositions(ys, f);
    SomePositionsResults(ys, f);
    forall k | 0 <= k < |rel|
      ensures ys[rel[k]] == xs[rel[k] + from]
    {
    }
  }

  lemma ShiftedIncrease<T, U>(xs: seq<T>, from: nat, f: T -> Option<U>)
    requires from <= |xs|
    ensures StrictlyIncreasing(Shift(SomePositions(xs[from..], f), from))
  {
    SomePositionsIncrease(xs[from..], f);
  }

  lemma ShiftedCover<T, U>(xs: seq<T>, from: nat, f: T -> Option<U>)
    requires from <= |xs|
    ensures forall i :: from <= i < |xs| && f(xs[i]).Some? ==> i in Shift(SomePositions(xs[from..], f), from)
  {
    var ys := xs[from..];
    var rel := SomePositions(ys, f);
    var idx := Shift(rel, from);
    SomePositionsCover(ys, f);
    forall i | from <= i < |xs| && f(xs[i]).Some?
      ensures i in idx
    {
      assert ys[i - from] == xs[i];
      var k :| 0 <= k < |rel| && rel[k] == i - from;
      assert idx[k] == i;
    }
  }

  /** CollectIndices for a suffix `xs[from..]`, with positions counted in `xs` */
  lemma CollectIndicesFrom<T, U>(xs: seq<T>, from: nat, f: T -> Option<U>) returns (idx: seq<nat>)
    requires from <= |xs|
    ensures |idx| == |Collect(xs[from..], f)|
    ensures forall k :: 0 <= k < |idx| ==> from <= idx[k] < |xs| && f(xs[idx[k]]) == Some(Collect(xs[from..], f)[k])
    ensures forall k, l :: 0 <= k < l < |idx| ==> idx[k] < idx[l]
    ensures forall i :: from <= i < |xs| && f(xs[i]).Some? ==> i in idx
  {
    idx := Shift(SomePositions(xs[from..], f), from);
    ShiftedResults(xs, from, f);
    ShiftedIncrease(xs, from, f);
    ShiftedCover(xs, from, f);
  }

  /** Every output of Collect has the property that every `Some` result of `f` has */
  lemma {:induction false} CollectAll<T, U>(xs: seq<T>, f: T -> Option<U>, P: U -> bool)
    requires forall x :: f(x).Some? ==> P(f(x).value)
    ensures forall u :: u in Collect(xs, f) ==> P(u)
  {
    if xs != [] {
      CollectAll(xs[..|xs| - 1], f, P);
    }
  }

  /** The elements whose key is `k`, in order (a query with `.eq(column, k)`) */
  function Select<T, K(==)>(xs: seq<T>, key: T -> K, k: K): (r: seq<T>)
    ensures |r| <= |xs|
    ensures forall i :: 0 <= i < |r| ==> r[i] in xs && key(r[i]) == k
    ensures forall i :: 0 <= i < |xs| && key(xs[i]) == k ==> xs[i] in r
    ensures (forall i :: 0 <= i < |xs| ==> key(xs[i]) != k) ==> r == []
  {
    if xs == [] then []
    else Select(xs[..|xs| - 1], key, k) + (if key(xs[|xs| - 1]) == k then [xs[|xs| - 1]] else [])
  }

  lemma SelectSnoc<T, K>(xs: seq<T>, x: T, key: T -> K, k: K)
    ensures Select(xs + [x], key, k) == Select(xs, key, k) + (if key(x) == k then [x] else [])
  {
    assert (xs + [x])[..|xs|] == xs;
  }

  /** The elements whose key is not `k`, in order (a `.delete().eq(column, k)` keeps these) */
  function Reject<T, K(==)>(xs: seq<T>, key: T -> K, k: K): (r: seq<T>)
    ensures |r| <= |xs|
    ensures forall i :: 0 <= i < |r| ==> r[i] in xs && key(r[i]) != k
    ensures forall i :: 0 <= i < |xs| && key(xs[i]) != k ==> xs[i] in r
  {
    if xs == [] then []
    else Reject(xs[..|xs| - 1], key, k) + (if key(xs[|xs| - 1]) != k then [xs[|xs| - 1]] else [])
  }

  /** `.single()`: the row when exactly one matches, and nothing otherwise */
  function Single<T>(xs: seq<T>): (r: Option<T>)
    ensures r.Some? <==> |xs| == 1
    ensures r.Some? ==> r.value in xs
  {
    if |xs| == 1 then Some(xs[0]) else None
  }

  /** No two elements share a key */
  ghost predicate UniqueBy<T, K>(xs: seq<T>, key: T -> K) {
    forall i, j :: 0 <= i < j < |xs| ==> key(xs[i]) != key(xs[j])
  }

  /** Under unique keys a query by key finds at most one element */
  lemma {:induction false} UniqueSelectAtMostOne<T, K>(xs: seq<T>, key: T -> K, k: K)
    requires UniqueBy(xs, key)
    ensures |Select(xs, key, k)| <= 1
  {
    if xs != [] {
      var n := |xs| - 1;
      var init := xs[..n];
      assert UniqueBy(init, key) by {
        assert forall i :: 0 <= i < n ==> init[i] == xs[i];
      }
      UniqueSelectAtMostOne(init, key, k);
      if key(xs[n]) == k {
        assert forall a :: 0 <= a < n ==> key(init[a]) != k;
      }
    }
  }

  /** Under unique keys the query by an element's key finds that element alone */
  lemma UniqueFind<T, K>(xs: seq<T>, key: T -> K, i: nat)
    requires UniqueBy(xs, key) && i < |xs|
    ensures Select(xs, key, key(xs[i])) == [xs[i]]
  {
    UniqueSelectAtMostOne(xs, key, key(xs[i]));
  }

  /** Under unique keys a query that finds no single element finds none at all */
  lemma UniqueMissing<T, K>(xs: seq<T>, key: T -> K, k: K)
    requires UniqueBy(xs, key) && Single(Select(xs, key, k)).None?
    ensures Select(xs, key, k) == []
    ensures forall i :: 0 <= i < |xs| ==> key(xs[i]) != k
  {
    UniqueSelectAtMostOne(xs, key, k);
  }

  /** Appending an element whose key is new keeps keys unique */
  lemma UniqueSnoc<T, K>(xs: seq<T>, x: T, key: T -> K)
    requires UniqueBy(xs, key)
    requires Select(xs, key, key(x)) == []
    ensures UniqueBy(xs + [x], key)
  {
    var ys := xs + [x];
    forall i, j | 0 <= i < j < |ys| ensures key(ys[i]) != key(ys[j]) {
      if j == |xs| {
        assert ys[i] in xs;
      }
    }
  }

  /** Rewriting elements without changing their keys keeps keys unique */
  lemma UniqueSameKeys<T, K>(xs: seq<T>, ys: seq<T>, key: T -> K)
    requires UniqueBy(xs, key)
    requires |ys| == |xs|
    requires forall i :: 0 <= i < |xs| ==> key(ys[i]) == key(xs[i])
    ensures UniqueBy(ys, key)
  {
  }

  /** The number of elements whose key is `k` */
  function CountKey<T, K(==)>(xs: seq<T>, key: T -> K, k: K): nat {
    if xs == [] then 0
    else CountKey(xs[..|xs| - 1], key, k) + (if key(xs[|xs| - 1]) == k then 1 else 0)
  }

  lemma {:induction false} SelectCount<T, K>(xs: seq<T>, key: T -> K, k: K)
    ensures |Select(xs, key, k)| == CountKey(xs, key, k)
  {
    if xs != [] {
      SelectCount(xs[..|xs| - 1], key, k);
    }
  }

  lemma {:induction false} CountSameKeys<T, K>(xs: seq<T>, ys: seq<T>, key: T -> K, k: K)
    requires |ys| == |xs|
    requires forall i :: 0 <= i < |xs| ==> key(ys[i]) == key(xs[i])
    ensures CountKey(ys, key, k) == CountKey(xs, key, k)
  {
    if xs != [] {
      var n := |xs| - 1;
      var xi, yi := xs[..n], ys[..n];
      forall i | 0 <= i < n
        ensures key(yi[i]) == key(xi[i])
      {
        assert yi[i] == ys[i] && xi[i] == xs[i];
      }
      CountSameKeys(xi, yi, key, k);
    }
  }

  /** Rewriting elements without changing their keys keeps the size of every query by key */
  lemma SelectSameKeys<T, K>(xs: seq<T>, ys: seq<T>, key: T -> K, k: K)
    requires |ys| == |xs|
    requires forall i :: 0 <= i < |xs| ==> key(ys[i]) == key(xs[i])
    ensures |Select(ys, key, k)| == |Select(xs, key, k)|
  {
    SelectCount(xs, key, k);
    SelectCount(ys, key, k);
    CountSameKeys(xs, ys, key, k);
  }

  /** Deleting elements keeps keys unique */
  lemma {:induction false} UniqueReject<T, K, L>(xs: seq<T>, key: T -> K, other: T -> L, l: L)
    requires UniqueBy(xs, key)
    ensures UniqueBy(Reject(xs, other, l), key)
  {
    if xs != [] {
      var n := |xs| - 1;
      var init := xs[..n];
      assert UniqueBy(init, key) by {
        assert forall i :: 0 <= i < n ==> init[i] == xs[i];
      }
      UniqueReject(init, key, other, l);
      var r := Reject(init, other, l);
      if other(xs[n]) != l {
        var ys := r + [xs[n]];
        forall i, j | 0 <= i < j < |ys| ensures key(ys[i]) != key(ys[j]) {
          if j == |r| {
            assert ys[i] in init;
            var a :| 0 <= a < n && init[a] == ys[i];
            assert key(xs[a]) != key(xs[n]);
          }
        }
      }
    }
  }
}

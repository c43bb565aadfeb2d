/**
 * Sequence vocabulary shared by the folds: projection, filtering, the set of
 * keys a sequence carries, and de-duplication by key in first-seen order.
 *
 * Every recursive definition here peels the LAST element, so that a loop that
 * has processed `xs[..i]` can extend its invariant to `xs[..i+1]` by unfolding
 * once.
 */
module Seqs {

  /** `f` applied to every element, in order. */
  function Map<A, B>(xs: seq<A>, f: A -> B): (ys: seq<B>)
    ensures |ys| == |xs|
    ensures forall i :: 0 <= i < |xs| ==> ys[i] == f(xs[i])
  {
    seq(|xs|, i requires 0 <= i < |xs| => f(xs[i]))
  }

  lemma MapSnoc<A, B>(xs: seq<A>, x: A, f: A -> B)
    ensures Map(xs + [x], f) == Map(xs, f) + [f(x)]
  {
  }

  /** The elements satisfying `p`, in order. */
  function Filter<A(==)>(xs: seq<A>, p: A -> bool): (ys: seq<A>)
    ensures |ys| <= |xs|
    ensures forall y :: y in ys ==> y in xs && p(y)
    ensures forall y :: y in xs && p(y) ==> y in ys
  {
    if xs == [] then []
    else
      var rest := Filter(xs[..|xs| - 1], p);
      assert forall y :: y in xs[..|xs| - 1] ==> y in xs;
      if p(xs[|xs| - 1]) then rest + [xs[|xs| - 1]] else rest
  }

  lemma FilterSnoc<A>(xs: seq<A>, x: A, p: A -> bool)
    ensures Filter(xs + [x], p) == if p(x) then Filter(xs, p) + [x] else Filter(xs, p)
  {
    assert (xs + [x])[..|xs|] == xs;
  }

  /** The elements whose key is `k`, in order. */
  function Select<A(==)>(xs: seq<A>, key: A -> int, k: int): (ys: seq<A>)
    ensures |ys| <= |xs|
    ensures forall y :: y in ys ==> y in xs && key(y) == k
    ensures forall y :: y in xs && key(y) == k ==> y in ys
  {
    if xs == [] then []
    else
      var rest := Select(xs[..|xs| - 1], key, k);
      assert forall y :: y in xs[..|xs| - 1] ==> y in xs;
      if key(xs[|xs| - 1]) == k then rest + [xs[|xs| - 1]] else rest
  }

  lemma SelectSnoc<A>(xs: seq<A>, x: A, key: A -> int, k: int)
    ensures Select(xs + [x], key, k) == if key(x) == k then Select(xs, key, k) + [x] else Select(xs, key, k)
  {
    assert (xs + [x])[..|xs|] == xs;
  }

  /** Selection keeps order: two selected elements come from positions of `xs` in the same order. */
  lemma {:induction false} SelectOrdered<A>(xs: seq<A>, key: A -> int, k: int, i: nat, j: nat)
    requires i < j < |Select(xs, key, k)|
    ensures exists a, b :: 0 <= a < b < |xs| && xs[a] == Select(xs, key, k)[i] && xs[b] == Select(xs, key, k)[j]
  {
    var p := xs[..|xs| - 1];
    var x := xs[|xs| - 1];
    assert xs == p + [x];
    SelectSnoc(p, x, key, k);
    var sp := Select(p, key, k);
    if j < |sp| {
      SelectOrdered(p, key, k, i, j);
      var a, b :| 0 <= a < b < |p| && p[a] == sp[i] && p[b] == sp[j];
      assert xs[a] == p[a] && xs[b] == p[b];
    } else {
      assert sp[i] in sp;
      var a :| 0 <= a < |p| && p[a] == sp[i];
      assert xs[a] == p[a] && xs[|xs| - 1] == x;
    }
  }

  /** The set of keys the elements of `xs` carry. */
  function Keys<A>(xs: seq<A>, key: A -> int): set<int>
  {
    if xs == [] then {} else Keys(xs[..|xs| - 1], key) + {key(xs[|xs| - 1])}
  }

  lemma KeysSnoc<A>(xs: seq<A>, x: A, key: A -> int)
    ensures Keys(xs + [x], key) == Keys(xs, key) + {key(x)}
  {
    assert (xs + [x])[..|xs|] == xs;
  }

  /** A key is among the keys exactly when some element carries it. */
  lemma {:induction false} KeysAt<A>(xs: seq<A>, key: A -> int, k: int)
    ensures k in Keys(xs, key) <==> exists i :: 0 <= i < |xs| && key(xs[i]) == k
  {
    if xs != [] {
      var p := xs[..|xs| - 1];
      KeysAt(p, key, k);
      if k in Keys(p, key) {
        var i :| 0 <= i < |p| && key(p[i]) == k;
        assert key(xs[i]) == k;
      }
      if exists i :: 0 <= i < |xs| && key(xs[i]) == k {
        var i :| 0 <= i < |xs| && key(xs[i]) == k;
        if i < |p| {
          assert key(p[i]) == k;
        }
      }
    }
  }

  /** Filtering keeps a subset of the keys, under any key function. */
  lemma {:induction false} FilterKeys<A>(xs: seq<A>, p: A -> bool, key: A -> int)
    ensures Keys(Filter(xs, p), key) <= Keys(xs, key)
  {
    if xs != [] {
      var q := xs[..|xs| - 1];
      var x := xs[|xs| - 1];
      assert xs == q + [x];
      FilterKeys(q, p, key);
      FilterSnoc(q, x, p);
      KeysSnoc(q, x, key);
      if p(x) {
        KeysSnoc(Filter(q, p), x, key);
      }
    }
  }

  /** No element has a key outside the key set. */
  lemma {:induction false} SelectAbsent<A>(xs: seq<A>, key: A -> int, k: int)
    requires k !in Keys(xs, key)
    ensures Select(xs, key, k) == []
  {
    if xs != [] {
      var q := xs[..|xs| - 1];
      var x := xs[|xs| - 1];
      assert xs == q + [x];
      KeysSnoc(q, x, key);
      SelectAbsent(q, key, k);
      SelectSnoc(q, x, key, k);
    }
  }

  /** No key occurs twice. */
  ghost predicate UniqueKeys<A>(xs: seq<A>, key: A -> int) {
    forall i, j :: 0 <= i < j < |xs| ==> key(xs[i]) != key(xs[j])
  }

  /** `xs` with `x` appended unless its key is already present: one step of a fold. */
  function AddNew<A>(xs: seq<A>, x: A, key: A -> int): seq<A> {
    if key(x) in Keys(xs, key) then xs else xs + [x]
  }

  /**
   * The first element of `xs` for each key, in the order the keys first
   * appear: an element is kept exactly when no earlier element has its key.
   */
  function Dedup<A>(xs: seq<A>, key: A -> int): (ys: seq<A>)
    ensures |ys| <= |xs|
  {
    if xs == [] then []
    else
      var p := xs[..|xs| - 1];
      var x := xs[|xs| - 1];
      if key(x) in Keys(p, key) then Dedup(p, key) else Dedup(p, key) + [x]
  }

  /** Every element the de-duplication keeps comes from its input. */
  lemma {:induction false} DedupIn<A>(xs: seq<A>, key: A -> int, y: A)
    requires y in Dedup(xs, key)
    ensures y in xs
  {
    var p := xs[..|xs| - 1];
    if y in Dedup(p, key) {
      DedupIn(p, key, y);
      assert p <= xs;
    }
  }

  /** De-duplication keeps exactly the keys of its input. */
  lemma {:induction false} DedupKeys<A>(xs: seq<A>, key: A -> int)
    ensures Keys(Dedup(xs, key), key) == Keys(xs, key)
  {
    if xs != [] {
      var p := xs[..|xs| - 1];
      var x := xs[|xs| - 1];
      DedupKeys(p, key);
      if key(x) !in Keys(p, key) {
        KeysSnoc(Dedup(p, key), x, key);
      }
    }
  }

  /** De-duplication by one key keeps a subset of the keys under any other. */
  lemma {:induction false} DedupOtherKeys<A>(xs: seq<A>, key: A -> int, other: A -> int)
    ensures Keys(Dedup(xs, key), other) <= Keys(xs, other)
  {
    if xs != [] {
      var p := xs[..|xs| - 1];
      var x := xs[|xs| - 1];
      assert xs == p + [x];
      DedupOtherKeys(p, key, other);
      KeysSnoc(p, x, other);
      if key(x) !in Keys(p, key) {
        KeysSnoc(Dedup(p, key), x, other);
      }
    }
  }

  /** Appending one element to the input is one AddNew step on the output. */
  lemma DedupSnoc<A>(xs: seq<A>, x: A, key: A -> int)
    ensures Dedup(xs + [x], key) == AddNew(Dedup(xs, key), x, key)
  {
    assert (xs + [x])[..|xs|] == xs;
    DedupKeys(xs, key);
  }

  /** De-duplication leaves every key at most once. */
  lemma {:induction false} DedupUnique<A>(xs: seq<A>, key: A -> int)
    ensures UniqueKeys(Dedup(xs, key), key)
  {
    if xs != [] {
      var p := xs[..|xs| - 1];
      var x := xs[|xs| - 1];
      DedupUnique(p, key);
      DedupKeys(p, key);
      var d := Dedup(p, key);
      if key(x) !in Keys(p, key) {
        forall i | 0 <= i < |d| ensures key(d[i]) != key(x) {
          KeysAt(d, key, key(d[i]));
        }
      }
    }
  }

  /** The position of the first element of `xs` whose key is `k`. */
  function FirstIndex<A>(xs: seq<A>, key: A -> int, k: int): (i: nat)
    requires k in Keys(xs, key)
    ensures i < |xs| && key(xs[i]) == k
    ensures forall j :: 0 <= j < i ==> key(xs[j]) != k
  {
    var p := xs[..|xs| - 1];
    if k in Keys(p, key) then
      var i := FirstIndex(p, key, k);
      assert key(xs[i]) == k;
      i
    else
      KeysAt(p, key, k);
      assert forall j :: 0 <= j < |p| ==> key(xs[j]) != k by {
        forall j | 0 <= j < |p| ensures key(xs[j]) != k {
          assert xs[j] == p[j];
        }
      }
      |xs| - 1
  }

  /** The i-th element of the de-duplicated sequence is the first element of the input with its key. */
  lemma {:induction false} DedupAt<A>(xs: seq<A>, key: A -> int, i: nat)
    requires i < |Dedup(xs, key)|
    ensures key(Dedup(xs, key)[i]) in Keys(xs, key)
    ensures Dedup(xs, key)[i] == xs[FirstIndex(xs, key, key(Dedup(xs, key)[i]))]
  {
    var p := xs[..|xs| - 1];
    var x := xs[|xs| - 1];
    var dp := Dedup(p, key);
    KeysSnoc(p, x, key);
    assert xs == p + [x];
    if i < |dp| {
      DedupAt(p, key, i);
      var k := key(dp[i]);
      assert FirstIndex(xs, key, k) == FirstIndex(p, key, k);
    } else {
      assert FirstIndex(xs, key, key(x)) == |xs| - 1;
    }
  }

  /** Along the de-duplicated sequence, the first positions of the keys increase. */
  lemma {:induction false} DedupOrdered<A>(xs: seq<A>, key: A -> int, i: nat, j: nat)
    requires i < j < |Dedup(xs, key)|
    ensures key(Dedup(xs, key)[i]) in Keys(xs, key) && key(Dedup(xs, key)[j]) in Keys(xs, key)
    ensures FirstIndex(xs, key, key(Dedup(xs, key)[i])) < FirstIndex(xs, key, key(Dedup(xs, key)[j]))
  {
    DedupAt(xs, key, i);
    DedupAt(xs, key, j);
    var p := xs[..|xs| - 1];
    var x := xs[|xs| - 1];
    var dp := Dedup(p, key);
    DedupAt(p, key, i);
    var ki := key(dp[i]);
    assert FirstIndex(xs, key, ki) == FirstIndex(p, key, ki);
    if j < |dp| {
      DedupOrdered(p, key, i, j);
      DedupAt(p, key, j);
      var kj := key(dp[j]);
      assert FirstIndex(xs, key, kj) == FirstIndex(p, key, kj);
    } else {
      assert FirstIndex(xs, key, key(x)) == |xs| - 1;
    }
  }

  /**
   * `out` lists each key of `xs` exactly once, as the first element of `xs`
   * carrying it, in the order the keys first appear in `xs`.
   */
  ghost predicate FirstSeen<A>(out: seq<A>, xs: seq<A>, key: A -> int) {
    && UniqueKeys(out, key)
    && Keys(out, key) == Keys(xs, key)
    && (forall i :: 0 <= i < |out| ==>
          key(out[i]) in Keys(xs, key) && out[i] == xs[FirstIndex(xs, key, key(out[i]))])
    && (forall i, j :: 0 <= i < j < |out| ==>
          key(out[i]) in Keys(xs, key) && key(out[j]) in Keys(xs, key) &&
          FirstIndex(xs, key, key(out[i])) < FirstIndex(xs, key, key(out[j])))
  }

  /** De-duplication is exactly first-seen selection. */
  lemma DedupFirstSeen<A>(xs: seq<A>, key: A -> int)
    ensures FirstSeen(Dedup(xs, key), xs, key)
  {
    var d := Dedup(xs, key);
    DedupUnique(xs, key);
    DedupKeys(xs, key);
    forall i | 0 <= i < |d|
      ensures key(d[i]) in Keys(xs, key) && d[i] == xs[FirstIndex(xs, key, key(d[i]))]
    {
      DedupAt(xs, key, i);
    }
    forall i, j | 0 <= i < j < |d|
      ensures key(d[i]) in Keys(xs, key) && key(d[j]) in Keys(xs, key) &&
              FirstIndex(xs, key, key(d[i])) < FirstIndex(xs, key, key(d[j]))
    {
      DedupOrdered(xs, key, i, j);
    }
  }

  /** Keeping only the elements of one group preserves key uniqueness. */
  lemma {:induction false} SelectUnique<A>(xs: seq<A>, group: A -> int, g: int, key: A -> int)
    requires UniqueKeys(xs, key)
    ensures UniqueKeys(Select(xs, group, g), key)
  {
    if xs != [] {
      var p := xs[..|xs| - 1];
      var x := xs[|xs| - 1];
      assert xs == p + [x];
      SelectUnique(p, group, g, key);
      SelectSnoc(p, x, group, g);
      var s := Select(p, group, g);
      forall i | 0 <= i < |s| ensures key(s[i]) != key(x) {
        assert s[i] in p;
        var j :| 0 <= j < |p| && p[j] == s[i];
        assert xs[j] == s[i];
      }
    }
  }

  /** Two sequences whose elements carry the same keys position by position have the same key set and uniqueness. */
  lemma KeysPointwise<A, B>(xs: seq<A>, kx: A -> int, ys: seq<B>, ky: B -> int)
    requires |xs| == |ys|
    requires forall i :: 0 <= i < |xs| ==> kx(xs[i]) == ky(ys[i])
    ensures Keys(xs, kx) == Keys(ys, ky)
    ensures UniqueKeys(xs, kx) <==> UniqueKeys(ys, ky)
  {
    forall k ensures k in Keys(xs, kx) <==> k in Keys(ys, ky) {
      KeysAt(xs, kx, k);
      KeysAt(ys, ky, k);
    }
  }
}

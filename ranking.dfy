/** The ranking step of the three handlers: Python's `list.sort(key=...)` with a
    key `(flag, distance)` (app.py:191, 265, 359). Python's sort is stable, so
    it is modelled by a stable insertion sort, and the lemmas below show that
    the sorted sequence is the only one that is ordered by the key and keeps
    the input order among elements with equal keys. */
module Ranking {

  /** A sort key as Python compares the tuple `(late, d)`: False before True,
      then ascending `d`. */
  datatype Key = Key(late: bool, d: real)

  predicate KeyLe(a: Key, b: Key) {
    (!a.late && b.late) || (a.late == b.late && a.d <= b.d)
  }

  /** KeyLe is a total order on keys. */
  lemma KeyLeTotalOrder(a: Key, b: Key, c: Key)
    ensures KeyLe(a, a)
    ensures KeyLe(a, b) || KeyLe(b, a)
    ensures KeyLe(a, b) && KeyLe(b, a) ==> a == b
    ensures KeyLe(a, b) && KeyLe(b, c) ==> KeyLe(a, c)
  {
  }

  /** `s` is in ascending key order. */
  ghost predicate Sorted<T>(s: seq<T>, key: T -> Key) {
    forall i, j :: 0 <= i < j < |s| ==> KeyLe(key(s[i]), key(s[j]))
  }

  /** The elements of `s` whose key is `k`, in their order in `s`. */
  function WithKey<T>(s: seq<T>, key: T -> Key, k: Key): seq<T>
    decreases |s|
  {
    if s == [] then [] else WithKey(s[..|s| - 1], key, k) + (if key(s[|s| - 1]) == k then [s[|s| - 1]] else [])
  }

  /** `x` inserted after the last element of `s` whose key is at most `x`'s:
      a sorted `s` stays sorted, and nothing is lost or added. */
  function Insert<T>(s: seq<T>, x: T, key: T -> Key): (r: seq<T>)
    ensures multiset(r) == multiset(s) + multiset{x} && |r| == |s| + 1
    ensures Sorted(s, key) ==> Sorted(r, key)
    decreases |s|
  {
    if s == [] then [x]
    else if KeyLe(key(s[|s| - 1]), key(x)) then s + [x]
    else
      var init, last := s[..|s| - 1], s[|s| - 1];
      assert s == init + [last];
      var r' := Insert(init, x, key);
      assert Sorted(s, key) ==> Sorted(r' + [last], key) by {
        if Sorted(s, key) {
          assert Sorted(init, key);
          InsertedBeforeLast(init, last, x, r', key);
        }
      }
      r' + [last]
  }

  /** The step of Insert that passes `x` over a larger last element: the
      sorted result of inserting `x` into the rest, followed by that last
      element, is sorted. */
  lemma InsertedBeforeLast<T>(init: seq<T>, last: T, x: T, r: seq<T>, key: T -> Key)
    requires Sorted(init + [last], key) && Sorted(r, key)
    requires KeyLe(key(x), key(last))
    requires multiset(r) == multiset(init) + multiset{x}
    ensures Sorted(r + [last], key)
  {
    var s := init + [last];
    forall i | 0 <= i < |r|
      ensures KeyLe(key(r[i]), key(last))
    {
      assert r[i] in multiset(init) + multiset{x};
      if r[i] in init {
        var j :| 0 <= j < |init| && init[j] == r[i];
        assert s[j] == r[i] && s[|init|] == last;
      }
    }
  }

  /** Python's stable `sorted(s, key=key)`: a permutation of `s` in key order. */
  function Sort<T>(s: seq<T>, key: T -> Key): (r: seq<T>)
    ensures multiset(r) == multiset(s) && |r| == |s|
    ensures Sorted(r, key)
    decreases |s|
  {
    if s == [] then []
    else
      assert s == s[..|s| - 1] + [s[|s| - 1]];
      Insert(Sort(s[..|s| - 1], key), s[|s| - 1], key)
  }

  lemma WithKeyAppend<T>(s: seq<T>, x: T, key: T -> Key, k: Key)
    ensures WithKey(s + [x], key, k) == WithKey(s, key, k) + (if key(x) == k then [x] else [])
  {
    assert (s + [x])[..|s|] == s;
  }

  /** Inserting `x` adds it at the end of the elements that share its key. */
  lemma {:induction false} InsertStable<T>(s: seq<T>, x: T, key: T -> Key, k: Key)
    ensures WithKey(Insert(s, x, key), key, k) == WithKey(s, key, k) + (if key(x) == k then [x] else [])
    decreases |s|
  {
    if s == [] {
      WithKeyAppend([], x, key, k);
    } else if KeyLe(key(s[|s| - 1]), key(x)) {
      WithKeyAppend(s, x, key, k);
    } else {
      var init, last := s[..|s| - 1], s[|s| - 1];
      assert s == init + [last];
      InsertStable(init, x, key, k);
      WithKeyAppend(Insert(init, x, key), last, key, k);
      WithKeyAppend(init, last, key, k);
      assert key(last) != key(x);
    }
  }

  /** The sort is stable: the elements with any one key keep their input order. */
  lemma {:induction false} SortStable<T>(s: seq<T>, key: T -> Key, k: Key)
    ensures WithKey(Sort(s, key), key, k) == WithKey(s, key, k)
    decreases |s|
  {
    if s != [] {
      var init, last := s[..|s| - 1], s[|s| - 1];
      SortStable(init, key, k);
      InsertStable(Sort(init, key), last, key, k);
    }
  }

  /** Some element has key `k` exactly when the elements with key `k` are not none. */
  lemma {:induction false} WithKeyPresent<T>(s: seq<T>, key: T -> Key, k: Key)
    ensures WithKey(s, key, k) != [] <==> exists i :: 0 <= i < |s| && key(s[i]) == k
    decreases |s|
  {
    if s != [] {
      var init := s[..|s| - 1];
      WithKeyPresent(init, key, k);
      if exists i :: 0 <= i < |init| && key(init[i]) == k {
        var i :| 0 <= i < |init| && key(init[i]) == k;
        assert key(s[i]) == k;
      }
      if exists i :: 0 <= i < |s| && key(s[i]) == k {
        var i :| 0 <= i < |s| && key(s[i]) == k;
        if i < |init| {
          assert key(init[i]) == k;
        }
      }
    }
  }

  /** In a sequence in key order no key exceeds the last one. */
  lemma LastKeyIsMax<T>(r: seq<T>, key: T -> Key, j: int)
    requires Sorted(r, key) && 0 <= j < |r|
    ensures KeyLe(key(r[j]), key(r[|r| - 1]))
  {
    if j == |r| - 1 {
      KeyLeTotalOrder(key(r[j]), key(r[j]), key(r[j]));
    }
  }

  /** Sequences in key order that agree key by key end with the same key. */
  lemma LastKeysAgree<T>(r1: seq<T>, r2: seq<T>, key: T -> Key)
    requires Sorted(r1, key) && Sorted(r2, key) && r1 != [] && r2 != []
    requires forall k :: WithKey(r1, key, k) == WithKey(r2, key, k)
    ensures key(r1[|r1| - 1]) == key(r2[|r2| - 1])
  {
    var m1, m2 := key(r1[|r1| - 1]), key(r2[|r2| - 1]);
    WithKeyPresent(r2, key, m2);
    assert WithKey(r1, key, m2) == WithKey(r2, key, m2);
    WithKeyPresent(r1, key, m2);
    var j1 :| 0 <= j1 < |r1| && key(r1[j1]) == m2;
    LastKeyIsMax(r1, key, j1);
    WithKeyPresent(r1, key, m1);
    assert WithKey(r1, key, m1) == WithKey(r2, key, m1);
    WithKeyPresent(r2, key, m1);
    var j2 :| 0 <= j2 < |r2| && key(r2[j2]) == m1;
    LastKeyIsMax(r2, key, j2);
    KeyLeTotalOrder(m1, m2, m1);
  }

  /** Two sequences whose last elements share a key and that agree on that
      key's elements end with the same element. */
  lemma DropLastSame<T>(i1: seq<T>, l1: T, i2: seq<T>, l2: T, key: T -> Key)
    requires key(l1) == key(l2)
    requires WithKey(i1 + [l1], key, key(l1)) == WithKey(i2 + [l2], key, key(l1))
    ensures l1 == l2
  {
    var m := key(l1);
    WithKeyAppend(i1, l1, key, m);
    WithKeyAppend(i2, l2, key, m);
    var w1, w2 := WithKey(i1, key, m) + [l1], WithKey(i2, key, m) + [l2];
    assert l1 == w1[|w1| - 1] == w2[|w2| - 1] == l2;
  }

  lemma SnocCancel<T>(a: seq<T>, b: seq<T>, x: T)
    requires a + [x] == b + [x]
    ensures a == b
  {
    assert |a| == |b|;
    assert a == (a + [x])[..|a|];
    assert b == (b + [x])[..|b|];
  }

  /** Removing equal last elements keeps the agreement on key `k`. */
  lemma DropLastAt<T>(i1: seq<T>, l: T, i2: seq<T>, key: T -> Key, k: Key)
    requires WithKey(i1 + [l], key, k) == WithKey(i2 + [l], key, k)
    ensures WithKey(i1, key, k) == WithKey(i2, key, k)
  {
    WithKeyAppend(i1, l, key, k);
    WithKeyAppend(i2, l, key, k);
    var tail: seq<T> := if key(l) == k then [l] else [];
    var w1, w2 := WithKey(i1, key, k), WithKey(i2, key, k);
    assert w1 + tail == w2 + tail;
    if key(l) == k {
      SnocCancel(w1, w2, l);
    } else {
      assert w1 == w1 + tail && w2 == w2 + tail;
    }
  }

  /** Removing equal last elements keeps the key-by-key agreement. */
  lemma DropLastAgrees<T>(i1: seq<T>, l1: T, i2: seq<T>, l2: T, key: T -> Key)
    requires key(l1) == key(l2)
    requires forall k :: WithKey(i1 + [l1], key, k) == WithKey(i2 + [l2], key, k)
    ensures l1 == l2
    ensures forall k :: WithKey(i1, key, k) == WithKey(i2, key, k)
  {
    DropLastSame(i1, l1, i2, l2, key);
    forall k
      ensures WithKey(i1, key, k) == WithKey(i2, key, k)
    {
      DropLastAt(i1, l1, i2, key, k);
    }
  }

  /** Two sequences in key order that agree, key by key, on which elements
      carry that key and in what order, are equal. */
  lemma {:induction false} StableOrderUnique<T>(r1: seq<T>, r2: seq<T>, key: T -> Key)
    requires Sorted(r1, key) && Sorted(r2, key)
    requires forall k :: WithKey(r1, key, k) == WithKey(r2, key, k)
    ensures r1 == r2
    decreases |r1| + |r2|
  {
    if r1 != [] && r2 == [] {
      WithKeyPresent(r1, key, key(r1[|r1| - 1]));
    } else if r1 == [] && r2 != [] {
      WithKeyPresent(r2, key, key(r2[|r2| - 1]));
    } else if r1 != [] {
      LastKeysAgree(r1, r2, key);
      var i1, i2 := r1[..|r1| - 1], r2[..|r2| - 1];
      assert r1 == i1 + [r1[|r1| - 1]] && r2 == i2 + [r2[|r2| - 1]];
      DropLastAgrees(i1, r1[|r1| - 1], i2, r2[|r2| - 1], key);
      assert Sorted(i1, key) && Sorted(i2, key);
      StableOrderUnique(i1, i2, key);
    }
  }

  /** Python's stable sort is well defined: Sort(s) is the one sequence that is
      in key order and keeps the input order within every key. */
  lemma SortIsTheStableSort<T>(s: seq<T>, key: T -> Key, r: seq<T>)
    requires Sorted(r, key)
    requires forall k :: WithKey(r, key, k) == WithKey(s, key, k)
    ensures r == Sort(s, key)
  {
    forall k
      ensures WithKey(r, key, k) == WithKey(Sort(s, key), key, k)
    {
      SortStable(s, key, k);
    }
    StableOrderUnique(r, Sort(s, key), key);
  }

  /** Python's `s[:n]`: the first `n` elements, or all of `s` when it is shorter. */
  function Top<T>(s: seq<T>, n: nat): (r: seq<T>)
    ensures |r| <= n && |r| <= |s| && r == s[..|r|]
    ensures |s| <= n ==> r == s
    ensures |s| > n ==> |r| == n
  {
    if |s| <= n then s else s[..n]
  }

  /** Cutting a sequence in key order keeps the best: no element left out
      ranks strictly before one that is kept. */
  lemma TopKeepsBest<T>(s: seq<T>, key: T -> Key, n: nat, kept: T, dropped: T)
    requires Sorted(s, key)
    requires kept in Top(s, n) && dropped in s && dropped !in Top(s, n)
    ensures KeyLe(key(kept), key(dropped))
  {
    var t := Top(s, n);
    var i :| 0 <= i < |t| && t[i] == kept;
    var j :| 0 <= j < |s| && s[j] == dropped;
    assert s[i] == kept;
  }
}

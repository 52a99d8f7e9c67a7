/** The loop shape the three handlers share: walk a sequence, and for each
    element either append one entry to `result`, `continue`, or let an
    exception escape the handler. */
module Visits {
  import opened Wrappers

  /** What the loop leaves in `result` after visiting `xs` in order, where
      `visit` says for one element: an entry (`Ok(Some(u))`), a skip
      (`Ok(None)`) or an uncaught exception (`Raised`). */
  function Collect<T, U>(xs: seq<T>, visit: T -> Outcome<Option<U>>): (r: Outcome<seq<U>>)
    ensures r.Ok? ==> |r.value| <= |xs|
    decreases |xs|
  {
    if xs == [] then Ok([])
    else
      var acc :- Collect(xs[..|xs| - 1], visit);
      var v :- visit(xs[|xs| - 1]);
      Ok(acc + (if v.Some? then [v.value] else []))
  }

  /** One more step of the loop: an exception ends it, a skip leaves the
      result as it was, an entry is appended. */
  lemma CollectSnoc<T, U>(xs: seq<T>, x: T, visit: T -> Outcome<Option<U>>)
    ensures Collect(xs, visit).Raised? || visit(x).Raised? ==> Collect(xs + [x], visit).Raised?
    ensures Collect(xs, visit).Ok? && visit(x) == Ok(None) ==> Collect(xs + [x], visit) == Collect(xs, visit)
    ensures Collect(xs, visit).Ok? && visit(x).Ok? && visit(x).value.Some? ==>
      Collect(xs + [x], visit) == Ok(Collect(xs, visit).value + [visit(x).value.value])
  {
    assert (xs + [x])[..|xs|] == xs;
    if Collect(xs, visit).Ok? {
      assert Collect(xs, visit).value + [] == Collect(xs, visit).value;
    }
  }

  /** One step of a loop that computes `Collect`, when element `i` does not
      raise: its outcome `e` leaves the result as it was or appends an entry. */
  lemma CollectStep<T, U>(xs: seq<T>, i: int, visit: T -> Outcome<Option<U>>, acc: seq<U>, e: Outcome<Option<U>>)
    requires 0 <= i < |xs| && Collect(xs[..i], visit) == Ok(acc) && e == visit(xs[i])
    ensures e == Ok(None) ==> Collect(xs[..i + 1], visit) == Ok(acc)
    ensures e.Ok? && e.value.Some? ==> Collect(xs[..i + 1], visit) == Ok(acc + [e.value.value])
  {
    var prefix, x := xs[..i], xs[i];
    assert xs[..i + 1] == prefix + [x];
    CollectSnoc(prefix, x, visit);
  }

  /** The loop raises exactly when one of the elements raises. */
  lemma {:induction false} CollectRaised<T, U>(xs: seq<T>, visit: T -> Outcome<Option<U>>)
    ensures Collect(xs, visit).Raised? <==> exists i :: 0 <= i < |xs| && visit(xs[i]).Raised?
    decreases |xs|
  {
    if xs != [] {
      var init := xs[..|xs| - 1];
      CollectRaised(init, visit);
      assert forall i :: 0 <= i < |init| ==> init[i] == xs[i];
    }
  }

  /** An element whose visit raises makes the whole loop raise. */
  lemma RaisedAt<T, U>(xs: seq<T>, i: int, visit: T -> Outcome<Option<U>>)
    requires 0 <= i < |xs| && visit(xs[i]).Raised?
    ensures Collect(xs, visit).Raised?
  {
    CollectRaised(xs, visit);
  }

  /** When nothing raises, an entry is in the result exactly when some element
      produced it. */
  lemma {:induction false} CollectMembers<T, U>(xs: seq<T>, visit: T -> Outcome<Option<U>>, u: U)
    requires Collect(xs, visit).Ok?
    ensures u in Collect(xs, visit).value <==> exists i :: 0 <= i < |xs| && visit(xs[i]) == Ok(Some(u))
    decreases |xs|
  {
    if xs != [] {
      var init := xs[..|xs| - 1];
      CollectMembers(init, visit, u);
      assert forall i :: 0 <= i < |init| ==> init[i] == xs[i];
      if exists i :: 0 <= i < |xs| && visit(xs[i]) == Ok(Some(u)) {
        var i :| 0 <= i < |xs| && visit(xs[i]) == Ok(Some(u));
        if i < |init| {
          assert visit(init[i]) == Ok(Some(u));
        }
      }
    }
  }

  /** The result keeps the input order: visiting `a` then `b` gives `a`'s
      entries followed by `b`'s. */
  lemma {:induction false} CollectAppend<T, U>(a: seq<T>, b: seq<T>, visit: T -> Outcome<Option<U>>)
    requires Collect(a, visit).Ok? && Collect(b, visit).Ok?
    ensures Collect(a + b, visit) == Ok(Collect(a, visit).value + Collect(b, visit).value)
    decreases |b|
  {
    if b == [] {
      assert a + b == a && Collect(b, visit) == Ok([]);
      assert Collect(a, visit).value + [] == Collect(a, visit).value;
    } else {
      var init, last := b[..|b| - 1], b[|b| - 1];
      assert a + b == (a + init) + [last];
      assert b == init + [last];
      CollectSnoc(init, last, visit);
      assert Collect(init, visit).Ok? && visit(last).Ok?;
      CollectAppend(a, init, visit);
      CollectSnoc(a + init, last, visit);
      var tail := if visit(last).value.Some? then [visit(last).value.value] else [];
      assert Collect(b, visit).value == Collect(init, visit).value + tail;
      assert Collect(a + b, visit) == Ok((Collect(a, visit).value + Collect(init, visit).value) + tail);
      assert (Collect(a, visit).value + Collect(init, visit).value) + tail == Collect(a, visit).value + Collect(b, visit).value;
    }
  }

  /** A dict filled by a loop that, for each element, may set `d[k] = v`:
      a later element overwrites an earlier one with the same key. */
  function Tabulate<T, K(==), V>(xs: seq<T>, entry: T -> Option<(K, V)>): map<K, V>
    decreases |xs|
  {
    if xs == [] then map[]
    else
      var d := Tabulate(xs[..|xs| - 1], entry);
      var e := entry(xs[|xs| - 1]);
      if e.Some? then d[e.value.0 := e.value.1] else d
  }

  /** One more element: it sets its key, overwriting, or leaves the dict alone. */
  lemma TabulateSnoc<T, K, V>(xs: seq<T>, x: T, entry: T -> Option<(K, V)>)
    ensures entry(x).None? ==> Tabulate(xs + [x], entry) == Tabulate(xs, entry)
    ensures entry(x).Some? ==> Tabulate(xs + [x], entry) == Tabulate(xs, entry)[entry(x).value.0 := entry(x).value.1]
  {
    assert (xs + [x])[..|xs|] == xs;
  }

  /** Element `x` sets key `k`. */
  predicate Sets<T, K(==), V>(entry: T -> Option<(K, V)>, x: T, k: K) {
    entry(x).Some? && entry(x).value.0 == k
  }

  /** A key is in the dict exactly when some element sets it. */
  lemma {:induction false} TabulateKeys<T, K, V>(xs: seq<T>, entry: T -> Option<(K, V)>, k: K)
    ensures k in Tabulate(xs, entry) <==> exists i :: 0 <= i < |xs| && Sets(entry, xs[i], k)
    decreases |xs|
  {
    if xs != [] {
      var init := xs[..|xs| - 1];
      TabulateKeys(init, entry, k);
      if exists i :: 0 <= i < |init| && Sets(entry, init[i], k) {
        var i :| 0 <= i < |init| && Sets(entry, init[i], k);
        assert xs[i] == init[i];
      }
      if exists i :: 0 <= i < |xs| && Sets(entry, xs[i], k) {
        var i :| 0 <= i < |xs| && Sets(entry, xs[i], k);
        if i < |init| {
          assert xs[i] == init[i];
        }
      }
    }
  }

  /** The last element that sets a key decides its value. */
  lemma {:induction false} TabulateLastWins<T, K, V>(xs: seq<T>, entry: T -> Option<(K, V)>, i: int, k: K, v: V)
    requires 0 <= i < |xs| && entry(xs[i]) == Some((k, v))
    requires forall j :: i < j < |xs| ==> !Sets(entry, xs[j], k)
    ensures k in Tabulate(xs, entry) && Tabulate(xs, entry)[k] == v
    decreases |xs|
  {
    if i < |xs| - 1 {
      var init := xs[..|xs| - 1];
      assert init[i] == xs[i];
      assert forall j :: i < j < |init| ==> init[j] == xs[j];
      TabulateLastWins(init, entry, i, k, v);
    }
  }

  /** A loop that appends `f(x)` for each `x` it does not skip (`f(x)` None),
      with nothing that can escape it. */
  function Kept<T, U>(xs: seq<T>, f: T -> Option<U>): seq<U>
    decreases |xs|
  {
    if xs == [] then []
    else
      var t := f(xs[|xs| - 1]);
      Kept(xs[..|xs| - 1], f) + (if t.Some? then [t.value] else [])
  }

  /** The loop keeps the input order. */
  lemma {:induction false} KeptAppend<T, U>(a: seq<T>, b: seq<T>, f: T -> Option<U>)
    ensures Kept(a + b, f) == Kept(a, f) + Kept(b, f)
    decreases |b|
  {
    if b == [] {
      assert a + b == a;
    } else {
      var init := b[..|b| - 1];
      assert (a + b)[..|a + b| - 1] == a + init;
      assert (a + b)[|a + b| - 1] == b[|b| - 1];
      KeptAppend(a, init, f);
    }
  }

  /** An output is kept exactly when some element gives it. */
  lemma {:induction false} KeptMembers<T, U>(xs: seq<T>, f: T -> Option<U>, u: U)
    ensures u in Kept(xs, f) <==> exists i :: 0 <= i < |xs| && f(xs[i]) == Some(u)
    decreases |xs|
  {
    if xs != [] {
      var init := xs[..|xs| - 1];
      KeptMembers(init, f, u);
      if exists i :: 0 <= i < |init| && f(init[i]) == Some(u) {
        var i :| 0 <= i < |init| && f(init[i]) == Some(u);
        assert xs[i] == init[i];
      }
      if exists i :: 0 <= i < |xs| && f(xs[i]) == Some(u) {
        var i :| 0 <= i < |xs| && f(xs[i]) == Some(u);
        if i < |init| {
          assert f(init[i]) == Some(u);
        }
      }
    }
  }

  /** One output per element that is not skipped. */
  lemma {:induction false} KeptLength<T, U>(xs: seq<T>, f: T -> Option<U>)
    ensures |Kept(xs, f)| == |set i | 0 <= i < |xs| && f(xs[i]).Some?|
    decreases |xs|
  {
    if xs != [] {
      var init := xs[..|xs| - 1];
      KeptLength(init, f);
      var kept := set i | 0 <= i < |xs| && f(xs[i]).Some?;
      var keptInit := set i | 0 <= i < |init| && f(init[i]).Some?;
      assert forall i :: 0 <= i < |init| ==> xs[i] == init[i];
      if f(xs[|xs| - 1]).Some? {
        assert kept == keptInit + {|xs| - 1};
      } else {
        assert kept == keptInit;
      }
    }
  }
}

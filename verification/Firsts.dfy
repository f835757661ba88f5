/** First occurrences: what a loop that skips keys it has met keeps, said by position. */
module Firsts {
  /** Position `i` holds a key outside `known` that occurs nowhere before it. */
  predicate First<K(==)>(known: set<K>, ks: seq<K>, i: nat) {
    i < |ks| && ks[i] !in known && ks[i] !in ks[..i]
  }

  /** `at` lists exactly the first positions, in order. */
  ghost predicate AreFirsts<K>(known: set<K>, ks: seq<K>, at: seq<nat>) {
    && (forall m, n :: 0 <= m < n < |at| ==> at[m] < at[n])
    && (forall m :: 0 <= m < |at| ==> First(known, ks, at[m]))
    && (forall i :: First(known, ks, i) ==> i in at)
  }

  function Shift(at: seq<nat>): seq<nat> {
    seq(|at|, m requires 0 <= m < |at| => at[m] + 1)
  }

  lemma FirstCons<K>(known: set<K>, ks: seq<K>, i: nat)
    requires ks != []
    ensures First(known, ks, i + 1) <==> First(known + {ks[0]}, ks[1..], i)
  {
    if i + 1 < |ks| {
      assert ks[..i + 1] == [ks[0]] + ks[1..][..i];
    }
  }

  lemma FirstsCons<K>(known: set<K>, ks: seq<K>, at: seq<nat>)
    requires ks != [] && AreFirsts(known + {ks[0]}, ks[1..], at)
    ensures AreFirsts(known, ks, (if ks[0] in known then [] else [0]) + Shift(at))
  {
    var all := (if ks[0] in known then [] else [0]) + Shift(at);
    forall m | 0 <= m < |at| ensures First(known, ks, Shift(at)[m]) {
      FirstCons(known, ks, at[m]);
    }
    forall i: nat | First(known, ks, i) ensures i in all {
      if i > 0 {
        FirstCons(known, ks, i - 1);
        var m :| 0 <= m < |at| && at[m] == i - 1;
        assert Shift(at)[m] == i;
        assert i in Shift(at);
      } else {
        assert all[0] == 0;
      }
    }
  }

  lemma {:induction false} FirstExists<K>(known: set<K>, ks: seq<K>, k: K) returns (i: nat)
    requires k in ks && k !in known
    ensures First(known, ks, i) && ks[i] == k
    decreases |ks|
  {
    var init := ks[..|ks| - 1];
    if k in init {
      i := FirstExists(known, init, k);
      assert init[..i] == ks[..i];
    } else {
      i := |ks| - 1;
      assert ks == init + [ks[i]];
    }
  }

  function Elems<K(==)>(ks: seq<K>): set<K> {
    set k | k in ks
  }

  function KeysAt<K>(ks: seq<K>, at: seq<nat>): seq<K>
    requires forall m :: 0 <= m < |at| ==> at[m] < |ks|
  {
    seq(|at|, m requires 0 <= m < |at| => ks[at[m]])
  }

  predicate Distinct<K(==)>(ks: seq<K>) {
    forall m, n :: 0 <= m < n < |ks| ==> ks[m] != ks[n]
  }

  lemma {:induction false} DistinctSize<K>(ks: seq<K>)
    requires Distinct(ks)
    ensures |Elems(ks)| == |ks|
    decreases |ks|
  {
    if ks == [] {
      assert Elems(ks) == {};
    } else {
      DistinctSize(ks[1..]);
      assert ks == [ks[0]] + ks[1..];
      assert Elems(ks) == {ks[0]} + Elems(ks[1..]);
    }
  }

  /** `picked` are the elements of `xs` at the positions `at`. */
  ghost predicate Picks<T>(xs: seq<T>, at: seq<nat>, picked: seq<T>) {
    |picked| == |at| && forall m :: 0 <= m < |at| ==> at[m] < |xs| && picked[m] == xs[at[m]]
  }

  lemma PicksCons<T>(xs: seq<T>, at: seq<nat>, picked: seq<T>)
    requires xs != [] && Picks(xs[1..], at, picked)
    ensures Picks(xs, Shift(at), picked) && Picks(xs, [0] + Shift(at), [xs[0]] + picked)
  {
    forall m | 0 <= m < |at| ensures xs[Shift(at)[m]] == picked[m] {
      assert xs[1..][at[m]] == xs[at[m] + 1];
    }
  }

  /** The keys at the first positions are the distinct keys outside `known`, each once. */
  lemma FirstsAreDistinctNew<K>(known: set<K>, ks: seq<K>, at: seq<nat>)
    requires AreFirsts(known, ks, at)
    ensures Distinct(KeysAt(ks, at)) && Elems(KeysAt(ks, at)) == Elems(ks) - known
    ensures |at| == |Elems(ks) - known|
  {
    var keys := KeysAt(ks, at);
    forall m, n | 0 <= m < n < |at| ensures keys[m] != keys[n] {
      assert ks[at[m]] == ks[..at[n]][at[m]];
    }
    forall k | k in Elems(ks) - known ensures k in keys {
      var i := FirstExists(known, ks, k);
      var m :| 0 <= m < |at| && at[m] == i;
      assert keys[m] == k;
    }
    DistinctSize(keys);
  }
}

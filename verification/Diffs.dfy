/**
 Lists of diffs over one bucket, and what committing or reverting them does.
 A bucket is a map; a diff adds or removes one entry.
 */
module Diffs {
  import opened Sums

  // apply is true for a diff that adds its entry when applied (DiffApply), false for one
  // that removes it (DiffRevert). A removing diff records the value it removes.
  datatype Diff<K, V> = Diff(apply: bool, id: K, value: V)

  function Commit<K(==), V>(m: map<K, V>, d: Diff<K, V>, apply: bool): map<K, V>
  {
    if d.apply == apply then m[d.id := d.value] else m - {d.id}
  }

  // Commit all diffs in the apply direction, first to last.
  function CommitAll<K(==), V>(m: map<K, V>, ds: seq<Diff<K, V>>): map<K, V>
  {
    if ds == [] then m else
      Commit(CommitAll(m, ds[..|ds| - 1]), ds[|ds| - 1], true)
  }

  // Commit all diffs in the revert direction, last to first.
  function RevertAll<K(==), V>(m: map<K, V>, ds: seq<Diff<K, V>>): map<K, V>
    decreases |ds|
  {
    if ds == [] then m else
      RevertAll(Commit(m, ds[|ds| - 1], false), ds[..|ds| - 1])
  }

  // Every addition is of an absent key and every removal of a present one.
  ghost predicate Fits<K, V>(m: map<K, V>, ds: seq<Diff<K, V>>)
  {
    ds == [] ||
    (Fits(m, ds[..|ds| - 1]) &&
     (ds[|ds| - 1].apply <==> ds[|ds| - 1].id !in CommitAll(m, ds[..|ds| - 1])))
  }

  // Every removal of a present key records the removed value, as far as view can tell.
  ghost predicate Records<K, V, W>(m: map<K, V>, ds: seq<Diff<K, V>>, view: V -> W)
  {
    ds == [] ||
    (Records(m, ds[..|ds| - 1], view) &&
     var d := ds[|ds| - 1];
     var before := CommitAll(m, ds[..|ds| - 1]);
     !d.apply && d.id in before ==> view(before[d.id]) == view(d.value))
  }

  function Itself<V>(v: V): V { v }

  ghost function Ids<K, V>(ds: seq<Diff<K, V>>): set<K>
  {
    set d | d in ds :: d.id
  }

  ghost predicate Distinct<K, V>(ds: seq<Diff<K, V>>)
  {
    forall i, j :: 0 <= i < j < |ds| ==> ds[i].id != ds[j].id
  }

  ghost predicate AllApply<K, V>(ds: seq<Diff<K, V>>)
  {
    forall d :: d in ds ==> d.apply
  }

  ghost predicate AllRemove<K, V>(ds: seq<Diff<K, V>>)
  {
    forall d :: d in ds ==> !d.apply
  }

  lemma {:induction false} CommitAppend<K, V>(m: map<K, V>, a: seq<Diff<K, V>>, b: seq<Diff<K, V>>)
    ensures CommitAll(m, a + b) == CommitAll(CommitAll(m, a), b)
  {
    if b == [] {
      assert a + b == a;
    } else {
      assert (a + b)[..|a + b| - 1] == a + b[..|b| - 1];
      CommitAppend(m, a, b[..|b| - 1]);
    }
  }

  lemma {:induction false} FitsAppend<K, V>(m: map<K, V>, a: seq<Diff<K, V>>, b: seq<Diff<K, V>>)
    requires Fits(m, a) && Fits(CommitAll(m, a), b)
    ensures Fits(m, a + b)
  {
    if b == [] {
      assert a + b == a;
    } else {
      assert (a + b)[..|a + b| - 1] == a + b[..|b| - 1];
      FitsAppend(m, a, b[..|b| - 1]);
      CommitAppend(m, a, b[..|b| - 1]);
    }
  }

  lemma {:induction false} RecordsAppend<K, V, W>(m: map<K, V>, a: seq<Diff<K, V>>, b: seq<Diff<K, V>>, view: V -> W)
    requires Records(m, a, view) && Records(CommitAll(m, a), b, view)
    ensures Records(m, a + b, view)
  {
    if b == [] {
      assert a + b == a;
    } else {
      assert (a + b)[..|a + b| - 1] == a + b[..|b| - 1];
      RecordsAppend(m, a, b[..|b| - 1], view);
      CommitAppend(m, a, b[..|b| - 1]);
    }
  }

  lemma {:induction false} Untouched<K, V>(m: map<K, V>, ds: seq<Diff<K, V>>, k: K)
    requires k !in Ids(ds)
    ensures k in CommitAll(m, ds) <==> k in m
    ensures k in m ==> CommitAll(m, ds)[k] == m[k]
  {
    if ds != [] {
      assert ds[|ds| - 1] in ds;
      assert forall d :: d in ds[..|ds| - 1] ==> d in ds;
      Untouched(m, ds[..|ds| - 1], k);
    }
  }

  // A list of additions with distinct absent keys fits, and commits to the union.
  lemma {:induction false} Insertions<K, V>(m: map<K, V>, ds: seq<Diff<K, V>>)
    requires AllApply(ds) && Distinct(ds)
    requires forall d :: d in ds ==> d.id !in m
    ensures Fits(m, ds) && Records(m, ds, Itself)
    ensures CommitAll(m, ds).Keys == m.Keys + Ids(ds)
    ensures forall d :: d in ds ==> d.id in CommitAll(m, ds) && CommitAll(m, ds)[d.id] == d.value
    ensures forall k :: k in m ==> k in CommitAll(m, ds) && CommitAll(m, ds)[k] == m[k]
  {
    if ds != [] {
      var n := |ds| - 1;
      var front, d := ds[..n], ds[n];
      assert d in ds;
      assert forall e :: e in ds <==> e in front || e == d;
      Insertions(m, front);
      assert d.id !in Ids(front) by {
        forall e | e in front ensures e.id != d.id {
          var i :| 0 <= i < n && front[i] == e;
          assert ds[i].id != ds[n].id;
        }
      }
      assert Ids(ds) == Ids(front) + {d.id};
    }
  }

  // A list of removals with distinct present keys fits, and commits to the difference.
  lemma {:induction false} Removals<K, V, W>(m: map<K, V>, ds: seq<Diff<K, V>>, view: V -> W)
    requires AllRemove(ds) && Distinct(ds)
    requires forall d :: d in ds ==> d.id in m && view(m[d.id]) == view(d.value)
    ensures Fits(m, ds) && Records(m, ds, view)
    ensures CommitAll(m, ds) == m - Ids(ds)
  {
    if ds != [] {
      var n := |ds| - 1;
      var front, d := ds[..n], ds[n];
      assert d in ds;
      assert forall e :: e in ds <==> e in front || e == d;
      Removals(m, front, view);
      assert d.id !in Ids(front) by {
        forall e | e in front ensures e.id != d.id {
          var i :| 0 <= i < n && front[i] == e;
          assert ds[i].id != ds[n].id;
        }
      }
      assert Ids(ds) == Ids(front) + {d.id};
    }
  }

  // Two enumerations of the same additions commit to the same bucket.
  lemma InsertionOrder<K, V>(m: map<K, V>, a: seq<Diff<K, V>>, b: seq<Diff<K, V>>)
    requires AllApply(a) && Distinct(a) && AllApply(b) && Distinct(b)
    requires forall d :: d in a ==> d.id !in m
    requires forall d :: d in a <==> d in b
    ensures CommitAll(m, a) == CommitAll(m, b)
  {
    Insertions(m, a);
    Insertions(m, b);
    assert Ids(a) == Ids(b);
    forall k | k in CommitAll(m, a)
      ensures CommitAll(m, a)[k] == CommitAll(m, b)[k]
    {
      if k !in m {
        var d :| d in a && d.id == k;
      }
    }
  }

  lemma {:induction false} FitsSplit<K, V>(m: map<K, V>, a: seq<Diff<K, V>>, b: seq<Diff<K, V>>)
    requires Fits(m, a + b)
    ensures Fits(m, a) && Fits(CommitAll(m, a), b)
  {
    if b == [] {
      assert a + b == a;
    } else {
      assert (a + b)[..|a + b| - 1] == a + b[..|b| - 1];
      FitsSplit(m, a, b[..|b| - 1]);
      CommitAppend(m, a, b[..|b| - 1]);
    }
  }

  // Each diff of a list that fits finds its key absent or present as it needs.
  lemma FitsAt<K, V>(m: map<K, V>, ds: seq<Diff<K, V>>, i: nat)
    requires Fits(m, ds) && i < |ds|
    ensures Fits(m, ds[..i]) && (ds[i].apply <==> ds[i].id !in CommitAll(m, ds[..i]))
    ensures CommitAll(m, ds[..i + 1]) == Commit(CommitAll(m, ds[..i]), ds[i], true)
  {
    assert ds[..i + 1] + ds[i + 1..] == ds;
    FitsSplit(m, ds[..i + 1], ds[i + 1..]);
    assert ds[..i + 1][..i] == ds[..i];
  }

  // What a list adds to, and removes from, the total of f over a bucket.
  function Added<K, V>(ds: seq<Diff<K, V>>, f: V -> nat): nat
  {
    if ds == [] then 0 else
      Added(ds[..|ds| - 1], f) + if ds[|ds| - 1].apply then f(ds[|ds| - 1].value) else 0
  }

  function Removed<K, V>(ds: seq<Diff<K, V>>, f: V -> nat): nat
  {
    if ds == [] then 0 else
      Removed(ds[..|ds| - 1], f) + if ds[|ds| - 1].apply then 0 else f(ds[|ds| - 1].value)
  }

  lemma {:induction false} Balance<K, V>(m: map<K, V>, ds: seq<Diff<K, V>>, f: V -> nat)
    requires Fits(m, ds) && Records(m, ds, f)
    ensures SumMap(CommitAll(m, ds), f) + Removed(ds, f) == SumMap(m, f) + Added(ds, f)
  {
    if ds != [] {
      var n := |ds| - 1;
      var before, d := CommitAll(m, ds[..n]), ds[n];
      Balance(m, ds[..n], f);
      if d.apply {
        SumMapInsert(before, d.id, d.value, f);
      } else {
        SumMapRemove(before, d.id, f);
      }
    }
  }

  lemma {:induction false} AddedAppend<K, V>(a: seq<Diff<K, V>>, b: seq<Diff<K, V>>, f: V -> nat)
    ensures Added(a + b, f) == Added(a, f) + Added(b, f)
    ensures Removed(a + b, f) == Removed(a, f) + Removed(b, f)
  {
    if b == [] {
      assert a + b == a;
    } else {
      assert (a + b)[..|a + b| - 1] == a + b[..|b| - 1];
      AddedAppend(a, b[..|b| - 1], f);
    }
  }

  // The total a one-sided list adds or removes, counted over the items it was made from.
  lemma {:induction false} OneSided<K, V, T>(ds: seq<Diff<K, V>>, f: V -> nat, items: seq<T>, g: T -> nat)
    requires |items| == |ds|
    requires forall i :: 0 <= i < |ds| ==> f(ds[i].value) == g(items[i])
    ensures AllApply(ds) ==> Added(ds, f) == SumSeq(items, g) && Removed(ds, f) == 0
    ensures AllRemove(ds) ==> Removed(ds, f) == SumSeq(items, g) && Added(ds, f) == 0
  {
    if ds != [] {
      var n := |ds| - 1;
      assert ds[n] in ds;
      assert forall d :: d in ds[..n] ==> d in ds;
      OneSided(ds[..n], f, items[..n], g);
    }
  }

  // A record that agrees exactly also agrees under any view.
  lemma {:induction false} RecordsView<K, V, W>(m: map<K, V>, ds: seq<Diff<K, V>>, view: V -> W)
    requires Records(m, ds, Itself)
    ensures Records(m, ds, view)
  {
    if ds != [] {
      RecordsView(m, ds[..|ds| - 1], view);
    }
  }

  // What a view determines is recorded as well as the view is.
  lemma {:induction false} RecordsCoarser<K, V(!new), W, X>(m: map<K, V>, ds: seq<Diff<K, V>>, view: V -> W, coarse: V -> X)
    requires Records(m, ds, view)
    requires forall a: V, b: V {:trigger view(a), view(b)} :: view(a) == view(b) ==> coarse(a) == coarse(b)
    ensures Records(m, ds, coarse)
  {
    if ds != [] {
      RecordsCoarser(m, ds[..|ds| - 1], view, coarse);
    }
  }

  // An entry after committing was there before or was added by one of the diffs.
  lemma {:induction false} Sources<K, V>(m: map<K, V>, ds: seq<Diff<K, V>>, k: K)
    requires k in CommitAll(m, ds)
    ensures (k in m && CommitAll(m, ds)[k] == m[k]) ||
            (exists d :: d in ds && d.apply && d.id == k && CommitAll(m, ds)[k] == d.value)
  {
    if ds != [] {
      var n := |ds| - 1;
      if ds[n].apply && ds[n].id == k {
        assert ds[n] in ds;
      } else {
        Sources(m, ds[..n], k);
        assert forall d :: d in ds[..n] ==> d in ds;
      }
    }
  }

  // ---------------------------------------------------------------- reverting

  lemma {:induction false} RevertAppend<K, V>(m: map<K, V>, a: seq<Diff<K, V>>, b: seq<Diff<K, V>>)
    ensures RevertAll(m, a + b) == RevertAll(RevertAll(m, b), a)
    decreases |b|
  {
    if b == [] {
      assert a + b == a;
    } else {
      assert (a + b)[..|a + b| - 1] == a + b[..|b| - 1];
      RevertAppend(Commit(m, b[|b| - 1], false), a, b[..|b| - 1]);
    }
  }

  lemma {:induction false} RevertUntouched<K, V>(m: map<K, V>, ds: seq<Diff<K, V>>, k: K)
    requires k !in Ids(ds)
    ensures k in RevertAll(m, ds) <==> k in m
    ensures k in m ==> RevertAll(m, ds)[k] == m[k]
    decreases |ds|
  {
    if ds != [] {
      assert ds[|ds| - 1] in ds;
      assert forall d :: d in ds[..|ds| - 1] ==> d in ds;
      RevertUntouched(Commit(m, ds[|ds| - 1], false), ds[..|ds| - 1], k);
    }
  }

  // Reverting forgets the value of a key the list touches, and keeps that of one it does not.
  lemma {:induction false} RevertForgets<K, V>(m: map<K, V>, ds: seq<Diff<K, V>>, k: K, v: V)
    ensures k in Ids(ds) ==> RevertAll(m[k := v], ds) == RevertAll(m, ds)
    ensures k !in Ids(ds) ==> RevertAll(m[k := v], ds) == RevertAll(m, ds)[k := v]
    decreases |ds|
  {
    if ds != [] {
      var n := |ds| - 1;
      var front, d := ds[..n], ds[n];
      assert d in ds;
      assert forall e :: e in ds <==> e in front || e == d;
      if d.id == k {
        assert Commit(m[k := v], d, false) == Commit(m, d, false);
      } else {
        assert Commit(m[k := v], d, false) == Commit(m, d, false)[k := v];
        RevertForgets(Commit(m, d, false), front, k, v);
        assert k in Ids(ds) <==> k in Ids(front);
      }
    }
  }

  // The first diff to touch an entry, if it removes it, records its value.
  ghost predicate FirstRecordsTrue<K, V>(m: map<K, V>, ds: seq<Diff<K, V>>)
  {
    ds == [] ||
    (var n := |ds| - 1;
     FirstRecordsTrue(m, ds[..n]) &&
     (!ds[n].apply && ds[n].id in m && ds[n].id !in Ids(ds[..n]) ==> m[ds[n].id] == ds[n].value))
  }

  // Reverting a list that fits restores the bucket exactly when its first records are true.
  lemma {:induction false} RevertRestoresIff<K, V>(m: map<K, V>, ds: seq<Diff<K, V>>)
    requires Fits(m, ds)
    ensures RevertAll(CommitAll(m, ds), ds) == m <==> FirstRecordsTrue(m, ds)
  {
    if ds != [] {
      var n := |ds| - 1;
      var front, d := ds[..n], ds[n];
      var before := CommitAll(m, front);
      RevertRestoresIff(m, front);
      if d.apply {
        assert Commit(Commit(before, d, true), d, false) == before;
      } else {
        assert Commit(Commit(before, d, true), d, false) == before[d.id := d.value];
        RevertForgets(before, front, d.id, d.value);
        if d.id !in Ids(front) {
          Untouched(m, front, d.id);
          RevertUntouched(before, front, d.id);
          var r := RevertAll(before, front);
          assert r[d.id] == m[d.id];
          assert r[d.id := d.value] == m <==> r == m && d.value == m[d.id];
        }
      }
    }
  }

  lemma {:induction false} RecordsFirst<K, V>(m: map<K, V>, ds: seq<Diff<K, V>>)
    requires Records(m, ds, Itself)
    ensures FirstRecordsTrue(m, ds)
  {
    if ds != [] {
      var n := |ds| - 1;
      RecordsFirst(m, ds[..n]);
      if ds[n].id !in Ids(ds[..n]) {
        Untouched(m, ds[..n], ds[n].id);
      }
    }
  }

  // Reverting undoes committing, for every list that fits and records what it removes.
  lemma RevertUndoesCommit<K, V>(m: map<K, V>, ds: seq<Diff<K, V>>)
    requires Fits(m, ds) && Records(m, ds, Itself)
    ensures RevertAll(CommitAll(m, ds), ds) == m
  {
    RecordsFirst(m, ds);
    RevertRestoresIff(m, ds);
  }
}

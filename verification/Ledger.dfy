/** Double-entry bookkeeping over a table of concurrent tasks.

    Every task of a state machine holds a small multiset of obligations (a token,
    a claimed key, a database row whose update it still owes). A step rewrites one
    task and may start another one. If the step balances locally, the total over the
    whole table balances too, whatever the other tasks are. */
module Ledger {

  import opened Options

  /** Membership as a multiplicity. */
  function One<T(==)>(a: set<T>, x: T): nat
  {
    if x in a then 1 else 0
  }

  /** Sum of the holdings of all tasks. */
  ghost function Total<V, T>(m: map<nat, V>, w: V -> multiset<T>): multiset<T>
    decreases m.Keys
  {
    if m == map[] then multiset{} else
      var k :| k in m;
      w(m[k]) + Total(m - {k}, w)
  }

  /** The total may be taken apart at any task, not just the one `Total` picks. */
  lemma {:induction false} TotalSplit<V, T>(m: map<nat, V>, w: V -> multiset<T>, k: nat)
    requires k in m
    ensures Total(m, w) == w(m[k]) + Total(m - {k}, w)
    decreases m.Keys
  {
    var j :| j in m && Total(m, w) == w(m[j]) + Total(m - {j}, w);
    if j != k {
      TotalSplit(m - {j}, w, k);
      TotalSplit(m - {k}, w, j);
      assert m - {j} - {k} == m - {k} - {j};
    }
  }

  lemma TotalPut<V, T>(m: map<nat, V>, w: V -> multiset<T>, k: nat, v: V)
    requires k !in m
    ensures Total(m[k := v], w) == w(v) + Total(m, w)
  {
    TotalSplit(m[k := v], w, k);
    assert m[k := v] - {k} == m;
  }

  /** The task table after task `t` became `next` (`None`: it ended) and possibly
      started a goroutine under the unused identifier `id`. */
  function After<V>(m: map<nat, V>, t: nat, next: Option<V>, id: nat, spawn: Option<V>): map<nat, V>
  {
    var m1 := if next.Some? then m[t := next.value] else m - {t};
    if spawn.Some? then m1[id := spawn.value] else m1
  }

  function Held<V, T>(o: Option<V>, w: V -> multiset<T>): multiset<T>
  {
    if o.Some? then w(o.value) else multiset{}
  }

  /** A step moves the total exactly by what the step's own tasks gain and lose. */
  lemma Balance<V, T>(m: map<nat, V>, t: nat, next: Option<V>, id: nat, spawn: Option<V>, w: V -> multiset<T>)
    requires t in m && id !in m
    ensures Total(After(m, t, next, id, spawn), w) + w(m[t]) == Total(m, w) + Held(next, w) + Held(spawn, w)
  {
    TotalSplit(m, w, t);
    var m0 := m - {t};
    var m1 := if next.Some? then m[t := next.value] else m0;
    if next.Some? {
      TotalPut(m0, w, t, next.value);
      assert m0[t := next.value] == m1;
    }
    if spawn.Some? {
      TotalPut(m1, w, id, spawn.value);
    }
  }

  /** Number of tasks that hold something. */
  ghost function Holders<V, T>(m: map<nat, V>, w: V -> multiset<T>): set<nat>
  {
    set k | k in m && w(m[k]) != multiset{}
  }

  ghost predicate AtMostOne<V, T>(m: map<nat, V>, w: V -> multiset<T>)
  {
    forall k :: k in m ==> |w(m[k])| <= 1
  }

  lemma HoldersStep<V, T>(m: map<nat, V>, w: V -> multiset<T>, k: nat)
    requires k in m
    ensures var rest := Holders(m - {k}, w);
            k !in rest && Holders(m, w) == if w(m[k]) == multiset{} then rest else rest + {k}
  {}

  /** When no task holds more than one item, the total counts the holders. */
  lemma {:induction false} TotalCounts<V, T>(m: map<nat, V>, w: V -> multiset<T>)
    requires AtMostOne(m, w)
    ensures |Total(m, w)| == |Holders(m, w)|
    decreases m.Keys
  {
    if m != map[] {
      var k :| k in m && Total(m, w) == w(m[k]) + Total(m - {k}, w);
      TotalCounts(m - {k}, w);
      HoldersStep(m, w, k);
      assert |w(m[k])| <= 1;
    }
  }

  /** An item is in the total exactly when some task holds it. */
  lemma {:induction false} TotalHas<V, T>(m: map<nat, V>, w: V -> multiset<T>, x: T)
    ensures x in Total(m, w) <==> exists k :: k in m && x in w(m[k])
    decreases m.Keys
  {
    if m != map[] {
      var k :| k in m && Total(m, w) == w(m[k]) + Total(m - {k}, w);
      TotalHas(m - {k}, w, x);
      if j :| j in m && x in w(m[j]) {
        assert j == k || j in m - {k};
      }
    }
  }

  /** If an item occurs once in the total, one task holds it. */
  lemma TotalOnce<V, T>(m: map<nat, V>, w: V -> multiset<T>, i: nat, j: nat, x: T)
    requires i in m && j in m && x in w(m[i]) && x in w(m[j])
    requires Total(m, w)[x] <= 1
    ensures i == j
  {
    TotalSplit(m, w, i);
    if i != j {
      TotalSplit(m - {i}, w, j);
    }
  }

  /** What one task holds is part of the total. */
  lemma TotalCovers<V, T>(m: map<nat, V>, w: V -> multiset<T>, k: nat)
    requires k in m
    ensures w(m[k]) <= Total(m, w)
  {
    TotalSplit(m, w, k);
  }

  lemma {:induction false} TotalNothing<V, T>(m: map<nat, V>, w: V -> multiset<T>)
    requires forall k :: k in m ==> w(m[k]) == multiset{}
    ensures Total(m, w) == multiset{}
    decreases m.Keys
  {
    if m != map[] {
      var k :| k in m && Total(m, w) == w(m[k]) + Total(m - {k}, w);
      TotalNothing(m - {k}, w);
    }
  }
}

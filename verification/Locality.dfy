/** Linearizability is local: a history of a key/value map is linearizable exactly when the
    sub-history of every key is (Herlihy and Wing). */
module Locality {
  import opened Linearizability
  import opened KvHistory
  import opened Wrappers

  lemma PrecIs(ops: seq<Operation>, y: nat, x: nat)
    ensures (y, x) in ProblemOfOps(ops).prec <==> y < |ops| && x < |ops| && ops[y].ret < ops[x].call
  {
    if y < |ops| && x < |ops| { assert y in Below(|ops|) && x in Below(|ops|); }
  }

  // ----- A key's own numbering and the whole history's ------------------------------------

  function Through(index: seq<nat>, order: seq<nat>): (r: seq<nat>)
    requires InRange(|index|, order)
    ensures |r| == |order| && forall i :: 0 <= i < |r| ==> r[i] == index[order[i]]
  {
    seq(|order|, i requires 0 <= i < |order| => index[order[i]])
  }

  lemma {:induction false} ThroughReplays(ops: seq<Operation>, index: seq<nat>, st: string, order: seq<nat>)
    requires InRange(|ops|, index) && InRange(|index|, order)
    ensures InRange(|ops|, Through(index, order))
    ensures Replays(KvModel, ProblemOfOps(Pick(ops, index)), st, order) <==> Replays(KvModel, ProblemOfOps(ops), st, Through(index, order))
    decreases |order|
  {
    var r := Through(index, order);
    if order != [] {
      var p, q := ProblemOfOps(ops), ProblemOfOps(Pick(ops, index));
      assert r[0] == index[order[0]] && q.ops[order[0]] == p.ops[r[0]];
      assert r[1..] == Through(index, order[1..]);
      ThroughReplays(ops, index, Then(KvModel, q, st, order[0]), order[1..]);
    }
  }

  lemma ThroughTime(ops: seq<Operation>, index: seq<nat>, order: seq<nat>)
    requires InRange(|ops|, index) && InRange(|index|, order)
    ensures InTime(ProblemOfOps(Pick(ops, index)), order) <==> InTime(ProblemOfOps(ops), Through(index, order))
  {
    var r := Through(index, order);
    forall i, j | 0 <= i < j < |order|
      ensures (order[j], order[i]) in ProblemOfOps(Pick(ops, index)).prec <==> (r[j], r[i]) in ProblemOfOps(ops).prec
    {
      PrecIs(Pick(ops, index), order[j], order[i]);
      PrecIs(ops, r[j], r[i]);
    }
  }

  /** A linearization of one key, in the whole history's numbers. */
  ghost predicate KeyOrder(ops: seq<Operation>, key: string, st: string, order: seq<nat>) {
    && Distinct(order) && InRange(|ops|, order)
    && (forall i :: 0 <= i < |order| ==> ops[order[i]].input.key == key)
    && InTime(ProblemOfOps(ops), order)
    && Replays(KvModel, ProblemOfOps(ops), st, order)
  }

  /** It holds all operations of its key, from the empty value. */
  ghost predicate FullOrder(ops: seq<Operation>, key: string, order: seq<nat>) {
    KeyOrder(ops, key, "", order) && Ids(order) == Ids(IndexOf(ops, key))
  }

  lemma KeyLinearizable(ops: seq<Operation>, key: string) returns (order: seq<nat>)
    requires Linearizable(KvModel, ProblemOfOps(OnKey(ops, key)))
    ensures FullOrder(ops, key, order)
  {
    var index := IndexOf(ops, key);
    var p := ProblemOfOps(Pick(ops, index));
    var lo :| Linearization(KvModel, p, lo);
    order := Through(index, lo);
    ThroughReplays(ops, index, "", lo);
    ThroughTime(ops, index, lo);
    ThroughAll(index, lo);
  }

  /** Renumbering a full order through distinct numbers gives them all, once. */
  lemma ThroughAll(index: seq<nat>, order: seq<nat>)
    requires Distinct(index) && |order| == |index| && InRange(|index|, order) && Distinct(order)
    ensures Distinct(Through(index, order)) && Ids(Through(index, order)) == Ids(index)
  {
    var r := Through(index, order);
    Everyone(|index|, order);
    forall i, j | 0 <= i < j < |r| ensures r[i] != r[j] {
      assert order[i] != order[j];
    }
    forall k | k in index ensures k in r {
      var j: nat :| j < |index| && index[j] == k;
      assert j in Ids(order);
      var i :| 0 <= i < |order| && order[i] == j;
      assert r[i] == k;
    }
  }

  lemma KeyOrderLinearizes(ops: seq<Operation>, key: string, order: seq<nat>)
    requires FullOrder(ops, key, order)
    ensures Linearizable(KvModel, ProblemOfOps(OnKey(ops, key)))
  {
    hide Replays, InTime, ProblemOfOps;
    var index := IndexOf(ops, key);
    assert forall i :: 0 <= i < |order| ==> order[i] in Ids(order);
    assert forall i :: 0 <= i < |order| ==> order[i] in index;
    var lo: seq<nat> := seq(|order|, i requires 0 <= i < |order| => IndexIn(index, order[i]));
    DistinctSize(order);
    DistinctSize(index);
    assert Through(index, lo) == order;
    ThroughReplays(ops, index, "", lo);
    ThroughTime(ops, index, lo);
    assert Linearization(KvModel, ProblemOfOps(Pick(ops, index)), lo);
  }

  // ----- From the map to the keys: projection ---------------------------------------------

  function Filter(ops: seq<Operation>, key: string, order: seq<nat>): (r: seq<nat>)
    requires InRange(|ops|, order)
    ensures InRange(|ops|, r) && forall i :: 0 <= i < |r| ==> ops[r[i]].input.key == key && r[i] in order
    ensures forall k :: k in order && ops[k].input.key == key ==> k in r
  {
    if order == [] then []
    else
      var rest := Filter(ops, key, order[1..]);
      assert forall k :: k in order ==> k == order[0] || k in order[1..];
      if ops[order[0]].input.key == key then [order[0]] + rest else rest
  }

  lemma {:induction false} FilterKeeps(ops: seq<Operation>, key: string, order: seq<nat>)
    requires InRange(|ops|, order) && Distinct(order) && InTime(ProblemOfOps(ops), order)
    ensures Distinct(Filter(ops, key, order)) && InTime(ProblemOfOps(ops), Filter(ops, key, order))
  {
    hide ProblemOfOps;
    if order != [] {
      FilterKeeps(ops, key, order[1..]);
      BehindFirst(ProblemOfOps(ops), order, Filter(ops, key, order[1..]));
    }
  }

  /** What comes behind the first of an order may come behind it alone. */
  lemma BehindFirst(p: Problem<Value>, order: seq<nat>, rest: seq<nat>)
    requires order != [] && Distinct(order) && InTime(p, order) && Distinct(rest) && InTime(p, rest)
    requires forall i :: 0 <= i < |rest| ==> rest[i] in order[1..]
    ensures Distinct([order[0]] + rest) && InTime(p, [order[0]] + rest)
  {
    forall i | 0 <= i < |rest| ensures rest[i] != order[0] && (rest[i], order[0]) !in p.prec {
      var j :| 0 <= j < |order| - 1 && order[1..][j] == rest[i];
      assert order[j + 1] == rest[i];
    }
  }

  /** What one step of the map does to each key. */
  lemma StepOnKey(st: map<string, string>, op: Operation, key: string)
    ensures var r := MapStep(st, Input(op.input), Output(op.output));
      && (op.input.key == key ==> r.0 == KvStep(Lookup(st, key), op.input, op.output).0)
      && (op.input.key == key ==> Lookup(r.1, key) == KvStep(Lookup(st, key), op.input, op.output).1)
      && (op.input.key != key ==> Lookup(r.1, key) == Lookup(st, key))
  {
  }

  lemma {:induction false} FilterReplays(ops: seq<Operation>, key: string, st: map<string, string>, order: seq<nat>)
    requires InRange(|ops|, order) && Replays(MapModel, ProblemOfOps(ops), st, order)
    ensures Replays(KvModel, ProblemOfOps(ops), Lookup(st, key), Filter(ops, key, order))
    decreases |order|
  {
    if order != [] {
      var p := ProblemOfOps(ops);
      FilterReplays(ops, key, Then(MapModel, p, st, order[0]), order[1..]);
      StepOnKey(st, ops[order[0]], key);
      var r := Filter(ops, key, order);
      if ops[order[0]].input.key == key {
        assert r[0] == order[0] && r[1..] == Filter(ops, key, order[1..]);
      }
    }
  }

  lemma Projects(ops: seq<Operation>, key: string)
    requires Linearizable(MapModel, ProblemOfOps(ops))
    ensures Linearizable(KvModel, ProblemOfOps(OnKey(ops, key)))
  {
    var p := ProblemOfOps(ops);
    var order :| Linearization(MapModel, p, order);
    var mine := Filter(ops, key, order);
    FilterKeeps(ops, key, order);
    FilterReplays(ops, key, map[], order);
    Everyone(|ops|, order);
    forall k: nat | k < |ops| && ops[k].input.key == key ensures k in mine {
      assert k in Ids(order);
    }
    assert Ids(mine) == Ids(IndexOf(ops, key));
    KeyOrderLinearizes(ops, key, mine);
  }

  // ----- From the keys to the map: merging ------------------------------------------------

  /** The keys' remaining operations, each key in its own order, all of `rest` between them. */
  ghost predicate Queues(ops: seq<Operation>, q: map<string, seq<nat>>, rest: set<nat>, st: map<string, string>) {
    && (forall k :: k in q ==> KeyOrder(ops, k, Lookup(st, k), q[k]) && Ids(q[k]) <= rest)
    && (forall i :: i in rest ==> i < |ops| && ops[i].input.key in q && i in q[ops[i].input.key])
  }

  lemma {:induction false} Earliest(ops: seq<Operation>, rest: set<nat>) returns (y: nat)
    requires rest != {} && forall i :: i in rest ==> i < |ops|
    ensures y in rest && forall i :: i in rest ==> ops[y].ret <= ops[i].ret
  {
    var x :| x in rest;
    if rest == {x} {
      y := x;
    } else {
      var z := Earliest(ops, rest - {x});
      y := if ops[x].ret <= ops[z].ret then x else z;
      forall i | i in rest ensures ops[y].ret <= ops[i].ret {
        assert i == x || i in rest - {x};
      }
    }
  }

  /** The head of the queue that holds the earliest return may go first. */
  lemma HeadMayGo(ops: seq<Operation>, q: map<string, seq<nat>>, rest: set<nat>, st: map<string, string>, y: nat)
    requires Timed(ops) && Queues(ops, q, rest, st) && y in rest && forall i :: i in rest ==> ops[y].ret <= ops[i].ret
    ensures q[ops[y].input.key] != []
    ensures forall w :: w in rest ==> (w, q[ops[y].input.key][0]) !in ProblemOfOps(ops).prec
  {
    var line := q[ops[y].input.key];
    var j :| 0 <= j < |line| && line[j] == y;
    var z := line[0];
    assert KeyOrder(ops, ops[y].input.key, Lookup(st, ops[y].input.key), line);
    assert z < |ops|;
    PrecIs(ops, y, z);
    assert !(ops[y].ret < ops[z].call);
    forall w | w in rest ensures (w, z) !in ProblemOfOps(ops).prec {
      PrecIs(ops, w, z);
    }
  }

  lemma KeyOrderTail(ops: seq<Operation>, key: string, st: string, order: seq<nat>)
    requires KeyOrder(ops, key, st, order) && order != []
    ensures order[0] < |ops| && KvStep(st, ops[order[0]].input, ops[order[0]].output).0
    ensures KeyOrder(ops, key, KvStep(st, ops[order[0]].input, ops[order[0]].output).1, order[1..])
    ensures Ids(order[1..]) == Ids(order) - {order[0]}
  {
    assert order == [order[0]] + order[1..];
  }

  lemma QueuesStep(ops: seq<Operation>, q: map<string, seq<nat>>, rest: set<nat>, st: map<string, string>, k: string)
    requires Queues(ops, q, rest, st) && k in q && q[k] != []
    ensures var z := q[k][0]; var p := ProblemOfOps(ops);
      && z < |ops| && z in rest && Accepted(MapModel, p, st, z)
      && Queues(ops, q[k := q[k][1..]], rest - {z}, Then(MapModel, p, st, z))
  {
    var z := q[k][0];
    var p := ProblemOfOps(ops);
    assert KeyOrder(ops, k, Lookup(st, k), q[k]);
    KeyOrderTail(ops, k, Lookup(st, k), q[k]);
    StepOnKey(st, ops[z], k);
    assert p.ops[z] == (Input(ops[z].input), Output(ops[z].output));
    assert z in Ids(q[k]);
    var q', st' := q[k := q[k][1..]], Then(MapModel, p, st, z);
    hide Replays, InTime, Distinct;
    forall j | j in q' ensures KeyOrder(ops, j, Lookup(st', j), q'[j]) && Ids(q'[j]) <= rest - {z} {
      assert KeyOrder(ops, j, Lookup(st, j), q[j]);
      StepOnKey(st, ops[z], j);
      if j != k { OtherKey(ops, j, Lookup(st, j), q[j], z); }
    }
    forall i | i in rest - {z} ensures i in q'[ops[i].input.key] {
      assert ops[i].input.key == k ==> i in Ids(q[k]);
      assert i in Ids(q[k][1..]) ==> i in q[k][1..];
    }
  }

  lemma OtherKey(ops: seq<Operation>, key: string, st: string, order: seq<nat>, z: nat)
    requires KeyOrder(ops, key, st, order) && z < |ops| && ops[z].input.key != key
    ensures z !in Ids(order)
  {
  }

  lemma {:induction false} Merge(ops: seq<Operation>, q: map<string, seq<nat>>, rest: set<nat>, st: map<string, string>) returns (order: seq<nat>)
    requires Timed(ops) && Queues(ops, q, rest, st)
    ensures InRange(|ops|, order) && Distinct(order) && Ids(order) == rest
    ensures InTime(ProblemOfOps(ops), order) && Replays(MapModel, ProblemOfOps(ops), st, order)
    decreases |rest|
  {
    if rest == {} {
      order := [];
    } else {
      hide ProblemOfOps, KeyOrder, Distinct, InTime, Replays, Accepted, Then;
      var p := ProblemOfOps(ops);
      var y := Earliest(ops, rest);
      var k := ops[y].input.key;
      HeadMayGo(ops, q, rest, st, y);
      var z := q[k][0];
      QueuesStep(ops, q, rest, st, k);
      var tail := Merge(ops, q[k := q[k][1..]], rest - {z}, Then(MapModel, p, st, z));
      order := [z] + tail;
      GoesFirst(p, st, z, tail);
    }
  }

  lemma GoesFirst(p: Problem<Value>, st: map<string, string>, z: nat, tail: seq<nat>)
    requires z < |p.ops| && InRange(|p.ops|, tail) && Distinct(tail) && z !in Ids(tail) && InTime(p, tail)
    requires forall w :: w in Ids(tail) ==> (w, z) !in p.prec
    requires Accepted(MapModel, p, st, z) && Replays(MapModel, p, Then(MapModel, p, st, z), tail)
    ensures InRange(|p.ops|, [z] + tail) && Distinct([z] + tail) && Ids([z] + tail) == Ids(tail) + {z}
    ensures InTime(p, [z] + tail) && Replays(MapModel, p, st, [z] + tail)
  {
    hide Accepted, Then;
    var order := [z] + tail;
    assert order[1..] == tail;
    assert forall i :: 0 <= i < |tail| ==> tail[i] in Ids(tail);
  }

  lemma {:induction false} Gather(ops: seq<Operation>, keys: set<string>) returns (q: map<string, seq<nat>>)
    requires forall k :: k in keys ==> Linearizable(KvModel, ProblemOfOps(OnKey(ops, k)))
    ensures q.Keys == keys && forall k :: k in q ==> FullOrder(ops, k, q[k])
  {
    hide FullOrder, Linearizable, OnKey;
    if keys == {} {
      q := map[];
    } else {
      var k :| k in keys;
      var front := Gather(ops, keys - {k});
      var order := KeyLinearizable(ops, k);
      q := front[k := order];
      assert q.Keys == keys;
    }
  }

  function KeysOf(ops: seq<Operation>): set<string> {
    set i | 0 <= i < |ops| :: ops[i].input.key
  }

  lemma Merges(ops: seq<Operation>)
    requires Timed(ops) && forall k :: k in KeysOf(ops) ==> Linearizable(KvModel, ProblemOfOps(OnKey(ops, k)))
    ensures Linearizable(MapModel, ProblemOfOps(ops))
  {
    hide FullOrder, Replays, InTime, ProblemOfOps, Distinct, Queues;
    var q := Gather(ops, KeysOf(ops));
    StartQueues(ops, q);
    var order := Merge(ops, q, Below(|ops|), map[]);
    DistinctSize(order);
    assert Linearization(MapModel, ProblemOfOps(ops), order);
  }

  lemma StartQueues(ops: seq<Operation>, q: map<string, seq<nat>>)
    requires q.Keys == KeysOf(ops) && forall k :: k in q ==> FullOrder(ops, k, q[k])
    ensures Queues(ops, q, Below(|ops|), map[])
  {
    hide KeyOrder, FullOrder, KeysOf, Ids, Below;
    forall k | k in q ensures KeyOrder(ops, k, Lookup(map[], k), q[k]) && Ids(q[k]) <= Below(|ops|) {
      FullIsKeyOrder(ops, k, q[k]);
    }
    forall i | i in Below(|ops|) ensures i < |ops| && ops[i].input.key in q && i in q[ops[i].input.key] {
      HasQueue(ops, q, i);
    }
  }

  lemma HasQueue(ops: seq<Operation>, q: map<string, seq<nat>>, i: nat)
    requires q.Keys == KeysOf(ops) && i in Below(|ops|) && forall k :: k in q ==> FullOrder(ops, k, q[k])
    ensures i < |ops| && ops[i].input.key in q && i in q[ops[i].input.key]
  {
    hide FullOrder;
    var k := ops[i].input.key;
    assert k in KeysOf(ops);
    Enlisted(ops, k, q[k], i);
  }

  lemma FullIsKeyOrder(ops: seq<Operation>, key: string, order: seq<nat>)
    requires FullOrder(ops, key, order)
    ensures KeyOrder(ops, key, "", order) && Ids(order) <= Below(|ops|)
  {
  }

  lemma Enlisted(ops: seq<Operation>, key: string, order: seq<nat>, i: nat)
    requires FullOrder(ops, key, order) && i < |ops| && ops[i].input.key == key
    ensures i in order
  {
    assert i in Ids(IndexOf(ops, key));
    assert i in Ids(order);
  }

  /** The history of the whole map is linearizable exactly when every key's sub-history is. */
  lemma LocalityTheorem(ops: seq<Operation>)
    requires Timed(ops)
    ensures Linearizable(MapModel, ProblemOfOps(ops))
      <==> forall k :: k in KeysOf(ops) ==> Linearizable(KvModel, ProblemOfOps(OnKey(ops, k)))
  {
    hide Linearizable, ProblemOfOps, OnKey;
    if Linearizable(MapModel, ProblemOfOps(ops)) {
      forall k | k in KeysOf(ops) ensures Linearizable(KvModel, ProblemOfOps(OnKey(ops, k))) { Projects(ops, k); }
    }
    if forall k :: k in KeysOf(ops) ==> Linearizable(KvModel, ProblemOfOps(OnKey(ops, k))) { Merges(ops); }
  }
}

/** Linearizability of a finite history, and the search space in which it is decided. */
module Linearizability {

  /** A sequential object. `step(state, input, output)` tells whether the operation may produce
      that output, and the state it leaves. */
  datatype Model<!S, !V> = Model(init: S, step: (S, V, V) -> (bool, S))

  /** A history: the input and output of each operation, and which operations had returned before
      which were called. */
  datatype Problem<V> = Problem(ops: seq<(V, V)>, prec: set<(nat, nat)>)

  predicate Accepted<S, V>(m: Model<S, V>, p: Problem<V>, st: S, x: nat)
    requires x < |p.ops|
  {
    m.step(st, p.ops[x].0, p.ops[x].1).0
  }

  function Then<S, V>(m: Model<S, V>, p: Problem<V>, st: S, x: nat): S
    requires x < |p.ops|
  {
    m.step(st, p.ops[x].0, p.ops[x].1).1
  }

  // ----- What linearizable means ----------------------------------------------------------

  predicate InRange(n: nat, order: seq<nat>) {
    forall i :: 0 <= i < |order| ==> order[i] < n
  }

  predicate Distinct(order: seq<nat>) {
    forall i, j :: 0 <= i < j < |order| ==> order[i] != order[j]
  }

  /** No operation comes before one that had returned when it was called. */
  predicate InTime<V>(p: Problem<V>, order: seq<nat>) {
    forall i, j :: 0 <= i < j < |order| ==> (order[j], order[i]) !in p.prec
  }

  predicate Replays<S, V>(m: Model<S, V>, p: Problem<V>, st: S, order: seq<nat>)
    requires InRange(|p.ops|, order)
  {
    order == [] || (Accepted(m, p, st, order[0]) && Replays(m, p, Then(m, p, st, order[0]), order[1..]))
  }

  predicate Linearization<S, V>(m: Model<S, V>, p: Problem<V>, order: seq<nat>) {
    |order| == |p.ops| && InRange(|p.ops|, order) && Distinct(order) && InTime(p, order) && Replays(m, p, m.init, order)
  }

  ghost predicate Linearizable<S, V>(m: Model<S, V>, p: Problem<V>) {
    exists order :: Linearization(m, p, order)
  }

  // ----- The search space -----------------------------------------------------------------

  function Ids(order: seq<nat>): set<nat> {
    set x | x in order
  }

  /** Operation `x` may come next when those in `done` came before: no other operation
      left had returned before `x` was called. */
  predicate Candidate<V>(p: Problem<V>, done: set<nat>, x: nat) {
    x < |p.ops| && x !in done && forall y :: 0 <= y < |p.ops| && y !in done && y != x ==> (y, x) !in p.prec
  }

  function After<S, V>(m: Model<S, V>, p: Problem<V>, order: seq<nat>): S
    requires InRange(|p.ops|, order)
  {
    if order == [] then m.init
    else Then(m, p, After(m, p, order[..|order| - 1]), order[|order| - 1])
  }

  /** A linearizable prefix of the history. */
  predicate Path<S, V>(m: Model<S, V>, p: Problem<V>, order: seq<nat>) {
    InRange(|p.ops|, order) &&
    (order == []
    || (var k := |order| - 1;
        Path(m, p, order[..k]) && Candidate(p, Ids(order[..k]), order[k]) && Accepted(m, p, After(m, p, order[..k]), order[k])))
  }

  lemma IdsSnoc(order: seq<nat>, x: nat)
    ensures Ids(order + [x]) == Ids(order) + {x}
  {
  }

  lemma {:induction false} PathShape<S, V>(m: Model<S, V>, p: Problem<V>, order: seq<nat>)
    requires Path(m, p, order)
    ensures InRange(|p.ops|, order) && Distinct(order) && |Ids(order)| == |order|
  {
    if order != [] {
      var k := |order| - 1;
      PathShape(m, p, order[..k]);
      assert order == order[..k] + [order[k]];
      IdsSnoc(order[..k], order[k]);
      DistinctSnoc(order[..k], order[k]);
    }
  }

  lemma DistinctSnoc(order: seq<nat>, x: nat)
    requires Distinct(order) && x !in Ids(order)
    ensures Distinct(order + [x])
  {
    assert forall i :: 0 <= i < |order| ==> order[i] in Ids(order);
  }

  lemma {:induction false} PathPrefix<S, V>(m: Model<S, V>, p: Problem<V>, order: seq<nat>, k: nat)
    requires Path(m, p, order) && k <= |order|
    ensures Path(m, p, order[..k])
  {
    if k < |order| {
      var front := order[..|order| - 1];
      PathPrefix(m, p, front, k);
      assert front[..k] == order[..k];
    } else {
      assert order[..k] == order;
    }
  }

  /** Element `k` of a path was a candidate, accepted from the state before it. */
  lemma PathAt<S, V>(m: Model<S, V>, p: Problem<V>, order: seq<nat>, k: nat)
    requires Path(m, p, order) && k < |order|
    ensures Path(m, p, order[..k]) && Candidate(p, Ids(order[..k]), order[k])
    ensures Accepted(m, p, After(m, p, order[..k]), order[k])
  {
    PathPrefix(m, p, order, k + 1);
    assert order[..k + 1][..k] == order[..k];
    PathPrefix(m, p, order, k);
  }

  // ----- Complete paths are the linearizations --------------------------------------------

  function Below(n: nat): (r: set<nat>)
    ensures forall x: nat :: x in r <==> x < n
    ensures |r| == n
  {
    if n == 0 then {} else Below(n - 1) + {n - 1}
  }

  lemma SubsetSize(a: set<nat>, b: set<nat>)
    requires a <= b
    ensures |a| <= |b| && (|a| == |b| ==> a == b)
  {
    assert b == a + (b - a);
  }

  lemma {:induction false} DistinctSize(order: seq<nat>)
    requires Distinct(order)
    ensures |Ids(order)| == |order|
  {
    if order != [] {
      var k := |order| - 1;
      DistinctSize(order[..k]);
      assert order == order[..k] + [order[k]];
      IdsSnoc(order[..k], order[k]);
    }
  }

  /** A distinct order of `n` numbers below `n` holds them all. */
  lemma Everyone(n: nat, order: seq<nat>)
    requires |order| == n && InRange(n, order) && Distinct(order)
    ensures Ids(order) == Below(n)
  {
    DistinctSize(order);
    assert Ids(order) <= Below(n);
    SubsetSize(Ids(order), Below(n));
  }

  function RunFrom<S, V>(m: Model<S, V>, p: Problem<V>, st: S, order: seq<nat>): S
    requires InRange(|p.ops|, order)
  {
    if order == [] then st else RunFrom(m, p, Then(m, p, st, order[0]), order[1..])
  }

  lemma {:induction false} ReplaysSnoc<S, V>(m: Model<S, V>, p: Problem<V>, st: S, order: seq<nat>, x: nat)
    requires InRange(|p.ops|, order) && x < |p.ops|
    ensures Replays(m, p, st, order + [x]) <==> Replays(m, p, st, order) && Accepted(m, p, RunFrom(m, p, st, order), x)
    ensures RunFrom(m, p, st, order + [x]) == Then(m, p, RunFrom(m, p, st, order), x)
  {
    var more := order + [x];
    if order == [] {
      assert more[0] == x && more[1..] == [];
    } else {
      assert more[0] == order[0] && more[1..] == order[1..] + [x];
      ReplaysSnoc(m, p, Then(m, p, st, order[0]), order[1..], x);
    }
  }

  lemma {:induction false} PathReplays<S, V>(m: Model<S, V>, p: Problem<V>, order: seq<nat>)
    requires Path(m, p, order)
    ensures InRange(|p.ops|, order) && Replays(m, p, m.init, order) && RunFrom(m, p, m.init, order) == After(m, p, order)
  {
    PathShape(m, p, order);
    if order != [] {
      var k := |order| - 1;
      PathReplays(m, p, order[..k]);
      ReplaysSnoc(m, p, m.init, order[..k], order[k]);
      assert order == order[..k] + [order[k]];
    }
  }

  lemma PathInTime<S, V>(m: Model<S, V>, p: Problem<V>, order: seq<nat>)
    requires Path(m, p, order)
    ensures InTime(p, order)
  {
    PathShape(m, p, order);
    forall i, j | 0 <= i < j < |order| ensures (order[j], order[i]) !in p.prec {
      PathAt(m, p, order, i);
    }
  }

  lemma NextCandidate<V>(p: Problem<V>, order: seq<nat>, k: nat)
    requires |order| == |p.ops| && InRange(|p.ops|, order) && Distinct(order) && InTime(p, order) && k < |order|
    ensures Candidate(p, Ids(order[..k]), order[k])
  {
    Everyone(|p.ops|, order);
    forall y: nat | y < |p.ops| && y !in Ids(order[..k]) && y != order[k] ensures (y, order[k]) !in p.prec {
      var j := LaterAt(order, k, y);
    }
  }

  lemma LaterAt(order: seq<nat>, k: nat, y: nat) returns (j: nat)
    requires k <= |order| && y in Ids(order) && y !in Ids(order[..k])
    ensures k <= j < |order| && order[j] == y
  {
    assert order == order[..k] + order[k..];
    var i :| 0 <= i < |order| - k && order[k..][i] == y;
    j := k + i;
  }

  lemma {:induction false} LinearizationPrefix<S, V>(m: Model<S, V>, p: Problem<V>, order: seq<nat>, k: nat)
    requires Linearization(m, p, order) && k <= |order|
    ensures Path(m, p, order[..k])
  {
    if k > 0 {
      var front := order[..k - 1];
      LinearizationPrefix(m, p, order, k - 1);
      NextCandidate(p, order, k - 1);
      ReplaysPrefix(m, p, order, k);
      PathReplays(m, p, front);
      assert order[..k] == front + [order[k - 1]];
      ReplaysSnoc(m, p, m.init, front, order[k - 1]);
      PathSnoc(m, p, front, order[k - 1]);
    }
  }

  lemma PathSnoc<S, V>(m: Model<S, V>, p: Problem<V>, order: seq<nat>, x: nat)
    requires Path(m, p, order)
    ensures Path(m, p, order + [x]) <==> Candidate(p, Ids(order), x) && Accepted(m, p, After(m, p, order), x)
    ensures Path(m, p, order + [x]) ==> After(m, p, order + [x]) == Then(m, p, After(m, p, order), x)
  {
    assert (order + [x])[..|order|] == order;
  }

  lemma {:induction false} ReplaysPrefix<S, V>(m: Model<S, V>, p: Problem<V>, order: seq<nat>, k: nat)
    requires InRange(|p.ops|, order) && Replays(m, p, m.init, order) && k <= |order|
    ensures Replays(m, p, m.init, order[..k])
    decreases |order| - k
  {
    if k == |order| {
      assert order[..k] == order;
    } else {
      ReplaysPrefix(m, p, order, k + 1);
      assert order[..k + 1] == order[..k] + [order[k]];
      ReplaysSnoc(m, p, m.init, order[..k], order[k]);
    }
  }

  /** The linearizations are exactly the prefixes that hold every operation. */
  lemma CompletePath<S, V>(m: Model<S, V>, p: Problem<V>, order: seq<nat>)
    ensures Linearization(m, p, order) <==> Path(m, p, order) && |order| == |p.ops|
  {
    if Path(m, p, order) {
      PathShape(m, p, order);
      PathReplays(m, p, order);
      PathInTime(m, p, order);
    }
    if Linearization(m, p, order) {
      LinearizationPrefix(m, p, order, |order|);
      assert order[..|order|] == order;
    }
  }
}

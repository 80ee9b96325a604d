/** The depth-first search with memory, on values: which prefixes have been given up, and why the
    memory never hides a linearization. */
module SearchSpace {
  import opened Linearizability

  /** The set of operations done and the state reached: what the memory remembers. */
  type Visit<S> = (set<nat>, S)

  function VisitOf<S, V>(m: Model<S, V>, p: Problem<V>, order: seq<nat>): Visit<S>
    requires InRange(|p.ops|, order)
  {
    (Ids(order), After(m, p, order))
  }

  /** Whatever may follow `v` through operation `x` has been given up. */
  predicate Tried<S(==), V>(m: Model<S, V>, p: Problem<V>, closed: set<Visit<S>>, v: Visit<S>, x: nat)
    requires x < |p.ops|
  {
    Accepted(m, p, v.1, x) ==> (v.0 + {x}, Then(m, p, v.1, x)) in closed
  }

  /** Everything that may follow `v` has been given up. */
  predicate Exhausted<S(==), V>(m: Model<S, V>, p: Problem<V>, closed: set<Visit<S>>, v: Visit<S>) {
    v.0 != Below(|p.ops|) && forall x :: 0 <= x < |p.ops| && Candidate(p, v.0, x) ==> Tried(m, p, closed, v, x)
  }

  ghost predicate AllExhausted<S, V>(m: Model<S, V>, p: Problem<V>, closed: set<Visit<S>>) {
    forall v :: v in closed ==> Exhausted(m, p, closed, v)
  }

  /** Once the start is exhausted every non-empty prefix has been given up. */
  lemma {:induction false} PathClosed<S, V>(m: Model<S, V>, p: Problem<V>, closed: set<Visit<S>>, order: seq<nat>)
    requires AllExhausted(m, p, closed) && Exhausted(m, p, closed, ({}, m.init))
    requires Path(m, p, order) && order != []
    ensures VisitOf(m, p, order) in closed
  {
    var k := |order| - 1;
    var front := order[..k];
    assert order == front + [order[k]];
    IdsSnoc(front, order[k]);
    if k > 0 {
      PathClosed(m, p, closed, front);
      assert Exhausted(m, p, closed, VisitOf(m, p, front));
    } else {
      assert front == [];
      assert Ids(front) == {};
    }
    assert Tried(m, p, closed, VisitOf(m, p, front), order[k]);
  }

  /** Then the history has no linearization: the memory lost nothing. */
  lemma ExhaustedMeansNone<S, V>(m: Model<S, V>, p: Problem<V>, closed: set<Visit<S>>)
    requires AllExhausted(m, p, closed) && Exhausted(m, p, closed, ({}, m.init))
    ensures !Linearizable(m, p)
  {
    forall order ensures !Linearization(m, p, order) {
      CompletePath(m, p, order);
      if Path(m, p, order) && |order| == |p.ops| {
        FullPath(m, p, closed, order);
      }
    }
  }

  lemma FullIds<S, V>(m: Model<S, V>, p: Problem<V>, order: seq<nat>)
    requires Path(m, p, order)
    ensures |order| == |p.ops| <==> Ids(order) == Below(|p.ops|)
  {
    PathShape(m, p, order);
    if |order| == |p.ops| { Everyone(|p.ops|, order); }
  }

  lemma FullPath<S, V>(m: Model<S, V>, p: Problem<V>, closed: set<Visit<S>>, order: seq<nat>)
    requires AllExhausted(m, p, closed) && Exhausted(m, p, closed, ({}, m.init)) && Path(m, p, order)
    ensures |order| != |p.ops|
  {
    FullIds(m, p, order);
    if order != [] {
      PathClosed(m, p, closed, order);
      assert Exhausted(m, p, closed, VisitOf(m, p, order));
    } else {
      assert Ids(order) == {};
    }
  }

  // ----- Termination ----------------------------------------------------------------------

  /** All visits with at most `k` operations done: a finite bound on the memory. */
  ghost function Visits<S, V>(m: Model<S, V>, p: Problem<V>, k: nat): set<Visit<S>> {
    if k == 0 then {({}, m.init)}
    else
      Visits(m, p, k - 1) + Nexts(m, p, Visits(m, p, k - 1))
  }

  ghost function Nexts<S, V>(m: Model<S, V>, p: Problem<V>, vs: set<Visit<S>>): set<Visit<S>> {
    set v, x | v in vs && x in Below(|p.ops|) :: (v.0 + {x}, Then(m, p, v.1, x))
  }

  lemma {:induction false} VisitsGrow<S, V>(m: Model<S, V>, p: Problem<V>, j: nat, k: nat)
    requires j <= k
    ensures Visits(m, p, j) <= Visits(m, p, k)
  {
    hide Nexts;
    if j < k { VisitsGrow(m, p, j, k - 1); }
  }

  lemma {:induction false} PathVisits<S, V>(m: Model<S, V>, p: Problem<V>, order: seq<nat>)
    requires Path(m, p, order)
    ensures VisitOf(m, p, order) in Visits(m, p, |p.ops|)
  {
    PathVisitsExact(m, p, order);
    PathShape(m, p, order);
    assert Ids(order) <= Below(|p.ops|);
    SubsetSize(Ids(order), Below(|p.ops|));
    VisitsGrow(m, p, |order|, |p.ops|);
  }

  lemma NextVisit<S, V>(m: Model<S, V>, p: Problem<V>, vs: set<Visit<S>>, v: Visit<S>, x: nat)
    requires v in vs && x < |p.ops|
    ensures (v.0 + {x}, Then(m, p, v.1, x)) in Nexts(m, p, vs)
  {
    assert x in Below(|p.ops|);
  }

  lemma {:induction false} PathVisitsExact<S, V>(m: Model<S, V>, p: Problem<V>, order: seq<nat>)
    requires Path(m, p, order)
    ensures VisitOf(m, p, order) in Visits(m, p, |order|)
  {
    hide Nexts, Then;
    if order == [] {
      assert Ids(order) == {};
    } else {
      var k := |order| - 1;
      PathVisitsExact(m, p, order[..k]);
      assert order == order[..k] + [order[k]];
      IdsSnoc(order[..k], order[k]);
      NextVisit(m, p, Visits(m, p, k), VisitOf(m, p, order[..k]), order[k]);
    }
  }

  lemma Shrinks<T>(all: set<T>, a: set<T>, x: T)
    requires x in all && x !in a
    ensures |all - (a + {x})| < |all - a|
  {
    assert all - a == (all - (a + {x})) + {x};
  }
}

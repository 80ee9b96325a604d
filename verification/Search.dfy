/** The invariant of the search loop and how its three moves keep it: take the call at the cursor,
    step over it, or give up the prefix when the cursor reaches a return. */
module Search {
  import opened Linearizability
  import opened SearchSpace
  import opened Entries

  /** Before place `i`, the entries not in `order` are calls, and every one of them has been tried
      after `order`. */
  ghost predicate Scanned<S, V>(m: Model<S, V>, h: seq<Entry<V>>, n: nat, closed: set<Visit<S>>, order: seq<nat>, i: nat)
    requires HistoryOk(h, n) && InRange(n, order) && i <= |h|
  {
    forall j :: 0 <= j < i && h[j].id !in Ids(order) ==>
      !h[j].isReturn && Tried(m, ProblemOf(h, n), closed, VisitOf(m, ProblemOf(h, n), order), h[j].id)
  }

  /** The visit after the first `d` calls of the path. */
  function Mark<S, V>(m: Model<S, V>, p: Problem<V>, path: seq<nat>, d: nat): Visit<S>
    requires InRange(|p.ops|, path) && d <= |path|
  {
    VisitOf(m, p, path[..d])
  }

  /** The memory: what has been given up, and the prefixes of the current path. */
  ghost predicate CacheOk<S, V>(m: Model<S, V>, p: Problem<V>, cache: set<Visit<S>>, closed: set<Visit<S>>, path: seq<nat>)
    requires InRange(|p.ops|, path)
  {
    && closed <= cache
    && (forall v :: v in cache ==> v in closed || exists d :: 1 <= d <= |path| && v == Mark(m, p, path, d))
    && (forall d :: 1 <= d <= |path| ==> Mark(m, p, path, d) in cache)
    && cache <= Visits(m, p, |p.ops|)
  }

  ghost predicate SearchOk<S, V>(m: Model<S, V>, h: seq<Entry<V>>, n: nat, path: seq<nat>, cur: nat,
                                 cache: set<Visit<S>>, closed: set<Visit<S>>)
    requires HistoryOk(h, n)
  {
    && Path(m, ProblemOf(h, n), path)
    && cur <= |h|
    && (if cur < |h| then h[cur].id !in Ids(path) else |path| == n)
    && Scanned(m, h, n, closed, path, cur)
    && (forall d :: 0 <= d < |path| ==> LevelOk(m, h, n, path, d, closed))
    && AllExhausted(m, ProblemOf(h, n), closed)
    && CacheOk(m, ProblemOf(h, n), cache, closed, path)
  }

  /** The same for the place where path element `d` was taken. */
  ghost predicate LevelOk<S, V>(m: Model<S, V>, h: seq<Entry<V>>, n: nat, path: seq<nat>, d: nat, closed: set<Visit<S>>)
    requires HistoryOk(h, n) && InRange(n, path) && d < |path|
  {
    Scanned(m, h, n, closed, path[..d], CallPos(h, path[d]))
  }

  // ----- The cursor stands where candidates are -------------------------------------------

  lemma CursorCandidate<S, V>(m: Model<S, V>, h: seq<Entry<V>>, n: nat, closed: set<Visit<S>>, order: seq<nat>, i: nat)
    requires HistoryOk(h, n) && InRange(n, order) && i < |h| && Scanned(m, h, n, closed, order, i)
    requires !h[i].isReturn && h[i].id !in Ids(order)
    ensures Candidate(ProblemOf(h, n), Ids(order), h[i].id)
  {
    var p := ProblemOf(h, n);
    forall y: nat | y < n && y !in Ids(order) && y != h[i].id ensures (y, h[i].id) !in p.prec {
      assert h[RetPos(h, y)].id == y && h[RetPos(h, y)].isReturn;
    }
  }

  lemma PrecAt<V>(h: seq<Entry<V>>, n: nat, y: nat, x: nat)
    requires HistoryOk(h, n) && y < n && x < n
    ensures (y, x) in ProblemOf(h, n).prec <==> RetPos(h, y) < CallPos(h, x)
  {
    hide HistoryOk;
    assert y in Below(n) && x in Below(n);
  }

  /** A candidate is called before any return of an operation not done. */
  lemma CalledBefore<V>(h: seq<Entry<V>>, n: nat, done: set<nat>, i: nat, x: nat)
    requires HistoryOk(h, n) && i < |h| && h[i].isReturn && h[i].id !in done && Candidate(ProblemOf(h, n), done, x)
    ensures CallPos(h, x) < i && h[CallPos(h, x)].id == x
  {
    hide ProblemOf;
    PrecAt(h, n, h[i].id, x);
  }

  /** At a return every candidate has been tried. */
  lemma ReturnExhausts<S, V>(m: Model<S, V>, h: seq<Entry<V>>, n: nat, closed: set<Visit<S>>, order: seq<nat>, i: nat)
    requires HistoryOk(h, n) && InRange(n, order) && i < |h| && Scanned(m, h, n, closed, order, i)
    requires h[i].isReturn && h[i].id !in Ids(order)
    ensures Exhausted(m, ProblemOf(h, n), closed, VisitOf(m, ProblemOf(h, n), order))
  {
    hide Tried, After, ProblemOf;
    var p := ProblemOf(h, n);
    var v := VisitOf(m, p, order);
    assert h[i].id in Below(n);
    forall x | 0 <= x < n && Candidate(p, v.0, x) ensures Tried(m, p, closed, v, x) {
      hide Candidate;
      CalledBefore(h, n, v.0, i, x);
      hide HistoryOk;
      assert h[CallPos(h, x)].id == x;
    }
  }

  lemma {:induction false} TriedGrows<S, V>(m: Model<S, V>, h: seq<Entry<V>>, n: nat, closed: set<Visit<S>>, more: set<Visit<S>>, order: seq<nat>, i: nat)
    requires HistoryOk(h, n) && InRange(n, order) && i <= |h| && Scanned(m, h, n, closed, order, i) && closed <= more
    ensures Scanned(m, h, n, more, order, i)
  {
  }

  // ----- The memory -----------------------------------------------------------------------

  /** A remembered visit that extends the whole path has been given up. */
  lemma HitIsClosed<S, V>(m: Model<S, V>, p: Problem<V>, cache: set<Visit<S>>, closed: set<Visit<S>>, path: seq<nat>, x: nat)
    requires Path(m, p, path) && CacheOk(m, p, cache, closed, path) && x < |p.ops| && x !in Ids(path)
    requires (Ids(path) + {x}, Then(m, p, After(m, p, path), x)) in cache
    ensures (Ids(path) + {x}, Then(m, p, After(m, p, path), x)) in closed
  {
    PathShape(m, p, path);
    forall d | 1 <= d <= |path| ensures Mark(m, p, path, d).0 != Ids(path) + {x} {
      PathPrefix(m, p, path, d);
      PathShape(m, p, path[..d]);
    }
  }

  lemma MarkSnoc<S, V>(m: Model<S, V>, p: Problem<V>, path: seq<nat>, x: nat)
    requires InRange(|p.ops|, path) && x < |p.ops|
    ensures forall d :: 0 <= d <= |path| ==> Mark(m, p, path + [x], d) == Mark(m, p, path, d)
    ensures Mark(m, p, path + [x], |path| + 1) == VisitOf(m, p, path + [x])
  {
    forall d | 0 <= d <= |path| ensures Mark(m, p, path + [x], d) == Mark(m, p, path, d) {
      assert (path + [x])[..d] == path[..d];
    }
    assert (path + [x])[..|path| + 1] == path + [x];
  }

  lemma CachePush<S, V>(m: Model<S, V>, p: Problem<V>, cache: set<Visit<S>>, closed: set<Visit<S>>, path: seq<nat>, x: nat)
    requires Path(m, p, path) && CacheOk(m, p, cache, closed, path) && Path(m, p, path + [x])
    ensures VisitOf(m, p, path + [x]) in Visits(m, p, |p.ops|)
    ensures CacheOk(m, p, cache + {VisitOf(m, p, path + [x])}, closed, path + [x])
  {
    hide Path, CacheOk, VisitOf, Distinct, Visits;
    PathVisits(m, p, path + [x]);
    PathShape(m, p, path);
    PathShape(m, p, path + [x]);
    assert (path + [x])[|path|] == x;
    CacheAdd(m, p, cache, closed, path, x);
  }

  lemma CacheAdd<S, V>(m: Model<S, V>, p: Problem<V>, cache: set<Visit<S>>, closed: set<Visit<S>>, path: seq<nat>, x: nat)
    requires InRange(|p.ops|, path) && x < |p.ops| && CacheOk(m, p, cache, closed, path)
    requires VisitOf(m, p, path + [x]) in Visits(m, p, |p.ops|)
    ensures InRange(|p.ops|, path + [x]) && CacheOk(m, p, cache + {VisitOf(m, p, path + [x])}, closed, path + [x])
  {
    hide Mark, VisitOf, Visits;
    MarkSnoc(m, p, path, x);
    var v := VisitOf(m, p, path + [x]);
    forall w | w in cache + {v} ensures w in closed || exists d :: 1 <= d <= |path + [x]| && w == Mark(m, p, path + [x], d) {
      if w in cache && w !in closed {
        var d :| 1 <= d <= |path| && w == Mark(m, p, path, d);
        assert w == Mark(m, p, path + [x], d);
      } else if w !in closed {
        assert w == Mark(m, p, path + [x], |path| + 1);
      }
    }
  }

  lemma CachePop<S, V>(m: Model<S, V>, p: Problem<V>, cache: set<Visit<S>>, closed: set<Visit<S>>, path: seq<nat>, x: nat)
    requires InRange(|p.ops|, path) && x < |p.ops| && CacheOk(m, p, cache, closed, path + [x])
    ensures CacheOk(m, p, cache, closed + {VisitOf(m, p, path + [x])}, path)
  {
    MarkSnoc(m, p, path, x);
    hide Mark, VisitOf, Visits;
    assert Mark(m, p, path + [x], |path| + 1) in cache;
  }

  // ----- The moves ------------------------------------------------------------------------

  /** The first entry from `i` on whose operation is not done, or the length. */
  function NextLive<V>(h: seq<Entry<V>>, done: set<nat>, i: nat): (k: nat)
    requires i <= |h|
    ensures i <= k <= |h|
    ensures k < |h| ==> h[k].id !in done
    ensures forall j :: i <= j < k ==> h[j].id in done
    decreases |h| - i
  {
    if i == |h| || h[i].id !in done then i else NextLive(h, done, i + 1)
  }

  /** The cursor steps over a call that has been tried; it cannot run off the end, because the
      call's return is still ahead. */
  lemma StepOver<S, V>(m: Model<S, V>, h: seq<Entry<V>>, n: nat, path: seq<nat>, cur: nat,
                       cache: set<Visit<S>>, closed: set<Visit<S>>)
    requires HistoryOk(h, n) && SearchOk(m, h, n, path, cur, cache, closed) && cur < |h| && !h[cur].isReturn
    requires Tried(m, ProblemOf(h, n), closed, VisitOf(m, ProblemOf(h, n), path), h[cur].id)
    ensures NextLive(h, Ids(path), cur + 1) < |h|
    ensures SearchOk(m, h, n, path, NextLive(h, Ids(path), cur + 1), cache, closed)
  {
    var x := h[cur].id;
    assert h[RetPos(h, x)].id == x && cur == CallPos(h, x) < RetPos(h, x);
  }

  lemma LevelPush<S, V>(m: Model<S, V>, h: seq<Entry<V>>, n: nat, path: seq<nat>, x: nat, closed: set<Visit<S>>)
    requires HistoryOk(h, n) && InRange(n, path) && x < n && Scanned(m, h, n, closed, path, CallPos(h, x))
    requires forall d :: 0 <= d < |path| ==> LevelOk(m, h, n, path, d, closed)
    ensures forall d :: 0 <= d < |path + [x]| ==> LevelOk(m, h, n, path + [x], d, closed)
  {
    hide Scanned;
    forall d | 0 <= d < |path + [x]| ensures LevelOk(m, h, n, path + [x], d, closed) {
      assert (path + [x])[..d] == path[..d];
      if d < |path| { assert LevelOk(m, h, n, path, d, closed); } else { assert path[..d] == path; }
    }
  }

  /** The cursor's call is taken: it joins the path, and the search goes back to the first entry. */
  lemma Take<S, V>(m: Model<S, V>, h: seq<Entry<V>>, n: nat, path: seq<nat>, cur: nat,
                   cache: set<Visit<S>>, closed: set<Visit<S>>)
    requires HistoryOk(h, n) && SearchOk(m, h, n, path, cur, cache, closed) && cur < |h| && !h[cur].isReturn
    requires Accepted(m, ProblemOf(h, n), After(m, ProblemOf(h, n), path), h[cur].id)
    ensures var p := ProblemOf(h, n); var x := h[cur].id;
      && Path(m, p, path + [x])
      && VisitOf(m, p, path + [x]) == (Ids(path) + {x}, Then(m, p, After(m, p, path), x))
      && VisitOf(m, p, path + [x]) in Visits(m, p, n)
      && SearchOk(m, h, n, path + [x], NextLive(h, Ids(path) + {x}, 0), cache + {VisitOf(m, p, path + [x])}, closed)
  {
    var p, x := ProblemOf(h, n), h[cur].id;
    var more := path + [x];
    CursorCandidate(m, h, n, closed, path, cur);
    PathSnoc(m, p, path, x);
    IdsSnoc(path, x);
    CachePush(m, p, cache, closed, path, x);
    LevelPush(m, h, n, path, x, closed);
    var next := NextLive(h, Ids(more), 0);
    if next == |h| { AllDone(m, h, n, more); }
  }

  lemma AllDone<S, V>(m: Model<S, V>, h: seq<Entry<V>>, n: nat, order: seq<nat>)
    requires HistoryOk(h, n) && Path(m, ProblemOf(h, n), order)
    requires forall j :: 0 <= j < |h| ==> h[j].id in Ids(order)
    ensures |order| == n
  {
    FullIds(m, ProblemOf(h, n), order);
    PathShape(m, ProblemOf(h, n), order);
    forall x: nat | x < n ensures x in Ids(order) {
      assert h[CallPos(h, x)].id == x;
    }
    assert Ids(order) == Below(n);
  }

  lemma ExhaustedGrows<S, V>(m: Model<S, V>, p: Problem<V>, closed: set<Visit<S>>, v: Visit<S>)
    requires AllExhausted(m, p, closed) && Exhausted(m, p, closed, v)
    ensures AllExhausted(m, p, closed + {v})
  {
  }

  /** The cursor moves past the tried call of `x`, and its return is still ahead. */
  lemma ScanOver<S, V>(m: Model<S, V>, h: seq<Entry<V>>, n: nat, closed: set<Visit<S>>, order: seq<nat>, x: nat)
    requires HistoryOk(h, n) && InRange(n, order) && x < n && x !in Ids(order)
    requires Scanned(m, h, n, closed, order, CallPos(h, x))
    requires Tried(m, ProblemOf(h, n), closed, VisitOf(m, ProblemOf(h, n), order), x)
    ensures NextLive(h, Ids(order), CallPos(h, x) + 1) < |h|
    ensures Scanned(m, h, n, closed, order, NextLive(h, Ids(order), CallPos(h, x) + 1))
  {
    hide Tried, VisitOf, ProblemOf;
    assert h[RetPos(h, x)].id == x && h[CallPos(h, x)].id == x && CallPos(h, x) < RetPos(h, x);
  }

  /** At a return the path's last call is given up and stepped over. */
  lemma GiveUp<S, V>(m: Model<S, V>, h: seq<Entry<V>>, n: nat, front: seq<nat>, x: nat, cur: nat,
                     cache: set<Visit<S>>, closed: set<Visit<S>>)
    requires HistoryOk(h, n) && SearchOk(m, h, n, front + [x], cur, cache, closed) && cur < |h| && h[cur].isReturn
    ensures x < n
    ensures NextLive(h, Ids(front), CallPos(h, x) + 1) < |h|
    ensures SearchOk(m, h, n, front, NextLive(h, Ids(front), CallPos(h, x) + 1), cache,
                     closed + {VisitOf(m, ProblemOf(h, n), front + [x])})
  {
    var p := ProblemOf(h, n);
    var path := front + [x];
    var more := closed + {VisitOf(m, p, path)};
    ReturnExhausts(m, h, n, closed, path, cur);
    ExhaustedGrows(m, p, closed, VisitOf(m, p, path));
    PathAt(m, p, path, |front|);
    assert path[..|front|] == front;
    CachePop(m, p, cache, closed, front, x);
    LevelsPop(m, h, n, path, front, closed, more);
    LastTried(m, p, closed, front, x);
    ScanOver(m, h, n, more, front, x);
    hide AllExhausted, CacheOk, Tried, VisitOf, After, Path, ProblemOf, LevelOk, Scanned, Exhausted;
  }

  lemma LastTried<S, V>(m: Model<S, V>, p: Problem<V>, closed: set<Visit<S>>, front: seq<nat>, x: nat)
    requires Path(m, p, front) && Path(m, p, front + [x]) && x < |p.ops|
    ensures Tried(m, p, closed + {VisitOf(m, p, front + [x])}, VisitOf(m, p, front), x) && x !in Ids(front)
  {
    PathSnoc(m, p, front, x);
    IdsSnoc(front, x);
  }

  lemma LevelsPop<S, V>(m: Model<S, V>, h: seq<Entry<V>>, n: nat, path: seq<nat>, front: seq<nat>, closed: set<Visit<S>>, more: set<Visit<S>>)
    requires HistoryOk(h, n) && InRange(n, path) && path != [] && front == path[..|path| - 1] && closed <= more
    requires forall d :: 0 <= d < |path| ==> LevelOk(m, h, n, path, d, closed)
    ensures Scanned(m, h, n, more, front, CallPos(h, path[|path| - 1]))
    ensures forall d :: 0 <= d < |front| ==> LevelOk(m, h, n, front, d, more)
  {
    forall d | 0 <= d < |path| ensures LevelOk(m, h, n, path, d, more) {
      assert LevelOk(m, h, n, path, d, closed);
      TriedGrows(m, h, n, closed, more, path[..d], CallPos(h, path[d]));
    }
    hide Scanned;
    assert LevelOk(m, h, n, path, |path| - 1, more);
    forall d | 0 <= d < |front| ensures LevelOk(m, h, n, front, d, more) {
      assert front[..d] == path[..d] && front[d] == path[d];
      assert LevelOk(m, h, n, path, d, more);
    }
  }

  lemma Start<S, V>(m: Model<S, V>, h: seq<Entry<V>>, n: nat)
    requires HistoryOk(h, n)
    ensures SearchOk(m, h, n, [], 0, {}, {})
  {
  }
}

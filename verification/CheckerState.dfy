/** How the checker's variables stand for the state of the search. */
module CheckerState {
  import opened Wrappers
  import opened Linearizability
  import opened SearchSpace
  import opened Entries
  import opened EntryList
  import opened Search
  import opened Bitset

  // ----- The list ---------------------------------------------------------------------------

  /** The positions of the entries whose operations are not done, and the head. */
  function Live<V>(h: seq<Entry<V>>, done: set<nat>): set<int> {
    {0} + set i | 0 <= i < |h| && h[i].id !in done :: i + 1
  }

  lemma LiveAt<V>(h: seq<Entry<V>>, done: set<nat>, k: int)
    ensures k in Live(h, done) <==> k == 0 || (1 <= k <= |h| && h[k - 1].id !in done)
  {
    if 1 <= k <= |h| { assert k == (k - 1) + 1; }
  }

  lemma {:induction false} LiveNext<V>(h: seq<Entry<V>>, done: set<nat>, i: nat)
    requires i <= |h|
    ensures NextIn(Live(h, done), |h| + 1, i + 1) == NextLive(h, done, i) + 1
    decreases |h| - i
  {
    LiveAt(h, done, i + 1);
    hide Live;
    if i < |h| && h[i].id in done { LiveNext(h, done, i + 1); }
  }

  lemma LiveWithout<V>(h: seq<Entry<V>>, n: nat, done: set<nat>, x: nat)
    requires HistoryOk(h, n) && x < n && x !in done
    ensures var c, r := CallPos(h, x) + 1, RetPos(h, x) + 1;
      && 0 < c < r <= |h|
      && c in Live(h, done) && r in Live(h, done) && c !in Live(h, done + {x}) && r !in Live(h, done + {x})
      && Live(h, done) - {c} - {r} == Live(h, done + {x})
      && Live(h, done + {x}) + {r} == Live(h, done) - {c}
      && Live(h, done + {x}) + {r} + {c} == Live(h, done)
  {
    hide Live;
    var c, r := CallPos(h, x) + 1, RetPos(h, x) + 1;
    forall k ensures k in Live(h, done + {x}) <==> k in Live(h, done) && k != c && k != r
      ensures k == c || k == r ==> k in Live(h, done)
    {
      LiveAt(h, done, k);
      LiveAt(h, done + {x}, k);
    }
  }

  /** Path element `d` was cut out when the first `d` were already gone, and still names its
      neighbours of that moment. */
  ghost predicate CutAt<V>(nx: seq<int>, pv: seq<int>, h: seq<Entry<V>>, n: nat, path: seq<nat>, d: nat)
    requires |nx| == |pv| == |h| + 1 && HistoryOk(h, n) && InRange(n, path) && d < |path|
  {
    var c, r := CallPos(h, path[d]) + 1, RetPos(h, path[d]) + 1;
    Fits(nx, pv, Live(h, Ids(path[..d + 1])) + {r}, c) && Fits(nx, pv, Live(h, Ids(path[..d + 1])), r)
  }

  ghost predicate StackOk<V>(nx: seq<int>, pv: seq<int>, h: seq<Entry<V>>, n: nat, path: seq<nat>)
    requires HistoryOk(h, n)
  {
    && |nx| == |pv| == |h| + 1 && InRange(n, path)
    && (forall d :: 0 <= d < |path| ==> CutAt(nx, pv, h, n, path, d))
  }

  /** Links of dead positions are all that the stack depends on. */
  lemma CutFrame<V>(nx: seq<int>, pv: seq<int>, nx': seq<int>, pv': seq<int>, h: seq<Entry<V>>, n: nat, path: seq<nat>, path': seq<nat>, d: nat)
    requires |nx| == |pv| == |nx'| == |pv'| == |h| + 1 && HistoryOk(h, n) && InRange(n, path) && InRange(n, path')
    requires d < |path| && d < |path'| && path'[..d + 1] == path[..d + 1] && CutAt(nx, pv, h, n, path, d)
    requires var c, r := CallPos(h, path[d]) + 1, RetPos(h, path[d]) + 1;
      nx'[c] == nx[c] && pv'[c] == pv[c] && nx'[r] == nx[r] && pv'[r] == pv[r]
    ensures CutAt(nx', pv', h, n, path', d)
  {
    hide Live, HistoryOk;
    assert path[..d + 1][d] == path'[..d + 1][d];
  }

  lemma DeadOnes<V>(h: seq<Entry<V>>, n: nat, path: seq<nat>, d: nat)
    requires HistoryOk(h, n) && InRange(n, path) && d < |path|
    ensures CallPos(h, path[d]) + 1 !in Live(h, Ids(path)) && RetPos(h, path[d]) + 1 !in Live(h, Ids(path))
  {
    LiveAt(h, Ids(path), CallPos(h, path[d]) + 1);
    LiveAt(h, Ids(path), RetPos(h, path[d]) + 1);
    assert h[CallPos(h, path[d])].id == path[d] && h[RetPos(h, path[d])].id == path[d];
  }

  lemma StackPush<V>(nx: seq<int>, pv: seq<int>, nx': seq<int>, pv': seq<int>, h: seq<Entry<V>>, n: nat, path: seq<nat>, x: nat)
    requires HistoryOk(h, n) && StackOk(nx, pv, h, n, path) && x < n && |nx'| == |pv'| == |h| + 1
    requires forall k :: 0 <= k < |nx| && k !in Live(h, Ids(path)) ==> nx'[k] == nx[k] && pv'[k] == pv[k]
    requires Fits(nx', pv', Live(h, Ids(path) + {x}) + {RetPos(h, x) + 1}, CallPos(h, x) + 1)
    requires Fits(nx', pv', Live(h, Ids(path) + {x}), RetPos(h, x) + 1)
    ensures StackOk(nx', pv', h, n, path + [x])
  {
    hide Fits, Live;
    var more := path + [x];
    forall d | 0 <= d < |more| ensures CutAt(nx', pv', h, n, more, d) {
      if d < |path| {
        assert more[..d + 1] == path[..d + 1];
        DeadOnes(h, n, path, d);
        assert CutAt(nx, pv, h, n, path, d);
        CutFrame(nx, pv, nx', pv', h, n, path, more, d);
      } else {
        assert more[..d + 1] == more;
        IdsSnoc(path, x);
      }
    }
  }

  lemma StackPop<V>(nx: seq<int>, pv: seq<int>, nx': seq<int>, pv': seq<int>, h: seq<Entry<V>>, n: nat, path: seq<nat>, x: nat)
    requires HistoryOk(h, n) && StackOk(nx, pv, h, n, path + [x]) && |nx'| == |pv'| == |h| + 1 && x < n && x !in Ids(path)
    requires forall k :: 0 <= k < |nx| && k !in Live(h, Ids(path)) ==> nx'[k] == nx[k] && pv'[k] == pv[k]
    ensures InRange(n, path) && StackOk(nx', pv', h, n, path)
  {
    hide CutAt, Live;
    var more := path + [x];
    assert forall d :: 0 <= d < |path| ==> more[d] == path[d];
    forall d | 0 <= d < |path| ensures CutAt(nx', pv', h, n, path, d) {
      assert more[..d + 1] == path[..d + 1];
      assert CutAt(nx, pv, h, n, more, d);
      DeadOnes(h, n, path, d);
      CutFrame(nx, pv, nx', pv', h, n, more, path, d);
    }
  }

  lemma StackTop<V>(nx: seq<int>, pv: seq<int>, h: seq<Entry<V>>, n: nat, path: seq<nat>, x: nat)
    requires HistoryOk(h, n) && StackOk(nx, pv, h, n, path + [x])
    ensures x < n
    ensures Fits(nx, pv, Live(h, Ids(path) + {x}) + {RetPos(h, x) + 1}, CallPos(h, x) + 1)
    ensures Fits(nx, pv, Live(h, Ids(path) + {x}), RetPos(h, x) + 1)
  {
    hide HistoryOk, Live, Fits, Ids;
    var more := path + [x];
    assert more[|path|] == x && more[..|path| + 1] == more;
    assert CutAt(nx, pv, h, n, more, |path|);
    IdsSnoc(path, x);
  }

  // ----- The memory -------------------------------------------------------------------------

  type Cache<S> = map<nat, seq<(seq<bv64>, S)>>

  ghost predicate Kept<S>(cache: Cache<S>, size: nat, v: Visit<S>) {
    exists b: seq<bv64> :: |b| == size && Members(b) == v.0 && Hash(b) in cache && (b, v.1) in cache[Hash(b)]
  }

  /** The buckets hold exactly the visits in `seen`, each under its own hash. */
  ghost predicate CacheHolds<S>(cache: Cache<S>, size: nat, seen: set<Visit<S>>) {
    && (forall k, e :: k in cache && e in cache[k] ==> |e.0| == size && Hash(e.0) == k && (Members(e.0), e.1) in seen)
    && (forall v :: v in seen ==> Kept(cache, size, v))
  }

  lemma Bucket<S>(cache: Cache<S>, size: nat, seen: set<Visit<S>>, b: seq<bv64>, st: S)
    requires CacheHolds(cache, size, seen) && |b| == size
    ensures (Members(b), st) in seen <==> Hash(b) in cache && (b, st) in cache[Hash(b)]
  {
    hide Hash;
    if (Members(b), st) in seen {
      assert Kept(cache, size, (Members(b), st));
      var a: seq<bv64> :| |a| == size && Members(a) == Members(b) && Hash(a) in cache && (a, st) in cache[Hash(a)];
      SameMembers(a, b);
    }
  }

  function Remember<S>(cache: Cache<S>, b: seq<bv64>, st: S): Cache<S> {
    cache[Hash(b) := (if Hash(b) in cache then cache[Hash(b)] else []) + [(b, st)]]
  }

  lemma RememberHolds<S>(cache: Cache<S>, size: nat, seen: set<Visit<S>>, b: seq<bv64>, st: S)
    requires CacheHolds(cache, size, seen) && |b| == size
    ensures CacheHolds(Remember(cache, b, st), size, seen + {(Members(b), st)})
  {
    hide Hash, Members;
    var more, all := Remember(cache, b, st), seen + {(Members(b), st)};
    var bucket := more[Hash(b)];
    assert bucket[|bucket| - 1] == (b, st);
    assert forall k, e :: k in cache && e in cache[k] ==> e in more[k] by {
      forall k, e | k in cache && e in cache[k] ensures e in more[k] {
        var i :| 0 <= i < |cache[k]| && cache[k][i] == e;
        assert more[k][i] == e;
      }
    }
    forall v | v in all ensures Kept(more, size, v) {
      if v in seen {
        assert Kept(cache, size, v);
        var a: seq<bv64> :| |a| == size && Members(a) == v.0 && Hash(a) in cache && (a, v.1) in cache[Hash(a)];
        assert (a, v.1) in more[Hash(a)];
      } else {
        assert (b, v.1) in more[Hash(b)];
      }
    }
  }

  // ----- The longest prefixes ---------------------------------------------------------------

  /** Every stored prefix is linearizable and contains its operation. */
  ghost predicate Genuine<S, V>(m: Model<S, V>, p: Problem<V>, longest: seq<Option<seq<nat>>>) {
    forall id :: 0 <= id < |longest| && longest[id].Some? ==> Path(m, p, longest[id].value) && id in longest[id].value
  }

  predicate AtLeast(longest: seq<Option<seq<nat>>>, ids: set<nat>, size: nat) {
    forall id :: id in ids ==> id < |longest| && longest[id].Some? && |longest[id].value| >= size
  }

  /** What has been given up is no longer than what is stored. */
  ghost predicate Covers<S>(longest: seq<Option<seq<nat>>>, closed: set<Visit<S>>) {
    forall v :: v in closed ==> AtLeast(longest, v.0, |v.0|)
  }

  function Better(old_: Option<seq<nat>>, id: nat, path: seq<nat>): Option<seq<nat>> {
    if id in path && (old_.None? || |path| > |old_.value|) then Some(path) else old_
  }

  /** Each operation of `path` gets `path` where that is longer than what it had. */
  ghost predicate Improved(before: seq<Option<seq<nat>>>, after: seq<Option<seq<nat>>>, path: seq<nat>) {
    |after| == |before| && forall id :: 0 <= id < |before| ==> after[id] == Better(before[id], id, path)
  }

  lemma ImprovedCovers<S, V>(m: Model<S, V>, p: Problem<V>, before: seq<Option<seq<nat>>>, after: seq<Option<seq<nat>>>,
                             path: seq<nat>, closed: set<Visit<S>>)
    requires Path(m, p, path) && |before| == |p.ops| && Improved(before, after, path) && Genuine(m, p, before) && Covers(before, closed)
    ensures Genuine(m, p, after) && Covers(after, closed + {VisitOf(m, p, path)})
  {
    PathShape(m, p, path);
    hide Path, After;
    forall v | v in closed + {VisitOf(m, p, path)} ensures AtLeast(after, v.0, |v.0|) {
      if v in closed { assert AtLeast(before, v.0, |v.0|); }
    }
  }

  /** The stored prefixes are the best there are. */
  ghost predicate BestPartials<S, V>(m: Model<S, V>, p: Problem<V>, longest: seq<Option<seq<nat>>>) {
    && Genuine(m, p, longest)
    && (forall order, id :: Path(m, p, order) && id in order ==>
          id < |longest| && longest[id].Some? && |longest[id].value| >= |order|)
  }

  lemma ExhaustedMeansBest<S, V>(m: Model<S, V>, p: Problem<V>, closed: set<Visit<S>>, longest: seq<Option<seq<nat>>>)
    requires AllExhausted(m, p, closed) && Exhausted(m, p, closed, ({}, m.init))
    requires Genuine(m, p, longest) && Covers(longest, closed)
    ensures BestPartials(m, p, longest)
  {
    forall order, id | Path(m, p, order) && id in order
      ensures id < |longest| && longest[id].Some? && |longest[id].value| >= |order|
    {
      PathClosed(m, p, closed, order);
      PathShape(m, p, order);
      assert AtLeast(longest, VisitOf(m, p, order).0, |Ids(order)|) && id in Ids(order);
    }
  }
}

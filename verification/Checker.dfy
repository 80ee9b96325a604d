/** The linearizability checker for one partition: a loop over a linked list of entries, a stack
    of taken calls, a bit set of done operations and a hashed memory. */
module Checker {
  import opened Wrappers
  import opened Linearizability
  import opened SearchSpace
  import opened Entries
  import opened EntryList
  import opened Search
  import opened Bitset
  import opened CheckerState

  // ----- The list during the search -------------------------------------------------------

  ghost predicate Headed<V>(nodes: seq<Node<V>>, h: seq<Entry<V>>, n: nat)
    requires HistoryOk(h, n)
  {
    |nodes| == |h| + 1 && Stands(nodes[1..], h, n, 0)
  }

  /** The list is the history without the operations of `path`, which can be put back in turn. */
  ghost predicate ListOk<V>(nodes: seq<Node<V>>, h: seq<Entry<V>>, n: nat, nx: seq<int>, pv: seq<int>, path: seq<nat>)
    requires HistoryOk(h, n)
    reads nodes
  {
    && Headed(nodes, h, n) && Holds(nodes, nx, pv)
    && Linked(nx, pv, Live(h, Ids(path))) && StackOk(nx, pv, h, n, path)
  }

  lemma NodeAt<V>(nodes: seq<Node<V>>, h: seq<Entry<V>>, n: nat, i: nat)
    requires HistoryOk(h, n) && Headed(nodes, h, n) && i < |h|
    ensures nodes[i + 1].id == h[i].id && nodes[i + 1].value == Some(h[i].value)
    ensures h[i].isReturn <==> nodes[i + 1].mate == null
    ensures !h[i].isReturn ==> nodes[i + 1].mate == nodes[RetPos(h, h[i].id) + 1]
  {
    assert StandsFor(nodes[1..], h, n, 0, i);
  }

  /** The next pointer of a live position skips what is done. */
  lemma NextNode<V>(nodes: seq<Node<V>>, h: seq<Entry<V>>, n: nat, nx: seq<int>, pv: seq<int>, path: seq<nat>, i: nat)
    requires HistoryOk(h, n) && ListOk(nodes, h, n, nx, pv, path) && i <= |h| && (i == 0 || h[i - 1].id !in Ids(path))
    ensures |nodes| == |h| + 1 && nodes[i].next == At(nodes, NextLive(h, Ids(path), i) + 1)
  {
    hide NextIn, PrevIn, Live, StackOk, Stands, NextLive, HistoryOk;
    LiveAt(h, Ids(path), i);
    assert Fits(nx, pv, Live(h, Ids(path)), i) && HoldsAt(nodes, nx, pv, i);
    LiveNext(h, Ids(path), i);
  }

  method TakeOut<V>(entry: Node<V>, ghost nodes: seq<Node<V>>, ghost h: seq<Entry<V>>, ghost n: nat,
                    ghost nx: seq<int>, ghost pv: seq<int>, ghost path: seq<nat>, ghost x: nat)
    returns (ghost nx': seq<int>, ghost pv': seq<int>)
    requires HistoryOk(h, n) && ListOk(nodes, h, n, nx, pv, path) && x < n && x !in Ids(path) && entry == nodes[CallPos(h, x) + 1]
    modifies nodes
    ensures ListOk(nodes, h, n, nx', pv', path + [x])
  {
    hide Live, NextIn, PrevIn, Fits, Linked, Stands, StackOk, Holds;
    ghost var c, r := CallPos(h, x) + 1, RetPos(h, x) + 1;
    NodeAt(nodes, h, n, CallPos(h, x));
    LiveWithout(h, n, Ids(path), x);
    IdsSnoc(path, x);
    nx', pv' := Lift(entry, nodes, nx, pv, Live(h, Ids(path)), c, r);
    StackPush(nx, pv, nx', pv', h, n, path, x);
  }

  method PutIn<V>(entry: Node<V>, ghost nodes: seq<Node<V>>, ghost h: seq<Entry<V>>, ghost n: nat,
                  ghost nx: seq<int>, ghost pv: seq<int>, ghost path: seq<nat>, ghost x: nat)
    returns (ghost nx': seq<int>, ghost pv': seq<int>)
    requires HistoryOk(h, n) && ListOk(nodes, h, n, nx, pv, path + [x]) && x < n && x !in Ids(path) && entry == nodes[CallPos(h, x) + 1]
    modifies nodes
    ensures ListOk(nodes, h, n, nx', pv', path)
  {
    hide Live, NextIn, PrevIn, Fits, Linked, Stands, StackOk, Holds;
    ghost var c, r := CallPos(h, x) + 1, RetPos(h, x) + 1;
    NodeAt(nodes, h, n, CallPos(h, x));
    LiveWithout(h, n, Ids(path), x);
    IdsSnoc(path, x);
    StackTop(nx, pv, h, n, path, x);
    nx', pv' := Unlift(entry, nodes, nx, pv, Live(h, Ids(path) + {x}), c, r);
    StackPop(nx, pv, nx', pv', h, n, path, x);
  }

  // ----- The memory -------------------------------------------------------------------------

  method CacheContains<S(==)>(cache: Cache<S>, linearized: array<bv64>, state: S, ghost seen: set<Visit<S>>) returns (r: bool)
    requires CacheHolds(cache, linearized.Length, seen)
    ensures r <==> (Members(linearized[..]), state) in seen
  {
    var hash := ComputeHash(linearized);
    Bucket(cache, linearized.Length, seen, linearized[..], state);
    if hash !in cache { return false; }
    var bucket := cache[hash];
    hide CacheHolds, Hash, Members;
    for i := 0 to |bucket|
      invariant (linearized[..], state) !in bucket[..i]
    {
      var same := Equals(linearized, bucket[i].0);
      if same && state == bucket[i].1 {
        assert bucket[i] == (linearized[..], state);
        return true;
      }
    }
    return false;
  }

  // ----- The stack and the longest prefixes -------------------------------------------------

  type Call<S, V> = (Node<V>, S)

  ghost predicate CallsOk<S, V>(m: Model<S, V>, h: seq<Entry<V>>, n: nat, nodes: seq<Node<V>>, calls: seq<Call<S, V>>, path: seq<nat>)
    requires HistoryOk(h, n)
  {
    && |calls| == |path| && InRange(n, path) && |nodes| == |h| + 1
    && (forall d :: 0 <= d < |path| ==> CallAt(m, h, n, nodes, calls[d], path, d))
  }

  ghost predicate CallAt<S, V>(m: Model<S, V>, h: seq<Entry<V>>, n: nat, nodes: seq<Node<V>>, call: Call<S, V>, path: seq<nat>, d: nat)
    requires HistoryOk(h, n) && InRange(n, path) && d < |path| && |nodes| == |h| + 1
  {
    call.0 == nodes[CallPos(h, path[d]) + 1] && call.0.id == path[d] && call.1 == After(m, ProblemOf(h, n), path[..d])
  }

  lemma CallsPush<S, V>(m: Model<S, V>, h: seq<Entry<V>>, n: nat, nodes: seq<Node<V>>, calls: seq<Call<S, V>>, path: seq<nat>, x: nat, st: S)
    requires HistoryOk(h, n) && Headed(nodes, h, n) && CallsOk(m, h, n, nodes, calls, path) && x < n
    requires st == After(m, ProblemOf(h, n), path)
    ensures CallsOk(m, h, n, nodes, calls + [(nodes[CallPos(h, x) + 1], st)], path + [x])
  {
    var more := path + [x];
    NodeAt(nodes, h, n, CallPos(h, x));
    var calls' := calls + [(nodes[CallPos(h, x) + 1], st)];
    forall d | 0 <= d < |more| ensures CallAt(m, h, n, nodes, calls'[d], more, d) {
      assert more[..d] == if d < |path| then path[..d] else path;
      if d < |path| { assert CallAt(m, h, n, nodes, calls[d], path, d); }
    }
  }

  lemma CallsPop<S, V>(m: Model<S, V>, h: seq<Entry<V>>, n: nat, nodes: seq<Node<V>>, calls: seq<Call<S, V>>, path: seq<nat>)
    requires HistoryOk(h, n) && CallsOk(m, h, n, nodes, calls, path) && path != []
    ensures CallsOk(m, h, n, nodes, calls[..|path| - 1], path[..|path| - 1])
    ensures CallAt(m, h, n, nodes, calls[|path| - 1], path, |path| - 1)
  {
    var front := path[..|path| - 1];
    forall d | 0 <= d < |front| ensures CallAt(m, h, n, nodes, calls[d], front, d) {
      assert front[..d] == path[..d];
      assert CallAt(m, h, n, nodes, calls[d], path, d);
    }
  }

  /** The operations on the stack, in order. */
  method Sequence<S, V>(calls: seq<Call<S, V>>, ghost path: seq<nat>) returns (s: seq<nat>)
    requires |calls| == |path| && forall d :: 0 <= d < |path| ==> calls[d].0.id == path[d]
    ensures s == path
  {
    s := [];
    for d := 0 to |calls|
      invariant s == path[..d]
    {
      s := s + [calls[d].0.id];
    }
  }

  method StoreLongest<S, V>(calls: seq<Call<S, V>>, longest: array<Option<seq<nat>>>, ghost path: seq<nat>)
    requires |calls| == |path| && forall d :: 0 <= d < |path| ==> calls[d].0.id == path[d] < longest.Length
    requires Distinct(path)
    modifies longest
    ensures Improved(old(longest[..]), longest[..], path)
  {
    var made: Option<seq<nat>> := None;
    for d := 0 to |calls|
      invariant made == None || made == Some(path)
      invariant forall id :: 0 <= id < longest.Length ==>
        longest[id] == if id in path[..d] then Better(old(longest[id]), id, path) else old(longest[id])
    {
      var id := calls[d].0.id;
      assert path[..d + 1] == path[..d] + [path[d]];
      if longest[id].None? || |calls| > |longest[id].value| {
        if made.None? {
          var s := Sequence(calls, path);
          made := Some(s);
        }
        longest[id] := made;
      }
    }
    assert path[..|path|] == path;
  }

  // ----- The check --------------------------------------------------------------------------

  /** The list as the search finds it: a fresh head in front of all entries. */
  method Prepare<V>(h: seq<Entry<V>>, ghost n: nat)
    returns (head: Node<V>, entry: Node?<V>, size: nat, ghost nodes: seq<Node<V>>, ghost nx: seq<int>, ghost pv: seq<int>)
    requires HistoryOk(h, n)
    ensures size == n && fresh(nodes) && |nodes| == |h| + 1 && head == nodes[0] && entry == At(nodes, 1)
    ensures Headed(nodes, h, n) && ListOk(nodes, h, n, nx, pv, [])
  {
    ghost var rest;
    entry, rest := MakeLinkedEntries(h, n);
    var len := Length(entry, rest);
    size := len / 2;
    head := new Node(None, null, -1);
    Prepend(head, entry, rest);
    nodes := [head] + rest;
    nx, pv := Ups(|nodes|), Downs(|nodes|);
    assert nodes[1..] == rest;
    hide HistoryOk, Stands, Holds, Linked, Live;
    FreshList(nodes, h, nx, pv);
  }

  lemma FreshList<V>(nodes: seq<Node<V>>, h: seq<Entry<V>>, nx: seq<int>, pv: seq<int>)
    requires |nodes| == |h| + 1 && nx == Ups(|nodes|) && pv == Downs(|nodes|)
    ensures Linked(nx, pv, Live(h, Ids([])))
  {
    var live := Live(h, Ids([]));
    forall i ensures i in live <==> 0 <= i <= |h| { LiveAt(h, Ids([]), i); }
    forall i | i in live ensures Fits(nx, pv, live, i) {
      NextIs(live, |nx|, i + 1, i + 1);
      PrevIs(live, i - 1, i - 1);
    }
  }

  /** The list is empty exactly when every operation is on the path. */
  lemma ListEmpty<S, V>(m: Model<S, V>, h: seq<Entry<V>>, n: nat, nodes: seq<Node<V>>, nx: seq<int>, pv: seq<int>, path: seq<nat>)
    requires HistoryOk(h, n) && ListOk(nodes, h, n, nx, pv, path) && Path(m, ProblemOf(h, n), path)
    ensures nodes[0].next == null <==> |path| == n
  {
    hide ListOk, Path, NextLive, ProblemOf;
    NextNode(nodes, h, n, nx, pv, path, 0);
    FullIds(m, ProblemOf(h, n), path);
    var k := NextLive(h, Ids(path), 0);
    assert k < |h| ==> h[k].id in Below(n);
    if NextLive(h, Ids(path), 0) == |h| { AllDone(m, h, n, path); }
  }

  lemma CursorLive<S, V>(m: Model<S, V>, h: seq<Entry<V>>, n: nat, nodes: seq<Node<V>>, nx: seq<int>, pv: seq<int>, path: seq<nat>, cur: nat,
                         seen: set<Visit<S>>, closed: set<Visit<S>>)
    requires HistoryOk(h, n) && ListOk(nodes, h, n, nx, pv, path) && SearchOk(m, h, n, path, cur, seen, closed) && nodes[0].next != null
    ensures Headed(nodes, h, n) && cur < |h| && h[cur].id !in Ids(path)
  {
    hide Path, Linked, StackOk, Holds, Stands, Scanned, LevelOk, AllExhausted, CacheOk;
    ListEmpty(m, h, n, nodes, nx, pv, path);
  }

  /** While the list is not empty the cursor stands on an entry of an operation not done. */
  lemma AtCursor<S, V>(m: Model<S, V>, h: seq<Entry<V>>, n: nat, nodes: seq<Node<V>>, nx: seq<int>, pv: seq<int>, path: seq<nat>, cur: nat,
                       seen: set<Visit<S>>, closed: set<Visit<S>>)
    requires HistoryOk(h, n) && ListOk(nodes, h, n, nx, pv, path) && SearchOk(m, h, n, path, cur, seen, closed) && nodes[0].next != null
    ensures Headed(nodes, h, n) && cur < |h| && h[cur].id < n && h[cur].id !in Ids(path) && cur == Find(h, h[cur].isReturn, h[cur].id)
    ensures nodes[cur + 1].id == h[cur].id && (h[cur].isReturn <==> nodes[cur + 1].mate == null)
    ensures nodes[cur + 1].next == At(nodes, NextLive(h, Ids(path), cur + 1) + 1)
    ensures !h[cur].isReturn ==>
      && nodes[cur + 1].mate == nodes[RetPos(h, h[cur].id) + 1]
      && nodes[cur + 1].value == Some(ProblemOf(h, n).ops[h[cur].id].0)
      && nodes[cur + 1].mate.value == Some(ProblemOf(h, n).ops[h[cur].id].1)
  {
    hide ListOk, SearchOk, NextLive, Stands;
    CursorLive(m, h, n, nodes, nx, pv, path, cur, seen, closed);
    NodeAt(nodes, h, n, cur);
    NextNode(nodes, h, n, nx, pv, path, cur + 1);
    if !h[cur].isReturn { NodeAt(nodes, h, n, RetPos(h, h[cur].id)); }
  }

  lemma CallIds<S, V>(m: Model<S, V>, h: seq<Entry<V>>, n: nat, nodes: seq<Node<V>>, calls: seq<Call<S, V>>, path: seq<nat>)
    requires HistoryOk(h, n) && CallsOk(m, h, n, nodes, calls, path) && Path(m, ProblemOf(h, n), path)
    ensures Distinct(path) && InRange(n, path) && |calls| == |path| && forall d :: 0 <= d < |path| ==> calls[d].0.id == path[d]
  {
    PathShape(m, ProblemOf(h, n), path);
    forall d | 0 <= d < |path| ensures calls[d].0.id == path[d] {
      assert CallAt(m, h, n, nodes, calls[d], path, d);
    }
  }

  // ----- The loop's variables ---------------------------------------------------------------

  /** Where the search is: the path, the cursor, what it remembers and what it has given up. */
  datatype Trace<S(==)> = Trace(path: seq<nat>, cur: nat, seen: set<Visit<S>>, closed: set<Visit<S>>)

  /** The stack, the state, the bit set (as a set) and the memory all stand for the trace. */
  ghost predicate LoopOk<S, V>(m: Model<S, V>, h: seq<Entry<V>>, n: nat, nodes: seq<Node<V>>, t: Trace<S>,
                               calls: seq<Call<S, V>>, state: S, linearized: set<nat>, cache: Cache<S>, size: nat)
    requires HistoryOk(h, n)
  {
    && Headed(nodes, h, n)
    && SearchOk(m, h, n, t.path, t.cur, t.seen, t.closed)
    && CallsOk(m, h, n, nodes, calls, t.path)
    && state == After(m, ProblemOf(h, n), t.path)
    && linearized == Ids(t.path) && n <= 64 * size
    && CacheHolds(cache, size, t.seen)
  }

  ghost predicate LongestOk<S, V>(m: Model<S, V>, p: Problem<V>, longest: seq<Option<seq<nat>>>, closed: set<Visit<S>>) {
    |longest| == |p.ops| && Genuine(m, p, longest) && Covers(longest, closed)
  }

  ghost function Unseen<S, V>(m: Model<S, V>, p: Problem<V>, t: Trace<S>): nat {
    |Visits(m, p, |p.ops|) - t.seen|
  }

  ghost function Pushed<S, V>(h: seq<Entry<V>>, t: Trace<S>, x: nat, newState: S): Trace<S> {
    Trace(t.path + [x], NextLive(h, Ids(t.path) + {x}, 0), t.seen + {(Ids(t.path) + {x}, newState)}, t.closed)
  }

  /** The call at the cursor is taken. */
  lemma PushOk<S, V>(m: Model<S, V>, h: seq<Entry<V>>, n: nat, nodes: seq<Node<V>>, t: Trace<S>, calls: seq<Call<S, V>>,
                     state: S, linearized: set<nat>, cache: Cache<S>, size: nat, b: seq<bv64>, newState: S)
    requires HistoryOk(h, n) && LoopOk(m, h, n, nodes, t, calls, state, linearized, cache, size)
    requires t.cur < |h| && !h[t.cur].isReturn && |b| == size && Members(b) == linearized + {h[t.cur].id}
    requires Accepted(m, ProblemOf(h, n), state, h[t.cur].id) && newState == Then(m, ProblemOf(h, n), state, h[t.cur].id)
    requires (Members(b), newState) !in t.seen
    ensures var t' := Pushed(h, t, h[t.cur].id, newState);
      && LoopOk(m, h, n, nodes, t', calls + [(nodes[t.cur + 1], state)], newState, Members(b), Remember(cache, b, newState), size)
      && Unseen(m, ProblemOf(h, n), t') < Unseen(m, ProblemOf(h, n), t)
  {
    var p, x := ProblemOf(h, n), h[t.cur].id;
    Take(m, h, n, t.path, t.cur, t.seen, t.closed);
    IdsSnoc(t.path, x);
    assert t.cur == CallPos(h, x);
    hide SearchOk, CallsOk, CacheHolds, Members, Remember, After, Accepted, Then, Headed, Visits, ProblemOf, HistoryOk,
      NextLive, Ids;
    RememberHolds(cache, size, t.seen, b, newState);
    CallsPush(m, h, n, nodes, calls, t.path, x, state);
    Shrinks(Visits(m, p, n), t.seen, (Members(b), newState));
  }

  /** The call at the cursor is stepped over. */
  lemma SkipOk<S, V>(m: Model<S, V>, h: seq<Entry<V>>, n: nat, nodes: seq<Node<V>>, t: Trace<S>, calls: seq<Call<S, V>>,
                     state: S, linearized: set<nat>, cache: Cache<S>, size: nat)
    requires HistoryOk(h, n) && LoopOk(m, h, n, nodes, t, calls, state, linearized, cache, size)
    requires t.cur < |h| && !h[t.cur].isReturn
    requires Accepted(m, ProblemOf(h, n), state, h[t.cur].id) ==>
      (linearized + {h[t.cur].id}, Then(m, ProblemOf(h, n), state, h[t.cur].id)) in t.seen
    ensures var next := NextLive(h, Ids(t.path), t.cur + 1);
      t.cur < next < |h| && LoopOk(m, h, n, nodes, t.(cur := next), calls, state, linearized, cache, size)
  {
    var p, x := ProblemOf(h, n), h[t.cur].id;
    if Accepted(m, p, state, x) { HitIsClosed(m, p, t.seen, t.closed, t.path, x); }
    StepOver(m, h, n, t.path, t.cur, t.seen, t.closed);
    hide SearchOk, CallsOk, CacheHolds, After, Accepted, Then, Headed, ProblemOf, HistoryOk;
  }

  ghost function Popped<S, V>(m: Model<S, V>, h: seq<Entry<V>>, n: nat, t: Trace<S>): Trace<S>
    requires HistoryOk(h, n) && t.path != [] && InRange(n, t.path)
  {
    var front, x := t.path[..|t.path| - 1], t.path[|t.path| - 1];
    Trace(front, NextLive(h, Ids(front), CallPos(h, x) + 1), t.seen, t.closed + {VisitOf(m, ProblemOf(h, n), t.path)})
  }

  /** The call on top of the stack is given up. */
  lemma PopOk<S, V>(m: Model<S, V>, h: seq<Entry<V>>, n: nat, nodes: seq<Node<V>>, t: Trace<S>, calls: seq<Call<S, V>>,
                    state: S, linearized: set<nat>, cache: Cache<S>, size: nat)
    requires HistoryOk(h, n) && LoopOk(m, h, n, nodes, t, calls, state, linearized, cache, size)
    requires t.cur < |h| && h[t.cur].isReturn && calls != []
    ensures |calls| == |t.path| && InRange(n, t.path)
    ensures var k := |calls| - 1; var x := t.path[k]; var t' := Popped(m, h, n, t);
      && x < n && x !in Ids(t'.path) && t.path == t'.path + [x]
      && calls[k].0 == nodes[CallPos(h, x) + 1] && calls[k].0.id == x
      && LoopOk(m, h, n, nodes, t', calls[..k], calls[k].1, linearized - {x}, cache, size)
  {
    hide SearchOk, CallsOk, CacheHolds, After, Headed, ProblemOf, HistoryOk, NextLive, Path, Accepted, VisitOf;
    SearchPath(m, h, n, t.path, t.cur, t.seen, t.closed);
    CallIds(m, h, n, nodes, calls, t.path);
    var k := |calls| - 1;
    var front, x := t.path[..k], t.path[k];
    PathAt(m, ProblemOf(h, n), t.path, k);
    CallsPop(m, h, n, nodes, calls, t.path);
    assert t.path == front + [x];
    GiveUp(m, h, n, front, x, t.cur, t.seen, t.closed);
    IdsSnoc(front, x);
  }

  lemma SearchPath<S, V>(m: Model<S, V>, h: seq<Entry<V>>, n: nat, path: seq<nat>, cur: nat, seen: set<Visit<S>>, closed: set<Visit<S>>)
    requires HistoryOk(h, n) && SearchOk(m, h, n, path, cur, seen, closed)
    ensures Path(m, ProblemOf(h, n), path) && InRange(n, path)
  {
  }

  /** Nothing left to give up: the history is not linearizable, and the stored prefixes are best. */
  lemma FailOk<S, V>(m: Model<S, V>, h: seq<Entry<V>>, n: nat, nodes: seq<Node<V>>, t: Trace<S>, calls: seq<Call<S, V>>,
                     state: S, linearized: set<nat>, cache: Cache<S>, size: nat, longest: seq<Option<seq<nat>>>)
    requires HistoryOk(h, n) && LoopOk(m, h, n, nodes, t, calls, state, linearized, cache, size)
    requires t.cur < |h| && h[t.cur].isReturn && calls == []
    ensures !Linearizable(m, ProblemOf(h, n))
    ensures LongestOk(m, ProblemOf(h, n), longest, t.closed) ==> BestPartials(m, ProblemOf(h, n), longest)
  {
    var p := ProblemOf(h, n);
    ReturnExhausts(m, h, n, t.closed, [], t.cur);
    assert Ids([]) == {};
    assert VisitOf(m, p, []) == ({}, m.init);
    hide Exhausted, AllExhausted, Genuine, Covers, BestPartials;
    ExhaustedMeansNone(m, p, t.closed);
    if LongestOk(m, p, longest, t.closed) { ExhaustedMeansBest(m, p, t.closed, longest); }
  }

  lemma StoredOk<S, V>(m: Model<S, V>, h: seq<Entry<V>>, n: nat, nodes: seq<Node<V>>, t: Trace<S>, calls: seq<Call<S, V>>,
                       state: S, linearized: set<nat>, cache: Cache<S>, size: nat, before: seq<Option<seq<nat>>>, after: seq<Option<seq<nat>>>)
    requires HistoryOk(h, n) && LoopOk(m, h, n, nodes, t, calls, state, linearized, cache, size) && t.path != []
    requires LongestOk(m, ProblemOf(h, n), before, t.closed) && Improved(before, after, t.path)
    ensures LongestOk(m, ProblemOf(h, n), after, Popped(m, h, n, t).closed)
  {
    ImprovedCovers(m, ProblemOf(h, n), before, after, t.path, t.closed);
  }

  lemma Peek<S, V>(m: Model<S, V>, h: seq<Entry<V>>, n: nat, nodes: seq<Node<V>>, t: Trace<S>, calls: seq<Call<S, V>>,
                   state: S, linearized: set<nat>, cache: Cache<S>, size: nat, nx: seq<int>, pv: seq<int>)
    requires HistoryOk(h, n) && LoopOk(m, h, n, nodes, t, calls, state, linearized, cache, size)
    requires ListOk(nodes, h, n, nx, pv, t.path)
    ensures nodes[0].next == null <==> |t.path| == n
    ensures |t.path| != n ==>
      && t.cur < |h| && |nodes| == |h| + 1 && h[t.cur].id < n <= 64 * size && h[t.cur].id !in linearized
      && t.cur == Find(h, h[t.cur].isReturn, h[t.cur].id)
      && nodes[t.cur + 1].id == h[t.cur].id && (h[t.cur].isReturn <==> nodes[t.cur + 1].mate == null)
      && nodes[t.cur + 1].next == At(nodes, NextLive(h, Ids(t.path), t.cur + 1) + 1)
    ensures |t.path| != n && !h[t.cur].isReturn ==>
      && nodes[t.cur + 1].mate != null
      && nodes[t.cur + 1].value == Some(ProblemOf(h, n).ops[h[t.cur].id].0)
      && nodes[t.cur + 1].mate.value == Some(ProblemOf(h, n).ops[h[t.cur].id].1)
  {
    hide ListOk, CallsOk, CacheHolds, Stands, HistoryOk, NextLive, Scanned, AllExhausted, CacheOk, LevelOk, ProblemOf, Path;
    ListEmpty(m, h, n, nodes, nx, pv, t.path);
    hide SearchOk;
    if |t.path| != n { AtCursor(m, h, n, nodes, nx, pv, t.path, t.cur, t.seen, t.closed); }
  }

  /** Once every operation is on the path, the stack spells a linearization. */
  lemma DoneOk<S, V>(m: Model<S, V>, h: seq<Entry<V>>, n: nat, nodes: seq<Node<V>>, t: Trace<S>, calls: seq<Call<S, V>>,
                     state: S, linearized: set<nat>, cache: Cache<S>, size: nat)
    requires HistoryOk(h, n) && LoopOk(m, h, n, nodes, t, calls, state, linearized, cache, size)
    ensures |calls| == |t.path| && Distinct(t.path) && InRange(n, t.path) && forall d :: 0 <= d < |calls| ==> calls[d].0.id == t.path[d]
    ensures |t.path| == n ==> Linearization(m, ProblemOf(h, n), t.path)
  {
    CallIds(m, h, n, nodes, calls, t.path);
    CompletePath(m, ProblemOf(h, n), t.path);
  }

  // ----- The check --------------------------------------------------------------------------

  ghost predicate LoopInv<S, V>(m: Model<S, V>, h: seq<Entry<V>>, n: nat, nodes: seq<Node<V>>, nx: seq<int>, pv: seq<int>, t: Trace<S>,
                                entry: Node?<V>, state: S, cache: Cache<S>, calls: seq<Call<S, V>>, linearized: array<bv64>)
    reads nodes, linearized
  {
    && HistoryOk(h, n) && |nodes| == |h| + 1
    && ListOk(nodes, h, n, nx, pv, t.path)
    && LoopOk(m, h, n, nodes, t, calls, state, Members(linearized[..]), cache, linearized.Length)
    && entry == At(nodes, t.cur + 1)
  }

  /** The cursor is at a call: take it unless the model refuses or the memory knows the outcome. */
  method TryCall<S(==), V>(m: Model<S, V>, ghost h: seq<Entry<V>>, head: Node<V>, entry: Node<V>, state: S, cache: Cache<S>, calls: seq<Call<S, V>>,
                           linearized: array<bv64>, ghost n: nat, ghost nodes: seq<Node<V>>, ghost nx: seq<int>, ghost pv: seq<int>, ghost t: Trace<S>)
    returns (entry': Node?<V>, state': S, cache': Cache<S>, calls': seq<Call<S, V>>, ghost nx': seq<int>, ghost pv': seq<int>, ghost t': Trace<S>)
    requires LoopInv(m, h, n, nodes, nx, pv, t, entry, state, cache, calls, linearized) && head == nodes[0]
    requires head.next != null && entry.mate != null
    modifies nodes, linearized
    ensures LoopInv(m, h, n, nodes, nx', pv', t', entry', state', cache', calls', linearized) && t'.closed == t.closed
    ensures Unseen(m, ProblemOf(h, n), t') < Unseen(m, ProblemOf(h, n), t)
      || (t'.seen == t.seen && t'.path == t.path && t.cur < t'.cur <= |h|)
  {
    hide ListOk, LoopOk, HistoryOk, Members, ProblemOf, NextLive, Ids, Unseen, SetAt, Remember, CacheHolds, Find;
    Peek(m, h, n, nodes, t, calls, state, Members(linearized[..]), cache, linearized.Length, nx, pv);
    entry', state', cache', calls', nx', pv', t' := entry.next, state, cache, calls, nx, pv, t;
    ghost var x := h[t.cur].id;
    var matching := entry.mate;
    var (okStep, newState) := m.step(state, entry.value.value, matching.value.value);
    if okStep {
      var newLinearized := Clone(linearized);
      Set(newLinearized, entry.id);
      SetMember(linearized[..], entry.id);
      LoopCache(m, h, n, nodes, t, calls, state, Members(linearized[..]), cache, linearized.Length);
      var hit := CacheContains(cache, newLinearized, newState, t.seen);
      if !hit {
        PushOk(m, h, n, nodes, t, calls, state, Members(linearized[..]), cache, linearized.Length, newLinearized[..], newState);
        cache' := Remember(cache, newLinearized[..], newState);
        calls' := calls + [(entry, state)];
        state' := newState;
        Set(linearized, entry.id);
        IdsSnoc(t.path, x);
        nx', pv' := TakeOut(entry, nodes, h, n, nx, pv, t.path, x);
        NextNode(nodes, h, n, nx', pv', t.path + [x], 0);
        t' := Pushed(h, t, x, newState);
        entry' := head.next;
        return;
      }
    }
    SkipOk(m, h, n, nodes, t, calls, state, Members(linearized[..]), cache, linearized.Length);
    t' := t.(cur := NextLive(h, Ids(t.path), t.cur + 1));
  }

  lemma LoopCache<S, V>(m: Model<S, V>, h: seq<Entry<V>>, n: nat, nodes: seq<Node<V>>, t: Trace<S>, calls: seq<Call<S, V>>,
                        state: S, linearized: set<nat>, cache: Cache<S>, size: nat)
    requires HistoryOk(h, n) && LoopOk(m, h, n, nodes, t, calls, state, linearized, cache, size)
    ensures CacheHolds(cache, size, t.seen) && linearized == Ids(t.path) && |calls| == |t.path|
  {
  }

  /** The cursor is at a return: the call on top of the stack is put back and stepped over. */
  method Backtrack<S(==), V>(ghost m: Model<S, V>, ghost h: seq<Entry<V>>, ghost entry: Node<V>, ghost state: S, ghost cache: Cache<S>, calls: seq<Call<S, V>>,
                             linearized: array<bv64>, ghost n: nat, ghost nodes: seq<Node<V>>, ghost nx: seq<int>, ghost pv: seq<int>, ghost t: Trace<S>)
    returns (entry': Node?<V>, state': S, calls': seq<Call<S, V>>, ghost nx': seq<int>, ghost pv': seq<int>, ghost t': Trace<S>)
    requires LoopInv(m, h, n, nodes, nx, pv, t, entry, state, cache, calls, linearized)
    requires nodes[0].next != null && entry.mate == null && calls != []
    modifies nodes, linearized
    ensures LoopInv(m, h, n, nodes, nx', pv', t', entry', state', cache, calls', linearized)
    ensures HistoryOk(h, n) && t.path != [] && InRange(n, t.path) && t' == Popped(m, h, n, t) && t'.seen == t.seen && |t'.path| < |t.path|
  {
    hide ListOk, LoopOk, HistoryOk, Members, ProblemOf, NextLive, Ids, ClearAt, CacheHolds, Find, VisitOf;
    Peek(m, h, n, nodes, t, calls, state, Members(linearized[..]), cache, linearized.Length, nx, pv);
    PopOk(m, h, n, nodes, t, calls, state, Members(linearized[..]), cache, linearized.Length);
    t' := Popped(m, h, n, t);
    var top := calls[|calls| - 1];
    state' := top.1;
    ghost var x: nat := top.0.id;
    SetMember(linearized[..], x);
    Clear(linearized, top.0.id);
    calls' := calls[..|calls| - 1];
    LastCall(h, n, Ids(t'.path), x);
    nx', pv' := PutIn(top.0, nodes, h, n, nx, pv, t'.path, x);
    NextNode(nodes, h, n, nx', pv', t'.path, CallPos(h, x) + 1);
    entry' := top.0.next;
  }

  /** Before the path is given up, its operations learn how long it was. */
  method Record<S(==), V>(ghost m: Model<S, V>, ghost h: seq<Entry<V>>, calls: seq<Call<S, V>>, longest: array<Option<seq<nat>>>, ghost n: nat,
                          ghost nodes: seq<Node<V>>, ghost t: Trace<S>, ghost state: S, ghost linearized: set<nat>, ghost cache: Cache<S>, ghost size: nat)
    requires HistoryOk(h, n) && LoopOk(m, h, n, nodes, t, calls, state, linearized, cache, size) && calls != []
    requires longest.Length == n && LongestOk(m, ProblemOf(h, n), longest[..], t.closed)
    modifies longest
    ensures t.path != [] && InRange(n, t.path) && LongestOk(m, ProblemOf(h, n), longest[..], Popped(m, h, n, t).closed)
  {
    hide LoopOk, LongestOk, HistoryOk, ProblemOf, Improved, Popped;
    DoneOk(m, h, n, nodes, t, calls, state, linearized, cache, size);
    ghost var before := longest[..];
    StoreLongest(calls, longest, t.path);
    StoredOk(m, h, n, nodes, t, calls, state, linearized, cache, size, before, longest[..]);
  }

  /** The complete linearization is everyone's longest prefix. */
  method FillAll<S, V>(calls: seq<Call<S, V>>, longest: array<Option<seq<nat>>>, ghost path: seq<nat>)
    requires |calls| == |path| && forall d :: 0 <= d < |path| ==> calls[d].0.id == path[d]
    modifies longest
    ensures forall id :: 0 <= id < longest.Length ==> longest[id] == Some(path)
  {
    var s := Sequence(calls, path);
    for i := 0 to longest.Length
      invariant forall id :: 0 <= id < i ==> longest[id] == Some(path)
    {
      longest[i] := Some(s);
    }
  }

  lemma LastCall<V>(h: seq<Entry<V>>, n: nat, done: set<nat>, x: nat)
    requires HistoryOk(h, n) && x < n
    ensures CallPos(h, x) < |h| && h[CallPos(h, x)].id == x
  {
  }

  lemma StartOk<S, V>(m: Model<S, V>, h: seq<Entry<V>>, n: nat, nodes: seq<Node<V>>, size: nat, longest: seq<Option<seq<nat>>>)
    requires HistoryOk(h, n) && Headed(nodes, h, n) && n <= 64 * size && longest == seq(n, _ => None)
    ensures LoopOk(m, h, n, nodes, Trace([], 0, {}, {}), [], m.init, {}, map[], size)
    ensures LongestOk(m, ProblemOf(h, n), longest, {})
  {
    Start(m, h, n);
    assert Ids([]) == {};
  }

  /** What the loop sees at its top. */
  lemma Look<S, V>(m: Model<S, V>, h: seq<Entry<V>>, n: nat, nodes: seq<Node<V>>, nx: seq<int>, pv: seq<int>, t: Trace<S>,
                   entry: Node?<V>, state: S, cache: Cache<S>, calls: seq<Call<S, V>>, linearized: array<bv64>)
    requires LoopInv(m, h, n, nodes, nx, pv, t, entry, state, cache, calls, linearized)
    ensures HistoryOk(h, n) && |nodes| == |h| + 1
    ensures LoopOk(m, h, n, nodes, t, calls, state, Members(linearized[..]), cache, linearized.Length)
    ensures nodes[0].next == null <==> |t.path| == n
    ensures nodes[0].next != null ==> entry != null && t.cur < |h| && (h[t.cur].isReturn <==> entry.mate == null)
  {
    hide ListOk, LoopOk, HistoryOk, Members, ProblemOf, NextLive, Ids, Find;
    Peek(m, h, n, nodes, t, calls, state, Members(linearized[..]), cache, linearized.Length, nx, pv);
  }

  /** Decides whether the history is linearizable and, when it is not and the prefixes are asked
      for, finds the longest linearizable prefix through every operation. */
  method CheckSingle<S(==), V>(m: Model<S, V>, h: seq<Entry<V>>, computePartial: bool, ghost n: nat)
    returns (ok: bool, longest: array<Option<seq<nat>>>)
    requires HistoryOk(h, n)
    ensures ok <==> Linearizable(m, ProblemOf(h, n))
    ensures longest.Length == n
    ensures ok ==> forall id :: 0 <= id < n ==> longest[id].Some? && Linearization(m, ProblemOf(h, n), longest[id].value)
    ensures !ok && computePartial ==> BestPartials(m, ProblemOf(h, n), longest[..])
  {
    hide ListOk, LoopOk, LongestOk, HistoryOk, Members, Linearizable, Linearization, BestPartials, ProblemOf, NextLive,
      Ids, Visits,
         Improved, Distinct, CacheHolds, Find, VisitOf, Headed, Popped;
    ghost var p := ProblemOf(h, n);
    var head, entry, size;
    ghost var nodes, nx, pv;
    head, entry, size, nodes, nx, pv := Prepare(h, n);
    var linearized := NewBitset(size);
    var cache: Cache<S> := map[];
    var calls: seq<Call<S, V>> := [];
    longest := new Option<seq<nat>>[size](_ => None);
    var state := m.init;
    ghost var t: Trace<S> := Trace([], 0, {}, {});
    assert longest[..] == seq(n, _ => None);
    StartOk(m, h, n, nodes, linearized.Length, longest[..]);
    while head.next != null
      invariant LoopInv(m, h, n, nodes, nx, pv, t, entry, state, cache, calls, linearized)
      invariant longest.Length == n && (computePartial ==> LongestOk(m, p, longest[..], t.closed))
      decreases Unseen(m, p, t), |t.path|, |h| - t.cur
    {
      Look(m, h, n, nodes, nx, pv, t, entry, state, cache, calls, linearized);
      if entry.mate != null {
        entry, state, cache, calls, nx, pv, t := TryCall(m, h, head, entry, state, cache, calls, linearized, n, nodes, nx, pv, t);
      } else {
        if |calls| == 0 {
          FailOk(m, h, n, nodes, t, calls, state, Members(linearized[..]), cache, linearized.Length, longest[..]);
          return false, longest;
        }
        if computePartial {
          Record(m, h, calls, longest, n, nodes, t, state, Members(linearized[..]), cache, linearized.Length);
        }
        entry, state, calls, nx, pv, t := Backtrack(m, h, entry, state, cache, calls, linearized, n, nodes, nx, pv, t);
      }
    }
    Look(m, h, n, nodes, nx, pv, t, entry, state, cache, calls, linearized);
    DoneOk(m, h, n, nodes, t, calls, state, Members(linearized[..]), cache, linearized.Length);
    FillAll(calls, longest, t.path);
    Found(m, p, t.path);
    return true, longest;
  }

  lemma Found<S, V>(m: Model<S, V>, p: Problem<V>, order: seq<nat>)
    requires Linearization(m, p, order)
    ensures Linearizable(m, p)
  {
  }
}

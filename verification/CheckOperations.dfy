/** The whole check of a key/value history: partition by key, sort each part, decide each part,
    and combine the verdicts in whatever order they arrive. */
module CheckOperations {
  import opened Linearizability
  import opened Entries
  import opened KvHistory
  import opened Locality
  import opened KvMeaning
  import opened EntryOrder
  import opened Checker
  import opened CheckerState
  import opened SearchSpace
  import opened Wrappers

  datatype CheckResult = Ok | Illegal | Unknown

  // ----- Partition ------------------------------------------------------------------------

  predicate AllDifferentKeys(keys: seq<string>) {
    forall i, j :: 0 <= i < j < |keys| ==> keys[i] != keys[j]
  }

  /** `parts` are the sub-histories of all keys of `ops`, one for each. */
  ghost predicate PartsOf(ops: seq<Operation>, keys: seq<string>, parts: seq<seq<Operation>>) {
    && |parts| == |keys| && AllDifferentKeys(keys)
    && (forall k :: k in keys <==> k in KeysOf(ops))
    && (forall i :: 0 <= i < |keys| ==> parts[i] == OnKey(ops, keys[i]))
  }

  lemma OnKeySnoc(ops: seq<Operation>, n: nat, key: string)
    requires n < |ops|
    ensures OnKey(ops[..n + 1], key) == if ops[n].input.key == key then OnKey(ops[..n], key) + [ops[n]] else OnKey(ops[..n], key)
  {
    var more, less := ops[..n + 1], ops[..n];
    assert more[..n] == less && more[n] == ops[n];
    assert forall k: nat :: k < n ==> more[k] == less[k];
  }

  lemma KeysSnoc(ops: seq<Operation>, n: nat)
    requires n < |ops|
    ensures KeysOf(ops[..n + 1]) == KeysOf(ops[..n]) + {ops[n].input.key}
  {
    var more, less := ops[..n + 1], ops[..n];
    assert forall k: nat :: k < n ==> more[k] == less[k];
    assert more[n] == ops[n];
    forall key ensures key in KeysOf(more) <==> key in KeysOf(less) || key == ops[n].input.key {
      if key in KeysOf(less) {
        var i :| 0 <= i < n && less[i].input.key == key;
        assert more[i].input.key == key;
      }
    }
  }

  lemma NoSuchKey(ops: seq<Operation>, key: string)
    ensures key in KeysOf(ops) || OnKey(ops, key) == []
  {
    var r := IndexOf(ops, key);
    if r != [] { assert ops[r[0]].input.key in KeysOf(ops); }
  }

  method Group(ops: seq<Operation>) returns (m: map<string, seq<Operation>>)
    ensures m.Keys == KeysOf(ops) && forall k :: k in m ==> m[k] == OnKey(ops, k)
  {
    m := map[];
    assert KeysOf(ops[..0]) == {};
    hide OnKey, KeysOf;
    for n := 0 to |ops|
      invariant m.Keys == KeysOf(ops[..n]) && forall k :: k in m ==> m[k] == OnKey(ops[..n], k)
    {
      var key := ops[n].input.key;
      ghost var before := m;
      KeysSnoc(ops, n);
      NoSuchKey(ops[..n], key);
      m := m[key := (if key in m then m[key] else []) + [ops[n]]];
      forall k | k in m ensures m[k] == OnKey(ops[..n + 1], k) { OnKeySnoc(ops, n, k); }
    }
    assert ops[..|ops|] == ops;
  }

  method Partition(ops: seq<Operation>) returns (parts: seq<seq<Operation>>, keys: seq<string>)
    ensures PartsOf(ops, keys, parts)
  {
    hide OnKey, KeysOf;
    var m := Group(ops);
    keys, parts := [], [];
    var todo := m.Keys;
    while todo != {}
      invariant todo <= m.Keys && |parts| == |keys| && AllDifferentKeys(keys)
      invariant forall k :: k in keys <==> k in m.Keys && k !in todo
      invariant forall i :: 0 <= i < |keys| ==> keys[i] in m && parts[i] == m[keys[i]]
    {
      var k :| k in todo;
      keys, parts, todo := keys + [k], parts + [m[k]], todo - {k};
    }
  }

  // ----- The verdicts ---------------------------------------------------------------------

  /** Linearizable prefixes, among which every operation finds one through itself that is as long as
      any. */
  ghost predicate Collected<S, V>(m: Model<S, V>, p: Problem<V>, partials: set<seq<nat>>) {
    && (forall q :: q in partials ==> Path(m, p, q))
    && (forall order, id :: Path(m, p, order) && id in order ==> Reached(partials, id, |order|))
  }

  ghost predicate Reached(partials: set<seq<nat>>, id: nat, size: nat) {
    exists q :: q in partials && id in q && |q| >= size
  }

  /** Stored complete linearizations are the best there are. */
  lemma FullIsBest<S, V>(m: Model<S, V>, p: Problem<V>, longest: seq<Option<seq<nat>>>)
    requires |longest| == |p.ops| && forall id :: 0 <= id < |longest| ==> longest[id].Some? && Linearization(m, p, longest[id].value)
    ensures BestPartials(m, p, longest)
  {
    hide Linearization, Path;
    forall id | 0 <= id < |longest| ensures Path(m, p, longest[id].value) && id in longest[id].value {
      CompletePath(m, p, longest[id].value);
      PathShape(m, p, longest[id].value);
      Everyone(|p.ops|, longest[id].value);
      assert id in Ids(longest[id].value);
    }
    forall order, id | Path(m, p, order) && id in order
      ensures id < |longest| && longest[id].Some? && |longest[id].value| >= |order|
    {
      PathShape(m, p, order);
      assert id in Ids(order);
      DistinctBound(|p.ops|, order);
      CompletePath(m, p, longest[id].value);
    }
  }

  lemma DistinctBound(n: nat, order: seq<nat>)
    requires InRange(n, order) && |Ids(order)| == |order|
    ensures |order| <= n && forall id :: id in order ==> id < n
  {
    assert Ids(order) <= Below(n);
    SubsetSize(Ids(order), Below(n));
  }

  /** The distinct prefixes among those stored. */
  method Distinguish(longest: seq<Option<seq<nat>>>) returns (partials: set<seq<nat>>)
    ensures partials == set v | v in longest && v.Some? :: v.value
  {
    partials := {};
    for i := 0 to |longest|
      invariant partials == set v | v in longest[..i] && v.Some? :: v.value
    {
      assert longest[..i + 1] == longest[..i] + [longest[i]];
      if longest[i].Some? { partials := partials + {longest[i].value}; }
    }
    assert longest[..|longest|] == longest;
  }

  lemma BestCollected<S, V>(m: Model<S, V>, p: Problem<V>, longest: seq<Option<seq<nat>>>, partials: set<seq<nat>>)
    requires BestPartials(m, p, longest) && partials == set v | v in longest && v.Some? :: v.value
    ensures Collected(m, p, partials)
  {
    hide Path;
    forall q | q in partials ensures Path(m, p, q) {
      var v :| v in longest && v.Some? && v.value == q;
      var id :| 0 <= id < |longest| && longest[id] == v;
    }
    forall order, id | Path(m, p, order) && id in order ensures Reached(partials, id, |order|) {
      assert longest[id] in longest && longest[id].value in partials;
    }
  }

  /** Part `i` is a history of which the stored prefixes are the best. */
  ghost predicate BestAt<S, V>(m: Model<S, V>, h: seq<Entry<V>>, n: nat, longest: seq<Option<seq<nat>>>)
    requires HistoryOk(h, n)
  {
    BestPartials(m, ProblemOf(h, n), longest)
  }

  ghost predicate GoodAt<S, V>(m: Model<S, V>, h: seq<Entry<V>>, n: nat)
    requires HistoryOk(h, n)
  {
    Linearizable(m, ProblemOf(h, n))
  }

  /** One part on its own. */
  method CheckPart<S(==), V>(m: Model<S, V>, h: seq<Entry<V>>, computeInfo: bool, ghost n: nat)
    returns (ok: bool, longest: seq<Option<seq<nat>>>)
    requires HistoryOk(h, n)
    ensures (ok <==> GoodAt(m, h, n)) && (computeInfo ==> BestAt(m, h, n, longest))
  {
    var verdict, l := CheckSingle(m, h, computeInfo, n);
    ok, longest := verdict, l[..];
    if ok { FullIsBest(m, ProblemOf(h, n), longest); }
  }

  /** Every part has arrived. */
  lemma Arrived(n: nat, arrival: seq<nat>, i: nat) returns (c: nat)
    requires |arrival| == n && InRange(n, arrival) && Distinct(arrival) && i < n
    ensures c < n && arrival[c] == i
  {
    Everyone(n, arrival);
    assert i in Ids(arrival);
    c :| 0 <= c < |arrival| && arrival[c] == i;
  }

  method CollectAll<S, V>(ghost m: Model<S, V>, ghost histories: seq<seq<Entry<V>>>, ghost sizes: seq<nat>, longest: seq<seq<Option<seq<nat>>>>)
    returns (partials: seq<set<seq<nat>>>)
    requires |histories| == |sizes| == |longest| && forall i :: 0 <= i < |histories| ==> HistoryOk(histories[i], sizes[i])
    requires forall i :: 0 <= i < |histories| ==> BestAt(m, histories[i], sizes[i], longest[i])
    ensures |partials| == |longest| && forall i :: 0 <= i < |histories| ==> Collected(m, ProblemOf(histories[i], sizes[i]), partials[i])
  {
    hide HistoryOk, ProblemOf, BestPartials, Collected;
    partials := [];
    for i := 0 to |longest|
      invariant |partials| == i && forall j :: 0 <= j < i ==> Collected(m, ProblemOf(histories[j], sizes[j]), partials[j])
    {
      var distinct := Distinguish(longest[i]);
      assert BestAt(m, histories[i], sizes[i], longest[i]);
      BestCollected(m, ProblemOf(histories[i], sizes[i]), longest[i], distinct);
      partials := partials + [distinct];
    }
  }

  /** Each part is checked on its own; the verdicts are read in the order `arrival` until the timer
      fires behind the first `patience` of them, and reading stops at the first negative one unless
      the partial results are wanted. */
  method CheckParallel<S(==), V>(m: Model<S, V>, histories: seq<seq<Entry<V>>>, computeInfo: bool, arrival: seq<nat>, patience: nat,
                                 ghost sizes: seq<nat>)
    returns (result: CheckResult, partials: seq<set<seq<nat>>>)
    requires 0 < |histories| == |arrival| == |sizes| && InRange(|histories|, arrival) && Distinct(arrival)
    requires forall i :: 0 <= i < |histories| ==> HistoryOk(histories[i], sizes[i])
    ensures var all := forall i :: 0 <= i < |histories| ==> Linearizable(m, ProblemOf(histories[i], sizes[i]));
      match result
      case Ok => all
      case Illegal => !all
      case Unknown => patience < |histories|
    ensures computeInfo && patience >= |histories| ==>
      |partials| == |histories| && forall i :: 0 <= i < |histories| ==> Collected(m, ProblemOf(histories[i], sizes[i]), partials[i])
  {
    hide Linearizable, HistoryOk, ProblemOf, Collected, BestAt, Distinct;
    var ok, timedOut, count := true, false, 0;
    var longest: seq<seq<Option<seq<nat>>>> := seq(|histories|, _ => []);
    ghost var bad := 0;
    while true
      invariant 0 <= count < |histories| == |longest| && count <= patience
      invariant ok ==> forall c :: 0 <= c < count ==> GoodAt(m, histories[arrival[c]], sizes[arrival[c]])
      invariant !ok ==> computeInfo && 0 <= bad < |histories| && !GoodAt(m, histories[bad], sizes[bad])
      invariant computeInfo ==> forall c :: 0 <= c < count ==>
        BestAt(m, histories[arrival[c]], sizes[arrival[c]], longest[arrival[c]])
      decreases |histories| - count
    {
      if count == patience {
        timedOut := true;
        break;
      }
      var i := arrival[count];
      var verdict, l := CheckPart(m, histories[i], computeInfo, sizes[i]);
      longest, count := longest[i := l], count + 1;
      if !verdict { bad := i; }
      ok := ok && verdict;
      if !ok && !computeInfo {
        break;
      }
      if count >= |histories| {
        break;
      }
    }
    partials := [];
    if computeInfo && !timedOut {
      forall i: nat | i < |histories| ensures BestAt(m, histories[i], sizes[i], longest[i]) { var c := Arrived(|histories|, arrival, i); }
      partials := CollectAll(m, histories, sizes, longest);
    }
    if ok && !timedOut {
      forall i: nat | i < |histories| ensures GoodAt(m, histories[i], sizes[i]) { var c := Arrived(|histories|, arrival, i); }
    }
    result := if !ok then Illegal else if timedOut then Unknown else Ok;
  }

  /** The entries of each part. */
  method MakeAll(parts: seq<seq<Operation>>) returns (histories: seq<seq<Entry<Value>>>)
    ensures |histories| == |parts| && forall i :: 0 <= i < |parts| ==> EntriesOf(parts[i], histories[i])
  {
    hide EntriesOf;
    histories := [];
    for i := 0 to |parts|
      invariant |histories| == i && forall j :: 0 <= j < i ==> EntriesOf(parts[j], histories[j])
    {
      var e := MakeEntries(parts[i]);
      histories := histories + [e];
    }
  }

  /** The verdict on a key/value history: without a timeout it is Ok exactly when the history of the
      whole map is linearizable, that is when some order in real time explains every get by the writes
      before it; in any case Ok and Illegal are right. */
  method CheckKvOperations(ops: seq<Operation>, verbose: bool, arrival: seq<nat>, patience: nat) returns (result: CheckResult)
    requires Timed(ops) && ops != []
    requires |arrival| == |KeysOf(ops)| && InRange(|arrival|, arrival) && Distinct(arrival)
    ensures match result
      case Ok => Linearizable(MapModel, ProblemOfOps(ops)) && Explained(ops)
      case Illegal => !Linearizable(MapModel, ProblemOfOps(ops)) && !Explained(ops)
      case Unknown => patience < |arrival|
  {
    hide Explained, Linearizable, ProblemOfOps, EntriesOf, HistoryOk, ProblemOf;
    var parts, keys := Partition(ops);
    KeyCount(ops, keys);
    var histories := MakeAll(parts);
    ghost var sizes: seq<nat> := seq(|parts|, i requires 0 <= i < |parts| => |parts[i]|);
    forall i | 0 <= i < |parts| ensures HistoryOk(histories[i], sizes[i]) && ProblemOf(histories[i], sizes[i]) == ProblemOfOps(OnKey(ops, keys[i])) {
      PartTimed(ops, keys[i]);
      EntriesProblem(parts[i], histories[i]);
    }
    var verdict, _ := CheckParallel(KvModel, histories, verbose, arrival, patience, sizes);
    result := verdict;
    LocalityTheorem(ops);
    LinearizableIsExplained(ops);
    assert forall k :: k in KeysOf(ops) ==> exists i :: 0 <= i < |keys| && keys[i] == k;
  }

  lemma PartTimed(ops: seq<Operation>, key: string)
    requires Timed(ops)
    ensures Timed(OnKey(ops, key))
  {
  }

  lemma KeyCount(ops: seq<Operation>, keys: seq<string>)
    requires ops != [] && AllDifferentKeys(keys) && forall k :: k in keys <==> k in KeysOf(ops)
    ensures 0 < |keys| == |KeysOf(ops)|
  {
    assert ops[0].input.key in KeysOf(ops);
    DifferentSize(keys);
    assert (set k | k in keys) == KeysOf(ops);
  }

  lemma {:induction false} DifferentSize(keys: seq<string>)
    requires AllDifferentKeys(keys)
    ensures |set k | k in keys| == |keys|
  {
    if keys != [] {
      var n := |keys| - 1;
      DifferentSize(keys[..n]);
      assert keys == keys[..n] + [keys[n]];
      assert (set k | k in keys) == (set k | k in keys[..n]) + {keys[n]};
    }
  }
}

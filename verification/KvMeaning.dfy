/** What a linearizable key/value history means for its clients, without a model to step: some order
    in real time in which every get returns the last put before it on its key and the appends since. */
module KvMeaning {
  import opened Linearizability
  import opened KvHistory
  import opened Locality
  import opened LastWrite

  /** The writes on `key` in `order`: op 1 puts, op 0 does not write, anything else appends. */
  function WritesIn(ops: seq<Operation>, order: seq<nat>, key: string): seq<Write<char>>
    requires InRange(|ops|, order)
  {
    if order == [] then []
    else
      var k := |order| - 1;
      var before, i := WritesIn(ops, order[..k], key), ops[order[k]].input;
      if i.key != key || i.op == 0 then before
      else if i.op == 1 then before + [Put(i.value)]
      else before + [Append(i.value)]
  }

  ghost predicate GetRight(ops: seq<Operation>, order: seq<nat>, x: nat)
    requires InRange(|ops|, order) && x < |ops|
  {
    ops[x].input.op == 0 ==> ops[x].output.value == Standing(WritesIn(ops, order, ops[x].input.key))
  }

  ghost predicate GetsRight(ops: seq<Operation>, order: seq<nat>)
    requires InRange(|ops|, order)
  {
    forall j :: 0 <= j < |order| ==> GetRight(ops, order[..j], order[j])
  }

  /** All operations, each once; none before one that had returned when it was called; every get
      explained by the writes before it. */
  ghost predicate RightOrder(ops: seq<Operation>, order: seq<nat>) {
    && |order| == |ops| && InRange(|ops|, order) && Distinct(order)
    && (forall i, j :: 0 <= i < j < |order| ==> ops[order[i]].call <= ops[order[j]].ret)
    && GetsRight(ops, order)
  }

  ghost predicate Explained(ops: seq<Operation>) {
    exists order :: RightOrder(ops, order)
  }

  // ----- The whole map --------------------------------------------------------------------

  /** After an order the map shows every key's writes. */
  lemma {:induction false} MapShows(ops: seq<Operation>, order: seq<nat>, key: string)
    requires InRange(|ops|, order)
    ensures Shows(RunFrom(MapModel, ProblemOfOps(ops), map[], order), key, WritesIn(ops, order, key))
  {
    hide Shows, ProblemOfOps;
    if order == [] {
      ShowsNothing<string, char>(key);
    } else {
      var k := |order| - 1;
      MapShows(ops, order[..k], key);
      assert order == order[..k] + [order[k]];
      ReplaysSnoc(MapModel, ProblemOfOps(ops), map[], order[..k], order[k]);
      StepShows(ops, RunFrom(MapModel, ProblemOfOps(ops), map[], order[..k]), order[k], key, WritesIn(ops, order[..k], key));
    }
  }

  lemma StepShows(ops: seq<Operation>, st: map<string, string>, x: nat, key: string, ws: seq<Write<char>>)
    requires x < |ops| && Shows(st, key, ws)
    ensures var i := ops[x].input;
      Shows(Then(MapModel, ProblemOfOps(ops), st, x), key,
        if i.key != key || i.op == 0 then ws else if i.op == 1 then ws + [Put(i.value)] else ws + [Append(i.value)])
  {
    hide Shows;
    var i := ops[x].input;
    if i.key != key {
      ShowsOther(st, i.key, i.value, key, ws);
      ShowsOther(st, i.key, Lookup(st, i.key) + i.value, key, ws);
    } else {
      ShowsPut(st, key, i.value, ws);
      ShowsAppend(st, key, i.value, ws);
    }
  }

  lemma StandingNothing<T>()
    ensures Standing<T>([]) == []
  {
  }

  lemma ShownValue(st: map<string, string>, key: string, ws: seq<Write<char>>)
    requires Shows(st, key, ws)
    ensures Lookup(st, key) == Standing(ws)
  {
    StandingNothing<char>();
  }

  /** The map model replays an order exactly when every get in it is right. */
  lemma {:induction false} MapReplays(ops: seq<Operation>, order: seq<nat>)
    requires InRange(|ops|, order)
    ensures Replays(MapModel, ProblemOfOps(ops), map[], order) <==> GetsRight(ops, order)
  {
    if order != [] {
      hide GetRight, ProblemOfOps, Accepted;
      var k := |order| - 1;
      var front, x := order[..k], order[k];
      assert order == front + [x];
      MapReplays(ops, front);
      ReplaysSnoc(MapModel, ProblemOfOps(ops), map[], front, x);
      GetAccepted(ops, front, x);
      assert forall j :: 0 <= j < k ==> front[..j] == order[..j];
      assert GetsRight(ops, order) <==> GetsRight(ops, front) && GetRight(ops, front, x);
    }
  }

  lemma GetAccepted(ops: seq<Operation>, order: seq<nat>, x: nat)
    requires InRange(|ops|, order) && x < |ops|
    ensures Accepted(MapModel, ProblemOfOps(ops), RunFrom(MapModel, ProblemOfOps(ops), map[], order), x) <==> GetRight(ops, order, x)
  {
    hide Shows, Standing;
    var st, key := RunFrom(MapModel, ProblemOfOps(ops), map[], order), ops[x].input.key;
    MapShows(ops, order, key);
    ShownValue(st, key, WritesIn(ops, order, key));
  }

  /** A history of the whole map is linearizable exactly when it can be explained. */
  lemma LinearizableIsExplained(ops: seq<Operation>)
    ensures Linearizable(MapModel, ProblemOfOps(ops)) <==> Explained(ops)
  {
    forall order ensures Linearization(MapModel, ProblemOfOps(ops), order) <==> RightOrder(ops, order) {
      OrderIsRight(ops, order);
    }
  }

  lemma OrderIsRight(ops: seq<Operation>, order: seq<nat>)
    ensures Linearization(MapModel, ProblemOfOps(ops), order) <==> RightOrder(ops, order)
  {
    hide GetsRight, Replays, ProblemOfOps;
    if InRange(|ops|, order) {
      MapReplays(ops, order);
      forall i, j | 0 <= i < j < |order|
        ensures (order[j], order[i]) in ProblemOfOps(ops).prec <==> ops[order[j]].ret < ops[order[i]].call
      {
        PrecIs(ops, order[j], order[i]);
      }
    }
  }

  // ----- One key --------------------------------------------------------------------------

  /** On operations of one key the single-value model holds what their writes leave. */
  lemma {:induction false} KeyHolds(ops: seq<Operation>, order: seq<nat>, key: string)
    requires InRange(|ops|, order) && forall j :: 0 <= j < |order| ==> ops[order[j]].input.key == key
    ensures RunFrom(KvModel, ProblemOfOps(ops), "", order) == Standing(WritesIn(ops, order, key))
  {
    hide Standing;
    if order == [] {
      StandingNothing<char>();
    } else {
      var k := |order| - 1;
      KeyHolds(ops, order[..k], key);
      assert order == order[..k] + [order[k]];
      ReplaysSnoc(KvModel, ProblemOfOps(ops), "", order[..k], order[k]);
      StandingPut(WritesIn(ops, order[..k], key), ops[order[k]].input.value);
      StandingAppend(WritesIn(ops, order[..k], key), ops[order[k]].input.value);
    }
  }

  /** And it replays an order of them exactly when every get in it is right. */
  lemma {:induction false} KeyReplays(ops: seq<Operation>, order: seq<nat>, key: string)
    requires InRange(|ops|, order) && forall j :: 0 <= j < |order| ==> ops[order[j]].input.key == key
    ensures Replays(KvModel, ProblemOfOps(ops), "", order) <==> GetsRight(ops, order)
  {
    if order != [] {
      hide GetRight, ProblemOfOps, Accepted;
      var k := |order| - 1;
      var front, x := order[..k], order[k];
      assert order == front + [x];
      KeyReplays(ops, front, key);
      ReplaysSnoc(KvModel, ProblemOfOps(ops), "", front, x);
      KeyAccepted(ops, front, x, key);
      assert forall j :: 0 <= j < k ==> front[..j] == order[..j];
      assert GetsRight(ops, order) <==> GetsRight(ops, front) && GetRight(ops, front, x);
    }
  }

  lemma KeyAccepted(ops: seq<Operation>, order: seq<nat>, x: nat, key: string)
    requires InRange(|ops|, order) && (forall j :: 0 <= j < |order| ==> ops[order[j]].input.key == key)
    requires x < |ops| && ops[x].input.key == key
    ensures Accepted(KvModel, ProblemOfOps(ops), RunFrom(KvModel, ProblemOfOps(ops), "", order), x) <==> GetRight(ops, order, x)
  {
    hide Standing;
    KeyHolds(ops, order, key);
  }
}

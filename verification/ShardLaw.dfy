/** What clients of the sharded service see over a whole run, through every migration: a key holds the
    last put on it that took effect and the appends since, and a new request at the group that serves
    its shard takes effect. */
module ShardLaw {
  import opened ShardConfig
  import opened Wrappers
  import opened LastWrite
  import opened ShardGroup
  import opened ShardWorld
  import opened ShardInv
  import opened ShardClient
  import opened ShardFollow
  import opened ShardTake
  import opened ShardSafety

  // ----- The value of a key ---------------------------------------------------------------

  ghost predicate EffectAt(ws: seq<World>, steps: seq<Step>, i: nat)
    requires Run(ws, steps) && i < |steps|
  {
    Enabled(ws[i], steps[i]) && steps[i].Request? && TakesEffect(Now(ws[i], steps[i].gid), steps[i].op)
  }

  /** The writes on key `k` that took effect before state `i`, in order, whichever groups did them. */
  ghost function WritesOn(ws: seq<World>, steps: seq<Step>, i: nat, k: Text): seq<Write<Byte>>
    requires Run(ws, steps) && i < |ws|
  {
    if i == 0 then []
    else
      var before := WritesOn(ws, steps, i - 1, k);
      if !EffectAt(ws, steps, i - 1) then before
      else match steps[i - 1].op
        case Put(key, v, _, _) => if key == k then before + [LastWrite.Put(v)] else before
        case Append(key, v, _, _) => if key == k then before + [LastWrite.Append(v)] else before
        case _ => before
  }

  lemma PlainShows(m: map<Text, Text>, op: Op, k: Text, ws: seq<Write<Byte>>)
    requires Client(op) && Shows(m, k, ws)
    ensures Shows(PlainMap(m, op), k,
              if op.key != k || op.Get? then ws
              else if op.Put? then ws + [LastWrite.Put(op.value)]
              else ws + [LastWrite.Append(op.value)])
  {
    hide Standing;
    if op.key != k {
      match op
      case Get(_, _, _) =>
      case Put(key, v, _, _) => ShowsOther(m, key, v, k, ws);
      case Append(key, v, _, _) => ShowsOther(m, key, Value(m, key) + v, k, ws);
    } else if !op.Get? {
      ShowsPut(m, k, op.value, ws);
      ShowsAppend(m, k, op.value, ws);
    }
  }

  lemma {:induction false} EmptyStore(w: World, n: nat)
    requires Initial(w) && Placed(w) && n <= NSHARDS
    ensures StoreUpTo(w, n) == map[]
  {
    if n > 0 {
      EmptyStore(w, n - 1);
      assert w.at[n - 1] == 0;
    }
  }

  /** At every time of every run the union of all shards holds, for every key, the value of the last
      put on it that took effect in the run, followed in order by the values of all appends on it that
      took effect since; a key nothing was written to is absent. */
  lemma {:induction false} StoreValue(ws: seq<World>, steps: seq<Step>, i: nat, k: Text)
    requires Run(ws, steps) && i < |ws|
    ensures Placed(ws[i]) && Shows(Store(ws[i]), k, WritesOn(ws, steps, i, k))
  {
    hide Run, Shows, Inv, Store;
    if i == 0 {
      StoreStart(ws, steps, k);
    } else {
      RunLength(ws, steps);
      StoreValue(ws, steps, i - 1, k);
      StoreStep(ws, steps, i - 1, k);
    }
  }

  lemma StoreStep(ws: seq<World>, steps: seq<Step>, i: nat, k: Text)
    requires Run(ws, steps) && i < |steps| && Placed(ws[i]) && Shows(Store(ws[i]), k, WritesOn(ws, steps, i, k))
    ensures Placed(ws[i + 1]) && Shows(Store(ws[i + 1]), k, WritesOn(ws, steps, i + 1, k))
  {
    hide Shows, Store, PlainMap, Next, TakesEffect;
    StoreRefines(ws, steps, i);
    if EffectAt(ws, steps, i) { PlainShows(Store(ws[i]), steps[i].op, k, WritesOn(ws, steps, i, k)); }
  }

  lemma StoreStart(ws: seq<World>, steps: seq<Step>, k: Text)
    requires Run(ws, steps)
    ensures Placed(ws[0]) && Shows(Store(ws[0]), k, WritesOn(ws, steps, 0, k))
  {
    hide Next;
    EmptyStore(ws[0], NSHARDS);
    ShowsNothing<Text, Byte>(k);
  }

  lemma ServedSame(w: World, g: int, k: Text)
    requires Inv(w) && Placed(w) && g in w.runs && KeyShard(k) in Now(w, g).shards
    ensures k in Store(w) <==> k in Now(w, g).kv
    ensures k in Store(w) ==> Store(w)[k] == Now(w, g).kv[k]
  {
    StoreAt(w, NSHARDS, k);
    ServedThere(w, g, KeyShard(k));
    ServingInfo(w, g, KeyShard(k));
  }

  /** What the serving group holds for a key, and so what a get that takes effect returns, is what the
      run's writes left. */
  lemma ServedValue(ws: seq<World>, steps: seq<Step>, i: nat, g: int, k: Text)
    requires Run(ws, steps) && i < |ws| && g in ws[i].runs && KeyShard(k) in Now(ws[i], g).shards
    ensures Shows(Now(ws[i], g).kv, k, WritesOn(ws, steps, i, k))
    ensures (if k in Now(ws[i], g).kv then Now(ws[i], g).kv[k] else []) == Standing(WritesOn(ws, steps, i, k))
  {
    hide Run, Inv, Store, WritesOn, Standing;
    RunKeeps(ws, steps, i);
    StoreValue(ws, steps, i, k);
    ServedSame(ws[i], g, k);
    NothingStands();
  }

  lemma NothingStands()
    ensures Standing<Byte>([]) == []
  {
  }

  // ----- New requests take effect -----------------------------------------------------------

  ghost predicate RequestAt(steps: seq<Step>, j: nat, c: int, r: int) {
    j < |steps| && steps[j].Request? && Client(steps[j].op) && steps[j].op.client == c && steps[j].op.reqNo == r
  }

  /** Client `c` sent number `r` before state `i`. */
  ghost predicate Sent(steps: seq<Step>, i: nat, c: int, r: int) {
    exists j: nat :: j < i && RequestAt(steps, j, c, r)
  }

  /** And it took effect before state `i`. */
  ghost predicate Took(ws: seq<World>, steps: seq<Step>, i: nat, c: int, r: int)
    requires Run(ws, steps) && i < |ws|
  {
    exists j: nat :: j < i && RequestAt(steps, j, c, r) && EffectAt(ws, steps, j)
  }

  /** A duplicate table knows only numbers that were sent, and success only of what took effect. */
  ghost predicate TableTrue(ws: seq<World>, steps: seq<Step>, i: nat, info: ClientInfo)
    requires Run(ws, steps) && i < |ws|
  {
    forall c :: TrueFor(ws, steps, i, info, c)
  }

  ghost predicate TrueFor(ws: seq<World>, steps: seq<Step>, i: nat, info: ClientInfo, c: int)
    requires Run(ws, steps) && i < |ws|
  {
    && (ReqOf(info, c) == 0 || Sent(steps, i, c, ReqOf(info, c)))
    && (ResultOf(info, c) == OK ==> Took(ws, steps, i, c, ReqOf(info, c)))
  }

  ghost predicate StateTrue(ws: seq<World>, steps: seq<Step>, i: nat, g: Group)
    requires Run(ws, steps) && i < |ws|
  {
    TableTrue(ws, steps, i, g.info) && forall n :: n in g.dockInfo ==> TableTrue(ws, steps, i, g.dockInfo[n])
  }

  ghost predicate TablesTrue(ws: seq<World>, steps: seq<Step>, i: nat)
    requires Run(ws, steps) && i < |ws|
  {
    forall g, k :: g in ws[i].runs && 0 <= k < |ws[i].runs[g]| ==> StateTrue(ws, steps, i, ws[i].runs[g][k])
  }

  lemma StillTrue(ws: seq<World>, steps: seq<Step>, i: nat, info: ClientInfo)
    requires Run(ws, steps) && i + 1 < |ws| && TableTrue(ws, steps, i, info)
    ensures TableTrue(ws, steps, i + 1, info)
  {
    hide Run, EffectAt, RequestAt;
    var next := i + 1;
    forall c ensures TrueFor(ws, steps, next, info, c) {
      assert TrueFor(ws, steps, i, info, c);
    }
  }

  lemma StateStillTrue(ws: seq<World>, steps: seq<Step>, i: nat, g: Group)
    requires Run(ws, steps) && i + 1 < |ws| && StateTrue(ws, steps, i, g)
    ensures StateTrue(ws, steps, i + 1, g)
  {
    hide Run, TableTrue;
    StillTrue(ws, steps, i, g.info);
    forall n | n in g.dockInfo ensures TableTrue(ws, steps, i + 1, g.dockInfo[n]) { StillTrue(ws, steps, i, g.dockInfo[n]); }
  }

  lemma MergeTrue(ws: seq<World>, steps: seq<Step>, i: nat, mine: ClientInfo, other: ClientInfo)
    requires Run(ws, steps) && i < |ws| && TableTrue(ws, steps, i, mine) && TableTrue(ws, steps, i, other)
    ensures TableTrue(ws, steps, i, Merge(mine, other))
  {
    hide Run, Sent, Took;
    forall c ensures TrueFor(ws, steps, i, Merge(mine, other), c) {
      assert TrueFor(ws, steps, i, mine, c) && TrueFor(ws, steps, i, other, c);
      MergedFor(mine, other, c);
    }
  }

  /** A merged table agrees, client by client, with one of the two. */
  lemma MergedFor(mine: ClientInfo, other: ClientInfo, c: int)
    ensures var m := Merge(mine, other);
      || (ReqOf(m, c) == ReqOf(mine, c) && ResultOf(m, c) == ResultOf(mine, c))
      || (ReqOf(m, c) == ReqOf(other, c) && ResultOf(m, c) == ResultOf(other, c))
  {
  }

  lemma RecordTrue(ws: seq<World>, steps: seq<Step>, i: nat, info: ClientInfo, err: Err)
    requires Run(ws, steps) && i < |steps| && TableTrue(ws, steps, i, info)
    requires steps[i].Request? && Client(steps[i].op) && (err == OK ==> EffectAt(ws, steps, i))
    ensures TableTrue(ws, steps, i + 1, Record(info, steps[i].op.client, steps[i].op.reqNo, err))
  {
    hide Run, EffectAt;
    RunLength(ws, steps);
    var op, next := steps[i].op, i + 1;
    var rec := Record(info, op.client, op.reqNo, err);
    StillTrue(ws, steps, i, info);
    assert RequestAt(steps, i, op.client, op.reqNo);
    forall c ensures TrueFor(ws, steps, next, rec, c) {
      assert TrueFor(ws, steps, next, info, c);
    }
  }

  lemma NoneTrue(ws: seq<World>, steps: seq<Step>, i: nat)
    requires Run(ws, steps) && i < |ws|
    ensures TableTrue(ws, steps, i, NoInfo())
  {
    hide Run, Sent, Took;
    var none := NoInfo();
    forall c ensures TrueFor(ws, steps, i, none, c) {
    }
  }

  lemma ClientTrue(ws: seq<World>, steps: seq<Step>, i: nat, G: Group)
    requires Run(ws, steps) && i < |steps| && StateTrue(ws, steps, i, G) && Sized(G) && Enabled(ws[i], steps[i])
    requires steps[i].Request? && Client(steps[i].op) && G == Now(ws[i], steps[i].gid)
    ensures StateTrue(ws, steps, i + 1, ApplyOp(G, steps[i].op))
  {
    hide Run, TableTrue, Record, PlainMap;
    RunLength(ws, steps);
    var op := steps[i].op;
    StateStillTrue(ws, steps, i, G);
    if !Done(G.info, op.client, op.reqNo) { RecordTrue(ws, steps, i, G.info, Check(G, KeyShard(op.key))); }
  }

  lemma ConfigTrue(ws: seq<World>, steps: seq<Step>, i: nat, G: Group, c: Config)
    requires Run(ws, steps) && i < |ws| && StateTrue(ws, steps, i, G) && Sized(G) && |c.shards| == NSHARDS
    ensures StateTrue(ws, steps, i, UpdateConfig(G, c))
  {
    hide Run, TableTrue, OutShards, Leaving, Staying, Kept, Finished;
  }

  lemma ShardsTrue(ws: seq<World>, steps: seq<Step>, i: nat, G: Group, op: Op)
    requires Run(ws, steps) && i < |ws| && StateTrue(ws, steps, i, G) && Sized(G) && op.Shards? && OpSized(op)
    requires TableTrue(ws, steps, i, op.info)
    ensures StateTrue(ws, steps, i, AcceptShards(G, op))
  {
    hide Run, TableTrue, AcceptAll, Merge;
    MergeTrue(ws, steps, i, G.info, op.info);
  }

  /** The table a SHARDS operation carries was somebody's table. */
  lemma CarriedTrue(ws: seq<World>, steps: seq<Step>, i: nat, step: Step)
    requires Run(ws, steps) && i < |ws| && TablesTrue(ws, steps, i)
    requires (step.Pull? || step.Begin?) && Proposal(ws[i], step).Some?
    ensures Proposal(ws[i], step).value.Shards? && TableTrue(ws, steps, i, Proposal(ws[i], step).value.info)
  {
    hide TableTrue, Next, DockPart;
    NoneTrue(ws, steps, i);
    if step.Pull? {
      var p := ws[i].runs[step.from][step.k];
      assert StateTrue(ws, steps, i, p);
    }
  }

  lemma NewStateTrue(ws: seq<World>, steps: seq<Step>, i: nat)
    requires Run(ws, steps) && i < |steps| && TablesTrue(ws, steps, i) && !steps[i].Publish? && Next(ws[i], steps[i], ws[i + 1])
    ensures StateTrue(ws, steps, i + 1, ApplyOp(Now(ws[i], steps[i].gid), Proposal(ws[i], steps[i]).value))
  {
    hide Run, TableTrue, UpdateConfig, AcceptShards, DoOperation, StateTrue;
    RunLength(ws, steps);
    RunShape(ws, steps, i);
    var w, step := ws[i], steps[i];
    var G, op := Now(w, step.gid), Proposal(w, step).value;
    assert StateTrue(ws, steps, i, w.runs[step.gid][|w.runs[step.gid]| - 1]);
    if step.Request? {
      ClientTrue(ws, steps, i, G);
    } else if step.Follow? {
      ConfigTrue(ws, steps, i, G, op.config);
      StateStillTrue(ws, steps, i, UpdateConfig(G, op.config));
    } else {
      CarriedTrue(ws, steps, i, step);
      ShardsTrue(ws, steps, i, G, op);
      StateStillTrue(ws, steps, i, AcceptShards(G, op));
    }
  }

  lemma TablesStep(ws: seq<World>, steps: seq<Step>, i: nat)
    requires Run(ws, steps) && i < |steps| && TablesTrue(ws, steps, i) && Next(ws[i], steps[i], ws[i + 1])
    ensures i + 1 < |ws| && TablesTrue(ws, steps, i + 1)
  {
    hide Run, StateTrue, ApplyOp, Proposal, Writes;
    RunLength(ws, steps);
    var w, step, w', next := ws[i], steps[i], ws[i + 1], i + 1;
    if !step.Publish? { NewStateTrue(ws, steps, i); }
    forall g, k | g in w'.runs && 0 <= k < |w'.runs[g]| ensures StateTrue(ws, steps, next, w'.runs[g][k]) {
      if g in w.runs && k < |w.runs[g]| {
        assert w'.runs[g][k] == w.runs[g][k];
        StateStillTrue(ws, steps, i, w.runs[g][k]);
      }
    }
  }

  lemma {:induction false} AllTablesTrue(ws: seq<World>, steps: seq<Step>, i: nat)
    requires Run(ws, steps) && i < |ws|
    ensures TablesTrue(ws, steps, i)
  {
    hide StateTrue, Next;
    if i == 0 {
      forall g, k | g in ws[0].runs && 0 <= k < |ws[0].runs[g]| ensures StateTrue(ws, steps, 0, ws[0].runs[g][k]) {
        FreshTrue(ws, steps, g);
      }
    } else {
      AllTablesTrue(ws, steps, i - 1);
      assert Next(ws[i - 1], steps[i - 1], ws[i - 1 + 1]);
      TablesStep(ws, steps, i - 1);
    }
  }

  lemma FreshTrue(ws: seq<World>, steps: seq<Step>, gid: int)
    requires Run(ws, steps)
    ensures StateTrue(ws, steps, 0, NewGroup(gid))
  {
    hide TableTrue, Next;
    NoneTrue(ws, steps, 0);
  }

  /** A request at the group that serves its shard takes effect if its client has sent no higher number
      and it has not taken effect yet: whatever migrated meanwhile, and however often it was refused
      before, no duplicate table stands in its way. */
  lemma NewTakesEffect(ws: seq<World>, steps: seq<Step>, i: nat, g: int, op: Op)
    requires Run(ws, steps) && i < |ws| && g in ws[i].runs && Client(op) && op.reqNo >= 1
    requires KeyShard(op.key) in Now(ws[i], g).shards
    requires forall r :: Sent(steps, i, op.client, r) ==> r <= op.reqNo
    requires !Took(ws, steps, i, op.client, op.reqNo)
    ensures Enabled(ws[i], Request(g, op)) && TakesEffect(Now(ws[i], g), op)
  {
    hide Run, Sent, Took;
    RunShape(ws, steps, i);
    var w, G := ws[i], Now(ws[i], g);
    RunKeeps(ws, steps, i);
    CurInRange(w, g);
    AllTablesTrue(ws, steps, i);
    assert StateTrue(ws, steps, i, w.runs[g][|w.runs[g]| - 1]);
    assert TrueFor(ws, steps, i, G.info, op.client);
    assert GroupOk(w, g);
    assert HoldsOk(G);
  }
}

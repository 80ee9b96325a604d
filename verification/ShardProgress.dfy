/** Migration never gets stuck: from every reachable world in which every owner is a running group, the
    groups can go on until all of them are in the newest config and hold every shard it gives them. */
module ShardProgress {
  import opened ShardConfig
  import opened Wrappers
  import opened ShardGroup
  import opened ShardWorld
  import opened ShardInv
  import opened ShardClient
  import opened ShardFollow
  import opened ShardTake
  import opened ShardSafety

  /** Every config but the first gives every shard to a group that runs. */
  ghost predicate AllRun(w: World)
    requires Shape(w)
  {
    forall n, s :: 1 <= n < |w.configs| && 0 <= s < NSHARDS ==> Owner(w, n, s) in w.runs
  }

  /** Where the run stands. */
  function Last(ws: seq<World>): World
    requires ws != []
  {
    ws[|ws| - 1]
  }

  ghost predicate AllPast(w: World, m: nat)
    requires Shape(w)
  {
    forall g :: g in w.runs ==> Now(w, g).cur.num >= m
  }

  ghost predicate Settled(w: World, g: int)
    requires Shape(w) && g in w.runs
  {
    Now(w, g).cur.num == |w.configs| - 1 && |Now(w, g).cur.shards| == NSHARDS
    && forall s :: 0 <= s < NSHARDS ==> (s in Now(w, g).shards <==> Owner(w, |w.configs| - 1, s) == g)
  }

  /** The longer run goes on from the shorter and publishes nothing. */
  ghost predicate Extends(ws: seq<World>, steps: seq<Step>, ws': seq<World>, steps': seq<Step>) {
    && Run(ws, steps) && Run(ws', steps') && ws <= ws' && steps <= steps'
    && Last(ws').configs == Last(ws).configs && Last(ws').runs.Keys == Last(ws).runs.Keys
  }

  lemma StepExists(ws: seq<World>, steps: seq<Step>, step: Step) returns (w': World)
    requires Run(ws, steps) && !step.Publish? && step.gid in Last(ws).runs && Proposal(Last(ws), step).Some?
    ensures Next(Last(ws), step, w') && Shape(w')
  {
    hide Run, Inv, ApplyOp, Proposal, Writes;
    RunNonempty(ws, steps);
    var w := Last(ws);
    NeverRefused(ws, steps, |ws| - 1, step);
    var G, op := Now(w, step.gid), Proposal(w, step).value;
    w' := Advance(w, step.gid, ApplyOp(G, op), Writes(G, op));
  }

  lemma RunMore(ws: seq<World>, steps: seq<Step>, step: Step, w': World)
    requires Run(ws, steps) && Next(Last(ws), step, w') && Shape(w')
    ensures Run(ws + [w'], steps + [step])
  {
    hide Next, Shape, Initial;
    var ws', steps' := ws + [w'], steps + [step];
    forall i | 0 <= i < |steps'| ensures Next(ws'[i], steps'[i], ws'[i + 1]) {
      if i < |steps| { assert Next(ws[i], steps[i], ws[i + 1]); }
    }
  }

  lemma RunNonempty(ws: seq<World>, steps: seq<Step>)
    requires Run(ws, steps)
    ensures ws != [] && Shape(Last(ws))
  {
    hide Next;
  }

  /** Whatever can be proposed can be the next step of the run. */
  lemma Further(ws: seq<World>, steps: seq<Step>, step: Step) returns (ws': seq<World>, steps': seq<Step>)
    requires Run(ws, steps) && !step.Publish? && step.gid in Last(ws).runs && Proposal(Last(ws), step).Some?
    ensures Extends(ws, steps, ws', steps') && Next(Last(ws), step, Last(ws'))
  {
    hide Run, ApplyOp, Proposal, Writes, Shape;
    RunNonempty(ws, steps);
    var w' := StepExists(ws, steps, step);
    RunMore(ws, steps, step, w');
    ws', steps' := ws + [w'], steps + [step];
  }

  lemma ExtendsTrans(a: seq<World>, s: seq<Step>, b: seq<World>, t: seq<Step>, c: seq<World>, u: seq<Step>)
    requires Extends(a, s, b, t) && Extends(b, t, c, u)
    ensures Extends(a, s, c, u)
  {
    hide Run;
    assert a == b[..|a|] == c[..|a|] && s == t[..|s|] == u[..|s|];
  }

  lemma ExtendsSelf(ws: seq<World>, steps: seq<Step>)
    requires Run(ws, steps)
    ensures Extends(ws, steps, ws, steps)
  {
    hide Next;
  }

  // ----- A group gets what its config gives it ----------------------------------------------

  /** The owner after the last that took the shard has not gone further. */
  lemma NextOwnerWaits(w: World, s: int, m: nat)
    requires Shape(w) && 0 <= s < NSHARDS && OwnersOk(w, s) && AllRun(w) && AllPast(w, m) && w.at[s] + 1 < |w.configs|
    ensures m <= w.at[s] + 1
  {
    assert OwnerWaits(w, s, w.at[s] + 1);
  }

  /** Once every group has reached config m, a shard that its owner in m lacks waits in the dock of
      its owner before. */
  lemma WaitsInDock(w: World, g: int, s: int, m: int) returns (h: int)
    requires Inv(w) && AllRun(w) && g in w.runs && s in Unfinished(Now(w, g)) && m == Now(w, g).cur.num >= 2 && AllPast(w, m)
    ensures h in w.runs && m in Now(w, h).dock && s in Now(w, h).dock[m]
    ensures Now(w, h).dock[m][s].configNum == m && Now(w, h).dock[m][s].shardId == s
  {
    CurInRange(w, g);
    assert ShardOk(w, s) && Owner(w, m, s) == g;
    assert w.at[s] >= m ==> OwnerPast(w, s, m);
    assert w.at[s] < m;
    NextOwnerWaits(w, s, m);
    h := Owner(w, m - 1, s);
    assert s !in Now(w, h).shards;
    assert PlaceOf(w, s) == Docked(h, m);
    DockedPending(w, h, m, s);
    assert GroupOk(w, h);
  }

  /** What a step that only gives shards leaves as it was. */
  ghost predicate OnlyGives(w: World, w': World, g: int)
    requires Shape(w)
  {
    && Shape(w') && w'.configs == w.configs && w'.runs.Keys == w.runs.Keys && g in w.runs
    && (forall h :: h in w.runs && h != g ==> Now(w', h) == Now(w, h))
    && Now(w', g).cur == Now(w, g).cur && Now(w', g).last == Now(w, g).last && Now(w', g).gid == Now(w, g).gid
  }

  lemma TakeOne(G: Group, op: Op, r: ShiftShard)
    requires Sized(G) && op.Shards? && op.shifts == [r] && OpSized(op)
    requires r.configNum == G.cur.num && r.shardId in Unfinished(G)
    ensures var G' := ApplyOp(G, op); G'.cur == G.cur && G'.last == G.last && G'.gid == G.gid && G'.shards == G.shards + {r.shardId}
  {
    hide Merge;
    assert op.shifts[..0] == [];
    assert AcceptAll(G, op.shifts) == AcceptOne(AcceptAll(G, op.shifts[..0]), r);
  }

  lemma PullGives(w: World, g: int, h: int, m: int, s: int, step: Step)
    requires Shape(w) && g in w.runs && h in w.runs && m in Now(w, h).dock && s in Now(w, h).dock[m]
    requires step == Pull(g, h, |w.runs[h]| - 1, m, [s])
    ensures Proposal(w, step).Some? && Proposal(w, step).value.Shards? && Proposal(w, step).value.shifts == [Now(w, h).dock[m][s]]
  {
    var out := Now(w, h).dock[m];
    assert [s][..0] == [];
    assert DockPart(out, [s]) == DockPart(out, []) + [out[s]];
  }

  /** One missing shard is pulled. */
  lemma PullOne(ws: seq<World>, steps: seq<Step>, g: int, s: int) returns (ws': seq<World>, steps': seq<Step>)
    requires Run(ws, steps) && AllRun(Last(ws)) && g in Last(ws).runs
    requires Sized(Now(Last(ws), g)) && s in Unfinished(Now(Last(ws), g)) && Now(Last(ws), g).cur.num >= 2 && AllPast(Last(ws), Now(Last(ws), g).cur.num)
    ensures Extends(ws, steps, ws', steps') && OnlyGives(Last(ws), Last(ws'), g)
    ensures Now(Last(ws'), g).shards == Now(Last(ws), g).shards + {s}
  {
    hide Run, Inv, ApplyOp, Proposal, AllRun, AllPast;
    RunNonempty(ws, steps);
    var w, G := Last(ws), Now(Last(ws), g);
    RunKeeps(ws, steps, |ws| - 1);
    var m := G.cur.num;
    var h := WaitsInDock(w, g, s, m);
    var step := Pull(g, h, |w.runs[h]| - 1, m, [s]);
    PullGives(w, g, h, m, s, step);
    ws', steps' := Further(ws, steps, step);
    var op := Proposal(w, step).value;
    NowAdvance(w, g, ApplyOp(G, op), Writes(G, op));
    TakeOne(G, op, Now(w, h).dock[m][s]);
  }

  lemma AllGivesEmpty(G: Group, shifts: seq<ShiftShard>, k: nat)
    requires Sized(G) && k <= NSHARDS && |shifts| == k
    requires forall s :: 0 <= s < k ==> shifts[s] == ShiftShard(G.cur.num, s, map[])
    ensures OpSized(Shards(shifts, G.info))
    ensures AcceptAll(G, shifts).shards == G.shards + set s | s in Unfinished(G) && s < k
  {
    if k > 0 {
      AllGivesEmpty(G, shifts[..k - 1], k - 1);
    }
  }

  /** In its first config a group starts with empty shards. */
  lemma BeginGives(G: Group)
    requires Sized(G)
    ensures OpSized(EmptyShards(G))
    ensures var G' := ApplyOp(G, EmptyShards(G)); G'.cur == G.cur && G'.last == G.last && G'.gid == G.gid && G'.shards == G.shards + Unfinished(G)
  {
    hide Merge;
    AllGivesEmpty(G, EmptyShards(G).shifts, NSHARDS);
    assert Unfinished(G) == set s | s in Unfinished(G) && s < NSHARDS;
  }

  lemma BeginAll(ws: seq<World>, steps: seq<Step>, g: int) returns (ws': seq<World>, steps': seq<Step>)
    requires Run(ws, steps) && g in Last(ws).runs && Now(Last(ws), g).cur.num == 1
    requires Sized(Now(Last(ws), g)) && Unfinished(Now(Last(ws), g)) != {}
    ensures Extends(ws, steps, ws', steps') && OnlyGives(Last(ws), Last(ws'), g)
    ensures Now(Last(ws'), g).shards == Now(Last(ws), g).shards + Unfinished(Now(Last(ws), g))
  {
    hide Run, Inv, ApplyOp, Unfinished, EmptyShards;
    RunNonempty(ws, steps);
    var w, G := Last(ws), Now(Last(ws), g);
    RunKeeps(ws, steps, |ws| - 1);
    FirstAfterNobody(w, g);
    var step := Begin(g, |w.runs[g]| - 1);
    ws', steps' := Further(ws, steps, step);
    BeginGives(G);
    var op := Proposal(w, step).value;
    NowAdvance(w, g, ApplyOp(G, op), Writes(G, op));
  }

  lemma FirstAfterNobody(w: World, g: int)
    requires Inv(w) && g in w.runs && Now(w, g).cur.num == 1
    ensures |Now(w, g).last.shards| == NSHARDS && Now(w, g).last.shards[0] == 0
  {
    CurInRange(w, g);
  }

  lemma NothingAtFirst(w: World, g: int)
    requires Inv(w) && g in w.runs && Now(w, g).cur.num == 0
    ensures Sized(Now(w, g)) && Unfinished(Now(w, g)) == {}
  {
    CurInRange(w, g);
    assert GroupOk(w, g);
  }

  lemma SameOwners(w: World, w': World)
    requires Shape(w) && Shape(w') && w'.configs == w.configs && w'.runs.Keys == w.runs.Keys && AllRun(w)
    ensures AllRun(w')
  {
    forall n, s | 1 <= n < |w'.configs| && 0 <= s < NSHARDS ensures Owner(w', n, s) in w'.runs {
      assert Owner(w, n, s) in w.runs;
    }
  }

  lemma StillPast(w: World, w': World, g: int, m: nat)
    requires Shape(w) && OnlyGives(w, w', g) && AllPast(w, m) && AllRun(w)
    ensures AllPast(w', m) && AllRun(w')
  {
    forall h | h in w'.runs ensures Now(w', h).cur.num >= m {
      assert h in w.runs && (h == g || Now(w', h) == Now(w, h));
    }
    SameOwners(w, w');
  }

  lemma OnlyGivesTrans(a: World, b: World, c: World, g: int)
    requires Shape(a) && OnlyGives(a, b, g) && OnlyGives(b, c, g)
    ensures OnlyGives(a, c, g)
  {
  }

  /** A group in the oldest config anyone is in can get every shard it lacks. */
  lemma {:induction false} Finish(ws: seq<World>, steps: seq<Step>, g: int) returns (ws': seq<World>, steps': seq<Step>)
    requires Run(ws, steps) && AllRun(Last(ws)) && g in Last(ws).runs && 0 <= Now(Last(ws), g).cur.num && AllPast(Last(ws), Now(Last(ws), g).cur.num)
    ensures Extends(ws, steps, ws', steps') && OnlyGives(Last(ws), Last(ws'), g)
    ensures Sized(Now(Last(ws'), g)) && Unfinished(Now(Last(ws'), g)) == {}
    decreases if Sized(Now(Last(ws), g)) then |Unfinished(Now(Last(ws), g))| else 0
  {
    hide Run, Inv, AllRun, AllPast;
    RunNonempty(ws, steps);
    var w, G := Last(ws), Now(Last(ws), g);
    var m := G.cur.num;
    RunKeeps(ws, steps, |ws| - 1);
    CurInRange(w, g);
    if Unfinished(G) == {} {
      ws', steps' := ws, steps;
      ExtendsSelf(ws, steps);
    } else if m == 1 {
      ws', steps' := BeginAll(ws, steps, g);
    } else {
      if m == 0 { NothingAtFirst(w, g); }
      Nonempty(Unfinished(G));
      var s :| s in Unfinished(G);
      var ws1, steps1 := PullOne(ws, steps, g, s);
      StillPast(w, Last(ws1), g, m);
      assert Unfinished(Now(Last(ws1), g)) == Unfinished(G) - {s};
      ws', steps' := Finish(ws1, steps1, g);
      ExtendsTrans(ws, steps, ws1, steps1, ws', steps');
      OnlyGivesTrans(w, Last(ws1), Last(ws'), g);
    }
  }

  // ----- And goes on to the next ------------------------------------------------------------

  lemma FollowGives(w: World, g: int, step: Step)
    requires Shape(w) && g in w.runs && 0 <= Now(w, g).cur.num && Now(w, g).cur.num + 1 < |w.configs|
    requires step == Follow(g, |w.runs[g]| - 1, |w.configs|)
    ensures Proposal(w, step) == Some(Reconfig(w.configs[Now(w, g).cur.num + 1]))
  {
    assert w.configs[..|w.configs|] == w.configs;
  }

  lemma EnterNext(G: Group, c: Config)
    requires Sized(G) && Unfinished(G) == {} && |c.shards| == NSHARDS && c.num > G.cur.num
    ensures ApplyOp(G, Reconfig(c)).cur == c
  {
    hide Leaving, Staying, Kept, OutShards;
    forall s | 0 <= s < NSHARDS && G.cur.shards[s] == G.gid ensures s in G.shards {
      assert s !in Unfinished(G);
    }
  }

  lemma GoOn(ws: seq<World>, steps: seq<Step>, g: int) returns (ws': seq<World>, steps': seq<Step>)
    requires Run(ws, steps) && g in Last(ws).runs && Sized(Now(Last(ws), g)) && Unfinished(Now(Last(ws), g)) == {}
    requires 0 <= Now(Last(ws), g).cur.num && Now(Last(ws), g).cur.num + 1 < |Last(ws).configs|
    ensures Extends(ws, steps, ws', steps') && Shape(Last(ws')) && g in Last(ws').runs
    ensures Now(Last(ws'), g).cur.num == Now(Last(ws), g).cur.num + 1
    ensures forall h :: h in Last(ws).runs && h != g ==> h in Last(ws').runs && Now(Last(ws'), h) == Now(Last(ws), h)
  {
    hide Run, Inv, ApplyOp, Unfinished, Proposal;
    RunNonempty(ws, steps);
    var w, G := Last(ws), Now(Last(ws), g);
    var step := Follow(g, |w.runs[g]| - 1, |w.configs|);
    FollowGives(w, g, step);
    ws', steps' := Further(ws, steps, step);
    var op := Proposal(w, step).value;
    EnterNext(G, op.config);
    NowAdvance(w, g, ApplyOp(G, op), Writes(G, op));
  }

  // ----- All of them together ---------------------------------------------------------------

  /** The group is done with config m. */
  ghost predicate Through(w: World, g: int, m: nat)
    requires Shape(w) && g in w.runs
  {
    Now(w, g).cur.num > m || (Now(w, g).cur.num == m && m + 1 >= |w.configs| && Sized(Now(w, g)) && Unfinished(Now(w, g)) == {})
  }

  ghost predicate OthersStay(w: World, w': World, g: int)
    requires Shape(w)
  {
    && Shape(w') && w'.configs == w.configs && w'.runs.Keys == w.runs.Keys && g in w.runs
    && (forall h :: h in w.runs && h != g ==> Now(w', h) == Now(w, h))
    && Now(w', g).cur.num >= Now(w, g).cur.num
  }

  lemma OneThrough(ws: seq<World>, steps: seq<Step>, g: int, m: nat) returns (ws': seq<World>, steps': seq<Step>)
    requires Run(ws, steps) && AllRun(Last(ws)) && g in Last(ws).runs && AllPast(Last(ws), m)
    ensures Extends(ws, steps, ws', steps') && OthersStay(Last(ws), Last(ws'), g) && Through(Last(ws'), g, m)
  {
    hide Run, Inv, AllRun, Unfinished;
    RunNonempty(ws, steps);
    var w := Last(ws);
    if Now(w, g).cur.num > m {
      ws', steps' := ws, steps;
      ExtendsSelf(ws, steps);
    } else {
      ws', steps' := Finish(ws, steps, g);
      var ws1, steps1 := ws', steps';
      if m + 1 < |w.configs| {
        ws', steps' := GoOn(ws1, steps1, g);
        ExtendsTrans(ws, steps, ws1, steps1, ws', steps');
      }
    }
  }

  lemma StillThrough(w: World, w': World, g: int, m: nat, todo: set<int>)
    requires Shape(w) && OthersStay(w, w', g) && AllRun(w) && AllPast(w, m) && Through(w', g, m)
    requires forall h :: h in w.runs && h !in todo ==> Through(w, h, m)
    ensures AllRun(w') && AllPast(w', m) && forall h :: h in w'.runs && h !in todo - {g} ==> Through(w', h, m)
  {
    hide Unfinished;
    SameOwners(w, w');
    forall h | h in w'.runs ensures Now(w', h).cur.num >= m {
      assert h in w.runs && (h == g || Now(w', h) == Now(w, h));
    }
    forall h | h in w'.runs && h !in todo - {g} ensures Through(w', h, m) {
      assert h in w.runs && (h == g || (Now(w', h) == Now(w, h) && Through(w, h, m)));
    }
  }

  lemma {:induction false} AllThrough(ws: seq<World>, steps: seq<Step>, m: nat, todo: set<int>) returns (ws': seq<World>, steps': seq<Step>)
    requires Run(ws, steps) && AllRun(Last(ws)) && AllPast(Last(ws), m) && todo <= Last(ws).runs.Keys
    requires forall h :: h in Last(ws).runs && h !in todo ==> Through(Last(ws), h, m)
    ensures Extends(ws, steps, ws', steps') && Shape(Last(ws')) && AllRun(Last(ws')) && AllPast(Last(ws'), m)
    ensures forall h :: h in Last(ws').runs ==> Through(Last(ws'), h, m)
    decreases |todo|
  {
    hide Run, AllRun, AllPast, Through;
    RunNonempty(ws, steps);
    if todo == {} {
      ws', steps' := ws, steps;
      ExtendsSelf(ws, steps);
    } else {
      Nonempty(todo);
      var g :| g in todo;
      var ws1, steps1 := OneThrough(ws, steps, g, m);
      StillThrough(Last(ws), Last(ws1), g, m, todo);
      ws', steps' := AllThrough(ws1, steps1, m, todo - {g});
      ExtendsTrans(ws, steps, ws1, steps1, ws', steps');
    }
  }

  lemma {:induction false} AllUpTo(ws: seq<World>, steps: seq<Step>, m: nat) returns (ws': seq<World>, steps': seq<Step>)
    requires Run(ws, steps) && AllRun(Last(ws)) && AllPast(Last(ws), m) && m < |Last(ws).configs|
    ensures Extends(ws, steps, ws', steps') && Shape(Last(ws'))
    ensures forall h :: h in Last(ws').runs ==> Through(Last(ws'), h, |Last(ws).configs| - 1)
    decreases |Last(ws).configs| - m
  {
    hide Run, AllRun, Unfinished;
    RunNonempty(ws, steps);
    ws', steps' := AllThrough(ws, steps, m, Last(ws).runs.Keys);
    if m + 1 < |Last(ws).configs| {
      var ws1, steps1 := ws', steps';
      ws', steps' := AllUpTo(ws1, steps1, m + 1);
      ExtendsTrans(ws, steps, ws1, steps1, ws', steps');
    }
  }

  lemma ThroughSettles(w: World, g: int)
    requires Inv(w) && g in w.runs && |w.configs| >= 1 && Through(w, g, |w.configs| - 1)
    ensures Settled(w, g)
  {
    CurInRange(w, g);
    assert GroupOk(w, g);
    forall s | 0 <= s < NSHARDS ensures s in Now(w, g).shards <==> Owner(w, |w.configs| - 1, s) == g {
      assert s !in Unfinished(Now(w, g));
    }
  }

  /** From every reachable world in which every owner is a running group, the run can go on until
      every group is in the newest config and holds exactly the shards that config gives it. */
  lemma MigrationCompletes(ws: seq<World>, steps: seq<Step>) returns (ws': seq<World>, steps': seq<Step>)
    requires Run(ws, steps) && AllRun(Last(ws))
    ensures Extends(ws, steps, ws', steps') && Shape(Last(ws'))
    ensures forall g :: g in Last(ws').runs ==> Settled(Last(ws'), g)
  {
    hide Run, Inv, AllRun, Through, Settled;
    RunNonempty(ws, steps);
    RunKeeps(ws, steps, |ws| - 1);
    forall g | g in Last(ws).runs ensures Now(Last(ws), g).cur.num >= 0 {
      CurInRange(Last(ws), g);
    }
    ws', steps' := AllUpTo(ws, steps, 0);
    RunNonempty(ws', steps');
    RunKeeps(ws', steps', |ws'| - 1);
    forall g | g in Last(ws').runs ensures Settled(Last(ws'), g) {
      ThroughSettles(Last(ws'), g);
    }
  }
}

/** The sharded service over whole runs: one place for each shard's data, one key/value map,
    configs entered one by one, and no write applied twice. */
module ShardSafety {
  import opened ShardConfig
  import opened Wrappers
  import opened ShardGroup
  import opened ShardWorld
  import opened ShardInv
  import opened ShardClient
  import opened ShardFollow
  import opened ShardTake

  // ----- Every step keeps the invariant ---------------------------------------------------

  lemma InitialInv(w: World)
    requires Initial(w)
    ensures Inv(w)
  {
    forall g | g in w.runs ensures GroupOk(w, g) {
      assert w.runs[g] == [NewGroup(g)];
    }
  }

  lemma FollowsMore(configs: seq<Config>, c: Config, gid: int, g: Group)
    requires Follows(configs, gid, g)
    ensures Follows(configs + [c], gid, g)
  {
  }

  lemma GivenAwayMore(configs: seq<Config>, c: Config, gid: int, n: int, s: int)
    requires n < |configs|
    ensures GivenAway(configs + [c], gid, n, s) <==> GivenAway(configs, gid, n, s)
  {
  }

  lemma PublishGroup(w: World, c: Config, g: int)
    requires Shape(w) && g in w.runs && GroupOk(w, g) && c.num == |w.configs| && |c.shards| == NSHARDS
    ensures Shape(w.(configs := w.configs + [c])) && GroupOk(w.(configs := w.configs + [c]), g)
  {
    forall k | 0 <= k < |w.runs[g]| ensures Follows(w.configs + [c], g, w.runs[g][k]) {
      FollowsMore(w.configs, c, g, w.runs[g][k]);
    }
    forall n, s | n <= Now(w, g).cur.num
      ensures GivenAway(w.configs + [c], g, n, s) <==> GivenAway(w.configs, g, n, s)
    {
      GivenAwayMore(w.configs, c, g, n, s);
    }
    hide GivenAway, RecordOk;
    assert Follows(w.configs, g, Now(w, g));
  }

  lemma PublishShard(w: World, c: Config, s: int)
    requires Shape(w) && c.num == |w.configs| && |c.shards| == NSHARDS && 0 <= s < NSHARDS && ShardOk(w, s)
    requires forall g :: g in w.runs ==> Now(w, g).cur.num < |w.configs|
    ensures var w' := w.(configs := w.configs + [c]); Shape(w') && ShardOk(w', s) && Data(w', s) == Data(w, s)
  {
    var w' := w.(configs := w.configs + [c]);
    forall m | 1 <= m <= w.at[s] ensures OwnerPast(w', s, m) {
      assert OwnerPast(w, s, m);
    }
    forall m | w.at[s] < m < |w'.configs| ensures OwnerWaits(w', s, m) {
      if m < |w.configs| { assert OwnerWaits(w, s, m); }
    }
  }

  lemma CurInRange(w: World, g: int)
    requires Inv(w) && g in w.runs
    ensures 0 <= Now(w, g).cur.num < |w.configs| && Sized(Now(w, g)) && Follows(w.configs, g, Now(w, g))
  {
    assert GroupOk(w, g);
    assert Follows(w.configs, g, Now(w, g));
  }

  lemma PublishKeeps(w: World, c: Config)
    requires Inv(w) && c.num == |w.configs| && |c.shards| == NSHARDS && c.shards[0] != 0
    ensures Inv(w.(configs := w.configs + [c]))
  {
    var w' := w.(configs := w.configs + [c]);
    forall g | g in w.runs ensures GroupOk(w', g) {
      PublishGroup(w, c, g);
    }
    forall g | g in w.runs ensures Now(w, g).cur.num < |w.configs| { CurInRange(w, g); }
    forall s | 0 <= s < NSHARDS ensures ShardOk(w', s) {
      PublishShard(w, c, s);
    }
  }

  /** A SHARDS operation of either origin carries the authoritative data of the shards it gives. */
  lemma ShardsCanTake(w: World, step: Step)
    requires Inv(w) && (step.Pull? || step.Begin?) && step.gid in w.runs && Proposal(w, step).Some?
    ensures CanTake(w, step.gid, Proposal(w, step).value)
  {
    assert GroupOk(w, step.gid);
    CurInRange(w, step.gid);
    if step.Pull? {
      PullAllGenuine(w, step.gid, step.from, step.k, step.num, step.ids);
    } else {
      BeginAllGenuine(w, step.gid, step.k);
    }
  }

  /** What a committed operation does to the world, by kind. */
  lemma StepCases(w: World, step: Step, w': World)
    requires Inv(w) && Next(w, step, w')
    ensures match step
      case Publish(c) => true
      case Request(g, op) => Client(op) && Proposal(w, step).value == op && w' == Advance(w, g, ApplyOp(Now(w, g), op), Writes(Now(w, g), op))
      case Follow(g, _, _) => (Ready(w, g) && w' == Entered(w, g)) || w' == Advance(w, g, Now(w, g), multiset{})
      case _ => CanTake(w, step.gid, Proposal(w, step).value) && w' == Taken(w, step.gid, Proposal(w, step).value)
  {
    assert Shape(w);
    hide Inv, Ready, ApplyOp, Proposal;
    if !step.Publish? { CurInRange(w, step.gid); }
    match step
    case Publish(c) =>
    case Request(g, op) => RequestCase(w, g, op);
    case Follow(g, k, m) => FollowCase(w, g, k, m, w');
    case Begin(_, _) => TakeCase(w, step, w');
    case Pull(_, _, _, _, _) => TakeCase(w, step, w');
  }

  lemma RequestCase(w: World, g: int, op: Op)
    requires Shape(w) && Proposal(w, Request(g, op)).Some?
    ensures Client(op) && Proposal(w, Request(g, op)).value == op
  {
  }

  lemma FollowCase(w: World, g: int, k: nat, m: nat, w': World)
    requires Inv(w) && Next(w, Follow(g, k, m), w') && 0 <= Now(w, g).cur.num
    ensures (Ready(w, g) && w' == Entered(w, g)) || w' == Advance(w, g, Now(w, g), multiset{})
  {
    hide Inv;
    FollowStep(w, g, k, m);
  }

  lemma TakeCase(w: World, step: Step, w': World)
    requires Inv(w) && Next(w, step, w') && (step.Begin? || step.Pull?) && 0 <= Now(w, step.gid).cur.num
    ensures CanTake(w, step.gid, Proposal(w, step).value) && w' == Taken(w, step.gid, Proposal(w, step).value)
  {
    hide Inv;
    ShardsCanTake(w, step);
  }

  lemma StayKeeps(w: World, g: int)
    requires Inv(w) && g in w.runs && 0 <= Now(w, g).cur.num
    ensures Inv(Advance(w, g, Now(w, g), multiset{}))
  {
    var w' := Advance(w, g, Now(w, g), multiset{});
    NowAdvance(w, g, Now(w, g), multiset{});
    CurInRange(w, g);
    assert GroupOk(w, g);
    GroupAdvance(w, g, Now(w, g), multiset{});
    forall h | h in w'.runs && h != g ensures GroupOk(w', h) {
      OtherAdvance(w, g, Now(w, g), multiset{}, h);
    }
    forall s | 0 <= s < NSHARDS ensures ShardOk(w', s) {
      assert ShardOk(w, s);
      QuietPlaces(w, g, Now(w, g), multiset{}, s);
      QuietInfo(w, g, Now(w, g), multiset{}, s);
      if PlaceOf(w, s) == Serving(g) { ServingInfo(w, g, s); }
    }
  }

  lemma StepKeeps(w: World, step: Step, w': World)
    requires Inv(w) && Next(w, step, w')
    ensures Inv(w')
  {
    StepCases(w, step, w');
    match step
    case Publish(c) => PublishKeeps(w, c);
    case Request(g, op) => ClientKeeps(w, g, op);
    case Follow(g, _, _) =>
      CurInRange(w, g);
      if Ready(w, g) && w' == Entered(w, g) { EnteredKeeps(w, g); } else { StayKeeps(w, g); }
    case _ => TakenKeeps(w, step.gid, Proposal(w, step).value);
  }

  lemma {:induction false} RunKeeps(ws: seq<World>, steps: seq<Step>, i: nat)
    requires Run(ws, steps) && i < |ws|
    ensures Inv(ws[i])
  {
    if i == 0 {
      InitialInv(ws[0]);
    } else {
      RunKeeps(ws, steps, i - 1);
      assert Next(ws[i - 1], steps[i - 1], ws[i - 1 + 1]);
      StepKeeps(ws[i - 1], steps[i - 1], ws[i]);
    }
  }

  lemma RunLength(ws: seq<World>, steps: seq<Step>)
    requires Run(ws, steps)
    ensures |ws| == |steps| + 1
  {
  }

  lemma RunShape(ws: seq<World>, steps: seq<Step>, i: nat)
    requires Run(ws, steps) && i < |ws|
    ensures Shape(ws[i])
  {
    hide Next;
  }

  // ----- One place ------------------------------------------------------------------------

  lemma ServedThere(w: World, g: int, s: int)
    requires Inv(w) && 0 <= s < NSHARDS && g in w.runs
    ensures w.at[s] < |w.configs| && (s in Now(w, g).shards <==> PlaceOf(w, s) == Serving(g))
  {
    assert ShardOk(w, s);
  }

  lemma PendingThere(w: World, g: int, n: int, s: int)
    requires Inv(w) && 0 <= s < NSHARDS && Pending(w, g, n, s)
    ensures w.at[s] < |w.configs| && PlaceOf(w, s) == Docked(g, n)
  {
    assert ShardOk(w, s) && GroupOk(w, g);
    assert GivenAway(w.configs, g, n, s);
    assert 1 <= n <= w.at[s] ==> OwnerPast(w, s, n);
    assert n == w.at[s] + 1;
    CurInRange(w, g);
  }

  lemma DockedPending(w: World, g: int, n: int, s: int)
    requires Inv(w) && 0 <= s < NSHARDS && w.at[s] < |w.configs| && PlaceOf(w, s) == Docked(g, n)
    ensures Pending(w, g, n, s)
  {
    assert ShardOk(w, s) && GroupOk(w, g);
    CurInRange(w, g);
    assert OwnerPast(w, s, w.at[s]);
    assert GivenAway(w.configs, g, n, s);
    assert OwnerWaits(w, s, n);
  }

  /** In every reachable state a shard is served by at most one group, waits in at most one dock,
      and never both: it is exactly where `PlaceOf` says, and nowhere only before it was ever served. */
  lemma OnePlace(ws: seq<World>, steps: seq<Step>, i: nat, s: int)
    requires Run(ws, steps) && i < |ws| && 0 <= s < NSHARDS
    ensures ws[i].at[s] < |ws[i].configs| && (PlaceOf(ws[i], s) == Nowhere <==> ws[i].at[s] == 0)
    ensures forall g :: g in ws[i].runs ==> (s in Now(ws[i], g).shards <==> PlaceOf(ws[i], s) == Serving(g))
    ensures forall g, n :: Pending(ws[i], g, n, s) <==> PlaceOf(ws[i], s) == Docked(g, n)
  {
    RunKeeps(ws, steps, i);
    var w := ws[i];
    assert ShardOk(w, s);
    assert w.at[s] >= 1 ==> OwnerPast(w, s, w.at[s]);
    hide Inv, ShardOk, Run, PlaceOf, Pending;
    forall g | g in w.runs ensures s in Now(w, g).shards <==> PlaceOf(w, s) == Serving(g) {
      ServedThere(w, g, s);
    }
    forall g, n ensures Pending(w, g, n, s) <==> PlaceOf(w, s) == Docked(g, n) {
      if Pending(w, g, n, s) { PendingThere(w, g, n, s); }
      if PlaceOf(w, s) == Docked(g, n) { DockedPending(w, g, n, s); }
    }
  }

  /** A shard that is once served has a place ever after. */
  lemma {:induction false} NeverLost(ws: seq<World>, steps: seq<Step>, i: nat, j: nat, s: int)
    requires Run(ws, steps) && i <= j < |ws| && 0 <= s < NSHARDS
    ensures ws[i].at[s] < |ws[i].configs| && ws[j].at[s] < |ws[j].configs|
    ensures PlaceOf(ws[i], s) != Nowhere ==> PlaceOf(ws[j], s) != Nowhere
    decreases j
  {
    hide Inv, PlaceOf, Next;
    OnePlace(ws, steps, i, s);
    OnePlace(ws, steps, j, s);
    if i < j {
      NeverLost(ws, steps, i, j - 1, s);
      OnePlace(ws, steps, j - 1, s);
      RunKeeps(ws, steps, j);
      assert Next(ws[j - 1], steps[j - 1], ws[j - 1 + 1]);
      if ws[j - 1].at[s] >= 1 { StillServed(ws[j - 1], steps[j - 1], ws[j], s); }
    }
  }

  lemma StillServed(w: World, step: Step, w': World, s: int)
    requires Shape(w) && Next(w, step, w') && Inv(w') && 0 <= s < NSHARDS && w.at[s] >= 1
    ensures w'.at[s] >= 1
  {
    hide ApplyOp, Proposal, GroupOk, ConfigsOk, WritesOk, OwnersOk, DocksOk, Writes, Sized, OpSized;
    assert ShardOk(w', s);
    if w'.at[s] != w.at[s] { assert s in Now(w', step.gid).shards; }
  }

  // ----- One map --------------------------------------------------------------------------

  lemma DataKeys(w: World, s: int)
    requires Inv(w) && 0 <= s < NSHARDS
    ensures w.at[s] < |w.configs| && forall k :: k in Data(w, s) ==> KeyShard(k) == s
  {
    assert ShardOk(w, s);
    var p := PlaceOf(w, s);
    if p.Docked? {
      assert GroupOk(w, p.gid);
    }
  }

  lemma InvPlaced(w: World)
    requires Inv(w)
    ensures Placed(w)
  {
    forall s | 0 <= s < NSHARDS ensures w.at[s] < |w.configs| {
      assert ShardOk(w, s);
    }
  }

  /** A key is in the union exactly as it is in its own shard's data. */
  lemma {:induction false} StoreAt(w: World, n: nat, k: Text)
    requires Inv(w) && Placed(w) && n <= NSHARDS
    ensures k in StoreUpTo(w, n) <==> KeyShard(k) < n && k in Data(w, KeyShard(k))
    ensures k in StoreUpTo(w, n) ==> StoreUpTo(w, n)[k] == Data(w, KeyShard(k))[k]
  {
    hide Inv, Data;
    if n > 0 {
      StoreAt(w, n - 1, k);
      DataKeys(w, n - 1);
    }
  }

  lemma SameStore(w: World, w': World)
    requires Inv(w) && Inv(w') && Placed(w) && Placed(w')
    requires forall s :: 0 <= s < NSHARDS ==> Data(w', s) == Data(w, s)
    ensures Store(w') == Store(w)
  {
    forall k: Text ensures k in Store(w') <==> k in Store(w) ensures k in Store(w) ==> Store(w')[k] == Store(w)[k] {
      StoreAt(w, NSHARDS, k);
      StoreAt(w', NSHARDS, k);
    }
  }

  /** A served shard's keys read in the union as in the serving group. */
  lemma ServedReads(w: World, g: int, k: Text)
    requires Inv(w) && Placed(w) && g in w.runs && KeyShard(k) in Now(w, g).shards
    ensures Value(Store(w), k) == Value(Now(w, g).kv, k)
  {
    StoreAt(w, NSHARDS, k);
    ServedThere(w, g, KeyShard(k));
    ServingInfo(w, g, KeyShard(k));
  }

  lemma PlainPart(kv: map<Text, Text>, op: Op, s: int)
    requires Client(op)
    ensures Part(PlainMap(kv, op), s) == if s == KeyShard(op.key) then PlainMap(Part(kv, s), op) else Part(kv, s)
  {
  }

  lemma ClientPart(G: Group, op: Op, s: int)
    requires Sized(G) && Client(op)
    ensures Part(ApplyOp(G, op).kv, s)
      == if TakesEffect(G, op) && s == KeyShard(op.key) then PlainMap(Part(G.kv, s), op) else Part(G.kv, s)
  {
    PlainPart(G.kv, op, s);
  }

  lemma ClientData(w: World, g: int, op: Op, s: int)
    requires Inv(w) && g in w.runs && Client(op) && Sized(Now(w, g)) && 0 <= Now(w, g).cur.num && 0 <= s < NSHARDS
    ensures var w' := Advance(w, g, ApplyOp(Now(w, g), op), Writes(Now(w, g), op));
      && Shape(w') && w'.at[s] < |w'.configs| && w.at[s] < |w.configs|
      && Data(w', s) == if TakesEffect(Now(w, g), op) && s == KeyShard(op.key) then PlainMap(Data(w, s), op) else Data(w, s)
  {
    hide PlaceOf, Data, Part, PlainMap, GroupOk, ConfigsOk, ServesOk, DocksOk, WritesOk;
    var G := Now(w, g);
    assert ShardOk(w, s);
    hide Inv;
    NowAdvance(w, g, ApplyOp(G, op), Writes(G, op));
    QuietInfo(w, g, ApplyOp(G, op), Writes(G, op), s);
    ServedThere(w, g, KeyShard(op.key));
    ClientPart(G, op, s);
    hide ShardOk, Part, PlainMap, ApplyOp, Advance;
    if PlaceOf(w, s) == Serving(g) { ServingInfo(w, g, s); }
  }

  lemma ClientStore(w: World, g: int, op: Op, w': World)
    requires Inv(w) && Inv(w') && Placed(w) && Placed(w') && g in w.runs && Client(op) && Sized(Now(w, g)) && 0 <= Now(w, g).cur.num
    requires w' == Advance(w, g, ApplyOp(Now(w, g), op), Writes(Now(w, g), op)) && TakesEffect(Now(w, g), op)
    ensures Store(w') == PlainMap(Store(w), op)
  {
    hide Inv, Data, ApplyOp, Advance, StoreUpTo, TakesEffect;
    forall k: Text
      ensures k in Store(w') <==> k in PlainMap(Store(w), op)
      ensures k in Store(w') ==> Store(w')[k] == PlainMap(Store(w), op)[k]
    {
      StoreAt(w, NSHARDS, k);
      StoreAt(w, NSHARDS, op.key);
      StoreAt(w', NSHARDS, k);
      ClientData(w, g, op, KeyShard(k));
    }
  }

  lemma ShardParts(w: World, s: int)
    requires Shape(w) && 0 <= s < NSHARDS && ShardOk(w, s)
    ensures OwnersOk(w, s) && ServesOk(w, s) && DocksOk(w, s) && w.at[s] < |w.configs|
  {
  }

  lemma StayData(w: World, g: int, s: int)
    requires Shape(w) && g in w.runs && 0 <= Now(w, g).cur.num && 0 <= s < NSHARDS && ShardOk(w, s)
    ensures var w' := Advance(w, g, Now(w, g), multiset{});
      w'.at[s] < |w'.configs| && Shape(w') && Data(w', s) == Data(w, s)
  {
    NowAdvance(w, g, Now(w, g), multiset{});
    QuietInfo(w, g, Now(w, g), multiset{}, s);
    if PlaceOf(w, s) == Serving(g) { ServingInfo(w, g, s); }
  }

  lemma QuietStep(w: World, step: Step, w': World, s: int)
    requires Inv(w) && Next(w, step, w') && 0 <= s < NSHARDS
    requires !(step.Request? && TakesEffect(Now(w, step.gid), step.op))
    ensures w.at[s] < |w.configs| && Shape(w') && w'.at[s] < |w'.configs| && Data(w', s) == Data(w, s)
  {
    assert ShardOk(w, s);
    StepCases(w, step, w');
    hide Inv, Data, Advance, Entered, Taken, ApplyOp, CanTake, Ready, ShardOk;
    assert OwnersOk(w, s) && ServesOk(w, s) && DocksOk(w, s) by { ShardParts(w, s); }
    hide OwnersOk, ServesOk, DocksOk;
    match step
    case Publish(c) =>
      forall g | g in w.runs ensures Now(w, g).cur.num < |w.configs| { CurInRange(w, g); }
      PublishShard(w, c, s);
    case Request(g, op) => CurInRange(w, g); ClientData(w, g, op, s);
    case Follow(g, _, _) =>
      CurInRange(w, g);
      if Ready(w, g) && w' == Entered(w, g) { EnteredData(w, g, s); } else { StayData(w, g, s); }
    case _ => TakenData(w, step.gid, Proposal(w, step).value, s);
  }

  /** The refinement: in every run the union of the shards is one key/value map. A client operation
      that takes effect acts on it as on a plain map, and reads from it; every other step, and so
      every CONFIG and SHARDS operation however stale, leaves it unchanged. */
  lemma StoreRefines(ws: seq<World>, steps: seq<Step>, i: nat)
    requires Run(ws, steps) && i < |steps|
    ensures Placed(ws[i]) && Placed(ws[i + 1]) && Enabled(ws[i], steps[i])
    ensures
      if steps[i].Request? && TakesEffect(Now(ws[i], steps[i].gid), steps[i].op)
      then Store(ws[i + 1]) == PlainMap(Store(ws[i]), steps[i].op)
        && Value(Now(ws[i], steps[i].gid).kv, steps[i].op.key) == Value(Store(ws[i]), steps[i].op.key)
      else Store(ws[i + 1]) == Store(ws[i])
  {
    var w, w', step := ws[i], ws[i + 1], steps[i];
    RunKeeps(ws, steps, i);
    RunKeeps(ws, steps, i + 1);
    InvPlaced(w);
    InvPlaced(w');
    assert Next(w, step, w');
    hide Inv, Run;
    if step.Request? && TakesEffect(Now(w, step.gid), step.op) {
      StepCases(w, step, w');
      CurInRange(w, step.gid);
      ClientStore(w, step.gid, step.op, w');
      ServedReads(w, step.gid, step.op.key);
    } else {
      forall s | 0 <= s < NSHARDS ensures Data(w', s) == Data(w, s) { QuietStep(w, step, w', s); }
      SameStore(w, w');
    }
  }

  // ----- At most once ---------------------------------------------------------------------

  /** The step is a write of request `r` of client `c` that changes shard `s`. */
  ghost predicate WritesNow(w: World, step: Step, s: int, c: int, r: int)
    requires Shape(w) && Enabled(w, step)
  {
    step.Request? && (step.op.Put? || step.op.Append?) && TakesEffect(Now(w, step.gid), step.op)
    && s == KeyShard(step.op.key) && c == step.op.client && r == step.op.reqNo
  }

  lemma WritesGrow(w: World, step: Step, w': World, t: (int, int, int))
    requires Inv(w) && Next(w, step, w')
    ensures t in w.writes ==> t in w'.writes
    ensures WritesNow(w, step, t.0, t.1, t.2) ==> t in w'.writes
  {
    StepCases(w, step, w');
  }

  lemma RunStep(ws: seq<World>, steps: seq<Step>, i: nat)
    requires Run(ws, steps) && i < |ws| - 1
    ensures |ws| == |steps| + 1 && Inv(ws[i]) && Shape(ws[i]) && Next(ws[i], steps[i], ws[i + 1])
  {
    hide Inv, Next;
    RunKeeps(ws, steps, i);
  }

  lemma {:induction false} WrittenLater(ws: seq<World>, steps: seq<Step>, i: nat, j: nat, s: int, c: int, r: int)
    requires Run(ws, steps) && i < j < |ws| && Enabled(ws[i], steps[i]) && WritesNow(ws[i], steps[i], s, c, r)
    ensures (s, c, r) in ws[j].writes
  {
    hide Run, Inv, WritesNow, Next;
    RunStep(ws, steps, j - 1);
    if i < j - 1 { WrittenLater(ws, steps, i, j - 1, s, c, r); }
    WritesGrow(ws[j - 1], steps[j - 1], ws[j], (s, c, r));
  }

  /** No write takes effect twice on a shard, however its operation is repeated and whichever groups
      own the shard meanwhile. */
  lemma AtMostOnce(ws: seq<World>, steps: seq<Step>, i: nat, j: nat, s: int, c: int, r: int)
    requires Run(ws, steps) && i < j < |steps| && r >= 1
    ensures Enabled(ws[i], steps[i]) && Enabled(ws[j], steps[j])
    ensures WritesNow(ws[i], steps[i], s, c, r) ==> !WritesNow(ws[j], steps[j], s, c, r)
  {
    assert Next(ws[i], steps[i], ws[i + 1]) && Next(ws[j], steps[j], ws[j + 1]);
    RunKeeps(ws, steps, j);
    hide Run;
    if WritesNow(ws[i], steps[i], s, c, r) {
      WrittenLater(ws, steps, i, j, s, c, r);
      if WritesNow(ws[j], steps[j], s, c, r) {
        EffectIsNew(ws[j], steps[j].gid, steps[j].op, s);
      }
    }
  }

  // ----- Configs one by one ---------------------------------------------------------------

  /** Every group enters configs 1, 2, 3, ... without a gap and never goes back, although CONFIG
      operations may be proposed by replicas far behind and committed many times. */
  lemma ConfigStepping(ws: seq<World>, steps: seq<Step>, i: nat, g: int)
    requires Run(ws, steps) && i < |steps| && g in ws[i].runs
    ensures g in ws[0].runs && Now(ws[0], g).cur.num == 0
    ensures g in ws[i + 1].runs && 0 <= Now(ws[i], g).cur.num < |ws[i].configs| && Now(ws[i], g).cur == ws[i].configs[Now(ws[i], g).cur.num]
    ensures Now(ws[i + 1], g).cur.num == Now(ws[i], g).cur.num || Now(ws[i + 1], g).cur.num == Now(ws[i], g).cur.num + 1
  {
    SameGroups(ws, steps, i);
    RunKeeps(ws, steps, i);
    CurInRange(ws[i], g);
    assert Next(ws[i], steps[i], ws[i + 1]);
    StepCases(ws[i], steps[i], ws[i + 1]);
    StepConfig(ws[i], steps[i], ws[i + 1], g);
  }

  lemma {:induction false} SameGroups(ws: seq<World>, steps: seq<Step>, i: nat)
    requires Run(ws, steps) && i < |ws|
    ensures ws[i].runs.Keys == ws[0].runs.Keys
  {
    if i > 0 {
      SameGroups(ws, steps, i - 1);
      assert Next(ws[i - 1], steps[i - 1], ws[i - 1 + 1]);
    }
  }

  lemma ApplyConfig(G: Group, op: Op)
    requires Sized(G) && OpSized(op)
    ensures ApplyOp(G, op).cur == G.cur || (op.Reconfig? && ApplyOp(G, op).cur == op.config)
  {
  }

  lemma StepConfig(w: World, step: Step, w': World, g: int)
    requires Inv(w) && Next(w, step, w') && g in w.runs
    ensures Shape(w') && g in w'.runs
    ensures Now(w', g).cur.num == Now(w, g).cur.num || Now(w', g).cur.num == Now(w, g).cur.num + 1
  {
    if !step.Publish? {
      var G, op := Now(w, step.gid), Proposal(w, step).value;
      NowAdvance(w, step.gid, ApplyOp(G, op), Writes(G, op));
      ApplyConfig(G, op);
      if step.Follow? { FollowStep(w, step.gid, step.k, step.m); }
      hide Inv, ApplyOp, Advance, Proposal, Ready;
      if step.Pull? || step.Begin? { ShardsCanTake(w, step); }
    }
  }

  /** No reachable state refuses a proposal: the sizes asked of a step always hold. */
  lemma NeverRefused(ws: seq<World>, steps: seq<Step>, i: nat, step: Step)
    requires Run(ws, steps) && i < |ws| && !step.Publish? && step.gid in ws[i].runs && Proposal(ws[i], step).Some?
    ensures Enabled(ws[i], step) && 0 <= ApplyOp(Now(ws[i], step.gid), Proposal(ws[i], step).value).cur.num
  {
    var w := ws[i];
    RunKeeps(ws, steps, i);
    CurInRange(w, step.gid);
    match step
    case Request(_, _) =>
    case Follow(g, k, m) => FollowStep(w, g, k, m);
    case _ => ShardsCanTake(w, step);
  }
}

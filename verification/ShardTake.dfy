/** Taking shifted shards into service keeps the invariant and every shard's data. */
module ShardTake {
  import opened ShardConfig
  import opened Wrappers
  import opened ShardGroup
  import opened ShardWorld
  import opened ShardInv
  import opened ShardClient

  // ----- The duplicate table moves with the data ------------------------------------------

  /** A merged table refuses whatever either table refused. */
  lemma MergeDone(mine: ClientInfo, other: ClientInfo, c: int, r: int)
    ensures Done(mine, c, r) ==> Done(Merge(mine, other), c, r)
    ensures Done(other, c, r) && r >= 1 ==> Done(Merge(mine, other), c, r)
  {
    var both := Merge(mine, other);
    assert ReqOf(both, c) == if TakesReq(mine, other, c) then other.req[c] else ReqOf(mine, c);
    assert ResultOf(both, c) == if TakesResult(mine, other, c) then ResultOf(other, c) else ResultOf(mine, c);
  }

  lemma MergeRefuses(writes: multiset<(int, int, int)>, mine: ClientInfo, other: ClientInfo, s: int)
    ensures Refuses(writes, mine, s) ==> Refuses(writes, Merge(mine, other), s)
    ensures Refuses(writes, other, s) ==> Refuses(writes, Merge(mine, other), s)
  {
    forall c, r ensures Done(mine, c, r) ==> Done(Merge(mine, other), c, r)
      ensures Done(other, c, r) && r >= 1 ==> Done(Merge(mine, other), c, r)
    {
      MergeDone(mine, other, c, r);
    }
  }

  // ----- Accepting a list of shards -------------------------------------------------------

  ghost predicate Tidy(shifts: seq<ShiftShard>) {
    && (forall i :: 0 <= i < |shifts| ==> 0 <= shifts[i].shardId < NSHARDS)
    && (forall i :: 0 <= i < |shifts| ==> forall k :: k in shifts[i].kv ==> KeyShard(k) == shifts[i].shardId)
  }

  lemma AcceptOneHolds(g: Group, shift: ShiftShard)
    requires Sized(g) && HoldsOk(g) && Tidy([shift])
    ensures 0 <= shift.shardId < NSHARDS && HoldsOk(AcceptOne(g, shift))
    ensures forall s :: s in g.shards ==> Part(AcceptOne(g, shift).kv, s) == Part(g.kv, s)
    ensures Accepts(g, shift) ==> Part(AcceptOne(g, shift).kv, shift.shardId) == shift.kv
  {
    assert [shift][0] == shift;
    if Accepts(g, shift) {
      assert Part(g.kv + shift.kv, shift.shardId) == shift.kv;
      forall s | s in g.shards ensures Part(g.kv + shift.kv, s) == Part(g.kv, s) {
      }
    }
  }

  lemma {:induction false} AcceptHolds(g: Group, shifts: seq<ShiftShard>)
    requires Sized(g) && HoldsOk(g) && Tidy(shifts)
    ensures HoldsOk(AcceptAll(g, shifts)) && g.shards <= AcceptAll(g, shifts).shards
    ensures forall s :: s in g.shards ==> Part(AcceptAll(g, shifts).kv, s) == Part(g.kv, s)
  {
    if shifts != [] {
      var front, last := shifts[..|shifts| - 1], shifts[|shifts| - 1];
      AcceptHolds(g, front);
      AcceptOneHolds(AcceptAll(g, front), last);
    }
  }

  /** A shard newly in service came from one accepted record, whole. */
  lemma {:induction false} AcceptedFrom(g: Group, shifts: seq<ShiftShard>, s: int) returns (i: nat)
    requires Sized(g) && HoldsOk(g) && Tidy(shifts) && s in AcceptAll(g, shifts).shards && s !in g.shards
    ensures i < |shifts| && shifts[i].shardId == s && Accepts(g, shifts[i]) && Part(AcceptAll(g, shifts).kv, s) == shifts[i].kv
  {
    var front, last := shifts[..|shifts| - 1], shifts[|shifts| - 1];
    AcceptHolds(g, front);
    AcceptOneHolds(AcceptAll(g, front), last);
    if s in AcceptAll(g, front).shards {
      i := AcceptedFrom(g, front, s);
    } else {
      i := |shifts| - 1;
    }
  }

  // ----- The operation's records are the shard's authoritative data ------------------------

  ghost predicate Genuine(w: World, op: Op, s: int, shift: ShiftShard)
    requires Shape(w) && 0 <= s < NSHARDS && op.Shards?
  {
    && w.at[s] + 1 == shift.configNum < |w.configs|
    && !PlaceOf(w, s).Serving?
    && Data(w, s) == shift.kv
    && InfoAt(w, s) == op.info
  }

  ghost predicate AllGenuine(w: World, g: int, op: Op)
    requires Shape(w) && g in w.runs && Sized(Now(w, g)) && op.Shards?
  {
    && Tidy(op.shifts)
    && (forall i :: 0 <= i < |op.shifts| && Accepts(Now(w, g), op.shifts[i]) ==> Genuine(w, op, op.shifts[i].shardId, op.shifts[i]))
  }

  /** A group waiting for a shard in config `n` is ahead of the shard's frontier. */
  lemma WaitsAhead(w: World, g: int, s: int)
    requires Shape(w) && g in w.runs && 0 <= s < NSHARDS && OwnersOk(w, s) && ServesOk(w, s)
    requires 1 <= Now(w, g).cur.num < |w.configs| && Owner(w, Now(w, g).cur.num, s) == g && s !in Now(w, g).shards
    ensures w.at[s] < Now(w, g).cur.num
  {
    assert Now(w, g).cur.num <= w.at[s] ==> OwnerPast(w, s, Now(w, g).cur.num);
  }

  lemma PullGenuine(w: World, g: int, from: int, n: int, s: int, op: Op)
    requires Inv(w) && g in w.runs && from in w.runs && 0 <= s < NSHARDS
    requires n in Now(w, from).dock && s in Now(w, from).dock[n] && op.Shards? && op.info == Now(w, from).dockInfo[n]
    requires Sized(Now(w, g)) && Now(w, from).dock[n][s].shardId == s && Accepts(Now(w, g), Now(w, from).dock[n][s])
    ensures Genuine(w, op, s, Now(w, from).dock[n][s])
  {
    assert GroupOk(w, from) && GroupOk(w, g) && ShardOk(w, s);
    assert GivenAway(w.configs, from, n, s) && RecordOk(n, s, Now(w, from).dock[n][s]);
    assert Follows(w.configs, g, Now(w, g));
    WaitsAhead(w, g, s);
    assert w.at[s] == n - 1;
  }

  lemma PullAllGenuine(w: World, g: int, from: int, k: nat, num: int, ids: seq<int>)
    requires Inv(w) && g in w.runs && Proposal(w, Pull(g, from, k, num, ids)).Some? && Sized(Now(w, g))
    ensures Proposal(w, Pull(g, from, k, num, ids)).value.Shards?
    ensures AllGenuine(w, g, Proposal(w, Pull(g, from, k, num, ids)).value)
  {
    var op := Proposal(w, Pull(g, from, k, num, ids)).value;
    var p, now := w.runs[from][k], Now(w, from);
    assert GroupOk(w, from);
    assert Earlier(p, now);
    hide Inv, GroupOk, Genuine;
    forall i | 0 <= i < |op.shifts|
      ensures 0 <= op.shifts[i].shardId < NSHARDS && (forall key :: key in op.shifts[i].kv ==> KeyShard(key) == op.shifts[i].shardId)
      ensures Accepts(Now(w, g), op.shifts[i]) ==> Genuine(w, op, op.shifts[i].shardId, op.shifts[i])
    {
      assert op.shifts[i] in op.shifts;
      var s :| s in p.dock[num] && p.dock[num][s] == op.shifts[i];
      assert s in now.dock[num] && now.dock[num][s] == op.shifts[i];
      assert GivenAway(w.configs, from, num, s) && RecordOk(num, s, op.shifts[i]);
      if Accepts(Now(w, g), op.shifts[i]) {
        PullGenuine(w, g, from, num, s, op);
      }
    }
  }

  lemma BeginAllGenuine(w: World, g: int, k: nat)
    requires Inv(w) && g in w.runs && Proposal(w, Begin(g, k)).Some? && Sized(Now(w, g))
    ensures Proposal(w, Begin(g, k)).value.Shards?
    ensures AllGenuine(w, g, Proposal(w, Begin(g, k)).value)
  {
    var op := Proposal(w, Begin(g, k)).value;
    assert GroupOk(w, g);
    assert Follows(w.configs, g, w.runs[g][k]) && Follows(w.configs, g, Now(w, g));
    assert w.runs[g][k].cur.num <= 1;
    forall i | 0 <= i < |op.shifts| && Accepts(Now(w, g), op.shifts[i]) ensures Genuine(w, op, i, op.shifts[i]) {
      assert ShardOk(w, i);
      WaitsAhead(w, g, i);
    }
  }

  // ----- The step -------------------------------------------------------------------------

  function Taken(w: World, g: int, op: Op): World
    requires Shape(w) && g in w.runs && Sized(Now(w, g)) && 0 <= Now(w, g).cur.num && op.Shards? && OpSized(op)
  {
    Advance(w, g, AcceptShards(Now(w, g), op), multiset{})
  }

  /** What the step may rely on at group `g`. */
  ghost predicate CanTake(w: World, g: int, op: Op)
    requires Shape(w) && g in w.runs
  {
    var G := Now(w, g);
    Follows(w.configs, g, G) && Sized(G) && HoldsOk(G) && op.Shards? && OpSized(op) && AllGenuine(w, g, op)
  }

  lemma TakenNow(w: World, g: int, op: Op, s: int)
    requires Shape(w) && g in w.runs && CanTake(w, g, op) && 0 <= s < NSHARDS
    ensures var w' := Taken(w, g, op); var G, G' := Now(w, g), Now(w', g);
      && Shape(w') && w'.runs.Keys == w.runs.Keys && w'.configs == w.configs && w'.writes == w.writes
      && G' == G.(shards := G'.shards, kv := G'.kv, info := Merge(G.info, op.info))
      && (forall h :: h in w.runs && h != g ==> Now(w', h) == Now(w, h))
      && w'.at[s] == (if s in G'.shards then G.cur.num else w.at[s])
      && (s in G.shards ==> s in G'.shards && Part(G'.kv, s) == Part(G.kv, s))
      && (s in G'.shards && s !in G.shards ==>
            w.at[s] + 1 == G.cur.num && Owner(w, G.cur.num, s) == g && !PlaceOf(w, s).Serving?
            && Data(w, s) == Part(G'.kv, s) && InfoAt(w, s) == op.info)
  {
    var G := Now(w, g);
    var next := AcceptShards(G, op);
    NowAdvance(w, g, next, multiset{});
    AcceptHolds(G, op.shifts);
    if s in next.shards && s !in G.shards {
      var i := AcceptedFrom(G, op.shifts, s);
      assert Genuine(w, op, s, op.shifts[i]);
    }
  }

  lemma TakenOwners(w: World, g: int, op: Op, s: int)
    requires Shape(w) && g in w.runs && CanTake(w, g, op) && 0 <= s < NSHARDS && OwnersOk(w, s) && ServesOk(w, s)
    ensures OwnersOk(Taken(w, g, op), s)
  {
    var w' := Taken(w, g, op);
    TakenNow(w, g, op, s);
    hide Taken, Advance, AcceptShards, Merge, Data, InfoAt, CanTake;
    if w.at[s] >= 1 { assert OwnerPast(w, s, w.at[s]); }
    forall m | 1 <= m <= w'.at[s] ensures OwnerPast(w', s, m) {
      if m <= w.at[s] { assert OwnerPast(w, s, m); }
    }
    forall m | w'.at[s] < m < |w.configs| ensures OwnerWaits(w', s, m) {
      assert OwnerWaits(w, s, m);
    }
  }

  lemma TakenServes(w: World, g: int, op: Op, s: int)
    requires Shape(w) && g in w.runs && CanTake(w, g, op) && 0 <= s < NSHARDS && OwnersOk(w, s) && ServesOk(w, s) && DocksOk(w, s)
    ensures OwnersOk(Taken(w, g, op), s) && ServesOk(Taken(w, g, op), s) && DocksOk(Taken(w, g, op), s)
  {
    var w' := Taken(w, g, op);
    TakenOwners(w, g, op, s);
    TakenNow(w, g, op, s);
    hide Taken, Advance, AcceptShards, Merge, Data, InfoAt, CanTake;
    if w.at[s] >= 1 { assert OwnerPast(w, s, w.at[s]); }
  }

  /** The data of every shard is unchanged, and each table refuses at least what it did. */
  lemma TakenData(w: World, g: int, op: Op, s: int)
    requires Shape(w) && g in w.runs && CanTake(w, g, op) && 0 <= s < NSHARDS && OwnersOk(w, s) && ServesOk(w, s) && DocksOk(w, s)
    ensures var w' := Taken(w, g, op);
      && w'.at[s] < |w'.configs| && Shape(w') && Data(w', s) == Data(w, s)
      && (WritesOk(w, s) ==> WritesOk(w', s))
  {
    hide AllGenuine, HoldsOk, Merge, Refuses, Taken, Advance, AcceptShards, OwnerWaits, DocksOk, Part;
    var w' := Taken(w, g, op);
    TakenServes(w, g, op, s);
    TakenNow(w, g, op, s);
    MergeRefuses(w.writes, Now(w, g).info, op.info, s);
    if w.at[s] >= 1 { assert OwnerPast(w, s, w.at[s]); }
    if s in Now(w', g).shards {
      assert PlaceOf(w', s) == Serving(g);
      if s in Now(w, g).shards { assert PlaceOf(w, s) == Serving(g); }
    } else {
      assert PlaceOf(w', s) == PlaceOf(w, s);
    }
  }

  lemma TakenGroups(w: World, g: int, op: Op)
    requires Inv(w) && g in w.runs && CanTake(w, g, op)
    ensures Shape(Taken(w, g, op)) && forall h :: h in Taken(w, g, op).runs ==> GroupOk(Taken(w, g, op), h)
  {
    hide ShardOk, PlaceOf, Data, InfoAt, Merge;
    var w' := Taken(w, g, op);
    var next := AcceptShards(Now(w, g), op);
    TakenNow(w, g, op, 0);
    assert GroupOk(w, g);
    AcceptHolds(Now(w, g), op.shifts);
    GroupAdvance(w, g, next, multiset{});
    forall h | h in w'.runs && h != g ensures GroupOk(w', h) {
      OtherAdvance(w, g, next, multiset{}, h);
    }
  }

  lemma TakenKeeps(w: World, g: int, op: Op)
    requires Inv(w) && g in w.runs && CanTake(w, g, op)
    ensures Inv(Taken(w, g, op))
  {
    hide OwnersOk, ServesOk, DocksOk, WritesOk, PlaceOf, Data, InfoAt, AllGenuine, GroupOk, HoldsOk, AcceptShards;
    var w' := Taken(w, g, op);
    TakenGroups(w, g, op);
    forall s | 0 <= s < NSHARDS ensures ShardOk(w', s) {
      assert ShardOk(w, s);
      TakenServes(w, g, op, s);
      TakenData(w, g, op, s);
    }
  }
}

/** Client operations keep the invariant. */
module ShardClient {
  import opened ShardConfig
  import opened Wrappers
  import opened ShardGroup
  import opened ShardWorld
  import opened ShardInv

  lemma NowAdvance(w: World, g: int, next: Group, writes: multiset<(int, int, int)>)
    requires Shape(w) && g in w.runs && 0 <= next.cur.num
    ensures Shape(Advance(w, g, next, writes))
    ensures Now(Advance(w, g, next, writes), g) == next
    ensures forall h :: h in w.runs && h != g ==> Now(Advance(w, g, next, writes), h) == Now(w, h)
  {
  }

  lemma EarlierTrans(a: Group, b: Group, c: Group)
    requires Earlier(a, b) && Earlier(b, c)
    ensures Earlier(a, c)
  {
  }

  /** What the state itself must satisfy for its group to stay in order. */
  ghost predicate StateOk(configs: seq<Config>, g: int, next: Group) {
    && Follows(configs, g, next) && Sized(next) && HoldsOk(next) && DockOk(configs, g, next) && DockFull(configs, g, next)
  }

  lemma GroupAdvance(w: World, g: int, next: Group, writes: multiset<(int, int, int)>)
    requires Shape(w) && g in w.runs && 0 <= next.cur.num && GroupOk(w, g)
    requires StateOk(w.configs, g, next) && Earlier(Now(w, g), next)
    ensures GroupOk(Advance(w, g, next, writes), g)
  {
    var w' := Advance(w, g, next, writes);
    NowAdvance(w, g, next, writes);
    forall k | 0 <= k < |w'.runs[g]| ensures Earlier(w'.runs[g][k], next) && Follows(w.configs, g, w'.runs[g][k]) {
      if k < |w.runs[g]| {
        EarlierTrans(w.runs[g][k], Now(w, g), next);
      }
    }
  }

  lemma OtherAdvance(w: World, g: int, next: Group, writes: multiset<(int, int, int)>, h: int)
    requires Shape(w) && g in w.runs && 0 <= next.cur.num && h in w.runs && h != g && GroupOk(w, h)
    ensures GroupOk(Advance(w, g, next, writes), h)
  {
    NowAdvance(w, g, next, writes);
    assert Advance(w, g, next, writes).runs[h] == w.runs[h];
  }

  /** `next` serves and docks what `Now(w, g)` does, in the same config. */
  ghost predicate Quiet(w: World, g: int, next: Group)
    requires Shape(w) && g in w.runs
  {
    var G := Now(w, g);
    next.cur == G.cur && next.last == G.last && next.gid == G.gid && next.shards == G.shards && next.dock == G.dock && next.dockInfo == G.dockInfo
  }

  lemma QuietPlaces(w: World, g: int, next: Group, writes: multiset<(int, int, int)>, s: int)
    requires Shape(w) && g in w.runs && 0 <= next.cur.num && Quiet(w, g, next) && 0 <= s < NSHARDS
    requires OwnersOk(w, s) && ServesOk(w, s) && DocksOk(w, s)
    ensures var w' := Advance(w, g, next, writes);
      w'.at[s] == w.at[s] && OwnersOk(w', s) && ServesOk(w', s) && DocksOk(w', s) && PlaceOf(w', s) == PlaceOf(w, s)
  {
    NowAdvance(w, g, next, writes);
    var w' := Advance(w, g, next, writes);
    assert w'.at[s] == w.at[s];
    forall m | 1 <= m <= w.at[s] ensures OwnerPast(w', s, m) {
      assert OwnerPast(w, s, m);
    }
    forall m | w.at[s] < m < |w.configs| ensures OwnerWaits(w', s, m) {
      assert OwnerWaits(w, s, m);
    }
  }

  lemma RecordKeepsDone(info: ClientInfo, c: int, r: int, err: Err, c': int, r': int)
    requires !Done(info, c, r) && Done(info, c', r')
    ensures Done(Record(info, c, r, err), c', r')
  {
  }

  lemma ClientState(configs: seq<Config>, g: int, G: Group, op: Op)
    requires StateOk(configs, g, G) && Client(op) && Sized(G)
    ensures StateOk(configs, g, ApplyOp(G, op))
  {
    var next := ApplyOp(G, op);
    assert next == G.(kv := next.kv, info := next.info);
    hide GivenAway, RecordOk;
    assert forall k :: k in next.kv ==> k in G.kv || (k == op.key && KeyShard(k) in G.shards);
  }

  lemma QuietInfo(w: World, g: int, next: Group, writes: multiset<(int, int, int)>, s: int)
    requires Shape(w) && g in w.runs && 0 <= next.cur.num && Quiet(w, g, next) && 0 <= s < NSHARDS
    requires OwnersOk(w, s) && ServesOk(w, s) && DocksOk(w, s)
    ensures var w' := Advance(w, g, next, writes);
      && w'.at[s] == w.at[s]
      && InfoAt(w', s) == (if PlaceOf(w, s) == Serving(g) then next.info else InfoAt(w, s))
      && Data(w', s) == (if PlaceOf(w, s) == Serving(g) then Part(next.kv, s) else Data(w, s))
  {
    QuietPlaces(w, g, next, writes, s);
    NowAdvance(w, g, next, writes);
  }

  /** A write takes effect where the shard is served, and only if the table there refuses it no
      longer; afterwards that table refuses it. */
  lemma EffectIsNew(w: World, g: int, op: Op, s: int)
    requires Shape(w) && g in w.runs && Sized(Now(w, g)) && (op.Put? || op.Append?) && TakesEffect(Now(w, g), op)
    requires s == KeyShard(op.key) && ShardOk(w, s)
    ensures PlaceOf(w, s) == Serving(g)
    ensures op.reqNo >= 1 ==> (s, op.client, op.reqNo) !in w.writes
    ensures Done(ApplyOp(Now(w, g), op).info, op.client, op.reqNo)
  {
    assert PlaceOf(w, s) == Serving(g);
    assert InfoAt(w, s) == Now(w, g).info;
  }

  lemma RecordRefuses(writes: multiset<(int, int, int)>, info: ClientInfo, s: int, c: int, r: int, err: Err)
    requires Refuses(writes, info, s) && !Done(info, c, r)
    ensures Refuses(writes, Record(info, c, r, err), s)
    ensures err == OK ==> Refuses(writes + multiset{(s, c, r)}, Record(info, c, r, err), s)
  {
    forall c', r' | r' >= 1 && (s, c', r') in writes ensures Done(Record(info, c, r, err), c', r') {
      RecordKeepsDone(info, c, r, err, c', r');
    }
  }

  lemma ClientRefuses(writes: multiset<(int, int, int)>, G: Group, op: Op, s: int)
    requires Sized(G) && Client(op) && Refuses(writes, G.info, s)
    ensures Refuses(writes + Writes(G, op), ApplyOp(G, op).info, s)
  {
    if !Done(G.info, op.client, op.reqNo) {
      RecordRefuses(writes, G.info, s, op.client, op.reqNo, Check(G, KeyShard(op.key)));
    }
  }

  lemma ClientWrites(w: World, g: int, op: Op, s: int)
    requires Shape(w) && g in w.runs && Sized(Now(w, g)) && Client(op) && 0 <= Now(w, g).cur.num
    requires 0 <= s < NSHARDS && ShardOk(w, s)
    ensures var G := Now(w, g); var w' := Advance(w, g, ApplyOp(G, op), Writes(G, op));
      w'.at[s] == w.at[s] && WritesOk(w', s)
  {
    var G := Now(w, g);
    QuietInfo(w, g, ApplyOp(G, op), Writes(G, op), s);
    if PlaceOf(w, s) == Serving(g) {
      ServingInfo(w, g, s);
      ClientRefuses(w.writes, G, op, s);
    } else if Writes(G, op) != multiset{} && s == KeyShard(op.key) {
      EffectIsNew(w, g, op, s);
    }
  }

  lemma ServingInfo(w: World, g: int, s: int)
    requires Shape(w) && 0 <= s < NSHARDS && w.at[s] < |w.configs| && PlaceOf(w, s) == Serving(g)
    ensures g in w.runs && InfoAt(w, s) == Now(w, g).info && Data(w, s) == Part(Now(w, g).kv, s)
  {
  }

  lemma ClientKeeps(w: World, g: int, op: Op)
    requires Inv(w) && g in w.runs && Sized(Now(w, g)) && Client(op) && 0 <= Now(w, g).cur.num
    ensures var G := Now(w, g); Inv(Advance(w, g, ApplyOp(G, op), Writes(G, op)))
  {
    var G := Now(w, g);
    var next := ApplyOp(G, op);
    var w' := Advance(w, g, next, Writes(G, op));
    NowAdvance(w, g, next, Writes(G, op));
    assert GroupOk(w, g);
    ClientState(w.configs, g, G, op);
    GroupAdvance(w, g, next, Writes(G, op));
    forall h | h in w'.runs && h != g ensures GroupOk(w', h) {
      OtherAdvance(w, g, next, Writes(G, op), h);
    }
    forall s | 0 <= s < NSHARDS ensures ShardOk(w', s) {
      assert ShardOk(w, s);
      QuietPlaces(w, g, next, Writes(G, op), s);
      ClientWrites(w, g, op, s);
    }
  }
}

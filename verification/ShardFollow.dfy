/** Entering the next config keeps the invariant and every shard's data and duplicate table. */
module ShardFollow {
  import opened ShardConfig
  import opened Wrappers
  import opened ShardGroup
  import opened ShardWorld
  import opened ShardInv
  import opened ShardClient

  lemma FollowDock(configs: seq<Config>, g: int, G: Group)
    requires StateOk(configs, g, G) && G.cur.num + 1 < |configs| && Finished(G)
    requires configs[G.cur.num + 1].num == G.cur.num + 1 && |configs[G.cur.num + 1].shards| == NSHARDS
    ensures var next := UpdateConfig(G, configs[G.cur.num + 1]); DockOk(configs, g, next) && DockFull(configs, g, next)
  {
    var c := configs[G.cur.num + 1];
    var next := UpdateConfig(G, c);
    forall s | s in next.dock[c.num] ensures GivenAway(configs, g, c.num, s) && RecordOk(c.num, s, next.dock[c.num][s]) {
    }
    forall n, s | n <= next.cur.num && GivenAway(configs, g, n, s) ensures n in next.dock && s in next.dock[n] {
      if n == c.num {
        assert G.cur.shards[s] == g;
      }
    }
  }

  lemma FollowState(configs: seq<Config>, g: int, G: Group)
    requires StateOk(configs, g, G) && G.cur.num + 1 < |configs| && Finished(G)
    requires configs[G.cur.num + 1].num == G.cur.num + 1 && |configs[G.cur.num + 1].shards| == NSHARDS
    ensures var next := UpdateConfig(G, configs[G.cur.num + 1]); StateOk(configs, g, next) && Earlier(G, next)
  {
    FollowDock(configs, g, G);
    hide DockOk, DockFull;
    var next := UpdateConfig(G, configs[G.cur.num + 1]);
    assert G.dock.Keys == G.dockInfo.Keys by { DockKeys(configs, g, G); }
    assert HoldsOk(next);
    assert G.cur.num + 1 !in G.dock by { DockKeys(configs, g, G); }
  }

  lemma DockKeys(configs: seq<Config>, g: int, G: Group)
    requires DockOk(configs, g, G)
    ensures G.dock.Keys == G.dockInfo.Keys && forall n :: n in G.dock ==> 1 <= n <= G.cur.num
  {
  }

  /** Group `g` may enter the next config. */
  ghost predicate Ready(w: World, g: int)
    requires Shape(w) && g in w.runs
  {
    var G := Now(w, g);
    Follows(w.configs, g, G) && Sized(G) && HoldsOk(G) && DockOk(w.configs, g, G) && Finished(G) && G.cur.num + 1 < |w.configs|
  }

  function Entered(w: World, g: int): World
    requires Shape(w) && g in w.runs && Sized(Now(w, g)) && 0 <= Now(w, g).cur.num && Now(w, g).cur.num + 1 < |w.configs|
  {
    Advance(w, g, UpdateConfig(Now(w, g), w.configs[Now(w, g).cur.num + 1]), multiset{})
  }

  lemma EnteredNow(w: World, g: int)
    requires Shape(w) && g in w.runs && Ready(w, g)
    ensures var w' := Entered(w, g); var n := Now(w, g).cur.num;
      && Shape(w') && w'.runs.Keys == w.runs.Keys && w'.configs == w.configs
      && Now(w', g) == UpdateConfig(Now(w, g), w.configs[n + 1])
      && Now(w', g).cur.num == n + 1
      && (forall h :: h in w.runs && h != g ==> Now(w', h) == Now(w, h))
      && (forall s :: 0 <= s < NSHARDS ==> w'.at[s] == if s in Now(w', g).shards then n + 1 else w.at[s])
      && (forall s :: 0 <= s < NSHARDS ==> (s in Now(w', g).shards <==> s in Now(w, g).shards && Owner(w, n + 1, s) == g))
  {
    NowAdvance(w, g, UpdateConfig(Now(w, g), w.configs[Now(w, g).cur.num + 1]), multiset{});
  }

  lemma EnteredOwners(w: World, g: int, s: int)
    requires Shape(w) && g in w.runs && Ready(w, g) && 0 <= s < NSHARDS && OwnersOk(w, s) && ServesOk(w, s)
    ensures OwnersOk(Entered(w, g), s)
  {
    var w' := Entered(w, g);
    EnteredNow(w, g);
    hide UpdateConfig, Advance, Entered, DockOk;
    forall m | 1 <= m <= w'.at[s] ensures OwnerPast(w', s, m) {
      if m <= w.at[s] { assert OwnerPast(w, s, m); }
    }
    forall m | w'.at[s] < m < |w.configs| ensures OwnerWaits(w', s, m) {
      assert OwnerWaits(w, s, m);
    }
  }

  lemma EnteredServes(w: World, g: int, s: int)
    requires Shape(w) && g in w.runs && Ready(w, g) && 0 <= s < NSHARDS && OwnersOk(w, s) && ServesOk(w, s) && DocksOk(w, s)
    ensures OwnersOk(Entered(w, g), s) && ServesOk(Entered(w, g), s) && DocksOk(Entered(w, g), s)
  {
    EnteredOwners(w, g, s);
    EnteredNow(w, g);
    if w.at[s] >= 1 { assert OwnerPast(w, s, w.at[s]); }
  }

  lemma EnteredHeld(w: World, g: int, s: int)
    requires Shape(w) && g in w.runs && Ready(w, g) && 0 <= s < NSHARDS && OwnersOk(w, s) && ServesOk(w, s)
    requires s in Now(w, g).shards
    ensures var w' := Entered(w, g);
      w'.at[s] < |w'.configs| && Shape(w') && Data(w', s) == Data(w, s) && InfoAt(w', s) == InfoAt(w, s)
  {
    hide OwnerWaits, OwnerPast, DockOk, Entered, Advance;
    var w' := Entered(w, g);
    EnteredNow(w, g);
    assert PlaceOf(w, s) == Serving(g);
    if s in Now(w', g).shards {
      assert Part(Now(w', g).kv, s) == Part(Now(w, g).kv, s);
    }
  }

  /** The shards that leave keep their data and table in the dock, the others where they were. */
  lemma EnteredData(w: World, g: int, s: int)
    requires Shape(w) && g in w.runs && Ready(w, g) && 0 <= s < NSHARDS && OwnersOk(w, s) && ServesOk(w, s) && DocksOk(w, s)
    ensures var w' := Entered(w, g);
      w'.at[s] < |w'.configs| && Shape(w') && Data(w', s) == Data(w, s) && InfoAt(w', s) == InfoAt(w, s)
  {
    EnteredNow(w, g);
    if s in Now(w, g).shards {
      EnteredHeld(w, g, s);
    } else {
      var w' := Entered(w, g);
      assert w'.at[s] == w.at[s];
      assert PlaceOf(w', s) == PlaceOf(w, s);
    }
  }

  lemma EnteredGroups(w: World, g: int)
    requires Inv(w) && g in w.runs && Ready(w, g)
    ensures Shape(Entered(w, g)) && forall h :: h in Entered(w, g).runs ==> GroupOk(Entered(w, g), h)
  {
    hide ShardOk, PlaceOf, Data, InfoAt, UpdateConfig, DockOk, DockFull, HoldsOk, Earlier;
    var w' := Entered(w, g);
    var next := UpdateConfig(Now(w, g), w.configs[Now(w, g).cur.num + 1]);
    EnteredNow(w, g);
    assert GroupOk(w, g);
    FollowState(w.configs, g, Now(w, g));
    GroupAdvance(w, g, next, multiset{});
    forall h | h in w'.runs && h != g ensures GroupOk(w', h) {
      OtherAdvance(w, g, next, multiset{}, h);
    }
  }

  lemma EnteredKeeps(w: World, g: int)
    requires Inv(w) && g in w.runs && Ready(w, g)
    ensures Inv(Entered(w, g))
  {
    hide OwnersOk, ServesOk, DocksOk, PlaceOf, Data, InfoAt, GroupOk, UpdateConfig;
    var w' := Entered(w, g);
    EnteredGroups(w, g);
    forall s | 0 <= s < NSHARDS ensures ShardOk(w', s) {
      assert ShardOk(w, s);
      EnteredServes(w, g, s);
      EnteredData(w, g, s);
    }
  }

  /** A stale, repeated or premature CONFIG operation changes no state. */
  lemma FollowStep(w: World, g: int, k: nat, m: nat)
    requires Inv(w) && g in w.runs && Proposal(w, Follow(g, k, m)).Some? && Sized(Now(w, g))
    ensures OpSized(Proposal(w, Follow(g, k, m)).value)
    ensures var op := Proposal(w, Follow(g, k, m)).value;
      if op.config.num == Now(w, g).cur.num + 1 && Finished(Now(w, g))
      then Ready(w, g) && op.config == w.configs[Now(w, g).cur.num + 1]
      else ApplyOp(Now(w, g), op) == Now(w, g)
  {
    var p := w.runs[g][k];
    assert GroupOk(w, g);
    assert Earlier(p, Now(w, g)) && Follows(w.configs, g, p);
    assert Numbered(w.configs[..m]);
    QueryNeverAbove(w.configs[..m], p.cur.num + 1);
  }
}

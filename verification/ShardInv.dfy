/** What every reachable world keeps. */
module ShardInv {
  import opened ShardConfig
  import opened Wrappers
  import opened ShardGroup
  import opened ShardWorld

  /** State `g` of group `gid` follows the controller's configs. */
  ghost predicate Follows(configs: seq<Config>, gid: int, g: Group) {
    && g.gid == gid
    && 0 <= g.cur.num < |configs|
    && g.cur == configs[g.cur.num]
    && g.last == configs[if g.cur.num == 0 then 0 else g.cur.num - 1]
  }

  /** Config `n` takes shard `s` away from group `gid`. */
  ghost predicate GivenAway(configs: seq<Config>, gid: int, n: int, s: int) {
    && 1 <= n < |configs| && 0 <= s < NSHARDS
    && |configs[n - 1].shards| == |configs[n].shards| == NSHARDS
    && configs[n - 1].shards[s] == gid != configs[n].shards[s]
  }

  ghost predicate RecordOk(n: int, s: int, r: ShiftShard) {
    r.configNum == n && r.shardId == s && forall k :: k in r.kv ==> KeyShard(k) == s
  }

  ghost predicate DockOk(configs: seq<Config>, gid: int, g: Group) {
    && g.dockInfo.Keys == g.dock.Keys
    && (forall n :: n in g.dock ==> 1 <= n <= g.cur.num)
    && (forall n, s :: n in g.dock && s in g.dock[n] ==>
          GivenAway(configs, gid, n, s) && RecordOk(n, s, g.dock[n][s]))
  }

  /** Everything the group owned in an earlier config and not in the next is in the dock. */
  ghost predicate DockFull(configs: seq<Config>, gid: int, g: Group) {
    forall n, s :: n <= g.cur.num && GivenAway(configs, gid, n, s) ==> n in g.dock && s in g.dock[n]
  }

  ghost predicate HoldsOk(g: Group)
    requires Sized(g)
  {
    && (forall s :: s in g.shards ==> 0 <= s < NSHARDS && g.cur.shards[s] == g.gid)
    && (forall k :: k in g.kv ==> KeyShard(k) in g.shards)
  }

  /** A later state of a group keeps what its docks held. */
  ghost predicate Earlier(p: Group, g: Group) {
    && p.cur.num <= g.cur.num
    && (forall n :: n in p.dock ==> n in g.dock && g.dock[n] == p.dock[n])
    && (forall n :: n in p.dockInfo ==> n in g.dockInfo && g.dockInfo[n] == p.dockInfo[n])
    && p.dock.Keys == p.dockInfo.Keys
  }

  ghost predicate GroupOk(w: World, g: int)
    requires Shape(w) && g in w.runs
  {
    && g > 0
    && (forall k :: 0 <= k < |w.runs[g]| ==> Follows(w.configs, g, w.runs[g][k]))
    && (forall k :: 0 <= k < |w.runs[g]| ==> Earlier(w.runs[g][k], Now(w, g)))
    && HoldsOk(Now(w, g))
    && DockOk(w.configs, g, Now(w, g))
    && DockFull(w.configs, g, Now(w, g))
  }

  ghost predicate ConfigsOk(w: World)
    requires Shape(w)
  {
    w.configs[0] == FirstConfig(NSHARDS) && forall i :: 1 <= i < |w.configs| ==> w.configs[i].shards[0] != 0
  }

  predicate OwnerPast(w: World, s: int, m: int)
    requires Shape(w) && 0 <= s < NSHARDS && 0 <= m < |w.configs|
  {
    var g := Owner(w, m, s);
    g in w.runs && (if m < w.at[s] then Now(w, g).cur.num > m else Now(w, g).cur.num >= m)
  }

  predicate OwnerWaits(w: World, s: int, m: int)
    requires Shape(w) && 0 <= s < NSHARDS && 0 <= m < |w.configs|
  {
    var g := Owner(w, m, s);
    g in w.runs ==> Now(w, g).cur.num <= m
  }

  /** Owners before the frontier have moved past it, owners after it have not reached beyond. */
  ghost predicate OwnersOk(w: World, s: int)
    requires Shape(w) && 0 <= s < NSHARDS
  {
    && w.at[s] < |w.configs|
    && (forall m :: 1 <= m <= w.at[s] ==> OwnerPast(w, s, m))
    && (forall m :: w.at[s] < m < |w.configs| ==> OwnerWaits(w, s, m))
  }

  /** The owner at the frontier serves the shard until it enters a config that takes it away. */
  ghost predicate FrontOk(w: World, s: int)
    requires Shape(w) && 0 <= s < NSHARDS && w.at[s] < |w.configs|
  {
    var g := Owner(w, w.at[s], s);
    w.at[s] >= 1 && g in w.runs ==>
      if Now(w, g).cur.num == w.at[s] then s in Now(w, g).shards
      else w.at[s] + 1 < |w.configs| && Owner(w, w.at[s] + 1, s) != g
  }

  /** Only the owner at the frontier serves the shard. */
  ghost predicate ServesOk(w: World, s: int)
    requires Shape(w) && 0 <= s < NSHARDS && w.at[s] < |w.configs|
  {
    && FrontOk(w, s)
    && (forall g :: g in w.runs && s in Now(w, g).shards ==>
          w.at[s] >= 1 && g == Owner(w, w.at[s], s) && Now(w, g).cur.num == w.at[s])
  }

  ghost predicate DocksOk(w: World, s: int)
    requires Shape(w) && 0 <= s < NSHARDS
  {
    forall g, n :: g in w.runs && n in Now(w, g).dock && s in Now(w, g).dock[n] ==> n <= w.at[s] + 1
  }

  /** Each write to shard `s` happened once and is refused by `info`. */
  ghost predicate Refuses(writes: multiset<(int, int, int)>, info: ClientInfo, s: int) {
    forall c, r :: r >= 1 && (s, c, r) in writes ==> writes[(s, c, r)] == 1 && Done(info, c, r)
  }

  /** The table that travels with shard `s` refuses every write that changed it. */
  ghost predicate WritesOk(w: World, s: int)
    requires Shape(w) && 0 <= s < NSHARDS && w.at[s] < |w.configs|
  {
    Refuses(w.writes, InfoAt(w, s), s)
  }

  ghost predicate ShardOk(w: World, s: int)
    requires Shape(w) && 0 <= s < NSHARDS
  {
    OwnersOk(w, s) && ServesOk(w, s) && DocksOk(w, s) && WritesOk(w, s)
  }

  ghost predicate Inv(w: World) {
    && Shape(w)
    && ConfigsOk(w)
    && (forall g :: g in w.runs ==> GroupOk(w, g))
    && (forall s :: 0 <= s < NSHARDS ==> ShardOk(w, s))
  }
}

/** Rebalancing a config: what the allocator computes, independent of the order in which any map
    is walked. */
module Allocator {
  import opened ShardConfig
  import opened Levelling
  import opened Wrappers

  // ----- Groups ranked by how many shards they hold ---------------------------------------

  /** The shards of group `gid`, in order. */
  function ShardsOf(shards: seq<int>, gid: int): (r: seq<nat>)
    ensures Distinct(r) && forall s: nat :: s in r <==> s < |shards| && shards[s] == gid
  {
    if shards == [] then []
    else
      var n := |shards| - 1;
      var front := ShardsOf(shards[..n], gid);
      assert forall s: nat :: s < n ==> shards[..n][s] == shards[s];
      assert forall i :: 0 <= i < |front| ==> front[i] in front;
      if shards[n] == gid then front + [n] else front
  }

  function Count(shards: seq<int>, gid: int): nat {
    |ShardsOf(shards, gid)|
  }

  function Used(shards: seq<int>): set<int> {
    set s | 0 <= s < |shards| :: shards[s]
  }

  /** Fewer shards first; at equal numbers the smaller gid. */
  predicate Before(shards: seq<int>, a: int, b: int) {
    Count(shards, a) < Count(shards, b) || (Count(shards, a) == Count(shards, b) && a < b)
  }

  ghost predicate Ranks(shards: seq<int>, gids: set<int>, g: seq<int>) {
    && (forall i, j :: 0 <= i < j < |g| ==> Before(shards, g[i], g[j]))
    && (forall i :: 0 <= i < |g| ==> g[i] in gids)
    && (forall x :: x in gids ==> x in g)
  }

  lemma First(shards: seq<int>, gids: set<int>) returns (m: int)
    requires gids != {}
    ensures m in gids && forall x :: x in gids && x != m ==> Before(shards, m, x)
    decreases |gids|
  {
    Nonempty(gids);
    var x :| x in gids;
    if gids == {x} {
      m := x;
    } else {
      var y := First(shards, gids - {x});
      m := if Before(shards, x, y) then x else y;
      forall z | z in gids && z != m ensures Before(shards, m, z) {
        if z != x { assert z in gids - {x}; }
      }
    }
  }

  lemma RanksEmpty(shards: seq<int>, gids: set<int>, a: seq<int>)
    requires Ranks(shards, gids, a)
    ensures a == [] <==> gids == {}
  {
    Nonempty(gids);
    if a != [] { assert a[0] in a; }
  }

  /** There is one ranking only. */
  lemma {:induction false} RanksUnique(shards: seq<int>, gids: set<int>, a: seq<int>, b: seq<int>)
    requires Ranks(shards, gids, a) && Ranks(shards, gids, b)
    ensures a == b
  {
    hide Count;
    RanksEmpty(shards, gids, a);
    RanksEmpty(shards, gids, b);
    if b != [] {
      assert b[0] in b;
      assert b[0] in a;
      assert a[0] in a;
      assert a[0] in b;
      assert a[0] == b[0];
      RanksTail(shards, gids, a);
      RanksTail(shards, gids, b);
      RanksUnique(shards, gids - {a[0]}, a[1..], b[1..]);
      assert a == [a[0]] + a[1..] && b == [b[0]] + b[1..];
    }
  }

  lemma RanksTail(shards: seq<int>, gids: set<int>, a: seq<int>)
    requires Ranks(shards, gids, a) && a != []
    ensures Ranks(shards, gids - {a[0]}, a[1..])
  {
    hide Count;
    assert a == [a[0]] + a[1..];
    assert forall i :: 0 <= i < |a| - 1 ==> a[1..][i] == a[i + 1];
    assert a[0] !in a[1..];
  }

  lemma {:induction false} RankingExists(shards: seq<int>, gids: set<int>) returns (g: seq<int>)
    ensures Ranks(shards, gids, g)
    decreases |gids|
  {
    hide Count;
    if gids == {} {
      g := [];
    } else {
      var m := First(shards, gids);
      var rest := RankingExists(shards, gids - {m});
      g := [m] + rest;
      assert forall i :: 0 <= i < |rest| ==> rest[i] in rest;
      assert forall i :: 0 <= i < |rest| ==> rest[i] in gids - {m};
    }
  }

  ghost function Ranking(shards: seq<int>, gids: set<int>): (g: seq<int>)
    ensures Ranks(shards, gids, g)
  {
    assert exists g: seq<int> :: Ranks(shards, gids, g) by { var g := RankingExists(shards, gids); }
    var g: seq<int> :| Ranks(shards, gids, g);
    g
  }

  // ----- Rebalancing ------------------------------------------------------------------------

  /** Every group the allocator considers: those that hold shards and those that are listed. */
  function Gids(cfg: Config): set<int> {
    Used(cfg.shards) + cfg.groups.Keys
  }

  function Average(cfg: Config): nat
    requires |cfg.groups| > 0
  {
    Max(1, |cfg.shards| / |cfg.groups|)
  }

  function ListsOf(shards: seq<int>, g: seq<int>): (r: Lists)
    ensures |r| == |g| && forall k :: 0 <= k < |g| ==> r[k] == ShardsOf(shards, g[k])
  {
    seq(|g|, k requires 0 <= k < |g| => ShardsOf(shards, g[k]))
  }

  ghost function FinalLists(cfg: Config): Lists
    requires |cfg.groups| > 0
  {
    var g := Ranking(cfg.shards, Gids(cfg));
    Spread(ListsOf(cfg.shards, g), 0, |g| - 1, Average(cfg))
  }

  ghost predicate InSome(ls: Lists, s: nat) {
    exists k :: 0 <= k < |ls| && s in ls[k]
  }

  /** Shard `s` belongs to the group whose final list holds it. */
  ghost predicate Assigned(shards: seq<int>, g: seq<int>, ls: Lists) {
    && |g| == |ls|
    && (forall k, s :: 0 <= k < |ls| && s in ls[k] ==> s < |shards| && shards[s] == g[k])
    && (forall s :: 0 <= s < |shards| ==> InSome(ls, s))
  }

  /** What the lists determine is one assignment. */
  lemma AssignedUnique(a: seq<int>, b: seq<int>, g: seq<int>, ls: Lists)
    requires |a| == |b| && Assigned(a, g, ls) && Assigned(b, g, ls)
    ensures a == b
  {
    forall s | 0 <= s < |a| ensures a[s] == b[s] {
      assert InSome(ls, s);
      var k :| 0 <= k < |ls| && s in ls[k];
    }
  }

  /** `next` is what rebalancing `cfg` gives. */
  ghost predicate Rebalanced(cfg: Config, next: Config) {
    if |cfg.groups| == 0 then next == cfg
    else
      && next == cfg.(shards := next.shards) && |next.shards| == |cfg.shards|
      && Assigned(next.shards, Ranking(cfg.shards, Gids(cfg)), FinalLists(cfg))
  }

  lemma RebalancedUnique(cfg: Config, a: Config, b: Config)
    requires Rebalanced(cfg, a) && Rebalanced(cfg, b)
    ensures a == b
  {
    if |cfg.groups| > 0 { AssignedUnique(a.shards, b.shards, Ranking(cfg.shards, Gids(cfg)), FinalLists(cfg)); }
  }

  // ----- What rebalancing achieves ----------------------------------------------------------

  ghost function Places(shards: seq<int>, g: seq<int>): (own: seq<nat>)
    requires forall s :: 0 <= s < |shards| ==> shards[s] in g
    ensures |own| == |shards| && forall s :: 0 <= s < |own| ==> own[s] < |g| && g[own[s]] == shards[s]
  {
    seq(|shards|, s requires 0 <= s < |shards| => IndexIn(g, shards[s]))
  }

  lemma UsedIn(shards: seq<int>, gids: set<int>, g: seq<int>)
    requires Ranks(shards, gids, g) && Used(shards) <= gids
    ensures forall s :: 0 <= s < |shards| ==> shards[s] in g
  {
    hide Before;
    forall s | 0 <= s < |shards| ensures shards[s] in g {
      var x := shards[s];
      assert x in Used(shards);
      assert x in gids;
    }
  }

  lemma RankedLists(shards: seq<int>, gids: set<int>, g: seq<int>)
    requires Ranks(shards, gids, g) && Used(shards) <= gids
    ensures (forall s :: 0 <= s < |shards| ==> shards[s] in g)
    ensures Ascending(ListsOf(shards, g)) && Owns(ListsOf(shards, g), Places(shards, g))
    ensures forall i, j :: 0 <= i < j < |g| ==> g[i] != g[j]
  {
    UsedIn(shards, gids, g);
    forall i, j | 0 <= i < j < |g| ensures g[i] != g[j] && Count(shards, g[i]) <= Count(shards, g[j]) {
      assert Before(shards, g[i], g[j]);
    }
    var ls, own := ListsOf(shards, g), Places(shards, g);
    forall s | 0 <= s < |own| ensures s in ls[own[s]] { assert g[own[s]] == shards[s]; }
    forall k, s: nat {:trigger s in ls[k]} | 0 <= k < |ls| && s in ls[k] ensures s < |own| && own[s] == k {
      assert s in ShardsOf(shards, g[k]);
    }
  }

  /** A final list is the list of its group in the result. */
  lemma FinalCount(next: seq<int>, g: seq<int>, ls: Lists, own: seq<nat>, k: nat)
    requires Assigned(next, g, ls) && Owns(ls, own) && |own| == |next| && k < |g|
    requires forall i, j :: 0 <= i < j < |g| ==> g[i] != g[j]
    ensures Count(next, g[k]) == |ls[k]|
  {
    ElementCount(ShardsOf(next, g[k]));
    ElementCount(ls[k]);
    forall s: nat ensures s in ShardsOf(next, g[k]) <==> s in ls[k] {
      if s < |next| {
        assert s in ls[own[s]];
        assert next[s] == g[own[s]];
      }
    }
    assert Elements(ShardsOf(next, g[k])) == Elements(ls[k]);
  }

  /** The numbers of shards by which groups exceed or miss the average, over the ranked groups. */
  ghost function TotalDeficit(cfg: Config): nat
    requires |cfg.groups| > 0
  {
    Deficit(ListsOf(cfg.shards, Ranking(cfg.shards, Gids(cfg))), Average(cfg))
  }

  ghost function TotalSurplus(cfg: Config): nat
    requires |cfg.groups| > 0
  {
    Surplus(ListsOf(cfg.shards, Ranking(cfg.shards, Gids(cfg))), Average(cfg))
  }

  function MovedShards(a: seq<int>, b: seq<int>): set<nat>
    requires |a| == |b|
  {
    set s: nat | s < |a| && a[s] != b[s]
  }

  /** The lists after rebalancing and who owns them. */
  lemma Outcome(cfg: Config) returns (own: seq<nat>)
    requires |cfg.groups| > 0
    ensures var g := Ranking(cfg.shards, Gids(cfg)); var ls := ListsOf(cfg.shards, g);
      && (forall s :: 0 <= s < |cfg.shards| ==> cfg.shards[s] in g)
      && (forall i, j :: 0 <= i < j < |g| ==> g[i] != g[j])
      && |FinalLists(cfg)| == |g| && |own| == |cfg.shards|
      && Owns(FinalLists(cfg), own) && Justified(ls, Places(cfg.shards, g), own, Average(cfg))
      && |Moved(Places(cfg.shards, g), own)| == Min(TotalDeficit(cfg), TotalSurplus(cfg))
      && Level(FinalLists(cfg), Average(cfg)) && AllToward(ls, FinalLists(cfg), Average(cfg))
      && Total(FinalLists(cfg)) == Total(ls)
  {
    hide Average, Count, Before, Ranks, ShardsOf, Spread, Owns, Moved, Level, Total, Deficit, Surplus, Ascending;
    var g := Ranking(cfg.shards, Gids(cfg));
    RankedLists(cfg.shards, Gids(cfg), g);
    own := SpreadAll(ListsOf(cfg.shards, g), Places(cfg.shards, g), Average(cfg));
    SpreadTotal(ListsOf(cfg.shards, g), 0, |g| - 1, Average(cfg));
  }

  /** Lists that own every shard once can be written back. */
  lemma AssignExists(g: seq<int>, ls: Lists, own: seq<nat>) returns (shards: seq<int>)
    requires |g| == |ls| && Owns(ls, own)
    ensures |shards| == |own| && Assigned(shards, g, ls)
  {
    assert forall s :: 0 <= s < |own| ==> own[s] < |g|;
    shards := seq(|own|, s requires 0 <= s < |own| => g[own[s]]);
    forall s | 0 <= s < |shards| ensures InSome(ls, s) { assert s in ls[own[s]]; }
  }

  /** Rebalancing always has an outcome. */
  lemma RebalanceExists(cfg: Config) returns (next: Config)
    ensures Rebalanced(cfg, next)
  {
    hide FinalLists, Assigned, Owns, Justified, Moved, Level, AllToward, Total, TotalDeficit, TotalSurplus, Average,
      Ranks, ListsOf, Places;
    next := cfg;
    if |cfg.groups| > 0 {
      var own := Outcome(cfg);
      var shards := AssignExists(Ranking(cfg.shards, Gids(cfg)), FinalLists(cfg), own);
      next := cfg.(shards := shards);
    }
  }

  lemma AssignedPlaces(next: seq<int>, g: seq<int>, ls: Lists, own: seq<nat>)
    requires Assigned(next, g, ls) && Owns(ls, own) && |own| == |next|
    ensures forall s :: 0 <= s < |next| ==> own[s] < |g| && next[s] == g[own[s]]
  {
    forall s | 0 <= s < |next| ensures own[s] < |g| && next[s] == g[own[s]] {
      assert s in ls[own[s]];
    }
  }

  /** Economy: a shard changes groups only from one above the average to one below it, and as many
      shards move as the smaller of total surplus and total deficit. */
  lemma RebalanceMoves(cfg: Config, next: Config)
    requires |cfg.groups| > 0 && Rebalanced(cfg, next)
    ensures forall s :: 0 <= s < |cfg.shards| && next.shards[s] != cfg.shards[s] ==>
      Count(cfg.shards, cfg.shards[s]) > Average(cfg) > Count(cfg.shards, next.shards[s])
    ensures |MovedShards(cfg.shards, next.shards)| == Min(TotalDeficit(cfg), TotalSurplus(cfg))
  {
    hide FinalLists, Owns, Level, AllToward, Total, Justified, Moved;
    var g := Ranking(cfg.shards, Gids(cfg));
    var own := Outcome(cfg);
    var own0 := Places(cfg.shards, g);
    AssignedPlaces(next.shards, g, FinalLists(cfg), own);
    MovesAgree(cfg.shards, next.shards, g, own0, own, Average(cfg));
  }

  lemma MovesAgree(shards: seq<int>, next: seq<int>, g: seq<int>, own: seq<nat>, own': seq<nat>, avg: nat)
    requires |shards| == |next| == |own| == |own'| && Justified(ListsOf(shards, g), own, own', avg)
    requires forall i, j :: 0 <= i < j < |g| ==> g[i] != g[j]
    requires forall s :: 0 <= s < |own| ==> own[s] < |g| && own'[s] < |g| && shards[s] == g[own[s]] && next[s] == g[own'[s]]
    ensures MovedShards(shards, next) == Moved(own, own')
    ensures forall s :: 0 <= s < |shards| && next[s] != shards[s] ==> Count(shards, shards[s]) > avg > Count(shards, next[s])
  {
    forall s | 0 <= s < |own| ensures own[s] != own'[s] <==> shards[s] != next[s] {
      if own[s] < own'[s] { assert g[own[s]] != g[own'[s]]; }
    }
  }

  /** A count that moved toward the average, not past it. */
  predicate Nearer(before: nat, after: nat, avg: nat) {
    if before <= avg then before <= after <= avg else avg <= after <= before
  }

  lemma CountAfter(cfg: Config, next: Config, own: seq<nat>, x: int) returns (k: nat)
    requires |cfg.groups| > 0 && Rebalanced(cfg, next) && x in Gids(cfg) && Owns(FinalLists(cfg), own) && |own| == |next.shards|
    ensures var g := Ranking(cfg.shards, Gids(cfg));
      k < |g| == |FinalLists(cfg)| && g[k] == x && Count(next.shards, x) == |FinalLists(cfg)[k]|
  {
    var g := Ranking(cfg.shards, Gids(cfg));
    RankedLists(cfg.shards, Gids(cfg), g);
    k := IndexIn(g, x);
    FinalCount(next.shards, g, FinalLists(cfg), own, k);
  }

  /** Conservation: every shard is on a group that held shards or is listed. Every count moves
      toward the average; in the end no group is below it, or none is above it. */
  lemma RebalanceLevels(cfg: Config, next: Config)
    requires |cfg.groups| > 0 && Rebalanced(cfg, next)
    ensures forall s :: 0 <= s < |next.shards| ==> next.shards[s] in Gids(cfg)
    ensures forall x :: x in Gids(cfg) ==> Nearer(Count(cfg.shards, x), Count(next.shards, x), Average(cfg))
    ensures (forall x :: x in Gids(cfg) ==> Count(next.shards, x) >= Average(cfg))
         || (forall x :: x in Gids(cfg) ==> Count(next.shards, x) <= Average(cfg))
  {
    hide FinalLists, Owns, Total, Justified, Moved, Count, Average, Before, Deficit, Surplus;
    var g := Ranking(cfg.shards, Gids(cfg));
    var ls := FinalLists(cfg);
    var own := Outcome(cfg);
    AssignedPlaces(next.shards, g, ls, own);
    forall x | x in Gids(cfg)
      ensures Nearer(Count(cfg.shards, x), Count(next.shards, x), Average(cfg))
      ensures exists k :: 0 <= k < |g| && g[k] == x && Count(next.shards, x) == |ls[k]|
    {
      var k := CountAfter(cfg, next, own, x);
      assert Toward(ListsOf(cfg.shards, g), ls, Average(cfg), k);
      CountIs(cfg.shards, g, k);
    }
  }

  lemma CountIs(shards: seq<int>, g: seq<int>, k: nat)
    requires k < |g|
    ensures Count(shards, g[k]) == |ListsOf(shards, g)[k]|
  {
  }

  // ----- The floor ----------------------------------------------------------------------------

  ghost predicate Listed(cfg: Config) {
    forall s :: 0 <= s < |cfg.shards| ==> cfg.shards[s] in cfg.groups
  }

  ghost predicate Floored(cfg: Config) {
    |cfg.groups| > 0 && forall x :: x in cfg.groups ==> Count(cfg.shards, x) >= |cfg.shards| / |cfg.groups|
  }

  lemma {:induction false} TotalIsAll(shards: seq<int>, g: seq<int>)
    requires (forall i, j :: 0 <= i < j < |g| ==> g[i] != g[j]) && forall s :: 0 <= s < |shards| ==> shards[s] in g
    ensures Total(ListsOf(shards, g)) == |shards|
  {
    if shards == [] {
      NoLists(ListsOf(shards, g));
    } else {
      var n := |shards| - 1;
      var k := IndexIn(g, shards[n]);
      TotalIsAll(shards[..n], g);
      var less, more := ListsOf(shards[..n], g), ListsOf(shards, g);
      forall i | 0 <= i < |g| ensures more[i] == less[k := less[k] + [n]][i] {
        if i != k { assert g[i] != g[k]; }
      }
      assert more == less[k := less[k] + [n]];
      TotalUpdate(less, k, less[k] + [n]);
    }
  }

  lemma {:induction false} NoLists(ls: Lists)
    requires forall k :: 0 <= k < |ls| ==> ls[k] == []
    ensures Total(ls) == 0
  {
    if ls != [] { NoLists(ls[..|ls| - 1]); }
  }

  lemma {:induction false} DistinctLength(g: seq<int>, gids: set<int>)
    requires (forall i, j :: 0 <= i < j < |g| ==> g[i] != g[j]) && (forall x :: x in g <==> x in gids)
    ensures |g| == |gids|
  {
    if g == [] {
      Nonempty(gids);
    } else {
      var n := |g| - 1;
      assert g[n] in g;
      forall x ensures x in g[..n] <==> x in gids - {g[n]} {
        assert g == g[..n] + [g[n]];
      }
      DistinctLength(g[..n], gids - {g[n]});
    }
  }

  lemma ManyBelow(cfg: Config, next: Config)
    requires |cfg.groups| > 0 && Rebalanced(cfg, next) && Listed(cfg) && forall x :: x in Gids(cfg) ==> Count(next.shards, x) <= Average(cfg)
    requires 1 <= |cfg.shards| / |cfg.groups|
    ensures forall x :: x in cfg.groups ==> Count(next.shards, x) >= |cfg.shards| / |cfg.groups|
  {
    hide FinalLists, Owns, Justified, Moved, Count, Level, AllToward, Before, Total, Deficit, Surplus, Average;
    var g := Ranking(cfg.shards, Gids(cfg));
    var ls, avg := FinalLists(cfg), Average(cfg);
    var own := Outcome(cfg);
    TotalIsAll(cfg.shards, g);
    GroupCount(cfg);
    AverageIs(cfg);
    assert Gids(cfg) == cfg.groups.Keys;
    forall a | 0 <= a < |ls| ensures |ls[a]| <= avg {
      var k := CountAfter(cfg, next, own, g[a]);
    }
    forall x | x in cfg.groups ensures Count(next.shards, x) >= avg {
      var k := CountAfter(cfg, next, own, x);
      FloorReached(ls, avg, |cfg.shards|, k);
    }
  }

  lemma AverageIs(cfg: Config)
    requires |cfg.groups| > 0 && 1 <= |cfg.shards| / |cfg.groups|
    ensures Average(cfg) == |cfg.shards| / |cfg.groups|
  {
  }

  /** Lists that are none above the floor of their average are none below it either. */
  lemma FloorReached(ls: Lists, avg: nat, total: nat, k: nat)
    requires k < |ls| && Total(ls) == total && avg == total / |ls| && forall a :: 0 <= a < |ls| ==> |ls[a]| <= avg
    ensures |ls[k]| >= avg
  {
    hide Total;
    if |ls[k]| < avg {
      TotalAtMost(ls, avg, k);
      DivTimes(total, |ls|);
    }
  }

  lemma DivTimes(n: nat, d: nat)
    requires 0 < d
    ensures d * (n / d) <= n
  {
  }

  /** When every shard starts on a listed group, every shard ends on one, and every group has at
      least its floor. */
  lemma RebalanceFloor(cfg: Config, next: Config)
    requires |cfg.groups| > 0 && Rebalanced(cfg, next) && Listed(cfg)
    ensures Listed(next) && Floored(next)
  {
    hide Count, FinalLists, Ranking;
    assert Gids(cfg) == cfg.groups.Keys;
    RebalanceLevels(cfg, next);
    if 1 <= |cfg.shards| / |cfg.groups| && forall x :: x in Gids(cfg) ==> Count(next.shards, x) <= Average(cfg) {
      ManyBelow(cfg, next);
    }
  }

  // ----- Evenness -----------------------------------------------------------------------------

  /** No two groups differ by more than one shard. */
  ghost predicate Even(cfg: Config) {
    forall x, y :: x in cfg.groups && y in cfg.groups ==> Count(cfg.shards, x) <= Count(cfg.shards, y) + 1
  }

  /** Rebalancing gives even counts exactly when what the poorer groups lack covers what the richer
      ones hold too much: the richest give first and stop giving when the deficit is filled. */
  lemma RebalanceEvenIff(cfg: Config, next: Config)
    requires 0 < |cfg.groups| <= |cfg.shards| && Rebalanced(cfg, next) && Listed(cfg)
    ensures Even(next) <==> Coverable(ListsOf(cfg.shards, Ranking(cfg.shards, Gids(cfg))), Average(cfg))
  {
    hide Owns, Justified, Moved, Count, Level, AllToward, Before, Total, Deficit, Surplus, Coverable, Spread,
      Ascending, AllAtLeast, Even, WithinOne, Ranks;
    var g := Ranking(cfg.shards, Gids(cfg));
    assert Gids(cfg) == cfg.groups.Keys;
    var own := Outcome(cfg);
    RankedLists(cfg.shards, Gids(cfg), g);
    FinalAtLeast(cfg, next, own);
    SpreadEvenIff(ListsOf(cfg.shards, g), Average(cfg));
    SomeAverage(cfg);
    EvenWithin(cfg, next, own);
  }

  lemma FinalAtLeast(cfg: Config, next: Config, own: seq<nat>)
    requires 0 < |cfg.groups| <= |cfg.shards| && Rebalanced(cfg, next) && Listed(cfg) && Owns(FinalLists(cfg), own) && |own| == |next.shards|
    ensures AllAtLeast(FinalLists(cfg), Average(cfg))
  {
    hide Owns, Count, Before, FinalLists;
    var g := Ranking(cfg.shards, Gids(cfg));
    RebalanceFloor(cfg, next);
    OneOrMore(|cfg.shards|, |cfg.groups|);
    FinalCounts(cfg, next, own);
    forall k | 0 <= k < |g| ensures |FinalLists(cfg)[k]| >= Average(cfg) {
      assert g[k] in Gids(cfg);
    }
  }

  /** The final lists, place by place, are the counts of the ranked groups. */
  lemma FinalCounts(cfg: Config, next: Config, own: seq<nat>)
    requires 0 < |cfg.groups| && Rebalanced(cfg, next) && Owns(FinalLists(cfg), own) && |own| == |next.shards|
    ensures var g := Ranking(cfg.shards, Gids(cfg));
      |g| == |FinalLists(cfg)| && forall k :: 0 <= k < |g| ==> Count(next.shards, g[k]) == |FinalLists(cfg)[k]|
  {
    hide Owns, Count, Before, FinalLists;
    var g := Ranking(cfg.shards, Gids(cfg));
    RebalancedLengths(cfg, next);
    RankedLists(cfg.shards, Gids(cfg), g);
    forall k | 0 <= k < |g| ensures Count(next.shards, g[k]) == |FinalLists(cfg)[k]| {
      assert g[k] in Gids(cfg);
      var i := CountAfter(cfg, next, own, g[k]);
    }
  }

  lemma OneOrMore(n: nat, d: nat)
    requires 0 < d <= n
    ensures Max(1, n / d) == n / d && n < d * (n / d + 1)
  {
    assert n == d * (n / d) + n % d;
    assert d * (n / d + 1) == d * (n / d) + d;
  }

  /** Not every group can be above the floor. */
  lemma SomeAverage(cfg: Config)
    requires 0 < |cfg.groups| <= |cfg.shards| && Listed(cfg)
    ensures !AllAtLeast(FinalLists(cfg), Average(cfg) + 1)
  {
    hide Owns, Justified, Moved, Count, Level, AllToward, Before, Deficit, Surplus, Spread, Total, AllAtLeast,
      FinalLists, Average, Ranks;
    var g := Ranking(cfg.shards, Gids(cfg));
    var ls, avg := FinalLists(cfg), Average(cfg);
    var _ := Outcome(cfg);
    TotalIsAll(cfg.shards, g);
    GroupCount(cfg);
    AboveFloor(cfg);
    FinalLength(cfg);
    if AllAtLeast(ls, avg + 1) { TotalAtLeast(ls, avg + 1); }
  }

  lemma AboveFloor(cfg: Config)
    requires 0 < |cfg.groups| <= |cfg.shards|
    ensures |cfg.shards| < |cfg.groups| * (Average(cfg) + 1)
  {
    OneOrMore(|cfg.shards|, |cfg.groups|);
  }

  lemma FinalLength(cfg: Config)
    requires |cfg.groups| > 0
    ensures |FinalLists(cfg)| == |Ranking(cfg.shards, Gids(cfg))|
  {
  }

  lemma GroupCount(cfg: Config)
    requires Listed(cfg)
    ensures |Ranking(cfg.shards, Gids(cfg))| == |cfg.groups|
  {
    hide Before;
    var g := Ranking(cfg.shards, Gids(cfg));
    RankedLists(cfg.shards, Gids(cfg), g);
    assert Gids(cfg) == cfg.groups.Keys;
    assert forall x :: x in g <==> x in cfg.groups.Keys;
    DistinctLength(g, cfg.groups.Keys);
  }

  lemma EvenWithin(cfg: Config, next: Config, own: seq<nat>)
    requires 0 < |cfg.groups| && Rebalanced(cfg, next) && Gids(cfg) == cfg.groups.Keys && Owns(FinalLists(cfg), own) && |own| == |next.shards|
    requires AllAtLeast(FinalLists(cfg), Average(cfg)) && !AllAtLeast(FinalLists(cfg), Average(cfg) + 1)
    ensures Even(next) <==> WithinOne(FinalLists(cfg), Average(cfg))
  {
    hide Owns, Count, Before, FinalLists, Average;
    var g := Ranking(cfg.shards, Gids(cfg));
    var ls, avg := FinalLists(cfg), Average(cfg);
    FinalCounts(cfg, next, own);
    RebalancedLengths(cfg, next);
    var low :| 0 <= low < |ls| && |ls[low]| == avg;
    if Even(next) {
      forall k | 0 <= k < |ls| ensures |ls[k]| <= avg + 1 {
        assert g[k] in next.groups && g[low] in next.groups;
      }
    }
    if WithinOne(ls, avg) {
      forall x, y | x in next.groups && y in next.groups ensures Count(next.shards, x) <= Count(next.shards, y) + 1 {
        assert x in g && y in g;
        var a, b := IndexIn(g, x), IndexIn(g, y);
        assert |ls[a]| <= avg + 1 && |ls[b]| >= avg;
      }
    }
  }

  lemma RebalancedLengths(cfg: Config, next: Config)
    requires |cfg.groups| > 0 && Rebalanced(cfg, next)
    ensures next.groups == cfg.groups && |Ranking(cfg.shards, Gids(cfg))| == |FinalLists(cfg)|
  {
  }

  /** The bound of one is not kept in general: ten shards dealt to groups 1 and 2, when groups 3 and
      4 are added at once, end as four, two, two and two. */
  lemma RebalanceCanBeUneven(next: Config)
    requires Rebalanced(Config(2, [1, 2, 1, 2, 1, 2, 1, 2, 1, 2], map[1 := [], 2 := [], 3 := [], 4 := []]), next)
    ensures !Even(next)
  {
    hide Rebalanced, Even, Coverable, Ranks, Count, ShardsOf, ListsOf, Ranking;
    var shards := [1, 2, 1, 2, 1, 2, 1, 2, 1, 2];
    var cfg := Config(2, shards, map[1 := [], 2 := [], 3 := [], 4 := []]);
    assert |cfg.groups| == 4 by { FourGroups(cfg.groups); }
    assert Gids(cfg) == {1, 2, 3, 4};
    AlternateUncovered();
    RebalanceEvenIff(cfg, next);
  }

  lemma AlternateUncovered()
    ensures !Coverable(ListsOf([1, 2, 1, 2, 1, 2, 1, 2, 1, 2], Ranking([1, 2, 1, 2, 1, 2, 1, 2, 1, 2], {1, 2, 3, 4})), 2)
  {
    hide ShardsOf, Coverable;
    var shards, gids, g := [1, 2, 1, 2, 1, 2, 1, 2, 1, 2], {1, 2, 3, 4}, [3, 4, 1, 2];
    AlternateCounts();
    assert Ranks(shards, gids, g);
    RanksUnique(shards, gids, g, Ranking(shards, gids));
    NotCoverable(ListsOf(shards, g));
  }

  lemma FourGroups(groups: map<int, seq<string>>)
    requires groups.Keys == {1, 2, 3, 4}
    ensures |groups| == 4
  {
  }

  lemma AlternateCounts()
    ensures var shards := [1, 2, 1, 2, 1, 2, 1, 2, 1, 2];
      Count(shards, 1) == 5 && Count(shards, 2) == 5 && Count(shards, 3) == 0 && Count(shards, 4) == 0
  {
    var shards := [1, 2, 1, 2, 1, 2, 1, 2, 1, 2];
    hide Count;
    CountBy(shards, 1, {0, 2, 4, 6, 8});
    CountBy(shards, 2, {1, 3, 5, 7, 9});
    CountBy(shards, 3, {});
    CountBy(shards, 4, {});
  }

  lemma CountBy(shards: seq<int>, gid: int, xs: set<nat>)
    requires forall s: nat :: s in xs <==> s < |shards| && shards[s] == gid
    ensures Count(shards, gid) == |xs|
  {
    ElementCount(ShardsOf(shards, gid));
    assert Elements(ShardsOf(shards, gid)) == xs;
  }

  lemma NotCoverable(ls: Lists)
    requires |ls| == 4 && |ls[0]| == 0 && |ls[1]| == 0 && |ls[2]| == 5 && |ls[3]| == 5
    ensures !Coverable(ls, 2)
  {
    assert ls[..3][..2][..1] == [ls[0]] && ls[..3][..2] == [ls[0], ls[1]];
    assert Deficit([ls[0]], 2) == 2;
    assert Deficit([ls[0], ls[1]], 2) == 4 by { assert [ls[0], ls[1]][..1] == [ls[0]]; }
    assert Deficit(ls, 2) == 4;
    assert ls[3..] == [ls[3]];
    assert Surplus([ls[3]], 2) == 3;
  }
}

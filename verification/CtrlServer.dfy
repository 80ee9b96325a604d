/** The shard controller as the program runs it. Maps are walked in any order; each method is
    proved to give the one config that Controller and Allocator allow. */
module CtrlServer {
  import opened ShardConfig
  import opened Levelling
  import opened Allocator
  import opened Controller
  import opened Wrappers

  function ListAt(m: map<int, seq<nat>>, gid: int): seq<nat> {
    if gid in m then m[gid] else []
  }

  /** The map holds the list of every group; a missing entry is an empty list. */
  ghost predicate MapOf(m: map<int, seq<nat>>, g: seq<int>, ls: Lists) {
    && |g| == |ls| && (forall x :: x in m ==> x in g)
    && (forall k :: 0 <= k < |g| ==> ListAt(m, g[k]) == ls[k])
  }

  lemma ShardsSnoc(shards: seq<int>, n: nat, gid: int)
    requires n < |shards|
    ensures ShardsOf(shards[..n + 1], gid) == if shards[n] == gid then ShardsOf(shards[..n], gid) + [n] else ShardsOf(shards[..n], gid)
  {
    assert shards[..n + 1][..n] == shards[..n];
  }

  ghost predicate Grouped(m: map<int, seq<nat>>, shards: seq<int>) {
    forall gid :: ListAt(m, gid) == ShardsOf(shards, gid)
  }

  lemma GroupedSnoc(m: map<int, seq<nat>>, shards: seq<int>, n: nat)
    requires n < |shards| && Grouped(m, shards[..n])
    ensures Grouped(m[shards[n] := ListAt(m, shards[n]) + [n]], shards[..n + 1])
  {
    var more, upto := m[shards[n] := ListAt(m, shards[n]) + [n]], shards[..n + 1];
    forall x ensures ListAt(more, x) == ShardsOf(upto, x) {
      ShardsSnoc(shards, n, x);
      assert ListAt(m, x) == ShardsOf(shards[..n], x);
    }
  }

  method GroupShards(shards: seq<int>) returns (m: map<int, seq<nat>>)
    ensures m.Keys == Used(shards) && forall gid :: ListAt(m, gid) == ShardsOf(shards, gid)
  {
    m := map[];
    assert shards[..0] == [];
    for n := 0 to |shards|
      invariant m.Keys == Used(shards[..n]) && Grouped(m, shards[..n])
    {
      UsedSnoc(shards, n);
      GroupedSnoc(m, shards, n);
      m := m[shards[n] := ListAt(m, shards[n]) + [n]];
    }
    assert shards[..|shards|] == shards;
  }

  lemma UsedSnoc(shards: seq<int>, n: nat)
    requires n < |shards|
    ensures Used(shards[..n + 1]) == Used(shards[..n]) + {shards[n]}
  {
    var more, less := shards[..n + 1], shards[..n];
    assert more[n] == shards[n] && forall i :: 0 <= i < n ==> more[i] == less[i];
    forall x ensures x in Used(more) <==> x in Used(less) || x == shards[n] {
      if x in Used(less) {
        var i :| 0 <= i < n && less[i] == x;
        assert more[i] == x;
      }
    }
  }

  // ----- Ranking ------------------------------------------------------------------------------

  datatype GidPair = GidPair(gid: int, count: nat)

  predicate Less(a: GidPair, b: GidPair) {
    if a.count != b.count then a.count < b.count else a.gid < b.gid
  }

  predicate Sorted(l: seq<GidPair>) {
    forall i, j :: 0 <= i < j < |l| ==> Less(l[i], l[j])
  }

  lemma InsertedSorted(l: seq<GidPair>, p: GidPair, k: nat)
    requires Sorted(l) && k <= |l|
    requires (forall i :: 0 <= i < k ==> Less(l[i], p)) && (forall i :: k <= i < |l| ==> Less(p, l[i]))
    ensures Sorted(l[..k] + [p] + l[k..])
  {
    hide Less;
    var r := l[..k] + [p] + l[k..];
    forall i, j | 0 <= i < j < |r| ensures Less(r[i], r[j]) {
      assert r[i] == if i < k then l[i] else if i == k then p else l[i - 1];
      assert r[j] == if j < k then l[j] else if j == k then p else l[j - 1];
    }
  }

  lemma InsertedHas(l: seq<GidPair>, p: GidPair, k: nat)
    requires k <= |l|
    ensures forall x :: x in l[..k] + [p] + l[k..] <==> x in l || x == p
  {
    assert l == l[..k] + l[k..];
  }

  method InsertPair(l: seq<GidPair>, p: GidPair) returns (r: seq<GidPair>)
    requires Sorted(l) && forall i :: 0 <= i < |l| ==> l[i].gid != p.gid
    ensures Sorted(r) && forall x :: x in r <==> x in l || x == p
  {
    var k := |l|;
    while k > 0 && Less(p, l[k - 1])
      invariant 0 <= k <= |l| && forall i :: k <= i < |l| ==> Less(p, l[i])
    {
      k := k - 1;
    }
    forall i | 0 <= i < k ensures Less(l[i], p) {
      if i < k - 1 { assert Less(l[i], l[k - 1]); }
    }
    InsertedSorted(l, p, k);
    InsertedHas(l, p, k);
    r := l[..k] + [p] + l[k..];
  }

  /** Adds the groups in `more` to a ranked list, walking them in any order. */
  method Rank(start: seq<GidPair>, more: map<int, nat>) returns (r: seq<GidPair>)
    requires Sorted(start) && forall p :: p in start ==> p.gid !in more
    ensures Sorted(r) && forall p :: p in r <==> p in start || (p.gid in more && p.count == more[p.gid])
  {
    r := start;
    var todo := more.Keys;
    while todo != {}
      invariant todo <= more.Keys && Sorted(r)
      invariant forall p :: p in r <==> p in start || (p.gid in more && p.gid !in todo && p.count == more[p.gid])
    {
      Nonempty(todo);
      var gid :| gid in todo;
      forall i | 0 <= i < |r| ensures r[i].gid != gid { assert r[i] in r; }
      r := InsertPair(r, GidPair(gid, more[gid]));
      todo := todo - {gid};
    }
  }

  lemma PairsRank(shards: seq<int>, gids: set<int>, l: seq<GidPair>, g: seq<int>)
    requires Sorted(l) && |g| == |l| && (forall i :: 0 <= i < |l| ==> g[i] == l[i].gid)
    requires forall p :: p in l <==> p.gid in gids && p.count == Count(shards, p.gid)
    ensures Ranks(shards, gids, g)
  {
    hide Count;
    assert forall i :: 0 <= i < |l| ==> l[i] in l;
    forall x | x in gids ensures x in g {
      var p := GidPair(x, Count(shards, x));
      assert p in l;
      var i :| 0 <= i < |l| && l[i] == p;
      assert g[i] == x;
    }
  }

  /** Groups that hold shards, then newcomers, ranked. */
  method RankGids(cfg: Config, m: map<int, seq<nat>>) returns (g: seq<int>)
    requires m.Keys == Used(cfg.shards) && forall gid :: ListAt(m, gid) == ShardsOf(cfg.shards, gid)
    ensures Ranks(cfg.shards, Gids(cfg), g)
  {
    var origin := map gid | gid in m :: |m[gid]|;
    var newcome := map gid | gid in cfg.groups && gid !in m :: 0;
    var pairs := Rank([], origin);
    pairs := Rank(pairs, newcome);
    g := seq(|pairs|, i requires 0 <= i < |pairs| => pairs[i].gid);
    forall p ensures p in pairs <==> p.gid in Gids(cfg) && p.count == Count(cfg.shards, p.gid) {
      assert ListAt(m, p.gid) == ShardsOf(cfg.shards, p.gid);
    }
    PairsRank(cfg.shards, Gids(cfg), pairs, g);
  }

  // ----- The two pointers -----------------------------------------------------------------------

  lemma MapGiven(m: map<int, seq<nat>>, g: seq<int>, ls: Lists, i: int, j: int, avg: nat)
    requires MapOf(m, g, ls) && Goes(ls, i, j, avg) && forall a, b :: 0 <= a < b < |g| ==> g[a] != g[b]
    ensures var part := Part(ls, i, j, avg);
      MapOf(m[g[i] := ls[i] + ls[j][..part]][g[j] := ls[j][part..]], g, Given(ls, i, j, avg))
  {
    var part := Part(ls, i, j, avg);
    var m' := m[g[i] := ls[i] + ls[j][..part]][g[j] := ls[j][part..]];
    assert g[i] != g[j];
    forall k | 0 <= k < |g| ensures ListAt(m', g[k]) == Given(ls, i, j, avg)[k] {
      assert ListAt(m, g[k]) == ls[k];
      if k < i { assert g[k] != g[i]; } else if i < k { assert g[i] != g[k]; }
      if k < j { assert g[k] != g[j]; } else if j < k { assert g[j] != g[k]; }
    }
  }

  method SpreadShards(start: map<int, seq<nat>>, g: seq<int>, avg: nat, ghost ls: Lists) returns (m: map<int, seq<nat>>)
    requires MapOf(start, g, ls) && forall a, b :: 0 <= a < b < |g| ==> g[a] != g[b]
    ensures MapOf(m, g, Spread(ls, 0, |g| - 1, avg))
  {
    hide MapOf, Spread, Given, Part;
    m := start;
    var i, j := 0, |g| - 1;
    ghost var now := ls;
    MapLength(m, g, now);
    while i < j && |ListAt(m, g[i])| < avg && |ListAt(m, g[j])| > avg
      invariant 0 <= i <= |g| && -1 <= j < |g| && |g| == |now| && MapOf(m, g, now)
      invariant Spread(ls, 0, |g| - 1, avg) == Spread(now, i, j, avg)
      decreases j - i
    {
      var need := avg - |ListAt(m, g[i])|;
      var extra := |ListAt(m, g[j])| - avg;
      var part := Min(need, extra);
      MapAt(m, g, now, i);
      MapAt(m, g, now, j);
      MapGiven(m, g, now, i, j, avg);
      OneRound(now, i, j, avg);
      var gives := ListAt(m, g[j]);
      m := m[g[i] := ListAt(m, g[i]) + gives[..part]];
      m := m[g[j] := gives[part..]];
      now := Given(now, i, j, avg);
      if extra == need {
        i, j := i + 1, j - 1;
      } else if extra > need {
        i := i + 1;
      } else {
        j := j - 1;
      }
    }
    if i < j {
      MapAt(m, g, now, i);
      MapAt(m, g, now, j);
    }
    NoRound(now, i, j, avg);
  }

  lemma MapLength(m: map<int, seq<nat>>, g: seq<int>, ls: Lists)
    requires MapOf(m, g, ls)
    ensures |g| == |ls|
  {
  }

  lemma MapAt(m: map<int, seq<nat>>, g: seq<int>, ls: Lists, k: nat)
    requires MapOf(m, g, ls) && k < |g|
    ensures |g| == |ls| && ListAt(m, g[k]) == ls[k]
  {
  }

  lemma OneRound(ls: Lists, i: int, j: int, avg: nat)
    requires Goes(ls, i, j, avg)
    ensures var need, extra := avg - |ls[i]|, |ls[j]| - avg;
      && Part(ls, i, j, avg) == Min(need, extra)
      && Spread(ls, i, j, avg)
         == Spread(Given(ls, i, j, avg), if extra >= need then i + 1 else i, if extra <= need then j - 1 else j, avg)
  {
  }

  lemma NoRound(ls: Lists, i: int, j: int, avg: nat)
    ensures !Goes(ls, i, j, avg) ==> Spread(ls, i, j, avg) == ls
  {
  }

  // ----- Writing the shards back ----------------------------------------------------------------

  lemma OneList(m: map<int, seq<nat>>, g: seq<int>, ls: Lists, own: seq<nat>, a: int, b: int, s: nat)
    requires MapOf(m, g, ls) && Owns(ls, own) && a in m && b in m && s in m[a] && s in m[b]
    ensures a == b && s < |own|
  {
    var i, j := IndexIn(g, a), IndexIn(g, b);
    assert ListAt(m, g[i]) == ls[i] && ListAt(m, g[j]) == ls[j];
    assert s in ls[i] && s in ls[j];
  }

  method WriteGroup(out: array<int>, gid: int, list: seq<nat>)
    requires forall s :: s in list ==> s < out.Length
    modifies out
    ensures forall s :: 0 <= s < out.Length ==> out[s] == if s in list then gid else old(out[s])
  {
    for k := 0 to |list|
      invariant forall s :: 0 <= s < out.Length ==> out[s] == if s in list[..k] then gid else old(out[s])
    {
      assert list[k] in list;
      out[list[k]] := gid;
      assert list[..k + 1] == list[..k] + [list[k]];
    }
    assert list[..|list|] == list;
  }

  method WriteBack(shards: seq<int>, m: map<int, seq<nat>>, ghost g: seq<int>, ghost ls: Lists, ghost own: seq<nat>) returns (r: seq<int>)
    requires MapOf(m, g, ls) && Owns(ls, own) && |own| == |shards|
    ensures |r| == |shards| && Assigned(r, g, ls)
  {
    var out := new int[|shards|](s requires 0 <= s < |shards| => shards[s]);
    var todo := m.Keys;
    while todo != {}
      invariant todo <= m.Keys
      invariant forall gid, s :: gid in m && gid !in todo && s in m[gid] ==> s < out.Length && out[s] == gid
    {
      Nonempty(todo);
      var gid :| gid in todo;
      forall s | s in m[gid] ensures s < out.Length { OneList(m, g, ls, own, gid, gid, s); }
      ghost var before := out[..];
      WriteGroup(out, gid, m[gid]);
      forall x, s | x in m && x !in todo - {gid} && s in m[x] ensures s < out.Length && out[s] == x {
        OneList(m, g, ls, own, x, x, s);
        if s in m[gid] { OneList(m, g, ls, own, x, gid, s); } else { assert before[s] == x; }
      }
      todo := todo - {gid};
    }
    r := out[..];
    WroteAll(r, m, g, ls, own);
  }

  lemma WroteAll(r: seq<int>, m: map<int, seq<nat>>, g: seq<int>, ls: Lists, own: seq<nat>)
    requires MapOf(m, g, ls) && Owns(ls, own) && |own| == |r|
    requires forall gid, s :: gid in m && s in m[gid] ==> s < |r| && r[s] == gid
    ensures Assigned(r, g, ls)
  {
    forall k, s: nat {:trigger s in ls[k]} | 0 <= k < |ls| && s in ls[k] ensures s < |r| && r[s] == g[k] {
      assert ListAt(m, g[k]) == ls[k];
      assert g[k] in m;
    }
    forall s | 0 <= s < |r| ensures InSome(ls, s) {
      assert s in ls[own[s]];
    }
  }

  method RebalanceConfig(cfg: Config) returns (next: Config)
    ensures Rebalanced(cfg, next)
  {
    if |cfg.groups| == 0 { return cfg; }
    var m := GroupShards(cfg.shards);
    var g := RankGids(cfg, m);
    RanksUnique(cfg.shards, Gids(cfg), g, Ranking(cfg.shards, Gids(cfg)));
    ghost var own := Outcome(cfg);
    assert MapOf(m, g, ListsOf(cfg.shards, g)) by { StartMap(cfg, m, g); }
    hide Owns, Justified, Moved, Level, AllToward, Total, MapOf, Assigned, Ranks, Count;
    m := SpreadShards(m, g, Average(cfg), ListsOf(cfg.shards, g));
    var shards := WriteBack(cfg.shards, m, g, FinalLists(cfg), own);
    next := cfg.(shards := shards);
  }

  lemma StartMap(cfg: Config, m: map<int, seq<nat>>, g: seq<int>)
    requires m.Keys == Used(cfg.shards) && (forall gid :: ListAt(m, gid) == ShardsOf(cfg.shards, gid)) && Ranks(cfg.shards, Gids(cfg), g)
    ensures MapOf(m, g, ListsOf(cfg.shards, g))
  {
    forall x | x in m ensures x in g { assert x in Gids(cfg); }
  }

  // ----- The first groups -------------------------------------------------------------------------

  method InitConfig(num: int, n: nat, servers: map<int, seq<string>>) returns (next: Config)
    requires servers.Keys != {}
    ensures next == Config(num, Dealt(n, servers.Keys), servers)
  {
    var pairs := Rank([], map gid | gid in servers :: 0);
    var g := seq(|pairs|, i requires 0 <= i < |pairs| => pairs[i].gid);
    PairsRank([], servers.Keys, pairs, g);
    RanksUnique([], servers.Keys, g, Ranking([], servers.Keys));
    RanksEmpty([], servers.Keys, g);
    var shards := new int[n];
    for s := 0 to n
      invariant forall i :: 0 <= i < s ==> shards[i] == g[i % |g|]
    {
      shards[s] := g[s % |g|];
    }
    next := Config(num, shards[..], servers);
    assert next.shards == Dealt(n, servers.Keys);
  }

  // ----- Leaving ----------------------------------------------------------------------------------

  method CountStaying(shards: seq<int>, gone: set<int>) returns (counts: map<int, nat>)
    ensures counts.Keys == Used(shards) - gone && forall x :: x in counts ==> counts[x] == Count(shards, x)
  {
    counts := map[];
    assert shards[..0] == [];
    for n := 0 to |shards|
      invariant counts.Keys == Used(shards[..n]) - gone && forall x :: x in counts ==> counts[x] == Count(shards[..n], x)
    {
      var gid := shards[n];
      ghost var before := counts;
      UsedSnoc(shards, n);
      HoldsSome(shards[..n], gid);
      if gid !in gone {
        counts := counts[gid := (if gid in counts then counts[gid] else 0) + 1];
      }
      forall x | x in counts ensures counts[x] == Count(shards[..n + 1], x) {
        ShardsSnoc(shards, n, x);
      }
    }
    assert shards[..|shards|] == shards;
  }

  function NumberAt(counts: map<int, nat>, gid: int): nat {
    if gid in counts then counts[gid] else 0
  }

  /** `a` is preferred to `b`: more shards, or as many and not the larger gid. */
  predicate Preferred(counts: map<int, nat>, a: int, b: int) {
    NumberAt(counts, b) < NumberAt(counts, a) || (NumberAt(counts, b) == NumberAt(counts, a) && a <= b)
  }

  method PickTemporary(counts: map<int, nat>) returns (t: int)
    requires forall x :: x in counts ==> counts[x] > 0
    ensures if counts.Keys == {} then t == 0 else t in counts && forall x :: x in counts ==> Preferred(counts, t, x)
  {
    t := 0;
    var todo := counts.Keys;
    while todo != {}
      invariant todo <= counts.Keys
      invariant forall x :: x in counts && x !in todo ==> Preferred(counts, t, x)
      invariant t in counts || (t == 0 && todo == counts.Keys)
    {
      Nonempty(todo);
      var gid :| gid in todo;
      if NumberAt(counts, gid) > NumberAt(counts, t) {
        t := gid;
      } else if NumberAt(counts, gid) == NumberAt(counts, t) {
        t := Min(t, gid);
      }
      todo := todo - {gid};
    }
    Nonempty(counts.Keys);
  }

  lemma PickedTemporary(shards: seq<int>, gone: set<int>, counts: map<int, nat>, t: int)
    requires counts.Keys == Used(shards) - gone && forall x :: x in counts ==> counts[x] == Count(shards, x)
    requires if counts.Keys == {} then t == 0 else t in counts && forall x :: x in counts ==> Preferred(counts, t, x)
    ensures Temporary(shards, gone, t)
  {
    hide Count;
    forall x | x in Used(shards) - gone
      ensures Count(shards, x) < Count(shards, t) || (Count(shards, x) == Count(shards, t) && t <= x)
    {
      assert x in counts;
      assert Preferred(counts, t, x);
    }
  }

  method TakeOver(shards: seq<int>, gone: set<int>, t: int) returns (r: seq<int>)
    ensures r == TakenOver(shards, gone, t)
  {
    var out := new int[|shards|](s requires 0 <= s < |shards| => shards[s]);
    for s := 0 to |shards|
      invariant forall i :: 0 <= i < |shards| ==> out[i] == if i < s && shards[i] in gone then t else shards[i]
    {
      if out[s] in gone { out[s] := t; }
    }
    r := out[..];
  }

  // ----- The server -------------------------------------------------------------------------------

  class ShardCtrler {
    var configs: seq<Config>
    var completedPool: map<int, int>

    function View(): State
      reads this
    {
      State(configs, completedPool)
    }

    constructor (n: nat)
      ensures View() == State([FirstConfig(n)], map[])
    {
      configs, completedPool := [FirstConfig(n)], map[];
    }

    method DoJoin(servers: map<int, seq<string>>)
      requires configs != [] && configs[|configs| - 1].shards != []
      requires configs[|configs| - 1].shards[0] == 0 ==> servers.Keys != {}
      modifies `configs
      ensures |configs| == |old(configs)| + 1 && configs == old(configs) + [configs[|old(configs)|]]
      ensures Joins(old(configs[|configs| - 1]), |old(configs)|, servers, configs[|old(configs)|])
    {
      var last := configs[|configs| - 1];
      var next;
      if last.shards[0] == 0 {
        next := InitConfig(|configs|, |last.shards|, servers);
      } else {
        var groups := AddServers(last.groups, servers);
        next := RebalanceConfig(Config(|configs|, last.shards, groups));
      }
      configs := configs + [next];
    }

    method DoLeave(gids: seq<int>)
      requires configs != []
      modifies `configs
      ensures |configs| == |old(configs)| + 1 && configs == old(configs) + [configs[|old(configs)|]]
      ensures Leaves(old(configs[|configs| - 1]), |old(configs)|, SetOf(gids), configs[|old(configs)|])
    {
      var last := configs[|configs| - 1];
      var gone := SetOf(gids);
      var counts := CountStaying(last.shards, gone);
      forall x | x in counts ensures counts[x] > 0 { HoldsSome(last.shards, x); }
      var t := PickTemporary(counts);
      PickedTemporary(last.shards, gone, counts, t);
      var shards := TakeOver(last.shards, gone, t);
      var next := RebalanceConfig(Config(|configs|, shards, last.groups - gone));
      assert LeavesVia(last, |configs|, gone, t, next);
      configs := configs + [next];
    }

    /** One committed command applied; a repeated or older request changes nothing. */
    method Apply(cmd: Command)
      requires configs != [] && configs[|configs| - 1].shards != []
      requires cmd.request.Join? && configs[|configs| - 1].shards[0] == 0 ==> cmd.request.servers.Keys != {}
      modifies this
      ensures Applies(old(View()), cmd, View())
    {
      hide Joins, Leaves;
      var done := Completed(View(), cmd.client);
      if cmd.reqNo > done {
        match cmd.request {
          case Join(servers) => DoJoin(servers);
          case Leave(gids) => DoLeave(gids);
          case Query =>
        }
        completedPool := completedPool[cmd.client := cmd.reqNo];
      }
    }

    method Answer(num: int) returns (c: Config)
      requires configs != [] && -1 <= num
      ensures c == QueryConfig(configs, num)
      ensures Numbered(configs) ==> Answers(configs, num, c)
    {
      if num == -1 || num >= |configs| {
        c := configs[|configs| - 1];
      } else {
        c := configs[num];
      }
      if Numbered(configs) { QueryAnswers(configs, num, c); }
    }
  }

  method AddServers(groups: map<int, seq<string>>, servers: map<int, seq<string>>) returns (r: map<int, seq<string>>)
    ensures r == Joined(groups, servers)
  {
    r := groups;
    var todo := servers.Keys;
    while todo != {}
      invariant todo <= servers.Keys && r.Keys == groups.Keys + (servers.Keys - todo)
      invariant forall x :: x in r ==> r[x] == if x in todo then ServersOf(groups, x) else ServersOf(groups, x) + ServersOf(servers, x)
    {
      Nonempty(todo);
      var gid :| gid in todo;
      r := r[gid := ServersOf(r, gid) + servers[gid]];
      todo := todo - {gid};
    }
    assert r.Keys == Joined(groups, servers).Keys;
  }
}

/** The shard controller: how each operation makes the next config, and what every history of
    configs keeps. */
module Controller {
  import opened ShardConfig
  import opened Levelling
  import opened Allocator
  import opened Wrappers

  // ----- Join ---------------------------------------------------------------------------------

  function ServersOf(groups: map<int, seq<string>>, gid: int): seq<string> {
    if gid in groups then groups[gid] else []
  }

  function Joined(groups: map<int, seq<string>>, servers: map<int, seq<string>>): map<int, seq<string>> {
    map gid | gid in groups.Keys + servers.Keys :: ServersOf(groups, gid) + ServersOf(servers, gid)
  }

  /** `n` shards dealt round and round to the groups in order of gid. */
  ghost function Dealt(n: nat, gids: set<int>): (r: seq<int>)
    requires gids != {}
    ensures |r| == n
  {
    var g := Ranking([], gids);
    RanksEmpty([], gids, g);
    seq(n, s requires 0 <= s < n => g[s % |g|])
  }

  ghost predicate Joins(cfg: Config, num: int, servers: map<int, seq<string>>, next: Config)
    requires cfg.shards != []
  {
    if cfg.shards[0] == 0 then servers.Keys != {} && next == Config(num, Dealt(|cfg.shards|, servers.Keys), servers)
    else Rebalanced(Config(num, cfg.shards, Joined(cfg.groups, servers)), next)
  }

  // ----- Leave --------------------------------------------------------------------------------

  /** The group that takes over the leaving groups' shards for a moment: of those that hold shards
      and stay, the one with the most, at equal numbers the smallest gid; 0 if none stays. */
  ghost predicate Temporary(shards: seq<int>, gone: set<int>, t: int) {
    if Used(shards) - gone == {} then t == 0
    else
      && t in Used(shards) - gone
      && forall x :: x in Used(shards) - gone ==> Count(shards, x) < Count(shards, t) || (Count(shards, x) == Count(shards, t) && t <= x)
  }

  function TakenOver(shards: seq<int>, gone: set<int>, t: int): (r: seq<int>)
    ensures |r| == |shards| && forall s :: 0 <= s < |r| ==> r[s] == if shards[s] in gone then t else shards[s]
  {
    seq(|shards|, s requires 0 <= s < |shards| => if shards[s] in gone then t else shards[s])
  }

  ghost predicate LeavesVia(cfg: Config, num: int, gone: set<int>, t: int, next: Config) {
    Temporary(cfg.shards, gone, t) && Rebalanced(Config(num, TakenOver(cfg.shards, gone, t), cfg.groups - gone), next)
  }

  ghost predicate Leaves(cfg: Config, num: int, gone: set<int>, next: Config) {
    exists t :: LeavesVia(cfg, num, gone, t, next)
  }

  // ----- Each step has one outcome ------------------------------------------------------------

  lemma JoinsUnique(cfg: Config, num: int, servers: map<int, seq<string>>, a: Config, b: Config)
    requires cfg.shards != [] && Joins(cfg, num, servers, a) && Joins(cfg, num, servers, b)
    ensures a == b
  {
    if cfg.shards[0] != 0 { RebalancedUnique(Config(num, cfg.shards, Joined(cfg.groups, servers)), a, b); }
  }

  lemma LeavesUnique(cfg: Config, num: int, gone: set<int>, a: Config, b: Config)
    requires Leaves(cfg, num, gone, a) && Leaves(cfg, num, gone, b)
    ensures a == b
  {
    hide Rebalanced, Count;
    var t :| LeavesVia(cfg, num, gone, t, a);
    var u :| LeavesVia(cfg, num, gone, u, b);
    assert t == u;
    RebalancedUnique(Config(num, TakenOver(cfg.shards, gone, t), cfg.groups - gone), a, b);
  }

  // ----- What each step keeps -----------------------------------------------------------------

  /** A config is wholly on nobody with no groups, or every shard is on a live group and every
      group has at least its floor of shards. */
  ghost predicate AllocOk(cfg: Config) {
    && cfg.shards != []
    && (forall x :: x in cfg.groups ==> x > 0)
    && if |cfg.groups| == 0 then (forall s :: 0 <= s < |cfg.shards| ==> cfg.shards[s] == 0) else Listed(cfg) && Floored(cfg)
  }

  lemma CountSnoc(shards: seq<int>, gid: int)
    requires shards != []
    ensures Count(shards, gid) == Count(shards[..|shards| - 1], gid) + if shards[|shards| - 1] == gid then 1 else 0
  {
  }

  lemma DivStep(n: nat, d: nat)
    requires 0 < d
    ensures if n % d == d - 1 then (n + 1) / d == n / d + 1 && (n + 1) % d == 0 else (n + 1) / d == n / d && (n + 1) % d == n % d + 1
  {
    var q, r := n / d, n % d;
    assert n == q * d + r;
    if r == d - 1 {
      assert n + 1 == (q + 1) * d;
      DivIs(n + 1, d, q + 1, 0);
    } else {
      DivIs(n + 1, d, q, r + 1);
    }
  }

  lemma DivIs(n: nat, d: nat, q: nat, r: nat)
    requires 0 < d && r < d && n == q * d + r
    ensures n / d == q && n % d == r
  {
    var p := n / d;
    assert n == p * d + n % d;
    if p < q { Multiples(p + 1, q, d); } else if q < p { Multiples(q + 1, p, d); }
  }

  lemma Multiples(a: nat, b: nat, d: nat)
    requires a <= b
    ensures a * d <= b * d && a * d == (a - 1) * d + d
  {
  }

  /** Dealing gives each group its floor, and the first `n % |g|` one more. */
  lemma {:induction false} DealtCount(n: nat, gids: set<int>, k: nat)
    requires gids != {} && k < |Ranking([], gids)|
    ensures var g := Ranking([], gids); Count(Dealt(n, gids), g[k]) == n / |g| + if k < n % |g| then 1 else 0
  {
    var g := Ranking([], gids);
    if n > 0 {
      DealtCount(n - 1, gids, k);
      var r := Dealt(n, gids);
      assert r[..n - 1] == Dealt(n - 1, gids);
      CountSnoc(r, g[k]);
      DivStep(n - 1, |g|);
      DifferentGids(gids, k, (n - 1) % |g|);
    }
  }

  lemma DifferentGids(gids: set<int>, i: nat, j: nat)
    requires i < |Ranking([], gids)| && j < |Ranking([], gids)|
    ensures Ranking([], gids)[i] == Ranking([], gids)[j] <==> i == j
  {
    var g := Ranking([], gids);
    if i < j { assert Before([], g[i], g[j]); } else if j < i { assert Before([], g[j], g[i]); }
  }

  lemma DealtOk(n: nat, num: int, servers: map<int, seq<string>>)
    requires servers.Keys != {} && n > 0 && forall x :: x in servers ==> x > 0
    ensures AllocOk(Config(num, Dealt(n, servers.Keys), servers))
  {
    var g := Ranking([], servers.Keys);
    forall i, j | 0 <= i < j < |g| ensures g[i] != g[j] { DifferentGids(servers.Keys, i, j); }
    assert forall x :: x in g <==> x in servers.Keys;
    DistinctLength(g, servers.Keys);
    forall x | x in servers ensures Count(Dealt(n, servers.Keys), x) >= n / |servers| {
      assert x in g;
      DealtCount(n, servers.Keys, IndexIn(g, x));
    }
  }

  lemma JoinKeeps(cfg: Config, num: int, servers: map<int, seq<string>>, next: Config)
    requires AllocOk(cfg) && Joins(cfg, num, servers, next) && forall x :: x in servers ==> x > 0
    ensures AllocOk(next)
  {
    hide Dealt, Count, Rebalanced;
    if cfg.shards[0] == 0 {
      DealtOk(|cfg.shards|, num, servers);
    } else {
      var c := Config(num, cfg.shards, Joined(cfg.groups, servers));
      assert cfg.shards[0] in c.groups;
      RebalanceKeepsShape(c, next);
      RebalanceFloor(c, next);
    }
  }

  lemma RebalanceKeepsShape(cfg: Config, next: Config)
    requires Rebalanced(cfg, next)
    ensures next.num == cfg.num && next.groups == cfg.groups && |next.shards| == |cfg.shards|
  {
  }

  lemma HoldsSome(shards: seq<int>, x: int)
    ensures Count(shards, x) > 0 <==> x in Used(shards)
  {
    var l := ShardsOf(shards, x);
    if l != [] {
      assert l[0] in l;
      assert shards[l[0]] == x;
    }
    if x in Used(shards) {
      var s :| 0 <= s < |shards| && shards[s] == x;
      assert s in l;
    }
  }

  lemma LeaveKeeps(cfg: Config, num: int, gone: set<int>, next: Config)
    requires AllocOk(cfg) && Leaves(cfg, num, gone, next) && 0 !in gone && |cfg.groups| <= |cfg.shards|
    ensures AllocOk(next)
  {
    hide Rebalanced, Count;
    var t :| LeavesVia(cfg, num, gone, t, next);
    var c := Config(num, TakenOver(cfg.shards, gone, t), cfg.groups - gone);
    RebalanceKeepsShape(c, next);
    if |c.groups| == 0 {
      SameIfEmpty(c, next);
      EmptyLeave(cfg, gone, t);
    } else {
      StayingHolds(cfg, gone);
      StillListed(cfg, gone, t);
      RebalanceFloor(c, next);
    }
  }

  lemma EmptyLeave(cfg: Config, gone: set<int>, t: int)
    requires AllocOk(cfg) && 0 !in gone && |cfg.groups - gone| == 0 && Temporary(cfg.shards, gone, t)
    ensures forall s :: 0 <= s < |cfg.shards| ==> TakenOver(cfg.shards, gone, t)[s] == 0
  {
    hide Count;
    if |cfg.groups| > 0 {
      AllGone(cfg, gone);
      assert forall x :: x in Used(cfg.shards) ==> x in gone;
    }
  }

  lemma StillListed(cfg: Config, gone: set<int>, t: int)
    requires Listed(cfg) && Temporary(cfg.shards, gone, t) && Used(cfg.shards) - gone != {}
    ensures forall s :: 0 <= s < |cfg.shards| ==> TakenOver(cfg.shards, gone, t)[s] in cfg.groups - gone
  {
    hide Count;
  }

  lemma SameIfEmpty(cfg: Config, next: Config)
    requires Rebalanced(cfg, next) && |cfg.groups| == 0
    ensures next == cfg
  {
  }

  lemma AllGone(cfg: Config, gone: set<int>)
    requires Listed(cfg) && |cfg.groups - gone| == 0
    ensures forall s :: 0 <= s < |cfg.shards| ==> cfg.shards[s] in gone
  {
    assert (cfg.groups - gone).Keys == {};
    forall s | 0 <= s < |cfg.shards| ensures cfg.shards[s] in gone {
      var x := cfg.shards[s];
      assert x in gone || x in (cfg.groups - gone).Keys;
    }
  }

  lemma StayingHolds(cfg: Config, gone: set<int>)
    requires AllocOk(cfg) && |cfg.groups| <= |cfg.shards| && |cfg.groups - gone| > 0
    ensures Used(cfg.shards) - gone != {}
  {
    hide Count;
    var stay := (cfg.groups - gone).Keys;
    Nonempty(stay);
    var x :| x in stay;
    OneEach(|cfg.shards|, |cfg.groups|);
    HoldsSome(cfg.shards, x);
    assert x in Used(cfg.shards) - gone;
  }

  lemma OneEach(n: nat, d: nat)
    requires 0 < d <= n
    ensures n / d >= 1
  {
  }

  /** When some group stays, a leave keeps every shard on a live group exactly when a staying group
      held a shard before. */
  lemma LeaveListedIff(cfg: Config, num: int, gone: set<int>, next: Config)
    requires cfg.shards != [] && Listed(cfg) && (forall x :: x in cfg.groups ==> x > 0) && 0 !in gone
    requires Leaves(cfg, num, gone, next) && |cfg.groups - gone| > 0
    ensures Listed(next) <==> Used(cfg.shards) - gone != {}
  {
    hide Rebalanced, Count;
    var t :| LeavesVia(cfg, num, gone, t, next);
    var c := Config(num, TakenOver(cfg.shards, gone, t), cfg.groups - gone);
    RebalanceKeepsShape(c, next);
    if Used(cfg.shards) - gone != {} {
      StillListed(cfg, gone, t);
      RebalanceFloor(c, next);
    } else {
      NobodyStays(cfg, gone, c);
      RebalanceLevels(c, next);
      HoldsSome(c.shards, 0);
      HoldsSome(next.shards, 0);
      assert c.shards[0] in Used(c.shards) && 0 in Gids(c);
      assert Average(c) >= 1;
      assert 0 in Used(next.shards);
    }
  }

  lemma NobodyStays(cfg: Config, gone: set<int>, c: Config)
    requires Used(cfg.shards) - gone == {} && c.shards == TakenOver(cfg.shards, gone, 0)
    ensures forall s :: 0 <= s < |c.shards| ==> c.shards[s] == 0
  {
    forall s | 0 <= s < |c.shards| ensures c.shards[s] == 0 {
      var x := cfg.shards[s];
      assert x in Used(cfg.shards);
      assert x in gone || x in Used(cfg.shards) - gone;
    }
  }

  // ----- Histories ------------------------------------------------------------------------------

  datatype Request = Join(servers: map<int, seq<string>>) | Leave(gids: seq<int>) | Query

  datatype Command = Command(client: int, reqNo: int, request: Request)

  datatype State = State(configs: seq<Config>, completed: map<int, int>)

  function Completed(st: State, client: int): int {
    if client in st.completed then st.completed[client] else 0
  }

  function SetOf(gids: seq<int>): set<int> {
    set x | x in gids
  }

  /** A replica at `st` that applies `cmd` is then at `st'`. */
  ghost predicate Applies(st: State, cmd: Command, st': State) {
    st.configs != [] && st.configs[|st.configs| - 1].shards != [] &&
    if cmd.reqNo <= Completed(st, cmd.client) then st' == st
    else
      var last, n := st.configs[|st.configs| - 1], |st.configs|;
      && st'.completed == st.completed[cmd.client := cmd.reqNo]
      && match cmd.request
         case Query => st'.configs == st.configs
         case Join(servers) => |st'.configs| == n + 1 && st'.configs == st.configs + [st'.configs[n]] && Joins(last, n, servers, st'.configs[n])
         case Leave(gids) => |st'.configs| == n + 1 && st'.configs == st.configs + [st'.configs[n]] && Leaves(last, n, SetOf(gids), st'.configs[n])
  }

  /** A replica's states as it applies the log `cmds`, from `n` shards on nobody. */
  ghost predicate Run(n: nat, sts: seq<State>, cmds: seq<Command>) {
    && |sts| == |cmds| + 1
    && sts[0] == State([FirstConfig(n)], map[])
    && forall i :: 0 <= i < |cmds| ==> Applies(sts[i], cmds[i], sts[i + 1])
  }

  lemma AppliesUnique(st: State, cmd: Command, a: State, b: State)
    requires Applies(st, cmd, a) && Applies(st, cmd, b)
    ensures a == b
  {
    if cmd.reqNo > Completed(st, cmd.client) {
      var last, n := st.configs[|st.configs| - 1], |st.configs|;
      hide Joins, Leaves;
      match cmd.request
      case Query =>
      case Join(servers) => JoinsUnique(last, n, servers, a.configs[n], b.configs[n]);
      case Leave(gids) => LeavesUnique(last, n, SetOf(gids), a.configs[n], b.configs[n]);
    }
  }

  // ----- Every log has a history --------------------------------------------------------------

  lemma {:induction false} MostExists(shards: seq<int>, xs: set<int>) returns (t: int)
    requires xs != {}
    ensures t in xs && forall x :: x in xs ==> Count(shards, x) < Count(shards, t) || (Count(shards, x) == Count(shards, t) && t <= x)
    decreases |xs|
  {
    hide Count;
    Nonempty(xs);
    var y :| y in xs;
    if xs == {y} {
      t := y;
    } else {
      var u := MostExists(shards, xs - {y});
      t := if Count(shards, y) > Count(shards, u) || (Count(shards, y) == Count(shards, u) && y < u) then y else u;
    }
  }

  lemma LeaveExists(cfg: Config, num: int, gone: set<int>) returns (next: Config)
    ensures Leaves(cfg, num, gone, next) && |next.shards| == |cfg.shards|
  {
    hide Count;
    var t := 0;
    if Used(cfg.shards) - gone != {} { t := MostExists(cfg.shards, Used(cfg.shards) - gone); }
    next := RebalanceExists(Config(num, TakenOver(cfg.shards, gone, t), cfg.groups - gone));
    assert LeavesVia(cfg, num, gone, t, next);
  }

  lemma JoinExists(cfg: Config, num: int, servers: map<int, seq<string>>) returns (next: Config)
    requires cfg.shards != [] && servers.Keys != {}
    ensures Joins(cfg, num, servers, next) && |next.shards| == |cfg.shards|
  {
    if cfg.shards[0] == 0 {
      next := Config(num, Dealt(|cfg.shards|, servers.Keys), servers);
    } else {
      next := RebalanceExists(Config(num, cfg.shards, Joined(cfg.groups, servers)));
    }
  }

  lemma ApplyExists(st: State, cmd: Command) returns (st': State)
    requires st.configs != [] && st.configs[|st.configs| - 1].shards != []
    requires cmd.request.Join? ==> cmd.request.servers.Keys != {}
    ensures Applies(st, cmd, st') && st'.configs != [] && st'.configs[|st'.configs| - 1].shards != []
  {
    hide Joins, Leaves;
    st' := st;
    if cmd.reqNo > Completed(st, cmd.client) {
      var last, n := st.configs[|st.configs| - 1], |st.configs|;
      var configs := st.configs;
      match cmd.request {
        case Query =>
        case Join(servers) =>
          var next := JoinExists(last, n, servers);
          configs := st.configs + [next];
        case Leave(gids) =>
          var next := LeaveExists(last, n, SetOf(gids));
          configs := st.configs + [next];
      }
      st' := State(configs, st.completed[cmd.client := cmd.reqNo]);
    }
  }

  /** A replica can apply every log of non-empty joins, leaves and queries. */
  lemma {:induction false} RunExists(n: nat, cmds: seq<Command>) returns (sts: seq<State>)
    requires n > 0 && forall k :: 0 <= k < |cmds| && cmds[k].request.Join? ==> cmds[k].request.servers.Keys != {}
    ensures Run(n, sts, cmds)
    ensures sts[|cmds|].configs != [] && sts[|cmds|].configs[|sts[|cmds|].configs| - 1].shards != []
    decreases |cmds|
  {
    hide Applies;
    if cmds == [] {
      sts := [State([FirstConfig(n)], map[])];
    } else {
      var k := |cmds| - 1;
      var before := RunExists(n, cmds[..k]);
      var st := ApplyExists(before[k], cmds[k]);
      sts := before + [st];
      forall i | 0 <= i < |cmds| ensures Applies(sts[i], cmds[i], sts[i + 1]) {
        if i < k { assert Applies(before[i], cmds[..k][i], before[i + 1]); }
      }
    }
  }

  /** With more groups than shards a leave can strand the shards: groups 1, 2 and 3 join two shards,
      the third stays idle, and when the first two leave nobody takes over. */
  lemma LeaveCanStrand() returns (sts: seq<State>)
    ensures Run(2, sts, [Command(1, 1, Join(map[1 := [], 2 := [], 3 := []])), Command(1, 2, Leave([1, 2]))])
    ensures |sts[2].configs| == 3 && sts[2].configs[1].shards == [1, 2] && !Listed(sts[2].configs[2])
  {
    hide Joins, Leaves, Listed;
    var servers: map<int, seq<string>> := map[1 := [], 2 := [], 3 := []];
    assert 1 in servers.Keys;
    var cmds := [Command(1, 1, Join(servers)), Command(1, 2, Leave([1, 2]))];
    sts := RunExists(2, cmds);
    assert Applies(sts[0], cmds[0], sts[0 + 1]) && Applies(sts[1], cmds[1], sts[1 + 1]);
    var c1, c2 := sts[1].configs[1], sts[2].configs[2];
    ThreeJoinTwo(servers, c1);
    assert SetOf([1, 2]) == {1, 2};
    TwoLeave(servers, c2);
  }

  lemma ThreeJoinTwo(servers: map<int, seq<string>>, next: Config)
    requires servers == map[1 := [], 2 := [], 3 := []] && FirstConfig(2).shards != [] && Joins(FirstConfig(2), 1, servers, next)
    ensures next == Config(1, [1, 2], servers)
  {
    hide Rebalanced;
    var gids, g := servers.Keys, [1, 2, 3];
    assert gids == {1, 2, 3};
    assert Ranks([], gids, g);
    RanksUnique([], gids, g, Ranking([], gids));
    assert Dealt(2, gids) == [1, 2];
  }

  lemma OneTwoUsed()
    ensures Used([1, 2]) == {1, 2}
  {
    assert [1, 2][0] == 1 && [1, 2][1] == 2;
  }

  lemma TwoLeave(servers: map<int, seq<string>>, next: Config)
    requires servers == map[1 := [], 2 := [], 3 := []] && Leaves(Config(1, [1, 2], servers), 2, {1, 2}, next)
    ensures !Listed(next)
  {
    hide Leaves, Count, Used;
    var cfg := Config(1, [1, 2], servers);
    assert cfg.groups - {1, 2} == map[3 := []];
    OneTwoUsed();
    LeaveListedIff(cfg, 2, {1, 2}, next);
  }

  /** Replicas that apply the same log hold the same configs and the same duplicate table. */
  lemma {:induction false} ReplicasAgree(n: nat, a: seq<State>, b: seq<State>, cmds: seq<Command>, i: nat)
    requires Run(n, a, cmds) && Run(n, b, cmds) && i <= |cmds|
    ensures a[i] == b[i]
  {
    if i > 0 {
      ReplicasAgree(n, a, b, cmds, i - 1);
      hide Applies;
      assert Applies(a[i - 1], cmds[i - 1], a[i - 1 + 1]) && Applies(b[i - 1], cmds[i - 1], b[i - 1 + 1]);
      AppliesUnique(a[i - 1], cmds[i - 1], a[i], b[i]);
    }
  }

  ghost predicate Positive(cmd: Command) {
    match cmd.request
    case Query => true
    case Join(servers) => forall x :: x in servers ==> x > 0
    case Leave(gids) => forall x :: x in gids ==> x > 0
  }

  ghost predicate HistoryOk(configs: seq<Config>) {
    configs != [] && Numbered(configs) && forall i :: 0 <= i < |configs| ==> AllocOk(configs[i])
  }

  lemma AppliesNumbered(st: State, cmd: Command, st': State)
    requires Applies(st, cmd, st') && Numbered(st.configs)
    ensures Numbered(st'.configs) && st.configs <= st'.configs
  {
    if |st'.configs| > |st.configs| { AppendedNum(st, cmd, st'); }
  }

  lemma AppendedNum(st: State, cmd: Command, st': State)
    requires Applies(st, cmd, st') && |st'.configs| > |st.configs|
    ensures st'.configs[|st.configs|].num == |st.configs|
  {
    if cmd.request.Leave? {
      var t :| LeavesVia(st.configs[|st.configs| - 1], |st.configs|, SetOf(cmd.request.gids), t, st'.configs[|st.configs|]);
    }
  }

  lemma AppliesKeeps(st: State, cmd: Command, st': State)
    requires Applies(st, cmd, st') && HistoryOk(st.configs) && Positive(cmd)
    requires forall i :: 0 <= i < |st.configs| ==> |st.configs[i].groups| <= |st.configs[i].shards|
    ensures HistoryOk(st'.configs)
  {
    hide AllocOk, Joins, Leaves;
    AppliesNumbered(st, cmd, st');
    var last, n := st.configs[|st.configs| - 1], |st.configs|;
    if cmd.reqNo > Completed(st, cmd.client) {
      match cmd.request
      case Query =>
      case Join(servers) => JoinKeeps(last, n, servers, st'.configs[n]);
      case Leave(gids) => LeaveKeeps(last, n, SetOf(gids), st'.configs[n]);
    }
  }

  /** In every history of joins and leaves with positive gids and never more groups than shards, the
      configs are numbered 0, 1, 2, ... and each is either wholly on nobody with no groups, or gives
      every shard to a live group and every group at least its floor. */
  lemma {:induction false} AllocatorInvariant(n: nat, sts: seq<State>, cmds: seq<Command>, i: nat)
    requires n > 0 && Run(n, sts, cmds) && i <= |cmds| && forall k :: 0 <= k < |cmds| ==> Positive(cmds[k])
    requires forall k :: 0 <= k < |sts[i].configs| ==> |sts[i].configs[k].groups| <= |sts[i].configs[k].shards|
    ensures HistoryOk(sts[i].configs)
  {
    if i > 0 {
      assert Applies(sts[i - 1], cmds[i - 1], sts[i - 1 + 1]);
      Growing(sts[i - 1], cmds[i - 1], sts[i]);
      AllocatorInvariant(n, sts, cmds, i - 1);
      AppliesKeeps(sts[i - 1], cmds[i - 1], sts[i]);
    }
  }

  lemma Growing(st: State, cmd: Command, st': State)
    requires Applies(st, cmd, st')
    ensures |st.configs| <= |st'.configs| && forall k :: 0 <= k < |st.configs| ==> st'.configs[k] == st.configs[k]
  {
  }
}

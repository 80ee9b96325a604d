/** Who is a member: which commands of a log make a config, and whose servers it lists. */
module Membership {
  import opened ShardConfig
  import opened Allocator
  import opened Controller

  /** After a join every joining group lists its new servers behind those it had; nobody else
      changes. Shards that nobody owns make the joining groups the only ones. */
  lemma JoinGroups(cfg: Config, num: int, servers: map<int, seq<string>>, next: Config, gid: int)
    requires cfg.shards != [] && Joins(cfg, num, servers, next)
    ensures next.num == num && |next.shards| == |cfg.shards|
    ensures gid in next.groups <==> gid in servers || (gid in cfg.groups && cfg.shards[0] != 0)
    ensures gid in servers && (gid !in cfg.groups || cfg.shards[0] == 0) ==> next.groups[gid] == servers[gid]
    ensures gid in servers && gid in cfg.groups && cfg.shards[0] != 0 ==> next.groups[gid] == cfg.groups[gid] + servers[gid]
    ensures gid !in servers && gid in cfg.groups && cfg.shards[0] != 0 ==> next.groups[gid] == cfg.groups[gid]
  {
    hide Assigned, FinalLists, Ranking, Dealt;
    if gid in servers { assert [] + servers[gid] == servers[gid]; }
    if gid in cfg.groups { assert cfg.groups[gid] + [] == cfg.groups[gid]; }
  }

  /** After a leave exactly the groups that left are gone; the others list the same servers. */
  lemma LeaveGroups(cfg: Config, num: int, gone: set<int>, next: Config, gid: int)
    requires Leaves(cfg, num, gone, next)
    ensures next.num == num && |next.shards| == |cfg.shards|
    ensures gid in next.groups <==> gid in cfg.groups && gid !in gone
    ensures gid in next.groups ==> next.groups[gid] == cfg.groups[gid]
  {
    hide Assigned, FinalLists, Ranking, Temporary;
    var t :| LeavesVia(cfg, num, gone, t, next);
  }

  /** The request number is above every earlier one of its client; numbers start at 1. */
  ghost predicate IsNew(cmds: seq<Command>, i: nat)
    requires i < |cmds|
  {
    && cmds[i].reqNo >= 1
    && forall j :: 0 <= j < i && cmds[j].client == cmds[i].client ==> cmds[j].reqNo < cmds[i].reqNo
  }

  /** The duplicate table holds the highest request number of each client so far. */
  lemma {:induction false} CompletedIs(n: nat, sts: seq<State>, cmds: seq<Command>, i: nat, client: int)
    requires Run(n, sts, cmds) && i <= |cmds|
    ensures 0 <= Completed(sts[i], client)
    ensures forall j :: 0 <= j < i && cmds[j].client == client ==> cmds[j].reqNo <= Completed(sts[i], client)
    ensures Completed(sts[i], client) == 0
      || exists j :: 0 <= j < i && cmds[j].client == client && cmds[j].reqNo == Completed(sts[i], client)
  {
    hide Joins, Leaves;
    if i > 0 {
      CompletedIs(n, sts, cmds, i - 1, client);
      assert Applies(sts[i - 1], cmds[i - 1], sts[i - 1 + 1]);
      CompletedStep(sts[i - 1], cmds[i - 1], sts[i], client);
    }
  }

  lemma CompletedStep(st: State, cmd: Command, st': State, client: int)
    requires Applies(st, cmd, st')
    ensures Completed(st', client) ==
      if client == cmd.client && cmd.reqNo > Completed(st, client) then cmd.reqNo else Completed(st, client)
  {
    hide Joins, Leaves;
  }

  /** In every history a join or a leave adds exactly one config when it is new, and a repeated or
      stale command, or a query, adds none; no config ever changes. */
  lemma OneConfigEach(n: nat, sts: seq<State>, cmds: seq<Command>, i: nat)
    requires Run(n, sts, cmds) && i < |cmds|
    ensures sts[i].configs <= sts[i + 1].configs
    ensures |sts[i + 1].configs| == |sts[i].configs| + if IsNew(cmds, i) && !cmds[i].request.Query? then 1 else 0
  {
    hide Joins, Leaves;
    CompletedIs(n, sts, cmds, i, cmds[i].client);
    assert Applies(sts[i], cmds[i], sts[i + 1]);
  }

  /** In every history the configs are numbered from 0 on. */
  lemma {:induction false} AlwaysNumbered(n: nat, sts: seq<State>, cmds: seq<Command>, i: nat)
    requires Run(n, sts, cmds) && i <= |cmds|
    ensures sts[i].configs != [] && Numbered(sts[i].configs)
  {
    hide Joins, Leaves;
    if i > 0 {
      AlwaysNumbered(n, sts, cmds, i - 1);
      assert Applies(sts[i - 1], cmds[i - 1], sts[i - 1 + 1]);
      AppliesNumbered(sts[i - 1], cmds[i - 1], sts[i]);
    }
  }
}

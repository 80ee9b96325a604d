/** A shard server's apply path as the program runs it: maps changed in place, and loops over
    them in whatever order they come. Each method is proved to do what ShardGroup says. */
module ShardServer {
  import opened ShardConfig
  import opened Wrappers
  import opened ShardGroup

  /** The entries of a set kept as a map to booleans, where a missing key reads as false. */
  function Members(m: map<int, bool>): set<int> {
    set s | s in m && m[s]
  }

  function Has(m: map<int, bool>, s: int): bool {
    s in m && m[s]
  }

  class ShardKV {
    const gid: int
    var lastConfig: Config
    var curConfig: Config
    var shards: map<int, bool>
    var kv: map<Text, Text>
    var req: map<int, int>
    var result: map<int, Err>
    var dock: map<int, map<int, ShiftShard>>
    var dockInfo: map<int, ClientInfo>

    function View(): Group
      reads this
    {
      Group(gid, lastConfig, curConfig, Members(shards), kv, ClientInfo(req, result), dock, dockInfo)
    }

    constructor (gid: int)
      ensures View() == NewGroup(gid)
    {
      this.gid := gid;
      lastConfig, curConfig := FirstConfig(NSHARDS), FirstConfig(NSHARDS);
      shards, kv, req, result, dock, dockInfo := map[], map[], map[], map[], map[], map[];
    }

    method IsMigrateFinished() returns (finished: bool, unfinished: seq<int>)
      requires Sized(View())
      ensures finished == Finished(View())
      ensures forall s :: s in unfinished <==> s in Unfinished(View())
      ensures forall i, j :: 0 <= i < j < |unfinished| ==> unfinished[i] < unfinished[j]
    {
      finished, unfinished := true, [];
      for s := 0 to NSHARDS
        invariant finished <==> forall t :: 0 <= t < s && curConfig.shards[t] == gid ==> t in Members(shards)
        invariant forall t :: t in unfinished <==> t in Unfinished(View()) && t < s
        invariant forall i :: 0 <= i < |unfinished| ==> unfinished[i] < s
        invariant forall i, j :: 0 <= i < j < |unfinished| ==> unfinished[i] < unfinished[j]
      {
        if gid == curConfig.shards[s] && !Has(shards, s) {
          finished := false;
          unfinished := unfinished + [s];
        }
      }
    }

    method CompareConfig(next: Config) returns (out: map<int, bool>, keep: map<int, bool>)
      requires |next.shards| == NSHARDS
      ensures Members(out) == Leaving(View(), next) && Members(keep) == Staying(View(), next)
      ensures out.Keys == Members(out) && keep.Keys == Members(keep)
    {
      out, keep := map[], map[];
      for s := 0 to NSHARDS
        invariant out.Keys == Members(out) == set t | t in Leaving(View(), next) && t < s
        invariant keep.Keys == Members(keep) == set t | t in Staying(View(), next) && t < s
      {
        if Has(shards, s) && gid != next.shards[s] { out := out[s := true]; }
        if Has(shards, s) && gid == next.shards[s] { keep := keep[s := true]; }
      }
    }

    method MakeOutShards(out: map<int, bool>, next: Config)
      requires out.Keys == Members(out)
      modifies `dock
      ensures dock == old(dock)[next.num := OutShards(next.num, out.Keys, kv)]
    {
      var made := EmptyRecords(out, next.num);
      var keys := kv.Keys;
      while keys != {}
        invariant keys <= kv.Keys && made.Keys == out.Keys
        invariant forall s :: s in made ==>
          made[s] == ShiftShard(next.num, s, map k | k in kv && k !in keys && KeyShard(k) == s :: kv[k])
      {
        var k :| k in keys;
        var s := KeyShard(k);
        keys := keys - {k};
        if Has(out, s) {
          made := made[s := made[s].(kv := made[s].kv[k := kv[k]])];
        }
      }
      forall s | s in made ensures made[s] == ShiftShard(next.num, s, Part(kv, s)) {
        assert made[s].kv == Part(kv, s);
      }
      assert made == OutShards(next.num, out.Keys, kv);
      dock := dock[next.num := made];
    }

    method EmptyRecords(out: map<int, bool>, num: int) returns (made: map<int, ShiftShard>)
      ensures made.Keys == out.Keys && forall s :: s in made ==> made[s] == ShiftShard(num, s, map[])
    {
      made := map[];
      var todo := out.Keys;
      while todo != {}
        invariant todo <= out.Keys && made.Keys == out.Keys - todo
        invariant forall s :: s in made ==> made[s] == ShiftShard(num, s, map[])
      {
        Nonempty(todo);
        var s :| s in todo;
        made, todo := made[s := ShiftShard(num, s, map[])], todo - {s};
      }
    }

    method KeepPairs(keep: map<int, bool>) returns (kept: map<Text, Text>)
      ensures kept == Kept(kv, Members(keep))
    {
      kept := map[];
      var keys := kv.Keys;
      while keys != {}
        invariant keys <= kv.Keys
        invariant kept == map k | k in kv && k !in keys && KeyShard(k) in Members(keep) :: kv[k]
      {
        var k :| k in keys;
        keys := keys - {k};
        if Has(keep, KeyShard(k)) { kept := kept[k := kv[k]]; }
      }
    }

    method UpdateConfig(next: Config)
      requires Sized(View()) && |next.shards| == NSHARDS
      modifies this
      ensures View() == ShardGroup.UpdateConfig(old(View()), next)
    {
      if next.num <= curConfig.num { return; }
      var finished, _ := IsMigrateFinished();
      if !finished { return; }
      var out, keep := CompareConfig(next);
      dockInfo := dockInfo[next.num := ClientInfo(req, result)];
      MakeOutShards(out, next);
      var kept := KeepPairs(keep);
      shards, kv, lastConfig, curConfig := keep, kept, curConfig, next;
    }

    method MergeInfo(other: ClientInfo)
      modifies `req, `result
      ensures ClientInfo(req, result) == Merge(old(ClientInfo(req, result)), other)
    {
      ghost var mine := ClientInfo(req, result);
      var todo := other.req.Keys;
      while todo != {}
        invariant todo <= other.req.Keys
        invariant forall c :: c in req <==> c in mine.req || (c !in todo && TakesReq(mine, other, c))
        invariant forall c :: c in req ==> req[c] == if c !in todo && TakesReq(mine, other, c) then other.req[c] else mine.req[c]
        invariant forall c :: c in result <==> c in mine.result || (c !in todo && TakesResult(mine, other, c))
        invariant forall c :: c in result ==>
          result[c] == if c !in todo && TakesResult(mine, other, c) then ResultOf(other, c) else mine.result[c]
      {
        Nonempty(todo);
        var c :| c in todo;
        var mineReq := ReqOf(ClientInfo(req, result), c);
        assert mineReq == ReqOf(mine, c) && ResultOf(ClientInfo(req, result), c) == ResultOf(mine, c);
        if other.req[c] > mineReq {
          req, result := req[c := other.req[c]], result[c := ResultOf(other, c)];
        } else if other.req[c] == mineReq && ResultOf(ClientInfo(req, result), c) != OK {
          result := result[c := ResultOf(other, c)];
        }
        todo := todo - {c};
      }
      MergedIs(mine, other, req, result);
    }

    method CopyPairs(from: map<Text, Text>)
      modifies `kv
      ensures kv == old(kv) + from
    {
      ghost var before := kv;
      var keys := from.Keys;
      while keys != {}
        invariant keys <= from.Keys
        invariant kv == before + map k | k in from && k !in keys :: from[k]
      {
        var k :| k in keys;
        kv, keys := kv[k := from[k]], keys - {k};
      }
    }

    method AcceptShards(op: Op)
      requires Sized(View()) && op.Shards? && OpSized(op)
      modifies this
      ensures View() == ShardGroup.AcceptShards(old(View()), op)
    {
      ghost var G := View();
      for i := 0 to |op.shifts|
        invariant Sized(View()) && View() == AcceptAll(G, op.shifts[..i])
      {
        var shift := op.shifts[i];
        assert op.shifts[..i + 1][..i] == op.shifts[..i];
        if shift.configNum != curConfig.num || curConfig.shards[shift.shardId] != gid || Has(shards, shift.shardId) { continue; }
        CopyPairs(shift.kv);
        if curConfig.shards[shift.shardId] == gid {
          shards := shards[shift.shardId := true];
        }
        assert Members(shards) == AcceptAll(G, op.shifts[..i]).shards + {shift.shardId};
      }
      assert op.shifts[..|op.shifts|] == op.shifts;
      MergeInfo(op.info);
    }

    method DoOperation(op: Op) returns (err: Err, value: Text)
      requires Sized(View()) && Client(op)
      modifies this
      ensures View() == ShardGroup.DoOperation(old(View()), op)
      ensures err == Check(old(View()), KeyShard(op.key))
      ensures err == ErrWrongGroup <==> curConfig.shards[KeyShard(op.key)] != gid
      ensures err == OK <==> curConfig.shards[KeyShard(op.key)] == gid && KeyShard(op.key) in old(View()).shards
      ensures value == if op.Get? && err == OK && op.key in old(kv) then old(kv)[op.key] else []
    {
      err, value := OK, [];
      var s := KeyShard(op.key);
      if curConfig.shards[s] != gid {
        err := ErrWrongGroup;
      } else if !Has(shards, s) {
        err := ErrNotReady;
      } else {
        match op
        case Get(k, _, _) => value := Value(kv, k);
        case Put(k, v, _, _) => kv := kv[k := v];
        case Append(k, v, _, _) => kv := kv[k := Value(kv, k) + v];
      }
      req, result := req[op.client := op.reqNo], result[op.client := err];
    }

    /** One committed operation applied. */
    method Apply(op: Op)
      requires Sized(View()) && OpSized(op)
      modifies this
      ensures View() == ApplyOp(old(View()), op)
    {
      match op
      case Reconfig(c) => UpdateConfig(c);
      case Shards(_, _) => AcceptShards(op);
      case _ =>
        var done := ReqOf(ClientInfo(req, result), op.client);
        if op.reqNo > done || (op.reqNo == done && ResultOf(ClientInfo(req, result), op.client) != OK) {
          var _, _ := DoOperation(op);
        }
    }

    /** The answer to a puller, and with it the operation the puller will propose. */
    method AnswerDock(num: int, ids: seq<int>) returns (success: bool, shifts: seq<ShiftShard>, info: ClientInfo)
      ensures if success then ShardDock(View(), num, ids) == Some(Shards(shifts, info)) else ShardDock(View(), num, ids) == None
    {
      success, shifts, info := false, [], NoInfo();
      if num !in dock { return; }
      for i := 0 to |ids|
        invariant shifts == DockPart(dock[num], ids[..i]) && (success <==> shifts != [])
      {
        assert ids[..i + 1][..i] == ids[..i];
        if ids[i] in dock[num] {
          success, shifts := true, shifts + [dock[num][ids[i]]];
        }
      }
      assert ids[..|ids|] == ids;
      if success && num in dockInfo { info := dockInfo[num]; }
    }
  }

  /** Tables that hold, client by client, what a merge decides are the merged tables. */
  lemma MergedIs(mine: ClientInfo, other: ClientInfo, req: map<int, int>, result: map<int, Err>)
    requires forall c :: c in req <==> c in mine.req || TakesReq(mine, other, c)
    requires forall c :: c in req ==> req[c] == if TakesReq(mine, other, c) then other.req[c] else mine.req[c]
    requires forall c :: c in result <==> c in mine.result || TakesResult(mine, other, c)
    requires forall c :: c in result ==> result[c] == if TakesResult(mine, other, c) then ResultOf(other, c) else mine.result[c]
    ensures ClientInfo(req, result) == Merge(mine, other)
  {
    var both := Merge(mine, other);
    assert forall c :: c in both.req <==> c in req;
    assert forall c :: c in both.result <==> c in result;
    assert req.Keys == both.req.Keys && result.Keys == both.result.Keys;
    assert req == both.req && result == both.result;
  }
}

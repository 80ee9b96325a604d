/** One replica group of the sharded key/value service: a deterministic machine over its log of
    operations. Every replica of the group is at some prefix of that log. */
module ShardGroup {
  import opened ShardConfig
  import opened Wrappers

  const NSHARDS: nat := 10

  newtype Byte = b: int | 0 <= b < 256
  type Text = seq<Byte>

  function KeyShard(key: Text): (s: nat)
    ensures s < NSHARDS
  {
    (if |key| > 0 then key[0] as int else 0) % NSHARDS
  }

  /** `Unset` is what reading a missing result gives. */
  datatype Err = Unset | OK | ErrWrongGroup | ErrNotReady

  datatype ClientInfo = ClientInfo(req: map<int, int>, result: map<int, Err>)

  datatype ShiftShard = ShiftShard(configNum: int, shardId: int, kv: map<Text, Text>)

  datatype Op =
    | Get(key: Text, client: int, reqNo: int)
    | Put(key: Text, value: Text, client: int, reqNo: int)
    | Append(key: Text, value: Text, client: int, reqNo: int)
    | Reconfig(config: Config)
    | Shards(shifts: seq<ShiftShard>, info: ClientInfo)

  /** `dock[n]` keeps the shards given away on entering config `n`, `dockInfo[n]` the duplicate
      table of that moment. */
  datatype Group = Group(
    gid: int,
    last: Config,
    cur: Config,
    shards: set<int>,
    kv: map<Text, Text>,
    info: ClientInfo,
    dock: map<int, map<int, ShiftShard>>,
    dockInfo: map<int, ClientInfo>)

  function NewGroup(gid: int): Group {
    Group(gid, FirstConfig(NSHARDS), FirstConfig(NSHARDS), {}, map[], NoInfo(), map[], map[])
  }

  /** What the code indexes without asking: a config holds every shard, a shifted shard exists. */
  predicate Sized(g: Group) {
    |g.cur.shards| == |g.last.shards| == NSHARDS
  }

  predicate OpSized(op: Op) {
    match op
    case Reconfig(c) => |c.shards| == NSHARDS
    case Shards(shifts, _) => forall i :: 0 <= i < |shifts| ==> 0 <= shifts[i].shardId < NSHARDS
    case _ => true
  }

  // ----- The duplicate table --------------------------------------------------------------

  function NoInfo(): ClientInfo {
    ClientInfo(map[], map[])
  }

  function ReqOf(info: ClientInfo, c: int): int {
    if c in info.req then info.req[c] else 0
  }

  function ResultOf(info: ClientInfo, c: int): Err {
    if c in info.result then info.result[c] else Unset
  }

  /** A request the table refuses: a later one is recorded, or this one with success. */
  predicate Done(info: ClientInfo, c: int, r: int) {
    r < ReqOf(info, c) || (r == ReqOf(info, c) && ResultOf(info, c) == OK)
  }

  function Record(info: ClientInfo, c: int, r: int, err: Err): ClientInfo {
    ClientInfo(info.req[c := r], info.result[c := err])
  }

  predicate TakesReq(mine: ClientInfo, other: ClientInfo, c: int) {
    c in other.req && other.req[c] > ReqOf(mine, c)
  }

  predicate TakesResult(mine: ClientInfo, other: ClientInfo, c: int) {
    c in other.req && (other.req[c] > ReqOf(mine, c) || (other.req[c] == ReqOf(mine, c) && ResultOf(mine, c) != OK))
  }

  function Merge(mine: ClientInfo, other: ClientInfo): ClientInfo {
    ClientInfo(
      map c | c in mine.req.Keys + other.req.Keys && (c in mine.req || TakesReq(mine, other, c)) ::
        if TakesReq(mine, other, c) then other.req[c] else mine.req[c],
      map c | c in mine.result.Keys + other.req.Keys && (c in mine.result || TakesResult(mine, other, c)) ::
        if TakesResult(mine, other, c) then ResultOf(other, c) else mine.result[c])
  }

  // ----- Operations -----------------------------------------------------------------------

  function Value(kv: map<Text, Text>, key: Text): Text {
    if key in kv then kv[key] else []
  }

  /** The keys of one shard. */
  function Part(kv: map<Text, Text>, s: int): map<Text, Text> {
    map k | k in kv && KeyShard(k) == s :: kv[k]
  }

  predicate Client(op: Op) {
    op.Get? || op.Put? || op.Append?
  }

  /** The map a client operation leaves behind, on a plain key/value map. */
  function PlainMap(kv: map<Text, Text>, op: Op): map<Text, Text>
    requires Client(op)
  {
    match op
    case Get(_, _, _) => kv
    case Put(k, v, _, _) => kv[k := v]
    case Append(k, v, _, _) => kv[k := Value(kv, k) + v]
  }

  function Check(g: Group, s: int): Err
    requires Sized(g) && 0 <= s < NSHARDS
  {
    if g.cur.shards[s] != g.gid then ErrWrongGroup else if s !in g.shards then ErrNotReady else OK
  }

  predicate TakesEffect(g: Group, op: Op)
    requires Sized(g) && Client(op)
  {
    !Done(g.info, op.client, op.reqNo) && Check(g, KeyShard(op.key)) == OK
  }

  function DoOperation(g: Group, op: Op): Group
    requires Sized(g) && Client(op)
  {
    var err := Check(g, KeyShard(op.key));
    g.(kv := if err == OK then PlainMap(g.kv, op) else g.kv, info := Record(g.info, op.client, op.reqNo, err))
  }

  predicate Finished(g: Group)
    requires Sized(g)
  {
    forall s :: 0 <= s < NSHARDS && g.cur.shards[s] == g.gid ==> s in g.shards
  }

  predicate Accepts(g: Group, shift: ShiftShard)
    requires Sized(g) && 0 <= shift.shardId < NSHARDS
  {
    shift.configNum == g.cur.num && g.cur.shards[shift.shardId] == g.gid && shift.shardId !in g.shards
  }

  function AcceptOne(g: Group, shift: ShiftShard): Group
    requires Sized(g) && 0 <= shift.shardId < NSHARDS
  {
    if Accepts(g, shift) then g.(kv := g.kv + shift.kv, shards := g.shards + {shift.shardId}) else g
  }

  function AcceptAll(g: Group, shifts: seq<ShiftShard>): (r: Group)
    requires Sized(g) && OpSized(Shards(shifts, g.info))
    ensures r == g.(kv := r.kv, shards := r.shards)
  {
    if shifts == [] then g
    else
      assert forall i :: 0 <= i < |shifts| - 1 ==> shifts[..|shifts| - 1][i] == shifts[i];
      AcceptOne(AcceptAll(g, shifts[..|shifts| - 1]), shifts[|shifts| - 1])
  }

  function AcceptShards(g: Group, op: Op): Group
    requires Sized(g) && op.Shards? && OpSized(op)
  {
    var a := AcceptAll(g, op.shifts);
    a.(info := Merge(g.info, op.info))
  }

  function Leaving(g: Group, c: Config): set<int>
    requires |c.shards| == NSHARDS
  {
    set s | s in g.shards && 0 <= s < NSHARDS && c.shards[s] != g.gid
  }

  function Staying(g: Group, c: Config): set<int>
    requires |c.shards| == NSHARDS
  {
    set s | s in g.shards && 0 <= s < NSHARDS && c.shards[s] == g.gid
  }

  /** The records of the shards `out`, given away on entering config `num`. */
  function OutShards(num: int, out: set<int>, kv: map<Text, Text>): map<int, ShiftShard> {
    map s | s in out :: ShiftShard(num, s, Part(kv, s))
  }

  function Kept(kv: map<Text, Text>, keep: set<int>): map<Text, Text> {
    map k | k in kv && KeyShard(k) in keep :: kv[k]
  }

  function UpdateConfig(g: Group, c: Config): Group
    requires Sized(g) && |c.shards| == NSHARDS
  {
    if c.num <= g.cur.num || !Finished(g) then g
    else
      g.(dockInfo := g.dockInfo[c.num := g.info], dock := g.dock[c.num := OutShards(c.num, Leaving(g, c), g.kv)],
         shards := Staying(g, c), kv := Kept(g.kv, Staying(g, c)), last := g.cur, cur := c)
  }

  /** One log entry applied. */
  function ApplyOp(g: Group, op: Op): Group
    requires Sized(g) && OpSized(op)
  {
    match op
    case Reconfig(c) => UpdateConfig(g, c)
    case Shards(_, _) => AcceptShards(g, op)
    case _ => if Done(g.info, op.client, op.reqNo) then g else DoOperation(g, op)
  }

  // ----- What a replica answers or proposes -----------------------------------------------

  function DockPart(out: map<int, ShiftShard>, ids: seq<int>): (r: seq<ShiftShard>)
    ensures forall x :: x in r ==> exists s :: s in out && out[s] == x
  {
    if ids == [] then []
    else
      var rest := DockPart(out, ids[..|ids| - 1]);
      var s := ids[|ids| - 1];
      if s in out then rest + [out[s]] else rest
  }

  /** The SHARDS operation a puller builds from this replica's answer. */
  function ShardDock(g: Group, n: int, ids: seq<int>): Option<Op> {
    if n !in g.dock || DockPart(g.dock[n], ids) == [] then None
    else Some(Shards(DockPart(g.dock[n], ids), if n in g.dockInfo then g.dockInfo[n] else NoInfo()))
  }

  /** The SHARDS operation proposed when the last config placed nothing: every shard, empty. */
  function EmptyShards(g: Group): Op
    requires Sized(g)
  {
    Shards(seq(NSHARDS, s => ShiftShard(g.cur.num, s, map[])), NoInfo())
  }

  function Unfinished(g: Group): set<int>
    requires Sized(g)
  {
    set s | 0 <= s < NSHARDS && g.cur.shards[s] == g.gid && s !in g.shards
  }
}

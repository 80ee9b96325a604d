/** Many groups and one controller. Each group is the sequence of states its log has led it
    through; a replica may act on any of them, so proposals, and answers to other groups, may be
    arbitrarily old, repeated, or never reach the log. */
module ShardWorld {
  import opened ShardConfig
  import opened Wrappers
  import opened ShardGroup

  /** `at[s]` is the last config in which an owner took shard `s` into service, 0 before any did;
      `writes` counts the (shard, client, request) triples of writes that changed the data. Both
      are history: no step reads them. */
  datatype World = World(
    configs: seq<Config>,
    runs: map<int, seq<Group>>,
    at: seq<nat>,
    writes: multiset<(int, int, int)>)

  datatype Step =
    | Publish(config: Config)                                    // the controller appends a config
    | Request(gid: int, op: Op)                                  // a client operation is committed
    | Follow(gid: int, k: nat, m: nat)                           // CONFIG, asked at state k of a controller with m configs
    | Begin(gid: int, k: nat)                                    // SHARDS with empty shards, proposed at state k
    | Pull(gid: int, from: int, k: nat, num: int, ids: seq<int>) // SHARDS answered by `from` at its state k

  predicate Shape(w: World) {
    && 0 < |w.configs|
    && |w.at| == NSHARDS
    && (forall i :: 0 <= i < |w.configs| ==> w.configs[i].num == i && |w.configs[i].shards| == NSHARDS)
    && (forall g :: g in w.runs ==> 0 < |w.runs[g]|)
  }

  function Now(w: World, g: int): Group
    requires Shape(w) && g in w.runs
  {
    w.runs[g][|w.runs[g]| - 1]
  }

  function Owner(w: World, n: int, s: int): int
    requires Shape(w) && 0 <= n < |w.configs| && 0 <= s < NSHARDS
  {
    w.configs[n].shards[s]
  }

  ghost predicate Initial(w: World) {
    && w.configs == [FirstConfig(NSHARDS)]
    && (forall g :: g in w.runs ==> g > 0 && w.runs[g] == [NewGroup(g)])
    && w.at == seq(NSHARDS, _ => 0)
    && w.writes == multiset{}
  }

  /** The operation a step commits, when its proposer goes through with it. */
  function Proposal(w: World, step: Step): Option<Op>
    requires Shape(w)
  {
    match step
    case Publish(_) => None
    case Request(g, op) => if Client(op) then Some(op) else None
    case Follow(g, k, m) =>
      if g in w.runs && k < |w.runs[g]| && 0 < m <= |w.configs| && 0 <= w.runs[g][k].cur.num
         && QueryConfig(w.configs[..m], w.runs[g][k].cur.num + 1).num > w.runs[g][k].cur.num
      then Some(Reconfig(QueryConfig(w.configs[..m], w.runs[g][k].cur.num + 1)))
      else None
    case Begin(g, k) =>
      if g in w.runs && k < |w.runs[g]| && Sized(w.runs[g][k]) && w.runs[g][k].last.shards[0] == 0
         && Unfinished(w.runs[g][k]) != {}
      then Some(EmptyShards(w.runs[g][k]))
      else None
    case Pull(g, from, k, num, ids) =>
      if from in w.runs && k < |w.runs[from]| then ShardDock(w.runs[from][k], num, ids) else None
  }

  ghost predicate Enabled(w: World, step: Step)
    requires Shape(w)
  {
    match step
    case Publish(c) => c.num == |w.configs| && |c.shards| == NSHARDS && c.shards[0] != 0
    case _ =>
      && step.gid in w.runs
      && Proposal(w, step).Some?
      && Sized(Now(w, step.gid))
      && OpSized(Proposal(w, step).value)
  }

  function Writes(g: Group, op: Op): multiset<(int, int, int)>
    requires Sized(g)
  {
    if (op.Put? || op.Append?) && TakesEffect(g, op) then multiset{(KeyShard(op.key), op.client, op.reqNo)} else multiset{}
  }

  /** Group `g` moves on to state `next`. */
  function Advance(w: World, g: int, next: Group, writes: multiset<(int, int, int)>): World
    requires Shape(w) && g in w.runs && 0 <= next.cur.num
  {
    w.(runs := w.runs[g := w.runs[g] + [next]],
       at := seq(NSHARDS, s requires 0 <= s < NSHARDS => if s in next.shards then next.cur.num else w.at[s]),
       writes := w.writes + writes)
  }

  ghost predicate Next(w: World, step: Step, w': World)
    requires Shape(w)
  {
    && Enabled(w, step)
    && match step
       case Publish(c) => w' == w.(configs := w.configs + [c])
       case _ =>
         var g := Now(w, step.gid);
         var op := Proposal(w, step).value;
         && 0 <= ApplyOp(g, op).cur.num
         && w' == Advance(w, step.gid, ApplyOp(g, op), Writes(g, op))
  }

  ghost predicate Run(ws: seq<World>, steps: seq<Step>) {
    && |ws| == |steps| + 1
    && Initial(ws[0])
    && (forall i :: 0 <= i < |ws| ==> Shape(ws[i]))
    && (forall i :: 0 <= i < |steps| ==> Next(ws[i], steps[i], ws[i + 1]))
  }

  // ----- Where a shard's data is ----------------------------------------------------------

  datatype Place = Nowhere | Serving(gid: int) | Docked(gid: int, num: int)

  function PlaceOf(w: World, s: int): Place
    requires Shape(w) && 0 <= s < NSHARDS && w.at[s] < |w.configs|
  {
    var g := Owner(w, w.at[s], s);
    if w.at[s] == 0 || g !in w.runs then Nowhere
    else if s in Now(w, g).shards then Serving(g) else Docked(g, w.at[s] + 1)
  }

  /** A docked shard whose next owner has not taken it. */
  predicate Pending(w: World, g: int, n: int, s: int)
    requires Shape(w) && 0 <= s < NSHARDS
  {
    && g in w.runs
    && n in Now(w, g).dock && s in Now(w, g).dock[n]
    && 0 <= n < |w.configs|
    && var h := Owner(w, n, s);
       !(h in w.runs && (Now(w, h).cur.num > n || (Now(w, h).cur.num == n && s in Now(w, h).shards)))
  }

  function Data(w: World, s: int): map<Text, Text>
    requires Shape(w) && 0 <= s < NSHARDS && w.at[s] < |w.configs|
  {
    match PlaceOf(w, s)
    case Nowhere => map[]
    case Serving(g) => Part(Now(w, g).kv, s)
    case Docked(g, n) => if n in Now(w, g).dock && s in Now(w, g).dock[n] then Now(w, g).dock[n][s].kv else map[]
  }

  function InfoAt(w: World, s: int): ClientInfo
    requires Shape(w) && 0 <= s < NSHARDS && w.at[s] < |w.configs|
  {
    match PlaceOf(w, s)
    case Nowhere => NoInfo()
    case Serving(g) => Now(w, g).info
    case Docked(g, n) => if n in Now(w, g).dockInfo then Now(w, g).dockInfo[n] else NoInfo()
  }

  predicate Placed(w: World) {
    Shape(w) && forall s :: 0 <= s < NSHARDS ==> w.at[s] < |w.configs|
  }

  /** The union of the shards' data: the one key/value map the service stands for. */
  function Store(w: World): map<Text, Text>
    requires Placed(w)
  {
    StoreUpTo(w, NSHARDS)
  }

  function StoreUpTo(w: World, n: nat): map<Text, Text>
    requires Placed(w) && n <= NSHARDS
  {
    if n == 0 then map[] else StoreUpTo(w, n - 1) + Data(w, n - 1)
  }
}

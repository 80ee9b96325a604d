/** One key/value server on top of its Raft peer: batches of committed entries, snapshots the
    service takes and snapshots that arrive from the leader, in every interleaving. */
module KvApply {
  import opened RaftPeer

  datatype PutKind = PutValue | AppendValue | OtherKind

  datatype Op = Op(isGet: bool, kind: PutKind, key: string, value: string, client: int, reqNo: int)

  /** The service's state, which is also what a snapshot of it holds. */
  datatype Kv = Kv(committedId: int, kvMap: map<string, string>, completed: map<int, int>)

  const EmptyKv: Kv := Kv(0, map[], map[])

  /** The committed log, entry `i` at place `i - 1`, and how its commands read. */
  datatype Setting = Setting(log: seq<Command>, decode: Command -> Op)

  function CompletedReq(kv: Kv, client: int): int {
    if client in kv.completed then kv.completed[client] else 0
  }

  function ValueAt(m: map<string, string>, key: string): string {
    if key in m then m[key] else ""
  }

  function Changed(m: map<string, string>, op: Op): map<string, string> {
    if op.isGet then m
    else match op.kind
      case PutValue => m[op.key := op.value]
      case AppendValue => m[op.key := ValueAt(m, op.key) + op.value]
      case OtherKind => m
  }

  /** The service receives the command at `index`. */
  function ApplyCommand(kv: Kv, op: Op, index: int): Kv {
    Kv(Max(kv.committedId, index),
       if op.reqNo > CompletedReq(kv, op.client) then Changed(kv.kvMap, op) else kv.kvMap,
       if op.reqNo > CompletedReq(kv, op.client) then kv.completed[op.client := op.reqNo] else kv.completed)
  }

  /** The state after commands 1 to `n`, each applied once in order. */
  function Replay(c: Setting, n: nat): (kv: Kv)
    requires n <= |c.log|
    ensures kv.committedId == n
  {
    if n == 0 then EmptyKv else ApplyCommand(Replay(c, n - 1), c.decode(c.log[n - 1]), n)
  }

  // ----- The server -----------------------------------------------------------------------

  datatype Msg = SnapshotMsg(index: int, data: Kv) | CommandMsg(index: int, command: Command)

  /** `pending` is an installed snapshot not handed on yet (0 for none); while `busy` the applier is
      sending `queue`, and `last` is the last index of its batch (0 for none). */
  datatype Server = Server(peer: Peer, pending: int, busy: bool, queue: seq<Msg>, last: int, kv: Kv)

  datatype Step =
    | Consensus(peer: Peer)       // any work of the peer that moves neither snapshot nor applier
    | Install(args: InstallArgs)  // a snapshot arrives from the leader
    | TakeSnapshot                // the service snapshots itself
    | Take                        // the applier takes a batch
    | Deliver                     // the service receives the next message
    | Finish                      // the applier is done with its batch

  ghost predicate Initial(s: Server) {
    s.peer.snapIndex == 0 && s.peer.lastApplied == 0 && s.peer.commitIndex == 0 && s.pending == 0 && !s.busy && s.queue == [] && s.kv == EmptyKv
    && WellFormed(s.peer)
  }

  /** What consensus guarantees of a peer: entries up to its commit index are the committed ones. */
  ghost predicate Commits(c: Setting, p: Peer) {
    && WellFormed(p) && p.commitIndex <= |c.log|
    && (p.commitIndex > p.snapIndex ==> p.commitIndex <= p.snapIndex + |p.log|)
    && (forall k :: 0 <= k < |p.log| && p.snapIndex + k < p.commitIndex ==> p.log[k].command == c.log[p.snapIndex + k])
  }

  function Messages(batch: seq<Entry>): (r: seq<Msg>)
    ensures |r| == |batch| && forall i :: 0 <= i < |batch| ==> r[i] == CommandMsg(batch[i].index, batch[i].command)
  {
    seq(|batch|, i requires 0 <= i < |batch| => CommandMsg(batch[i].index, batch[i].command))
  }

  /** What a message does to the service's state: an old snapshot does nothing. */
  function ReceiveKv(kv: Kv, m: Msg, decode: Command -> Op): Kv {
    match m
    case CommandMsg(i, cmd) => ApplyCommand(kv, decode(cmd), i)
    case SnapshotMsg(i, data) => if i > kv.committedId then data else kv
  }

  /** What the service does with a message; reading a snapshot also tells the peer to compact. */
  function Receive(s: Server, m: Msg, decode: Command -> Op): Server {
    var kv := ReceiveKv(s.kv, m, decode);
    if m.SnapshotMsg? && m.index > s.kv.committedId then s.(kv := kv, peer := Snapshot(s.peer, kv.committedId))
    else s.(kv := kv)
  }

  ghost predicate Next(c: Setting, s: Server, step: Step, s': Server) {
    match step
    case Consensus(p) =>
      && p.snapIndex == s.peer.snapIndex && p.lastApplied == s.peer.lastApplied && Commits(c, p)
      && s' == s.(peer := p)
    case Install(a) =>
      && a.lastIncludedIndex <= |c.log|
      && var (p, pending, _) := InstallSnapshot(s.peer, s.pending, a);
         s' == s.(peer := p, pending := pending)
    case TakeSnapshot => s' == s.(peer := Snapshot(s.peer, s.kv.committedId))
    case Take =>
      && !s.busy && (s.peer.lastApplied < s.peer.commitIndex || s.pending != 0)
      && (s.peer.lastApplied < s.peer.commitIndex ==> CanTake(s.peer))
      && 0 <= s.pending <= |c.log|
      && var batch := Batch(s.peer);
         s' == s.(pending := 0, busy := true,
                  queue := (if s.pending != 0 then [SnapshotMsg(s.pending, Replay(c, s.pending))] else []) + Messages(Uncovered(batch, s.pending)),
                  last := if batch == [] then 0 else batch[|batch| - 1].index)
    case Deliver => s.busy && s.queue != [] && s' == Receive(s, s.queue[0], c.decode).(queue := s.queue[1..])
    case Finish =>
      s.busy && s.queue == []
      && s' == s.(busy := false, peer := Applied(s.peer, s.last))
  }

  ghost predicate Run(c: Setting, ss: seq<Server>, steps: seq<Step>) {
    && |ss| == |steps| + 1
    && Initial(ss[0])
    && forall i :: 0 <= i < |steps| ==> Next(c, ss[i], steps[i], ss[i + 1])
  }

  // ----- The invariant --------------------------------------------------------------------

  /** Where the service will be once it has received all of `queue`. */
  function End(at: int, queue: seq<Msg>): int
    decreases |queue|
  {
    if queue == [] then at
    else End(if queue[0].SnapshotMsg? then Max(at, queue[0].index) else queue[0].index, queue[1..])
  }

  /** Every command in the queue is the next one when its turn comes, and every snapshot is a replay
      of the log up to its index. */
  ghost predicate Fits(c: Setting, at: int, queue: seq<Msg>)
    decreases |queue|
  {
    queue == [] ||
    match queue[0]
    case SnapshotMsg(i, data) => 0 <= i <= |c.log| && data == Replay(c, i) && Fits(c, Max(at, i), queue[1..])
    case CommandMsg(i, cmd) => 1 <= i <= |c.log| && i == at + 1 && cmd == c.log[i - 1] && Fits(c, i, queue[1..])
  }

  ghost predicate Inv(c: Setting, s: Server) {
    && Commits(c, s.peer)
    && 0 <= s.peer.snapIndex <= s.peer.lastApplied
    && 0 <= s.pending <= |c.log|
    && 0 <= s.kv.committedId <= |c.log| && s.kv == Replay(c, s.kv.committedId)
    && Fits(c, s.kv.committedId, s.queue)
    && (if s.busy then 0 <= s.last && Max(s.peer.lastApplied, s.last) == Max(End(s.kv.committedId, s.queue), s.pending)
        else s.queue == [] && s.peer.lastApplied == Max(s.kv.committedId, s.pending))
  }

  // ----- Snapshots compact the peer and keep what consensus guarantees ---------------------------

  /** Compacting to `index` drops exactly the entries up to it. */
  lemma TrimDrops(p: Peer, index: int)
    requires WellFormed(p) && p.snapIndex <= index
    ensures var d := Min(index - p.snapIndex, |p.log|); Trim(p, index + 1).0 == p.log[d..] && Max(Trim(p, index + 1).1, index) == index
  {
    if p.log != [] { assert p.log[0].index == p.snapIndex + 1; }
  }

  lemma CompactCommits(c: Setting, p: Peer, q: Peer, index: int)
    requires Commits(c, p) && p.snapIndex <= index <= |c.log|
    requires q.me == p.me && q.n == p.n && q.nextIndex == p.nextIndex && q.matchIndex == p.matchIndex
    requires q.log == p.log[Min(index - p.snapIndex, |p.log|)..] && q.snapIndex == index && q.commitIndex == Max(p.commitIndex, index)
    ensures Commits(c, q)
  {
    var d := Min(index - p.snapIndex, |p.log|);
    forall k | 0 <= k < |q.log| ensures q.log[k].index == index + k + 1 {
      assert q.log[k] == p.log[d + k];
    }
  }

  lemma SnapshotKeeps(c: Setting, p: Peer, index: int)
    requires Commits(c, p) && 0 <= p.snapIndex <= p.lastApplied && 0 <= index <= |c.log|
    ensures var q := Snapshot(p, index);
      && Commits(c, q) && 0 <= q.snapIndex <= q.lastApplied
      && q.lastApplied == (if p.snapIndex > index then p.lastApplied else Max(p.lastApplied, index))
  {
    if p.snapIndex <= index {
      TrimDrops(p, index);
      CompactCommits(c, p, Snapshot(p, index), index);
    }
  }

  lemma InstallKeeps(c: Setting, p: Peer, pending: int, a: InstallArgs)
    requires Commits(c, p) && 0 <= p.snapIndex <= p.lastApplied && a.lastIncludedIndex <= |c.log| && 0 <= pending <= |c.log|
    ensures var (q, pending', _) := InstallSnapshot(p, pending, a);
      && Commits(c, q) && 0 <= q.snapIndex <= q.lastApplied
      && ((pending' == pending && q.lastApplied == p.lastApplied)
          || (pending' == a.lastIncludedIndex && pending <= pending' && 0 < pending' && q.lastApplied == Max(p.lastApplied, pending')))
  {
    hide Trim;
    var q := HearLeader(p, a.term);
    var (r, _, _) := InstallSnapshot(p, pending, a);
    if a.term >= p.currentTerm {
      assert Commits(c, q);
      if !OldSnapshot(q, pending, a) {
        TrimDrops(q, a.lastIncludedIndex);
        CompactCommits(c, q, r, a.lastIncludedIndex);
      }
    }
  }

  // ----- Queues -------------------------------------------------------------------------------------

  lemma {:induction false} EndAhead(c: Setting, at: int, queue: seq<Msg>)
    requires Fits(c, at, queue)
    ensures at <= End(at, queue)
    decreases |queue|
  {
    if queue != [] {
      EndAhead(c, if queue[0].SnapshotMsg? then Max(at, queue[0].index) else queue[0].index, queue[1..]);
    }
  }

  /** A batch that starts right behind `at` fits there and ends at its last index. */
  lemma {:induction false} BatchFits(c: Setting, at: int, batch: seq<Entry>)
    requires 0 <= at && at + |batch| <= |c.log|
    requires forall k :: 0 <= k < |batch| ==> batch[k].index == at + k + 1 && batch[k].command == c.log[at + k]
    ensures Fits(c, at, Messages(batch)) && End(at, Messages(batch)) == at + |batch|
    decreases |batch|
  {
    if batch != [] {
      var q := Messages(batch);
      assert q[1..] == Messages(batch[1..]);
      forall k | 0 <= k < |batch| - 1 ensures batch[1..][k].index == at + 1 + k + 1 && batch[1..][k].command == c.log[at + 1 + k] {
        assert batch[1..][k] == batch[k + 1];
      }
      BatchFits(c, at + 1, batch[1..]);
    }
  }

  lemma BatchIs(c: Setting, p: Peer)
    requires Commits(c, p) && 0 <= p.snapIndex <= p.lastApplied
    ensures p.lastApplied < p.commitIndex ==> CanTake(p)
    ensures var b := Batch(p);
      && |b| == Max(0, p.commitIndex - p.lastApplied)
      && (forall k :: 0 <= k < |b| ==> b[k].index == p.lastApplied + k + 1 && b[k].command == c.log[p.lastApplied + k])
  {
    if p.lastApplied < p.commitIndex {
      var d := p.lastApplied - p.snapIndex;
      forall k | 0 <= k < p.commitIndex - p.lastApplied
        ensures Batch(p)[k].index == p.lastApplied + k + 1 && Batch(p)[k].command == c.log[p.lastApplied + k]
      {
        assert Batch(p)[k] == p.log[d + k];
      }
    }
  }

  // ----- Every step keeps the invariant -------------------------------------------------------------

  /** The messages of one batch, with the pending snapshot in front if there is one. */
  function Outgoing(c: Setting, pending: nat, batch: seq<Entry>): seq<Msg>
    requires pending <= |c.log|
  {
    (if pending != 0 then [SnapshotMsg(pending, Replay(c, pending))] else []) + Messages(batch)
  }

  /** They fit a service that has all but the snapshot, and leave it at the end of the batch. */
  lemma OutgoingFits(c: Setting, at: int, pending: nat, batch: seq<Entry>)
    requires 0 <= at && pending <= |c.log| && Max(at, pending) + |batch| <= |c.log|
    requires forall k :: 0 <= k < |batch| ==> batch[k].index == Max(at, pending) + k + 1 && batch[k].command == c.log[Max(at, pending) + k]
    ensures Fits(c, at, Outgoing(c, pending, batch)) && End(at, Outgoing(c, pending, batch)) == Max(at, pending) + |batch|
  {
    var q := Outgoing(c, pending, batch);
    BatchFits(c, Max(at, pending), batch);
    if pending == 0 { assert q == Messages(batch); } else { assert q[1..] == Messages(batch); }
  }

  lemma TakeKeeps(c: Setting, s: Server, s': Server)
    requires Inv(c, s) && Next(c, s, Take, s')
    ensures Inv(c, s')
  {
    hide Commits, Fits, End, Messages, Uncovered, Replay;
    var batch := Batch(s.peer);
    BatchIs(c, s.peer);
    AllUncovered(batch, s.pending);
    assert Max(s.kv.committedId, s.pending) + |batch| <= |c.log| by { CommitBound(c, s.peer); }
    OutgoingFits(c, s.kv.committedId, s.pending, batch);
  }

  lemma CommitBound(c: Setting, p: Peer)
    requires Commits(c, p)
    ensures p.commitIndex <= |c.log|
  {
  }

  lemma DeliverCommand(c: Setting, s: Server, s': Server)
    requires Inv(c, s) && Next(c, s, Deliver, s') && s.queue[0].CommandMsg?
    ensures Inv(c, s')
  {
    hide Commits;
  }

  lemma DeliverSnapshot(c: Setting, s: Server, s': Server)
    requires Inv(c, s) && Next(c, s, Deliver, s') && s.queue[0].SnapshotMsg?
    ensures Inv(c, s')
  {
    hide Commits, Snapshot, Replay;
    var i := s.queue[0].index;
    EndAhead(c, Max(s.kv.committedId, i), s.queue[1..]);
    SnapshotKeeps(c, s.peer, i);
  }

  lemma DeliverKeeps(c: Setting, s: Server, s': Server)
    requires Inv(c, s) && Next(c, s, Deliver, s')
    ensures Inv(c, s')
  {
    hide Inv;
    if s.queue[0].CommandMsg? { DeliverCommand(c, s, s'); } else { DeliverSnapshot(c, s, s'); }
  }

  lemma StepKeeps(c: Setting, s: Server, step: Step, s': Server)
    requires Inv(c, s) && Next(c, s, step, s')
    ensures Inv(c, s')
  {
    match step
    case Consensus(_) =>
    case Install(a) => InstallKeeps(c, s.peer, s.pending, a);
    case TakeSnapshot =>
      EndAhead(c, s.kv.committedId, s.queue);
      SnapshotKeeps(c, s.peer, s.kv.committedId);
    case Take => TakeKeeps(c, s, s');
    case Deliver => DeliverKeeps(c, s, s');
    case Finish =>
  }

  lemma {:induction false} RunKeeps(c: Setting, ss: seq<Server>, steps: seq<Step>, i: nat)
    requires Run(c, ss, steps) && i < |ss|
    ensures Inv(c, ss[i])
  {
    if i > 0 {
      RunKeeps(c, ss, steps, i - 1);
      assert Next(c, ss[i - 1], steps[i - 1], ss[i - 1 + 1]);
      StepKeeps(c, ss[i - 1], steps[i - 1], ss[i]);
    }
  }

  // ----- The theorems -------------------------------------------------------------------------------

  /** However batches, the service's own snapshots and installed snapshots interleave, the service
      holds exactly the replay of commands 1 to its committed index. */
  lemma AlwaysReplay(c: Setting, ss: seq<Server>, steps: seq<Step>, i: nat)
    requires Run(c, ss, steps) && i < |ss|
    ensures 0 <= ss[i].kv.committedId <= |c.log| && ss[i].kv == Replay(c, ss[i].kv.committedId)
  {
    RunKeeps(c, ss, steps, i);
  }

  /** The applier never slices outside the log, neither the applied index nor the service's index ever
      falls, and an idle applier with nothing pending has handed over all it counts as applied. */
  lemma ApplierKeepsUp(c: Setting, ss: seq<Server>, steps: seq<Step>, i: nat)
    requires Run(c, ss, steps) && i < |steps|
    ensures ss[i].peer.lastApplied < ss[i].peer.commitIndex ==> CanTake(ss[i].peer)
    ensures ss[i].peer.lastApplied <= ss[i + 1].peer.lastApplied && ss[i].kv.committedId <= ss[i + 1].kv.committedId
    ensures !ss[i].busy && ss[i].pending == 0 ==> ss[i].kv.committedId == ss[i].peer.lastApplied
  {
    var s, s' := ss[i], ss[i + 1];
    RunKeeps(c, ss, steps, i);
    assert Next(c, s, steps[i], s');
    BatchIs(c, s.peer);
    match steps[i]
    case Install(a) => InstallKeeps(c, s.peer, s.pending, a);
    case TakeSnapshot => SnapshotKeeps(c, s.peer, s.kv.committedId);
    case Deliver => if s.queue[0].SnapshotMsg? { SnapshotKeeps(c, s.peer, s.queue[0].index); }
    case _ =>
  }

  lemma {:induction false} CompletedGrows(c: Setting, i: nat, j: nat, client: int)
    requires i <= j <= |c.log|
    ensures CompletedReq(Replay(c, i), client) <= CompletedReq(Replay(c, j), client)
    decreases j
  {
    if i < j { CompletedGrows(c, i, j - 1, client); }
  }

  /** A request that is in the log again later changes nothing the second time. */
  lemma AtMostOnce(c: Setting, i: nat, j: nat)
    requires 1 <= i < j <= |c.log|
    requires c.decode(c.log[i - 1]).client == c.decode(c.log[j - 1]).client && c.decode(c.log[i - 1]).reqNo == c.decode(c.log[j - 1]).reqNo
    ensures Replay(c, j).kvMap == Replay(c, j - 1).kvMap
  {
    CompletedGrows(c, i, j - 1, c.decode(c.log[i - 1]).client);
  }
}

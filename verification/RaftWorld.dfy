/** A cluster of Raft peers over a network that may lose, delay, repeat and reorder messages.
    One step is one lock-held region of one peer; a run is any sequence of steps.
    Runs have no restart. A service may call Snapshot at any time, and a leader sends its snapshot to
    a follower that lags behind it. What a service holds, and so what a snapshot of it holds, is
    written as the commands that led there. */
module RaftWorld {
  import opened RaftPeer

  datatype Msg =
    | Append(dst: nat, append: AppendArgs)
    | AppendAck(src: nat, append: AppendArgs, appendReply: AppendReply)
    | Vote(dst: nat, vote: VoteArgs)
    | VoteAck(src: nat, vote: VoteArgs, voteReply: VoteReply)
    | Install(dst: nat, install: InstallArgs, data: seq<Entry>)
    | InstallAck(src: nat, install: InstallArgs, installReply: InstallReply)

  /** One election: its ballot and the goroutines still waiting for a reply.
      History: the log the candidate stood with, how much of it was behind the snapshot, and the peers
      whose votes were counted. */
  datatype Election = Election(ballot: Ballot, waiting: set<nat>, log: seq<Entry>, snap: nat, voters: set<nat>)

  /** History of a won election: the leader, the votes that elected it, and its log as it grows. */
  datatype Reign = Reign(leader: nat, voters: set<nat>, log: seq<Entry>)

  /** The apply goroutine between copying a batch and raising lastApplied. A snapshot goes first
      ([] for none), then the queue; `last` is the last index of the batch (0 for none). */
  datatype Applier = Applier(busy: bool, snapshot: seq<Entry>, queue: seq<Entry>, last: int)

  const Idle: Applier := Applier(false, [], [], 0)

  datatype World = World(
    peers: seq<Peer>,
    net: set<Msg>,
    elections: map<(nat, int), Election>,
    appliers: seq<Applier>,
    delivered: seq<seq<Entry>>,
    pending: seq<seq<Entry>>,  // an installed snapshot the applier has not taken yet, [] for none
    pre: seq<seq<Entry>>,      // the snapshot that is stored beside the log
    // History only: what the steps do to the fields above does not depend on the fields below.
    grants: set<(int, nat, nat)>,
    reigns: map<int, Reign>,
    acks: map<(nat, int), nat>)

  datatype Step =
    | Timeout(s: nat)
    | RecvVote(m: Msg)
    | RecvVoteAck(m: Msg)
    | Heartbeat(s: nat, dst: nat)
    | Replicate(s: nat, dst: nat)
    | SendSnapshot(s: nat, dst: nat)
    | RecvAppend(m: Msg)
    | RecvAppendAck(m: Msg)
    | RecvInstall(m: Msg)
    | RecvInstallAck(m: Msg)
    | Propose(s: nat, command: Command)
    | Commit(s: nat)
    | Compact(s: nat, index: nat)
    | Take(s: nat)
    | Deliver(s: nat)
    | Finish(s: nat)

  function Ids(n: nat): (s: set<nat>)
    ensures forall i: nat :: i in s <==> i < n
    ensures |s| == n
  {
    if n == 0 then {} else Ids(n - 1) + {n - 1}
  }

  predicate Quorum(n: nat, q: set<nat>) { q <= Ids(n) && 2 * |q| > n }

  /** The log of peer s as if it had never been compacted. */
  function Full(w: World, s: nat): seq<Entry>
    requires s < |w.peers| == |w.pre|
  {
    w.pre[s] + w.peers[s].log
  }

  function Acked(w: World, v: nat, term: int): nat {
    if (v, term) in w.acks then w.acks[(v, term)] else 0
  }

  predicate Shape(w: World) {
    && |w.peers| == |w.appliers| == |w.delivered| == |w.pending| == |w.pre|
    && forall s :: 0 <= s < |w.peers| ==> PeerShape(w.peers[s], w.pre[s], |w.peers|, s)
  }

  predicate PeerShape(p: Peer, pre: seq<Entry>, n: nat, s: nat) {
    && WellFormed(p) && p.me == s && p.n == n
    && |pre| == p.snapIndex
    && Numbered(pre, 0)
    && p.snapTerm == TermAt(pre, |pre|)
  }

  /** Term of the entry with index i, 0 before the first entry. */
  function TermAt(log: seq<Entry>, i: int): int
    requires i <= |log|
  {
    if i <= 0 then 0 else log[i - 1].term
  }

  predicate Initial(w: World, n: nat) {
    && |w.peers| == |w.appliers| == |w.delivered| == |w.pending| == |w.pre| == n
    && (forall s :: 0 <= s < n ==> w.peers[s] == NewPeer(s, n))
    && (forall s :: 0 <= s < n ==> w.appliers[s] == Idle)
    && (forall s :: 0 <= s < n ==> w.delivered[s] == [])
    && (forall s :: 0 <= s < n ==> w.pending[s] == [])
    && (forall s :: 0 <= s < n ==> w.pre[s] == [])
    && w.net == {} && w.elections == map[] && w.grants == {} && w.reigns == map[] && w.acks == map[]
  }

  predicate Enabled(w: World, step: Step)
    requires Shape(w)
  {
    var n := |w.peers|;
    match step
    case Timeout(s) => s < n && w.peers[s].role != Leader
    case RecvVote(m) => m.Vote? && m in w.net && m.dst < n
    case RecvVoteAck(m) =>
      && m.VoteAck? && m in w.net && m.vote.candidateId < n
      && (m.vote.candidateId, m.vote.term) in w.elections
      && m.src in w.elections[(m.vote.candidateId, m.vote.term)].waiting
    case Heartbeat(s, dst) => s < n && dst < n && s != dst && w.peers[s].role == Leader && NextInRange(w.peers[s], dst)
    case Replicate(s, dst) =>
      && s < n && dst < n && s != dst
      && Elected(w, s, w.peers[s].currentTerm)
      && CanReplicate(w.peers[s], dst) && NextInRange(w.peers[s], dst)
    case SendSnapshot(s, dst) =>
      s < n && dst < n && s != dst && Elected(w, s, w.peers[s].currentTerm) && CanSendSnapshot(w.peers[s], dst)
    case RecvAppend(m) => m.Append? && m in w.net && m.dst < n
    case RecvAppendAck(m) =>
      && m.AppendAck? && m in w.net && m.append.leaderId < n && m.src < n
      && (BacksUp(w.peers[m.append.leaderId], m.src, m.append, m.appendReply) ==>
            BackupInRange(w.peers[m.append.leaderId].log, m.appendReply))
    case RecvInstall(m) => m.Install? && m in w.net && m.dst < n
    case RecvInstallAck(m) => m.InstallAck? && m in w.net && m.install.leaderId < n && m.src < n
    case Propose(s, _) => s < n && w.peers[s].role == Leader
    case Commit(s) => s < n && Elected(w, s, w.peers[s].currentTerm)
    case Compact(s, index) => s < n && index <= |w.delivered[s]|
    case Take(s) =>
      && s < n && !w.appliers[s].busy && (w.peers[s].lastApplied < w.peers[s].commitIndex || w.pending[s] != [])
      && (w.peers[s].lastApplied < w.peers[s].commitIndex ==> CanTake(w.peers[s]))
    case Deliver(s) => s < n && (w.appliers[s].snapshot != [] || w.appliers[s].queue != [])
    case Finish(s) => s < n && w.appliers[s].busy && w.appliers[s].snapshot == [] && w.appliers[s].queue == []
  }

  /** Peer s ran becomeLeader in this term, so its replication and commit goroutines exist. */
  predicate Elected(w: World, s: nat, term: int) {
    (s, term) in w.elections && w.elections[(s, term)].ballot.done
  }

  function WithPeer(w: World, s: nat, p: Peer): World
    requires s < |w.peers|
  {
    w.(peers := w.peers[s := p])
  }

  function DoTimeout(w: World, s: nat): World
    requires Shape(w) && s < |w.peers|
  {
    var (p, a) := PrepareElection(w.peers[s]);
    var others := Ids(|w.peers|) - {s};
    WithPeer(w, s, p).(
      net := w.net + set i | i in others :: Vote(i, a),
      elections := w.elections[(s, a.term) := Election(Ballot(1, false), others, Full(w, s), |w.pre[s]|, {s})],
      grants := w.grants + {(a.term, s, s)})
  }

  function DoRecvVote(w: World, m: Msg): World
    requires Shape(w) && m.Vote? && m.dst < |w.peers|
  {
    var (p, r) := RequestVote(w.peers[m.dst], m.vote);
    WithPeer(w, m.dst, p).(
      net := w.net + {VoteAck(m.dst, m.vote, r)},
      grants := if r.voteGranted then w.grants + {(m.vote.term, m.dst, m.vote.candidateId)} else w.grants)
  }

  function DoRecvVoteAck(w: World, m: Msg): World
    requires Shape(w) && Enabled(w, RecvVoteAck(m))
  {
    var c, t := m.vote.candidateId, m.vote.term;
    var e := w.elections[(c, t)];
    var (p, b) := HandleVoteReply(w.peers[c], e.ballot, m.vote, m.voteReply);
    var voters := if m.voteReply.voteGranted then e.voters + {m.src} else e.voters;
    var w1 := WithPeer(w, c, p).(elections := w.elections[(c, t) := Election(b, e.waiting - {m.src}, e.log, e.snap, voters)]);
    if Wins(w.peers[c], e.ballot, m.vote, m.voteReply)
    then w1.(reigns := w.reigns[t := Reign(c, voters, Full(w, c))], acks := w.acks[(c, t) := |Full(w, c)|])
    else w1
  }

  function DoSend(w: World, dst: nat, a: AppendArgs): World {
    w.(net := w.net + {Append(dst, a)})
  }

  function DoRecvAppend(w: World, m: Msg): World
    requires Shape(w) && m.Append? && m.dst < |w.peers|
  {
    var (p, r) := AppendEntries(w.peers[m.dst], m.append);
    WithPeer(w, m.dst, p).(
      net := w.net + {AppendAck(m.dst, m.append, r)},
      acks := if r.success && m.append.prevLogIndex + |m.append.entries| > p.snapIndex
              then w.acks[(m.dst, m.append.term) := NewAck(w, m)] else w.acks)
  }

  /** An acknowledgement of entries behind the snapshot is not recorded: they are committed already. */
  function NewAck(w: World, m: Msg): nat
    requires m.Append?
  {
    Max(Acked(w, m.dst, m.append.term), m.append.prevLogIndex + |m.append.entries|)
  }

  function DoRecvAppendAck(w: World, m: Msg): World
    requires Shape(w) && Enabled(w, RecvAppendAck(m))
  {
    WithPeer(w, m.append.leaderId, HandleAppendReply(w.peers[m.append.leaderId], m.src, m.append, m.appendReply))
  }

  function DoSendSnapshot(w: World, s: nat, dst: nat): World
    requires s < |w.peers| && s < |w.pre|
  {
    w.(net := w.net + {Install(dst, SnapshotArgs(w.peers[s]), w.pre[s])})
  }

  function DoRecvInstall(w: World, m: Msg): World
    requires Shape(w) && m.Install? && m.dst < |w.peers|
  {
    var s := m.dst;
    var (p, _, r) := InstallSnapshot(w.peers[s], |w.pending[s]|, m.install);
    var w1 := WithPeer(w, s, p).(net := w.net + {InstallAck(s, m.install, r)});
    if Installs(w.peers[s], |w.pending[s]|, m.install)
    then w1.(pending := w.pending[s := m.data], pre := w.pre[s := m.data])
    else w1
  }

  function DoRecvInstallAck(w: World, m: Msg): World
    requires Shape(w) && Enabled(w, RecvInstallAck(m))
  {
    WithPeer(w, m.install.leaderId, HandleInstallReply(w.peers[m.install.leaderId], m.src, m.install, m.installReply))
  }

  function DoPropose(w: World, s: nat, command: Command): World
    requires Shape(w) && s < |w.peers|
  {
    var t := w.peers[s].currentTerm;
    var p := Start(w.peers[s], command);
    var w1 := WithPeer(w, s, p);
    if t in w.reigns
    then w1.(reigns := w.reigns[t := w.reigns[t].(log := w.pre[s] + p.log)], acks := w.acks[(s, t) := |w.pre[s] + p.log|])
    else w1
  }

  function DoCommit(w: World, s: nat): World
    requires s < |w.peers|
  {
    WithPeer(w, s, UpdateCommit(w.peers[s]))
  }

  /** The service stores a snapshot of itself as of `index`. */
  function DoCompact(w: World, s: nat, index: nat): World
    requires Shape(w) && Enabled(w, Compact(s, index))
  {
    WithPeer(w, s, Snapshot(w.peers[s], index)).(
      pre := w.pre[s := if w.peers[s].snapIndex > index then w.pre[s] else w.delivered[s][..index]])
  }

  function DoTake(w: World, s: nat): World
    requires Shape(w) && s < |w.peers|
  {
    var batch := Batch(w.peers[s]);
    w.(appliers := w.appliers[s := Taken(batch, w.pending[s])], pending := w.pending[s := []])
  }

  function Taken(batch: seq<Entry>, pending: seq<Entry>): Applier {
    Applier(true, pending, Uncovered(batch, |pending|), if batch == [] then 0 else batch[|batch| - 1].index)
  }

  /** The service receives a snapshot, which it takes if it is newer than what it holds, or a command. */
  function Received(q: Applier, d: seq<Entry>): (Applier, seq<Entry>)
    requires q.snapshot != [] || q.queue != []
  {
    if q.snapshot != [] then (q.(snapshot := []), if |q.snapshot| > |d| then q.snapshot else d)
    else (q.(queue := q.queue[1..]), d + [q.queue[0]])
  }

  function DoDeliver(w: World, s: nat): World
    requires Shape(w) && Enabled(w, Deliver(s))
  {
    var r := Received(w.appliers[s], w.delivered[s]);
    w.(appliers := w.appliers[s := r.0], delivered := w.delivered[s := r.1])
  }

  function DoFinish(w: World, s: nat): World
    requires Shape(w) && s < |w.peers|
  {
    WithPeer(w, s, Applied(w.peers[s], w.appliers[s].last)).(appliers := w.appliers[s := Idle])
  }

  function Do(w: World, step: Step): World
    requires Shape(w) && Enabled(w, step)
  {
    match step
    case Timeout(s) => DoTimeout(w, s)
    case RecvVote(m) => DoRecvVote(w, m)
    case RecvVoteAck(m) => DoRecvVoteAck(w, m)
    case Heartbeat(s, dst) => DoSend(w, dst, HeartbeatArgs(w.peers[s], dst))
    case Replicate(s, dst) => DoSend(w, dst, ReplicateArgs(w.peers[s], dst))
    case SendSnapshot(s, dst) => DoSendSnapshot(w, s, dst)
    case RecvAppend(m) => DoRecvAppend(w, m)
    case RecvAppendAck(m) => DoRecvAppendAck(w, m)
    case RecvInstall(m) => DoRecvInstall(w, m)
    case RecvInstallAck(m) => DoRecvInstallAck(w, m)
    case Propose(s, command) => DoPropose(w, s, command)
    case Commit(s) => DoCommit(w, s)
    case Compact(s, index) => DoCompact(w, s, index)
    case Take(s) => DoTake(w, s)
    case Deliver(s) => DoDeliver(w, s)
    case Finish(s) => DoFinish(w, s)
  }
}

/** One Raft peer: the state guarded by its lock and what each lock-held region does to it.
    Every function below is the meaning of one handler; class RaftServer.Raft runs the
    same regions in place, with the loops, and is proved equal to these functions. */
module RaftPeer {

  type Command(==, !new)

  datatype Entry = Entry(command: Command, term: int, index: int)

  datatype Role = Leader | Follower | Candidate

  datatype Peer = Peer(
    me: nat,
    n: nat,
    currentTerm: int,
    votedFor: int,
    log: seq<Entry>,
    commitIndex: int,
    lastApplied: int,
    nextIndex: seq<int>,
    matchIndex: seq<int>,
    role: Role,
    leaderTerm: int,
    lastNewEntryIndex: int,
    snapIndex: int,
    snapTerm: int)

  datatype AppendArgs = AppendArgs(
    term: int, leaderId: nat, prevLogIndex: int, prevLogTerm: int, entries: seq<Entry>, leaderCommit: int)

  datatype AppendReply = AppendReply(term: int, success: bool, conflict: bool, conflictTerm: int, conflictIndex: int)

  datatype VoteArgs = VoteArgs(term: int, candidateId: nat, lastLogIndex: int, lastLogTerm: int)

  datatype VoteReply = VoteReply(term: int, voteGranted: bool)

  datatype InstallArgs = InstallArgs(term: int, leaderId: nat, lastIncludedIndex: int, lastIncludedTerm: int)

  datatype InstallReply = InstallReply(term: int, success: bool)

  /** What the goroutines of one election share: the vote counter and the done flag. */
  datatype Ballot = Ballot(votes: nat, done: bool)

  function Max(x: int, y: int): int { if x < y then y else x }

  function Min(x: int, y: int): int { if x < y then x else y }

  function Half(n: nat): nat { n / 2 }

  function NewPeer(me: nat, n: nat): Peer {
    Peer(me, n, 0, -1, [], 0, 0, seq(n, _ => 0), seq(n, _ => 0), Follower, -1, 0, 0, 0)
  }

  /** Entry k of the stored log carries index snapIndex + k + 1; the arrays have one slot per peer. */
  predicate WellFormed(p: Peer) {
    && p.me < p.n == |p.nextIndex| == |p.matchIndex|
    && 0 <= p.snapIndex
    && Numbered(p.log, p.snapIndex)
  }

  predicate Numbered(log: seq<Entry>, base: int) {
    forall k :: 0 <= k < |log| ==> log[k].index == base + k + 1
  }

  function LastIndex(p: Peer): int {
    if p.log == [] then p.snapIndex else p.log[|p.log| - 1].index
  }

  function LastTerm(p: Peer): int {
    if p.log == [] then p.snapTerm else p.log[|p.log| - 1].term
  }

  /** A higher term was seen: become a follower of it with a free vote. */
  function StepDown(p: Peer, term: int): Peer {
    p.(role := Follower, currentTerm := term, votedFor := -1, leaderTerm := term, lastNewEntryIndex := p.commitIndex)
  }

  // ----- AppendEntries -------------------------------------------------------------

  function HearLeader(p: Peer, term: int): Peer {
    if term != p.leaderTerm || term > p.currentTerm then StepDown(p, term) else p.(role := Follower)
  }

  /** First position of the run of equal terms that ends at k. */
  function RunStart(log: seq<Entry>, k: nat): (j: nat)
    requires k < |log|
    ensures j <= k
    ensures forall i :: j <= i <= k ==> log[i].term == log[k].term
    ensures j > 0 ==> log[j - 1].term != log[k].term
  {
    if k > 0 && log[k - 1].term == log[k].term then RunStart(log, k - 1) else k
  }

  /** Where the conflicting term starts; when it fills the whole stored log the position itself is reported. */
  function ConflictStart(log: seq<Entry>, k: nat): int
    requires k < |log|
  {
    if RunStart(log, k) == 0 then log[k].index else log[RunStart(log, k)].index
  }

  predicate SameSlot(x: Entry, y: Entry) { x.index == y.index && x.term == y.term }

  /** Position `at` may be negative: entries that fall into the snapshot are skipped. */
  function Splice(log: seq<Entry>, at: int, entries: seq<Entry>): seq<Entry>
    requires at <= |log|
    decreases |entries|
  {
    if entries == [] then log
    else if at < 0 then Splice(log, at + 1, entries[1..])
    else if at < |log| && SameSlot(log[at], entries[0]) then Splice(log, at + 1, entries[1..])
    else log[..at] + entries
  }

  predicate PrevMatches(p: Peer, a: AppendArgs) {
    || a.prevLogIndex <= p.snapIndex
    || (a.prevLogIndex <= p.snapIndex + |p.log| && p.log[a.prevLogIndex - p.snapIndex - 1].term == a.prevLogTerm)
  }

  function Conflict(p: Peer, a: AppendArgs, term: int): (r: AppendReply)
    requires !PrevMatches(p, a)
  {
    if a.prevLogIndex > p.snapIndex + |p.log| then
      AppendReply(term, false, true, 0, p.snapIndex + |p.log|)
    else
      var k := a.prevLogIndex - p.snapIndex - 1;
      AppendReply(term, false, true, p.log[k].term, ConflictStart(p.log, k))
  }

  /** Store the entries and advance the commit index; the previous entry is known to match. */
  function Accept(p: Peer, a: AppendArgs): Peer
    requires PrevMatches(p, a) && 0 <= p.snapIndex
  {
    var q := if a.entries == [] then p else
      p.(log := Splice(p.log, a.prevLogIndex - p.snapIndex, a.entries),
         lastNewEntryIndex := Max(p.lastNewEntryIndex, a.prevLogIndex + |a.entries|));
    if a.leaderCommit > q.commitIndex then q.(commitIndex := Min(a.leaderCommit, q.lastNewEntryIndex)) else q
  }

  function AppendEntries(p: Peer, a: AppendArgs): (Peer, AppendReply)
    requires 0 <= p.snapIndex
  {
    if a.term < p.currentTerm then (p, AppendReply(p.currentTerm, false, false, 0, 0))
    else
      var q := HearLeader(p, a.term);
      if !PrevMatches(q, a) then (q, Conflict(q, a, p.currentTerm))
      else (Accept(q, a), AppendReply(p.currentTerm, true, false, 0, 0))
  }

  // ----- The leader's side of AppendEntries ----------------------------------------

  function FirstOf(log: seq<Entry>, term: int): (k: nat)
    ensures k <= |log|
    ensures forall i :: 0 <= i < k ==> log[i].term != term
    ensures k < |log| ==> log[k].term == term
  {
    if log == [] || log[0].term == term then 0 else 1 + FirstOf(log[1..], term)
  }

  /** End of the run of `term` that starts at k. */
  function RunEnd(log: seq<Entry>, term: int, k: nat): (e: nat)
    requires k <= |log|
    ensures k <= e <= |log|
    ensures forall i :: k <= i < e ==> log[i].term == term
    ensures e < |log| ==> log[e].term != term
    decreases |log| - k
  {
    if k < |log| && log[k].term == term then RunEnd(log, term, k + 1) else k
  }

  /** The backup indexes the leader's log just past the run of the conflicting term; outside the
      log that is an index out of range. */
  predicate BackupInRange(log: seq<Entry>, r: AppendReply) {
    r.conflictTerm != 0 && FirstOf(log, r.conflictTerm) < |log| ==>
      RunEnd(log, r.conflictTerm, FirstOf(log, r.conflictTerm)) < |log|
  }

  function Backup(log: seq<Entry>, r: AppendReply): int
    requires BackupInRange(log, r)
  {
    if r.conflictTerm == 0 then Max(r.conflictIndex, 1)
    else if FirstOf(log, r.conflictTerm) == |log| then r.conflictIndex
    else log[RunEnd(log, r.conflictTerm, FirstOf(log, r.conflictTerm))].index
  }

  predicate BacksUp(p: Peer, server: nat, a: AppendArgs, r: AppendReply)
    requires server < |p.nextIndex|
  {
    r.term == p.currentTerm == a.term && !r.success && r.conflict && p.nextIndex[server] == a.prevLogIndex + 1
  }

  function HandleAppendReply(p: Peer, server: nat, a: AppendArgs, r: AppendReply): Peer
    requires server < |p.nextIndex| == |p.matchIndex|
    requires BacksUp(p, server, a, r) ==> BackupInRange(p.log, r)
  {
    if r.term > p.currentTerm then StepDown(p, r.term)
    else if r.term < p.currentTerm || p.currentTerm != a.term then p
    else if r.success then
      p.(matchIndex := p.matchIndex[server := Max(p.matchIndex[server], a.prevLogIndex + |a.entries|)],
         nextIndex := p.nextIndex[server := Max(p.nextIndex[server], a.prevLogIndex + |a.entries| + 1)])
    else if BacksUp(p, server, a, r) then p.(nextIndex := p.nextIndex[server := Backup(p.log, r)])
    else p
  }

  predicate CanReplicate(p: Peer, server: nat) {
    && p.me < |p.nextIndex| && server < |p.nextIndex|
    && p.nextIndex[server] != p.nextIndex[p.me]
    && p.nextIndex[server] > p.snapIndex
  }

  /** The slice Logs[NextIndex - snapIndex - 1:] exists. */
  predicate NextInRange(p: Peer, server: nat) {
    server < |p.nextIndex| && p.nextIndex[server] <= p.snapIndex + |p.log| + 1
  }

  function PrevArgs(p: Peer, next: int, entries: seq<Entry>): AppendArgs
    requires next > p.snapIndex + 1 ==> next <= p.snapIndex + |p.log| + 1
  {
    if next > p.snapIndex + 1 then
      var e := p.log[next - p.snapIndex - 2];
      AppendArgs(p.currentTerm, p.me, e.index, e.term, entries, p.commitIndex)
    else AppendArgs(p.currentTerm, p.me, p.snapIndex, p.snapTerm, entries, p.commitIndex)
  }

  function ReplicateArgs(p: Peer, server: nat): AppendArgs
    requires CanReplicate(p, server) && NextInRange(p, server)
  {
    PrevArgs(p, p.nextIndex[server], p.log[p.nextIndex[server] - p.snapIndex - 1..])
  }

  function HeartbeatArgs(p: Peer, server: nat): AppendArgs
    requires NextInRange(p, server)
  {
    PrevArgs(p, p.nextIndex[server], [])
  }

  /** A follower that lags behind the snapshot is sent the snapshot. */
  predicate CanSendSnapshot(p: Peer, server: nat) {
    && p.me < |p.nextIndex| && server < |p.nextIndex|
    && p.nextIndex[server] != p.nextIndex[p.me]
    && p.nextIndex[server] <= p.snapIndex
  }

  function SnapshotArgs(p: Peer): InstallArgs {
    InstallArgs(p.currentTerm, p.me, p.snapIndex, p.snapTerm)
  }

  function HandleInstallReply(p: Peer, server: nat, a: InstallArgs, r: InstallReply): Peer
    requires server < |p.nextIndex| == |p.matchIndex|
  {
    if r.term > p.currentTerm then StepDown(p, r.term)
    else if r.term < p.currentTerm || p.currentTerm != a.term || !r.success then p
    else
      p.(matchIndex := p.matchIndex[server := Max(p.matchIndex[server], a.lastIncludedIndex)],
         nextIndex := p.nextIndex[server := Max(p.nextIndex[server], a.lastIncludedIndex + 1)])
  }

  // ----- Elections -----------------------------------------------------------------

  function PrepareElection(p: Peer): (Peer, VoteArgs) {
    var q := p.(currentTerm := p.currentTerm + 1, votedFor := p.me, role := Candidate);
    (q, VoteArgs(q.currentTerm, q.me, LastIndex(q), LastTerm(q)))
  }

  predicate UpToDate(p: Peer, a: VoteArgs) {
    a.lastLogTerm > LastTerm(p) || (a.lastLogTerm == LastTerm(p) && a.lastLogIndex >= LastIndex(p))
  }

  function RequestVote(p: Peer, a: VoteArgs): (Peer, VoteReply) {
    if a.term < p.currentTerm then (p, VoteReply(p.currentTerm, false))
    else
      var q := if a.term > p.currentTerm then StepDown(p, a.term) else p;
      if (q.votedFor == -1 || q.votedFor == a.candidateId) && UpToDate(q, a)
      then (q.(votedFor := a.candidateId), VoteReply(p.currentTerm, true))
      else (q, VoteReply(p.currentTerm, false))
  }

  function BecomeLeader(p: Peer): Peer {
    p.(role := Leader,
       matchIndex := seq(p.n, i => if i == p.me then LastIndex(p) else 0),
       nextIndex := seq(p.n, _ => LastIndex(p) + 1))
  }

  predicate Wins(p: Peer, b: Ballot, a: VoteArgs, r: VoteReply) {
    r.voteGranted && !b.done && b.votes + 1 > Half(p.n) && p.currentTerm == a.term
  }

  function HandleVoteReply(p: Peer, b: Ballot, a: VoteArgs, r: VoteReply): (Peer, Ballot) {
    if Wins(p, b, a, r) then (BecomeLeader(p), Ballot(b.votes + 1, true))
    else if r.voteGranted then (p, Ballot(b.votes + 1, b.done))
    else if r.term > p.currentTerm then (StepDown(p, r.term), b)
    else (p, b)
  }

  // ----- Commands and commitment ----------------------------------------------------

  function Start(p: Peer, command: Command): Peer
    requires p.me < |p.nextIndex| == |p.matchIndex|
  {
    if p.role != Leader then p
    else
      var e := Entry(command, p.currentTerm, LastIndex(p) + 1);
      p.(log := p.log + [e],
         nextIndex := p.nextIndex[p.me := e.index + 1],
         matchIndex := p.matchIndex[p.me := e.index])
  }

  function Replicas(matchIndex: seq<int>, index: int): (c: nat)
    ensures c <= |matchIndex|
  {
    if matchIndex == [] then 0
    else (if matchIndex[|matchIndex| - 1] >= index then 1 else 0) + Replicas(matchIndex[..|matchIndex| - 1], index)
  }

  /** Scan down from position k through entries of the leader's term for a majority. */
  function ScanCommit(p: Peer, k: nat): int
    requires k <= |p.log|
  {
    if k == 0 || p.log[k - 1].term != p.currentTerm then p.commitIndex
    else if Replicas(p.matchIndex, p.log[k - 1].index) > Half(p.n) then Max(p.commitIndex, p.log[k - 1].index)
    else ScanCommit(p, k - 1)
  }

  function UpdateCommit(p: Peer): Peer {
    p.(commitIndex := ScanCommit(p, |p.log|))
  }

  // ----- Log compaction --------------------------------------------------------------

  /** The log from index `upper` on, with the index and term of the last entry cut off. */
  function Trim(p: Peer, upper: int): (seq<Entry>, int, int) {
    var (logs, i, t) :=
      if p.log == [] || upper <= p.log[0].index then (p.log, p.snapIndex, p.snapTerm)
      else
        var k := Min(upper - p.log[0].index, |p.log|);
        (p.log[k..], p.log[k - 1].index, p.log[k - 1].term);
    (logs, Max(i, upper - 1), t)
  }

  function Snapshot(p: Peer, index: int): Peer {
    if p.snapIndex > index then p
    else
      var (logs, i, t) := Trim(p, index + 1);
      p.(log := logs, snapIndex := Max(i, index), snapTerm := t,
         commitIndex := Max(p.commitIndex, index), lastApplied := Max(p.lastApplied, index))
  }

  /** `pending` is the index of a received snapshot that was not handed to the service yet, 0 for none. */
  predicate OldSnapshot(p: Peer, pending: int, a: InstallArgs) {
    p.snapIndex >= a.lastIncludedIndex || pending > a.lastIncludedIndex
  }

  /** The peer takes the snapshot, rather than turning down its term or finding it too old. */
  predicate Installs(p: Peer, pending: int, a: InstallArgs) {
    a.term >= p.currentTerm && !OldSnapshot(p, pending, a)
  }

  function PutSnapshot(p: Peer, a: InstallArgs): Peer {
    p.(log := Trim(p, a.lastIncludedIndex + 1).0,
       snapIndex := a.lastIncludedIndex, snapTerm := a.lastIncludedTerm,
       commitIndex := Max(p.commitIndex, a.lastIncludedIndex),
       lastApplied := Max(p.lastApplied, a.lastIncludedIndex))
  }

  function InstallSnapshot(p: Peer, pending: int, a: InstallArgs): (Peer, int, InstallReply) {
    if a.term < p.currentTerm then (p, pending, InstallReply(p.currentTerm, false))
    else
      var q, r := HearLeader(p, a.term), InstallReply(p.currentTerm, true);
      if OldSnapshot(q, pending, a) then (q, pending, r)
      else (PutSnapshot(q, a), a.lastIncludedIndex, r)
  }

  // ----- The applier ------------------------------------------------------------------

  predicate CanTake(p: Peer) {
    p.lastApplied < p.commitIndex && p.snapIndex <= p.lastApplied && p.commitIndex <= p.snapIndex + |p.log|
  }

  function TakeBatch(p: Peer): seq<Entry>
    requires CanTake(p)
  {
    p.log[p.lastApplied - p.snapIndex..p.commitIndex - p.snapIndex]
  }

  function Batch(p: Peer): seq<Entry> {
    if CanTake(p) then TakeBatch(p) else []
  }

  /** The applier is done with a batch whose last entry has this index, 0 for an empty batch. */
  function Applied(p: Peer, last: int): Peer {
    if last != 0 then p.(lastApplied := Max(p.lastApplied, last)) else p
  }

  /** The entries of a batch that a pending snapshot does not cover. */
  function Uncovered(batch: seq<Entry>, pending: int): seq<Entry> {
    if batch == [] then []
    else
      var rest := Uncovered(batch[..|batch| - 1], pending);
      if pending == 0 || batch[|batch| - 1].index > pending then rest + [batch[|batch| - 1]] else rest
  }

  /** Behind the applied index a pending snapshot covers nothing of the batch. */
  lemma {:induction false} AllUncovered(batch: seq<Entry>, pending: int)
    requires forall k :: 0 <= k < |batch| ==> batch[k].index > pending
    ensures Uncovered(batch, pending) == batch
  {
    if batch != [] {
      AllUncovered(batch[..|batch| - 1], pending);
      assert batch == batch[..|batch| - 1] + [batch[|batch| - 1]];
    }
  }
}

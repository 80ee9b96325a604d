/** The inductive invariant of the cluster and the facts about it that need no step. */
module RaftInv {
  import opened RaftPeer
  import opened RaftWorld

  // ----- Logs ------------------------------------------------------------------------

  /** Every entry of the log sits where the leader of its term put it, with all that precedes it. */
  ghost predicate Matched(reigns: map<int, Reign>, log: seq<Entry>) {
    forall k :: 0 <= k < |log| ==> log[k].term in reigns && log[..k + 1] <= reigns[log[k].term].log
  }

  /** An entry kept past an installed snapshot although it does not continue it: the leader of its
      term put it there, behind other entries than the first h of this log. */
  ghost predicate Stray(reigns: map<int, Reign>, log: seq<Entry>, h: int, k: int)
    requires 0 <= h <= k < |log|
  {
    var u := log[k].term;
    u in reigns && k < |reigns[u].log| && reigns[u].log[k] == log[k] && !(log[..h] <= reigns[u].log)
  }

  ghost predicate AllStray(reigns: map<int, Reign>, log: seq<Entry>, h: int) {
    0 <= h < |log| && forall k :: h <= k < |log| ==> Stray(reigns, log, h, k)
  }

  /** A log of which the first h entries are behind a snapshot: they are committed, and the entries
      past them all continue them or are all stray. */
  ghost predicate LogOk(w: World, log: seq<Entry>, h: int, bound: int) {
    CommitOk(w, log, h, bound) && (Matched(w.reigns, log) || AllStray(w.reigns, log, h))
  }

  ghost predicate TermsUpTo(log: seq<Entry>, t: int) {
    forall k :: 0 <= k < |log| ==> log[k].term <= t
  }

  ghost predicate ReignOk(w: World, t: int)
    requires t in w.reigns
  {
    var r := w.reigns[t];
    && 1 <= t
    && r.leader < |w.peers| && r.leader in r.voters && Quorum(|w.peers|, r.voters)
    && Elected(w, r.leader, t)
    && Numbered(r.log, 0) && TermsUpTo(r.log, t) && Matched(w.reigns, r.log)
    && (forall v :: v in r.voters ==> (t, v, r.leader) in w.grants)
  }

  ghost predicate ReignsOk(w: World) {
    forall t :: t in w.reigns ==> ReignOk(w, t)
  }

  ghost predicate LogsOk(w: World)
    requires Shape(w)
  {
    forall s :: 0 <= s < |w.peers| ==>
      && w.peers[s].currentTerm >= 0 && TermsUpTo(Full(w, s), w.peers[s].currentTerm)
      && LogOk(w, Full(w, s), w.peers[s].snapIndex, w.peers[s].currentTerm)
  }

  // ----- Elections ---------------------------------------------------------------------

  ghost predicate ElectionOk(w: World, c: nat, t: int)
    requires Shape(w) && (c, t) in w.elections
  {
    var e := w.elections[(c, t)];
    && 1 <= t && c < |w.peers| && w.peers[c].currentTerm >= t
    && c in e.voters && e.voters <= Ids(|w.peers|) && e.voters !! e.waiting
    && e.ballot.votes == |e.voters|
    && (t, c, c) in w.grants && (forall v :: v in e.voters ==> (t, v, c) in w.grants)
    && (e.ballot.done <==> t in w.reigns && w.reigns[t].leader == c)
    && LogOk(w, e.log, e.snap, t - 1) && TermsUpTo(e.log, t - 1)
    && (w.peers[c].currentTerm == t && t !in w.reigns ==> Full(w, c) == e.log)
  }

  ghost predicate ElectionsOk(w: World)
    requires Shape(w)
  {
    forall c, t :: (c, t) in w.elections ==> ElectionOk(w, c, t)
  }

  /** A vote binds its voter until a leader of that term is known; the votes that elected a leader
      bind their voters for ever. */
  ghost predicate GrantOk(w: World, t: int, v: nat, c: nat)
    requires Shape(w)
  {
    && v < |w.peers| && (c, t) in w.elections && w.peers[v].currentTerm >= t
    && (t !in w.reigns && w.peers[v].currentTerm == t ==> w.peers[v].votedFor == c)
    && (t in w.reigns && v in w.reigns[t].voters ==> c == w.reigns[t].leader)
    && (t in w.reigns && v in w.reigns[t].voters && w.peers[v].currentTerm == t ==> w.peers[v].votedFor == c)
  }

  ghost predicate GrantsOk(w: World)
    requires Shape(w)
  {
    && (forall t, v, c :: (t, v, c) in w.grants ==> GrantOk(w, t, v, c))
    && (forall t, v, c, d :: (t, v, c) in w.grants && (t, v, d) in w.grants && t !in w.reigns ==> c == d)
  }

  /** In its current term a peer has heard of the term from someone else, or stood for it. */
  ghost predicate TermsHeard(w: World)
    requires Shape(w)
  {
    forall s: nat :: s < |w.peers| ==>
      && w.peers[s].leaderTerm <= w.peers[s].currentTerm
      && (w.peers[s].currentTerm >= 1 ==>
           w.peers[s].leaderTerm == w.peers[s].currentTerm || (s, w.peers[s].currentTerm) in w.elections)
  }

  /** Peer j acknowledged the first i entries of the leader of term t, or they were committed before
      it did. */
  ghost predicate Replicated(w: World, j: nat, t: int, i: int)
    requires t in w.reigns
  {
    i <= Acked(w, j, t) || CommitOk(w, w.reigns[t].log, i, t)
  }

  ghost predicate LeaderOk(w: World, t: int)
    requires Shape(w) && t in w.reigns
  {
    var s := w.reigns[t].leader;
    s < |w.peers| && w.peers[s].currentTerm == t ==>
      && w.peers[s].role == Leader
      && Full(w, s) == w.reigns[t].log
      && (forall j: nat :: j < |w.peers| ==> Replicated(w, j, t, w.peers[s].matchIndex[j]))
      && (forall j :: 0 <= j < |w.peers| ==> 1 <= w.peers[s].nextIndex[j] <= |w.reigns[t].log| + 1)
  }

  ghost predicate LeadersOk(w: World)
    requires Shape(w)
  {
    && (forall t :: t in w.reigns ==> LeaderOk(w, t))
    && (forall s :: 0 <= s < |w.peers| && w.peers[s].role == Leader ==>
         w.peers[s].currentTerm in w.reigns && w.reigns[w.peers[s].currentTerm].leader == s)
  }

  // ----- Acknowledgements and completeness ------------------------------------------------

  ghost predicate AcksOk(w: World)
    requires Shape(w)
  {
    forall v, t :: (v, t) in w.acks ==>
      v < |w.peers| && t in w.reigns && w.acks[(v, t)] <= |w.reigns[t].log| && w.peers[v].currentTerm >= t
  }

  ghost predicate CanAck(w: World, v: nat, t: int, i: int) {
    v < |w.peers| && (Acked(w, v, t) >= i || w.peers[v].currentTerm <= t)
  }

  ghost predicate OwnEntry(w: World, t: int, i: int) {
    t in w.reigns && 1 <= i <= |w.reigns[t].log| && w.reigns[t].log[i - 1].term == t
  }

  /** Index i of the leader of term t is, or can still become, replicated on a majority in term t. */
  ghost predicate Choosable(w: World, t: int, i: int) {
    OwnEntry(w, t, i) && exists q :: Quorum(|w.peers|, q) && CanAckAll(w, q, t, i)
  }

  ghost predicate CanAckAll(w: World, q: set<nat>, t: int, i: int) {
    forall v :: v in q ==> CanAck(w, v, t, i)
  }

  ghost predicate AckedAll(w: World, q: set<nat>, t: int, i: int) {
    forall v :: v in q ==> v < |w.peers| && Acked(w, v, t) >= i
  }

  ghost predicate Committed(w: World, t: int, i: int) {
    OwnEntry(w, t, i) && exists q :: Quorum(|w.peers|, q) && AckedAll(w, q, t, i)
  }

  /** Leader completeness. */
  ghost predicate CompleteOk(w: World) {
    forall t, u, i :: t in w.reigns && u in w.reigns && t < u && Choosable(w, t, i) ==>
      w.reigns[t].log[..i] <= w.reigns[u].log
  }

  /** The log begins with the first i entries of the leader of term t and ends in no earlier term. */
  ghost predicate Keeps(w: World, log: seq<Entry>, t: int, i: int)
    requires t in w.reigns && 0 <= i <= |w.reigns[t].log|
  {
    w.reigns[t].log[..i] <= log && t <= TermAt(log, |log|)
  }

  /** Who acknowledged an entry that can still be chosen still holds it. */
  ghost predicate HeldOk(w: World)
    requires Shape(w)
  {
    forall v: nat, t, i :: v < |w.peers| && Choosable(w, t, i) && Acked(w, v, t) >= i ==>
      Keeps(w, Full(w, v), t, i)
  }

  /** A granted vote goes to a candidate that holds every choosable entry its voter acknowledged. */
  ghost predicate VotedOk(w: World)
    requires Shape(w)
  {
    forall u, v, c, t, i :: (u, v, c) in w.grants && (c, u) in w.elections && t < u && Choosable(w, t, i) && Acked(w, v, t) >= i ==>
      Keeps(w, w.elections[(c, u)].log, t, i)
  }

  // ----- Commitment -------------------------------------------------------------------------

  /** The first ci entries of the log were committed by some leader of term at most bound. */
  ghost predicate CommitOk(w: World, log: seq<Entry>, ci: int, bound: int) {
    ci <= 0 || exists t, i :: Committed(w, t, i) && CommitBy(w, log, ci, bound, t, i)
  }

  ghost predicate CommitBy(w: World, log: seq<Entry>, ci: int, bound: int, t: int, i: int) {
    t in w.reigns && t <= bound && 0 <= ci <= i <= |w.reigns[t].log| && ci <= |log| && log[..ci] == w.reigns[t].log[..ci]
  }

  ghost predicate CommitsOk(w: World)
    requires Shape(w)
  {
    forall s :: 0 <= s < |w.peers| ==>
      && 0 <= w.peers[s].commitIndex
      && CommitOk(w, Full(w, s), w.peers[s].commitIndex, w.peers[s].currentTerm)
  }

  /** Past the commit index, the log up to lastNewEntryIndex came from the leader of the current term. */
  ghost predicate NewEntriesOk(w: World)
    requires Shape(w)
  {
    forall s :: 0 <= s < |w.peers| ==> NewEntryOk(w, w.peers[s], Full(w, s))
  }

  ghost predicate NewEntryOk(w: World, p: Peer, log: seq<Entry>) {
    && 0 <= p.lastNewEntryIndex
    && (p.leaderTerm == p.currentTerm && p.lastNewEntryIndex > p.commitIndex ==>
      && p.currentTerm in w.reigns
      && p.lastNewEntryIndex <= |log| && p.lastNewEntryIndex <= |w.reigns[p.currentTerm].log|
      && log[..p.lastNewEntryIndex] == w.reigns[p.currentTerm].log[..p.lastNewEntryIndex])
  }

  // ----- Messages -----------------------------------------------------------------------------

  ghost predicate AppendOk(w: World, dst: nat, a: AppendArgs) {
    && a.term in w.reigns && a.leaderId == w.reigns[a.term].leader && dst != a.leaderId && dst < |w.peers|
    && var log := w.reigns[a.term].log;
    && 0 <= a.prevLogIndex && a.prevLogIndex + |a.entries| <= |log|
    && a.entries == log[a.prevLogIndex..a.prevLogIndex + |a.entries|]
    && a.prevLogTerm == TermAt(log, a.prevLogIndex)
    && CommitOk(w, log, a.leaderCommit, a.term)
  }

  /** A conflict reply names a shorter log, or a term whose leader put an entry at the rejected index. */
  ghost predicate ConflictOk(w: World, a: AppendArgs, r: AppendReply) {
    && 1 <= a.prevLogIndex
    && (r.conflictTerm == 0 ==> 0 <= r.conflictIndex < a.prevLogIndex)
    && (r.conflictTerm != 0 ==>
         && 1 <= r.conflictIndex <= a.prevLogIndex && r.conflictTerm != a.prevLogTerm
         && r.conflictTerm in w.reigns && a.prevLogIndex <= |w.reigns[r.conflictTerm].log|
         && TermAt(w.reigns[r.conflictTerm].log, a.prevLogIndex) == r.conflictTerm)
  }

  ghost predicate AppendAckOk(w: World, src: nat, a: AppendArgs, r: AppendReply) {
    && AppendOk(w, src, a)
    && (r.success ==> Replicated(w, src, a.term, a.prevLogIndex + |a.entries|))
    && (r.conflict ==> !r.success && ConflictOk(w, a, r))
  }

  ghost predicate VoteOk(w: World, dst: nat, a: VoteArgs) {
    && (a.candidateId, a.term) in w.elections && dst != a.candidateId && dst < |w.peers|
    && var log := w.elections[(a.candidateId, a.term)].log;
    && a.lastLogIndex == |log| && a.lastLogTerm == TermAt(log, |log|)
  }

  ghost predicate VoteAckOk(w: World, src: nat, a: VoteArgs, r: VoteReply) {
    VoteOk(w, src, a) && (r.voteGranted ==> (a.term, src, a.candidateId) in w.grants)
  }

  /** A snapshot holds what its leader's log begins with, all of it committed. */
  ghost predicate InstallOk(w: World, dst: nat, a: InstallArgs, data: seq<Entry>) {
    && a.term in w.reigns && a.leaderId == w.reigns[a.term].leader && dst != a.leaderId && dst < |w.peers|
    && 1 <= |data| == a.lastIncludedIndex && a.lastIncludedTerm == TermAt(data, |data|)
    && data <= w.reigns[a.term].log && CommitOk(w, data, |data|, a.term)
  }

  ghost predicate InstallAckOk(w: World, src: nat, a: InstallArgs) {
    && a.term in w.reigns && a.leaderId == w.reigns[a.term].leader && src < |w.peers|
    && CommitOk(w, w.reigns[a.term].log, a.lastIncludedIndex, a.term)
  }

  ghost predicate MsgOk(w: World, m: Msg) {
    match m
    case Append(dst, a) => AppendOk(w, dst, a)
    case AppendAck(src, a, r) => AppendAckOk(w, src, a, r)
    case Vote(dst, a) => VoteOk(w, dst, a)
    case VoteAck(src, a, r) => VoteAckOk(w, src, a, r)
    case Install(dst, a, data) => InstallOk(w, dst, a, data)
    case InstallAck(src, a, _) => InstallAckOk(w, src, a)
  }

  ghost predicate NetOk(w: World) {
    forall m :: m in w.net ==> MsgOk(w, m)
  }

  // ----- Delivery --------------------------------------------------------------------------------

  /** Where the service will be once it has received all that the applier holds. */
  function End(q: Applier, d: seq<Entry>): nat {
    Max(|d|, |q.snapshot|) + |q.queue|
  }

  /** What was delivered, what the applier still holds and a snapshot it has not taken yet are parts
      of one committed prefix of the log, and lastApplied accounts for them. */
  ghost predicate ApplierFits(w: World, full: seq<Entry>, p: Peer, q: Applier, d: seq<Entry>, pending: seq<Entry>) {
    var k := Max(End(q, d), |pending|);
    && k <= |full| && CommitOk(w, full, k, p.currentTerm)
    && d <= full && q.snapshot <= full && pending <= full
    && q.queue == full[Max(|d|, |q.snapshot|)..End(q, d)]
    && p.snapIndex <= p.lastApplied
    && (if q.busy then 0 <= q.last && Max(p.lastApplied, q.last) == k
        else q.snapshot == [] && q.queue == [] && p.lastApplied == k)
  }

  ghost predicate ApplierOk(w: World, s: nat)
    requires Shape(w) && s < |w.peers|
  {
    ApplierFits(w, Full(w, s), w.peers[s], w.appliers[s], w.delivered[s], w.pending[s])
  }

  ghost predicate AppliersOk(w: World)
    requires Shape(w)
  {
    forall s: nat :: s < |w.peers| ==> ApplierOk(w, s)
  }

  ghost predicate Inv(w: World) {
    && Shape(w)
    && ReignsOk(w) && LogsOk(w)
    && ElectionsOk(w) && GrantsOk(w) && TermsHeard(w) && LeadersOk(w)
    && AcksOk(w) && CompleteOk(w) && HeldOk(w) && VotedOk(w)
    && CommitsOk(w) && NewEntriesOk(w)
    && NetOk(w)
    && AppliersOk(w)
  }
}

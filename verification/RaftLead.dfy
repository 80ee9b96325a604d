/** The leader's steps, log compaction and delivery keep the invariant. */
module RaftLead {
  import opened RaftPeer
  import opened RaftWorld
  import opened RaftInv
  import opened RaftFacts
  import opened RaftElection

  /** A transition of one peer that leaves terms, votes and full logs alone. */
  ghost predicate Quiet(w: World, w': World, s: nat)
    requires Shape(w)
  {
    && s < |w.peers| == |w'.peers| && Shape(w')
    && SameCore(w, w') && w'.net == w.net
    && (forall i :: 0 <= i < |w.peers| && i != s ==>
         && w'.peers[i] == w.peers[i] && w'.pre[i] == w.pre[i]
         && w'.appliers[i] == w.appliers[i] && w'.delivered[i] == w.delivered[i] && w'.pending[i] == w.pending[i])
  }

  lemma QuietTail(w: World, w': World, s: nat)
    requires Shape(w) && Quiet(w, w', s) && Evolves(w, w') && CommitsOk(w) && AppliersOk(w)
    requires 0 <= w'.peers[s].commitIndex
    requires CommitOk(w', Full(w', s), w'.peers[s].commitIndex, w'.peers[s].currentTerm) && ApplierOk(w', s)
    ensures CommitsOk(w') && AppliersOk(w')
  {
    forall i: nat | i < |w.peers|
      ensures 0 <= w'.peers[i].commitIndex && CommitOk(w', Full(w', i), w'.peers[i].commitIndex, w'.peers[i].currentTerm)
    {
      if i != s { CommitStays(w, w', i); }
    }
    forall i: nat | i < |w.peers|
      ensures ApplierOk(w', i)
    {
      if i != s { ApplierStays(w, w', i); }
    }
  }

  lemma QuietLeaders(w: World, w': World, s: nat)
    requires Shape(w) && Quiet(w, w', s) && LeadersOk(w) && Evolves(w, w')
    requires w'.peers[s].role == w.peers[s].role
    requires w'.peers[s].currentTerm in w'.reigns ==> LeaderOk(w', w'.peers[s].currentTerm)
    ensures LeadersOk(w')
  {
    hide CommitOk, Evolves;
    forall u | u in w'.reigns
      ensures LeaderOk(w', u)
    {
      assert LeaderOk(w, u);
      ReplicasLater(w, w', u);
    }
  }

  lemma QuietKeeps(w: World, w': World, s: nat)
    requires Inv(w) && Quiet(w, w', s)
    requires w'.peers[s].role == w.peers[s].role && w'.peers[s].lastNewEntryIndex == w.peers[s].lastNewEntryIndex
    requires w.peers[s].commitIndex <= w'.peers[s].commitIndex
    requires w'.peers[s].currentTerm in w'.reigns ==> LeaderOk(w', w'.peers[s].currentTerm)
    requires CommitOk(w', Full(w', s), w'.peers[s].commitIndex, w'.peers[s].currentTerm) && ApplierOk(w', s)
    ensures Inv(w') && Evolves(w, w')
  {
    hide ReignsOk, LogsOk, ElectionsOk, GrantsOk, TermsHeard, LeadersOk, AcksOk, CompleteOk, HeldOk, VotedOk, AppliersOk;
    CoreStays(w, w');
    QuietTail(w, w', s);
    QuietLeaders(w, w', s);
    assert NewEntryOk(w, w.peers[s], Full(w, s));
    NewEntriesStay(w, w', s);
    NetStays(w, w', {});
  }

  // ----- Handling a reply ------------------------------------------------------------------

  /** Fast backup: after a conflict the next index strictly falls, stays positive, and the skip past
      the conflicting term stays inside the leader's log. */
  lemma FastBackup(w: World, m: Msg)
    requires Shape(w) && ReignsOk(w) && LeadersOk(w) && m.AppendAck? && MsgOk(w, m)
    requires BacksUp(w.peers[w.reigns[m.append.term].leader], m.src, m.append, m.appendReply)
    ensures var p := w.peers[w.reigns[m.append.term].leader];
      BackupInRange(p.log, m.appendReply) && 1 <= Backup(p.log, m.appendReply) < p.nextIndex[m.src]
  {
    hide CommitOk, Replicated, Matched, Numbered, TermsUpTo, Backup, BackupInRange;
    var a, r, t := m.append, m.appendReply, m.append.term;
    var s := w.reigns[t].leader;
    assert LeaderOk(w, t) && ReignOk(w, t);
    assert PeerShape(w.peers[s], w.pre[s], |w.peers|, s);
    if r.conflictTerm != 0 { ConflictTermEarlier(w, m); }
    BackupLower(w.pre[s], w.peers[s], r, a.prevLogIndex);
  }

  /** If the leader has the conflicting term only before the rejected index, the backup ends there. */
  lemma BackupLower(pre: seq<Entry>, p: Peer, r: AppendReply, prev: int)
    requires WellFormed(p) && |pre| == p.snapIndex && 1 <= prev <= |pre + p.log|
    requires if r.conflictTerm == 0 then 0 <= r.conflictIndex < prev else 1 <= r.conflictIndex <= prev
    requires r.conflictTerm != 0 ==>
      forall k :: 0 <= k < |pre + p.log| && (pre + p.log)[k].term == r.conflictTerm ==> k < prev - 1
    ensures BackupInRange(p.log, r) && 1 <= Backup(p.log, r) <= prev
  {
    var f := FirstOf(p.log, r.conflictTerm);
    if r.conflictTerm != 0 && f < |p.log| {
      var e := RunEnd(p.log, r.conflictTerm, f);
      assert (pre + p.log)[|pre| + (e - 1)] == p.log[e - 1];
    }
  }

  /** The leader has entries of the conflicting term only before the rejected index. */
  lemma ConflictTermEarlier(w: World, m: Msg)
    requires m.AppendAck? && MsgOk(w, m) && m.appendReply.conflict && m.appendReply.conflictTerm != 0
    requires ReignsOk(w)
    ensures forall k :: 0 <= k < |w.reigns[m.append.term].log| && w.reigns[m.append.term].log[k].term == m.appendReply.conflictTerm
              ==> k < m.append.prevLogIndex - 1
  {
    var a, r := m.append, m.appendReply;
    var leader, other := w.reigns[a.term].log, w.reigns[r.conflictTerm].log;
    assert ReignOk(w, a.term) && ReignOk(w, r.conflictTerm);
    forall k | a.prevLogIndex - 1 <= k < |leader|
      ensures leader[k].term != r.conflictTerm
    {
      assert leader[..k + 1] <= w.reigns[leader[k].term].log;
      assert w.reigns[leader[k].term].log[a.prevLogIndex - 1] == leader[..k + 1][a.prevLogIndex - 1];
    }
  }

  lemma RecvAppendAckKeeps(w: World, m: Msg)
    requires Inv(w) && Enabled(w, RecvAppendAck(m))
    ensures Inv(DoRecvAppendAck(w, m)) && Evolves(w, DoRecvAppendAck(w, m))
  {
    var a, r, w' := m.append, m.appendReply, DoRecvAppendAck(w, m);
    var s := a.leaderId;
    assert MsgOk(w, m);
    if r.term > w.peers[s].currentTerm {
      StepDownKeeps(w, s, r.term);
    } else {
      ReplyQuiet(w, m);
      assert ApplierOk(w, s);
      assert w'.peers[s].currentTerm in w.reigns ==> LeaderOk(w', w'.peers[s].currentTerm) by { ReplyLeader(w, m); }
      CommitStays(w, w', s);
      ApplierStays(w, w', s);
      QuietKeeps(w, w', s);
    }
  }

  lemma ReplyQuiet(w: World, m: Msg)
    requires CoreInv(w) && Enabled(w, RecvAppendAck(m)) && m.appendReply.term <= w.peers[m.append.leaderId].currentTerm
    ensures Quiet(w, DoRecvAppendAck(w, m), m.append.leaderId) && Evolves(w, DoRecvAppendAck(w, m))
    ensures var s, w' := m.append.leaderId, DoRecvAppendAck(w, m);
      w'.peers[s] == w.peers[s].(matchIndex := w'.peers[s].matchIndex, nextIndex := w'.peers[s].nextIndex)
  {
    hide ReignsOk, LogsOk, ElectionsOk, GrantsOk, TermsHeard, AcksOk, CompleteOk, HeldOk, VotedOk, Backup, Numbered;
    var s, w' := m.append.leaderId, DoRecvAppendAck(w, m);
    assert PeerShape(w.peers[s], w.pre[s], |w.peers|, s);
    assert PeerShape(w'.peers[s], w'.pre[s], |w.peers|, s);
    assert forall i: nat :: i < |w.peers| ==> Full(w', i) == Full(w, i);
    CoreStays(w, w');
  }

  lemma ReplyLeader(w: World, m: Msg)
    requires Shape(w) && ReignsOk(w) && LeadersOk(w) && Enabled(w, RecvAppendAck(m)) && MsgOk(w, m)
    requires m.appendReply.term <= w.peers[m.append.leaderId].currentTerm
    requires Shape(DoRecvAppendAck(w, m)) && Evolves(w, DoRecvAppendAck(w, m))
    ensures var s, w' := m.append.leaderId, DoRecvAppendAck(w, m);
      w'.peers[s].currentTerm in w'.reigns ==> LeaderOk(w', w'.peers[s].currentTerm)
  {
    hide CommitOk, Evolves, ReignsOk, Numbered, Backup, BackupInRange, Matched, TermAt;
    var s, w' := m.append.leaderId, DoRecvAppendAck(w, m);
    var t := w.peers[s].currentTerm;
    if t in w.reigns {
      assert LeaderOk(w, t);
      ReplicasLater(w, w', t);
      if BacksUp(w.peers[s], m.src, m.append, m.appendReply) { FastBackup(w, m); }
      assert Full(w', s) == Full(w, s);
    }
  }

  // ----- Sending ----------------------------------------------------------------------------------

  /** A request carries nothing, or all stored entries from index `next` on. */
  predicate Carries(p: Peer, next: int, entries: seq<Entry>) {
    entries == [] || (p.snapIndex < next <= p.snapIndex + |p.log| + 1 && entries == p.log[next - p.snapIndex - 1..])
  }

  /** The request fits a leader's full log: it names the entry before those it carries, and they
      follow it there. */
  predicate CutFrom(a: AppendArgs, leader: seq<Entry>) {
    && 0 <= a.prevLogIndex && a.prevLogIndex + |a.entries| <= |leader|
    && a.entries == leader[a.prevLogIndex..a.prevLogIndex + |a.entries|]
    && a.prevLogTerm == TermAt(leader, a.prevLogIndex)
  }

  lemma PrevIs(p: Peer, next: int, entries: seq<Entry>)
    requires WellFormed(p) && next <= p.snapIndex + |p.log| + 1
    ensures var a, k := PrevArgs(p, next, entries), next - p.snapIndex - 2;
      && a.entries == entries && a.prevLogIndex == Max(p.snapIndex, next - 1)
      && a.prevLogTerm == if k >= 0 then p.log[k].term else p.snapTerm
  {
  }

  lemma PrevTermIs(pre: seq<Entry>, log: seq<Entry>, k: int, term: int)
    requires k < |log| && term == if k >= 0 then log[k].term else TermAt(pre, |pre|)
    ensures term == TermAt(pre + log, Max(|pre|, |pre| + k + 1))
  {
  }

  lemma CarriedTail(pre: seq<Entry>, log: seq<Entry>, prev: nat, entries: seq<Entry>)
    requires |pre| <= prev <= |pre| + |log| && entries == log[prev - |pre|..]
    ensures prev + |entries| == |pre + log| && entries == (pre + log)[prev..]
  {
  }

  lemma CarriedIs(pre: seq<Entry>, p: Peer, next: int, entries: seq<Entry>, prev: int)
    requires |pre| == p.snapIndex && next <= p.snapIndex + |p.log| + 1 && Carries(p, next, entries) && prev == Max(|pre|, next - 1)
    ensures prev + |entries| <= |pre + p.log| && entries == (pre + p.log)[prev..prev + |entries|]
  {
    if entries == [] {
      EmptySlice(pre + p.log, prev);
    } else {
      CarriedTail(pre, p.log, prev, entries);
    }
  }

  lemma EmptySlice<T>(a: seq<T>, k: nat)
    requires k <= |a|
    ensures a[k..k + 0] == []
  {
  }

  lemma SentFits(pre: seq<Entry>, p: Peer, next: int, entries: seq<Entry>)
    requires WellFormed(p) && |pre| == p.snapIndex && p.snapTerm == TermAt(pre, |pre|) && next <= p.snapIndex + |p.log| + 1
    requires Carries(p, next, entries)
    ensures CutFrom(PrevArgs(p, next, entries), pre + p.log)
  {
    hide Numbered, PrevArgs, Carries, TermAt;
    PrevIs(p, next, entries);
    PrevTermIs(pre, p.log, next - p.snapIndex - 2, PrevArgs(p, next, entries).prevLogTerm);
    CarriedIs(pre, p, next, entries, PrevArgs(p, next, entries).prevLogIndex);
  }

  /** What a leader sends is cut from its own log. */
  lemma SendFits(w: World, s: nat, dst: nat, next: int, entries: seq<Entry>)
    requires Shape(w) && CommitsOk(w) && s < |w.peers| && dst < |w.peers| && s != dst
    requires w.peers[s].currentTerm in w.reigns && w.reigns[w.peers[s].currentTerm].leader == s
    requires LeaderOk(w, w.peers[s].currentTerm)
    requires next <= w.peers[s].snapIndex + |w.peers[s].log| + 1 && Carries(w.peers[s], next, entries)
    ensures AppendOk(w, dst, PrevArgs(w.peers[s], next, entries))
  {
    hide CommitOk, Replicated, Matched, Numbered, TermAt, Carries;
    var p, leader := w.peers[s], w.reigns[w.peers[s].currentTerm].log;
    assert PeerShape(p, w.pre[s], |w.peers|, s);
    assert Full(w, s) == w.pre[s] + p.log == leader;
    assert CommitOk(w, leader, p.commitIndex, p.currentTerm);
    SentFits(w.pre[s], p, next, entries);
    CutOk(w, dst, PrevArgs(p, next, entries));
  }

  lemma CutOk(w: World, dst: nat, a: AppendArgs)
    requires a.term in w.reigns && a.leaderId == w.reigns[a.term].leader && dst != a.leaderId && dst < |w.peers|
    requires CutFrom(a, w.reigns[a.term].log) && CommitOk(w, w.reigns[a.term].log, a.leaderCommit, a.term)
    ensures AppendOk(w, dst, a)
  {
  }

  lemma HeartbeatKeeps(w: World, s: nat, dst: nat)
    requires Inv(w) && Enabled(w, Heartbeat(s, dst))
    ensures Inv(Do(w, Heartbeat(s, dst))) && Evolves(w, Do(w, Heartbeat(s, dst)))
  {
    hide ReignsOk, LogsOk, ElectionsOk, GrantsOk, TermsHeard, AcksOk, CompleteOk, HeldOk, VotedOk, CommitsOk,
      NewEntriesOk, AppliersOk;
    var p := w.peers[s];
    assert LeaderOk(w, p.currentTerm);
    SendFits(w, s, dst, p.nextIndex[dst], []);
    AddMessage(w, DoSend(w, dst, HeartbeatArgs(p, dst)), Append(dst, HeartbeatArgs(p, dst)));
  }

  lemma ReplicateKeeps(w: World, s: nat, dst: nat)
    requires Inv(w) && Enabled(w, Replicate(s, dst))
    ensures Inv(Do(w, Replicate(s, dst))) && Evolves(w, Do(w, Replicate(s, dst)))
  {
    hide ReignsOk, LogsOk, GrantsOk, TermsHeard, AcksOk, CompleteOk, HeldOk, VotedOk, CommitsOk, NewEntriesOk, AppliersOk;
    var p := w.peers[s];
    assert ElectionOk(w, s, p.currentTerm);
    assert LeaderOk(w, p.currentTerm);
    SendFits(w, s, dst, p.nextIndex[dst], p.log[p.nextIndex[dst] - p.snapIndex - 1..]);
    AddMessage(w, DoSend(w, dst, ReplicateArgs(p, dst)), Append(dst, ReplicateArgs(p, dst)));
  }

  // ----- Advancing the commit index ------------------------------------------------------------------

  ghost function Matching(matchIndex: seq<int>, index: int): (q: set<nat>)
    ensures forall j: nat :: j in q <==> j < |matchIndex| && matchIndex[j] >= index
    ensures |q| == Replicas(matchIndex, index)
  {
    if matchIndex == [] then {}
    else
      var n := |matchIndex| - 1;
      var q := Matching(matchIndex[..n], index);
      if matchIndex[n] >= index then q + {n} else q
  }

  /** Every stored entry from position i up to k is of the leader's term. */
  predicate OwnTerm(p: Peer, i: nat, k: nat)
    requires k <= |p.log|
  {
    forall j :: i <= j < k ==> p.log[j].term == p.currentTerm
  }

  predicate Majority(p: Peer, index: int) { Replicas(p.matchIndex, index) > Half(p.n) }

  /** The commit index moves to the highest entry of the leader's own run that a majority stores,
      and only to such an entry. */
  lemma {:induction false} ScanHighest(p: Peer, k: nat)
    requires WellFormed(p) && k <= |p.log|
    ensures ScanCommit(p, k) >= p.commitIndex
    ensures forall i: nat :: i < k && OwnTerm(p, i, k) && Majority(p, p.log[i].index) ==> p.log[i].index <= ScanCommit(p, k)
    ensures ScanCommit(p, k) > p.commitIndex ==>
      exists i: nat :: i < k && OwnTerm(p, i, k) && Majority(p, p.log[i].index) && p.log[i].index == ScanCommit(p, k)
  {
    if k > 0 && p.log[k - 1].term == p.currentTerm {
      if Majority(p, p.log[k - 1].index) {
        assert OwnTerm(p, k - 1, k);
      } else {
        ScanHighest(p, k - 1);
        assert forall i: nat :: i < k ==> (OwnTerm(p, i, k) <==> OwnTerm(p, i, k - 1));
      }
    } else if k > 0 {
      assert forall i: nat :: i < k ==> !OwnTerm(p, i, k);
    }
  }

  /** A majority of match indexes is a majority of acknowledgements, or what it covers was committed
      before. */
  lemma MajorityCommits(w: World, s: nat, i: int)
    requires Shape(w) && s < |w.peers| && w.peers[s].currentTerm in w.reigns && w.reigns[w.peers[s].currentTerm].leader == s
    requires LeaderOk(w, w.peers[s].currentTerm) && OwnEntry(w, w.peers[s].currentTerm, i) && Majority(w.peers[s], i)
    ensures CommitOk(w, Full(w, s), i, w.peers[s].currentTerm)
  {
    var p, t := w.peers[s], w.peers[s].currentTerm;
    assert PeerShape(p, w.pre[s], |w.peers|, s);
    var q := Matching(p.matchIndex, i);
    assert Quorum(|w.peers|, q);
    if AckedAll(w, q, t, i) {
      assert Committed(w, t, i);
      assert CommitBy(w, Full(w, s), i, t, t, i);
    } else {
      var v :| v in q && !(v < |w.peers| && Acked(w, v, t) >= i);
      assert Replicated(w, v, t, p.matchIndex[v]);
      CommitOkLess(w, Full(w, s), p.matchIndex[v], i, t);
    }
  }

  lemma ScanCommits(w: World, s: nat, k: nat)
    requires Shape(w) && s < |w.peers| && k <= |w.peers[s].log|
    requires w.peers[s].currentTerm in w.reigns && w.reigns[w.peers[s].currentTerm].leader == s
    requires LeaderOk(w, w.peers[s].currentTerm)
    requires CommitOk(w, Full(w, s), w.peers[s].commitIndex, w.peers[s].currentTerm)
    ensures CommitOk(w, Full(w, s), ScanCommit(w.peers[s], k), w.peers[s].currentTerm)
    ensures ScanCommit(w.peers[s], k) >= w.peers[s].commitIndex
  {
    hide CommitOk;
    var p, t := w.peers[s], w.peers[s].currentTerm;
    assert PeerShape(p, w.pre[s], |w.peers|, s);
    if k > 0 && p.log[k - 1].term == t {
      var i := p.log[k - 1].index;
      assert Full(w, s)[i - 1] == p.log[k - 1];
      if Majority(p, i) {
        MajorityCommits(w, s, i);
      } else {
        ScanCommits(w, s, k - 1);
      }
    }
  }

  /** Only the commit index, the applied index and the applier of one peer change. */
  function Touch(w: World, s: nat, p: Peer, q: Applier, d: seq<Entry>, pending: seq<Entry>): World
    requires Shape(w) && s < |w.peers|
  {
    WithPeer(w, s, p).(appliers := w.appliers[s := q], delivered := w.delivered[s := d], pending := w.pending[s := pending])
  }

  ghost predicate MayTouch(w: World, s: nat, p: Peer, q: Applier, d: seq<Entry>, pending: seq<Entry>)
    requires Shape(w)
  {
    && s < |w.peers|
    && p == w.peers[s].(commitIndex := p.commitIndex, lastApplied := p.lastApplied)
    && w.peers[s].commitIndex <= p.commitIndex
    && CommitOk(w, Full(w, s), p.commitIndex, p.currentTerm)
    && ApplierFits(w, Full(w, s), p, q, d, pending)
  }

  lemma TouchQuiet(w: World, s: nat, p: Peer, q: Applier, d: seq<Entry>, pending: seq<Entry>)
    requires Shape(w) && MayTouch(w, s, p, q, d, pending)
    ensures Quiet(w, Touch(w, s, p, q, d, pending), s)
  {
    var w' := Touch(w, s, p, q, d, pending);
    assert PeerShape(w.peers[s], w.pre[s], |w.peers|, s);
    assert PeerShape(p, w.pre[s], |w.peers|, s);
    assert forall i: nat :: i < |w.peers| ==> Full(w', i) == Full(w, i);
  }

  lemma TouchTail(w: World, s: nat, p: Peer, q: Applier, d: seq<Entry>, pending: seq<Entry>)
    requires Shape(w) && MayTouch(w, s, p, q, d, pending) && Shape(Touch(w, s, p, q, d, pending)) && Evolves(w, Touch(w, s, p, q, d, pending))
    ensures CommitOk(Touch(w, s, p, q, d, pending), Full(w, s), p.commitIndex, p.currentTerm) && ApplierOk(Touch(w, s, p, q, d, pending), s)
  {
    var w', full := Touch(w, s, p, q, d, pending), Full(w, s);
    CommitOkBound(w, full, p.commitIndex, p.currentTerm);
    CommitOkStays(w, w', full, full, p.commitIndex, p.currentTerm, p.currentTerm);
    CommitOkStays(w, w', full, full, Max(End(q, d), |pending|), p.currentTerm, p.currentTerm);
  }

  lemma TouchLeader(w: World, s: nat, p: Peer, q: Applier, d: seq<Entry>, pending: seq<Entry>)
    requires Shape(w) && LeadersOk(w) && MayTouch(w, s, p, q, d, pending)
    requires Shape(Touch(w, s, p, q, d, pending)) && Evolves(w, Touch(w, s, p, q, d, pending))
    requires p.currentTerm in w.reigns
    ensures LeaderOk(Touch(w, s, p, q, d, pending), p.currentTerm)
  {
    hide CommitOk, Evolves, ApplierFits;
    var w' := Touch(w, s, p, q, d, pending);
    assert LeaderOk(w, p.currentTerm);
    ReplicasLater(w, w', p.currentTerm);
    assert Full(w', s) == Full(w, s);
  }

  lemma TouchKeeps(w: World, s: nat, p: Peer, q: Applier, d: seq<Entry>, pending: seq<Entry>)
    requires Inv(w) && MayTouch(w, s, p, q, d, pending)
    ensures Inv(Touch(w, s, p, q, d, pending)) && Evolves(w, Touch(w, s, p, q, d, pending))
  {
    hide ReignsOk, LogsOk, ElectionsOk, GrantsOk, TermsHeard, LeadersOk, AcksOk, CompleteOk, HeldOk, VotedOk,
      NewEntriesOk, AppliersOk;
    var w' := Touch(w, s, p, q, d, pending);
    TouchQuiet(w, s, p, q, d, pending);
    CoreStays(w, w');
    TouchTail(w, s, p, q, d, pending);
    if p.currentTerm in w.reigns { TouchLeader(w, s, p, q, d, pending); }
    QuietKeeps(w, w', s);
  }

  lemma CommitKeeps(w: World, s: nat)
    requires Inv(w) && Enabled(w, Commit(s))
    ensures Inv(DoCommit(w, s)) && Evolves(w, DoCommit(w, s))
  {
    hide ReignsOk, LogsOk, GrantsOk, TermsHeard, AcksOk, CompleteOk, HeldOk, VotedOk, NewEntriesOk, NetOk, CommitOk,
      LogOk, ScanCommit, Replicated;
    var p := w.peers[s];
    assert ElectionOk(w, s, p.currentTerm) && ApplierOk(w, s);
    assert LeaderOk(w, p.currentTerm);
    ScanCommits(w, s, |p.log|);
    TouchKeeps(w, s, UpdateCommit(p), w.appliers[s], w.delivered[s], w.pending[s]);
    assert DoCommit(w, s) == Touch(w, s, UpdateCommit(p), w.appliers[s], w.delivered[s], w.pending[s]) by { CommitIsTouch(w, s); }
  }

  lemma SameUpdates(w: World, s: nat)
    requires Shape(w) && s < |w.peers|
    ensures w.peers[s := w.peers[s]] == w.peers && w.appliers[s := w.appliers[s]] == w.appliers
    ensures w.delivered[s := w.delivered[s]] == w.delivered && w.pending[s := w.pending[s]] == w.pending
  {
  }

  lemma CommitIsTouch(w: World, s: nat)
    requires Shape(w) && s < |w.peers|
    ensures DoCommit(w, s) == Touch(w, s, UpdateCommit(w.peers[s]), w.appliers[s], w.delivered[s], w.pending[s])
  {
    SameUpdates(w, s);
  }

  // ----- Delivery ----------------------------------------------------------------------------------------

  /** The batch the applier copies is the part of the full log past lastApplied. */
  lemma BatchIsSlice(pre: seq<Entry>, p: Peer, n: nat, s: nat)
    requires PeerShape(p, pre, n, s) && CanTake(p)
    ensures 0 <= p.lastApplied && p.commitIndex <= |pre + p.log|
    ensures TakeBatch(p) == (pre + p.log)[p.lastApplied..p.commitIndex]
    ensures forall k :: 0 <= k < |TakeBatch(p)| ==> TakeBatch(p)[k].index == p.lastApplied + k + 1
  {
  }

  lemma TakenIs(pre: seq<Entry>, p: Peer, n: nat, s: nat, pending: seq<Entry>)
    requires PeerShape(p, pre, n, s) && |pending| <= p.lastApplied && (p.lastApplied < p.commitIndex ==> CanTake(p))
    ensures var q, k := Taken(Batch(p), pending), Max(p.lastApplied, p.commitIndex);
      && 0 <= p.lastApplied && q.busy && q.snapshot == pending
      && (if p.lastApplied < p.commitIndex
          then k <= |pre + p.log| && q.queue == (pre + p.log)[p.lastApplied..k] && q.last == k
          else q.queue == [] && q.last == 0)
  {
    hide Uncovered, Numbered;
    if CanTake(p) { BatchIsSlice(pre, p, n, s); }
    AllUncovered(Batch(p), |pending|);
  }

  /** An idle applier takes a pending snapshot and the batch behind it. */
  lemma TakeFits(w: World, s: nat)
    requires Shape(w) && Enabled(w, Take(s)) && ApplierOk(w, s) && CommitsOk(w)
    ensures MayTouch(w, s, w.peers[s], Taken(Batch(w.peers[s]), w.pending[s]), w.delivered[s], [])
  {
    hide CommitOk, Taken, Batch, PeerShape, CanTake;
    assert PeerShape(w.peers[s], w.pre[s], |w.peers|, s);
    TakenIs(w.pre[s], w.peers[s], |w.peers|, s, w.pending[s]);
  }

  lemma TakeKeeps(w: World, s: nat)
    requires Inv(w) && Enabled(w, Take(s))
    ensures Inv(DoTake(w, s)) && Evolves(w, DoTake(w, s))
  {
    hide ReignsOk, LogsOk, ElectionsOk, GrantsOk, TermsHeard, LeadersOk, AcksOk, CompleteOk, HeldOk, VotedOk,
      NewEntriesOk, NetOk, MayTouch;
    assert ApplierOk(w, s);
    TakeFits(w, s);
    TouchKeeps(w, s, w.peers[s], Taken(Batch(w.peers[s]), w.pending[s]), w.delivered[s], []);
    SameUpdates(w, s);
  }

  /** The service takes the snapshot if it is newer, otherwise the next command. */
  lemma DeliverFits(full: seq<Entry>, q: Applier, d: seq<Entry>)
    requires d <= full && q.snapshot <= full && End(q, d) <= |full| && (q.snapshot != [] || q.queue != [])
    requires q.queue == full[Max(|d|, |q.snapshot|)..End(q, d)]
    ensures var r := Received(q, d);
      && r.1 <= full && r.0.snapshot <= full && End(r.0, r.1) == End(q, d)
      && r.0.queue == full[Max(|r.1|, |r.0.snapshot|)..End(r.0, r.1)]
  {
    if q.snapshot == [] {
      assert d + [full[|d|]] == full[..|d| + 1];
    }
  }

  function Queued(w: World, s: nat): Applier
    requires Shape(w) && Enabled(w, Deliver(s))
  {
    Received(w.appliers[s], w.delivered[s]).0
  }

  function Holding(w: World, s: nat): seq<Entry>
    requires Shape(w) && Enabled(w, Deliver(s))
  {
    Received(w.appliers[s], w.delivered[s]).1
  }

  lemma DeliverIsTouch(w: World, s: nat)
    requires Shape(w) && Enabled(w, Deliver(s)) && ApplierOk(w, s) && CommitsOk(w)
    ensures DoDeliver(w, s) == Touch(w, s, w.peers[s], Queued(w, s), Holding(w, s), w.pending[s])
    ensures MayTouch(w, s, w.peers[s], Queued(w, s), Holding(w, s), w.pending[s])
  {
    hide CommitOk;
    DeliverFits(Full(w, s), w.appliers[s], w.delivered[s]);
    SameUpdates(w, s);
  }

  lemma DeliverKeeps(w: World, s: nat)
    requires Inv(w) && Enabled(w, Deliver(s))
    ensures Inv(DoDeliver(w, s)) && Evolves(w, DoDeliver(w, s))
  {
    hide ReignsOk, LogsOk, ElectionsOk, GrantsOk, TermsHeard, LeadersOk, AcksOk, CompleteOk, HeldOk, VotedOk,
      NewEntriesOk, NetOk, MayTouch;
    assert ApplierOk(w, s);
    DeliverIsTouch(w, s);
    TouchKeeps(w, s, w.peers[s], Queued(w, s), Holding(w, s), w.pending[s]);
  }

  /** Once everything is handed over, lastApplied says exactly how far: the delivered commands and a
      snapshot that arrived meanwhile. */
  lemma FinishCounts(w: World, s: nat)
    requires Shape(w) && Enabled(w, Finish(s)) && ApplierOk(w, s)
    ensures Applied(w.peers[s], w.appliers[s].last).lastApplied == Max(|w.delivered[s]|, |w.pending[s]|)
    ensures w.peers[s].lastApplied <= Applied(w.peers[s], w.appliers[s].last).lastApplied
  {
    assert PeerShape(w.peers[s], w.pre[s], |w.peers|, s);
  }

  lemma FinishIsTouch(w: World, s: nat)
    requires Shape(w) && Enabled(w, Finish(s)) && ApplierOk(w, s) && CommitsOk(w)
    ensures var p := Applied(w.peers[s], w.appliers[s].last);
      && DoFinish(w, s) == Touch(w, s, p, Idle, w.delivered[s], w.pending[s])
      && MayTouch(w, s, p, Idle, w.delivered[s], w.pending[s])
  {
    hide CommitOk;
    FinishCounts(w, s);
    SameUpdates(w, s);
  }

  lemma FinishKeeps(w: World, s: nat)
    requires Inv(w) && Enabled(w, Finish(s))
    ensures Inv(DoFinish(w, s)) && Evolves(w, DoFinish(w, s))
  {
    hide ReignsOk, LogsOk, ElectionsOk, GrantsOk, TermsHeard, LeadersOk, AcksOk, CompleteOk, HeldOk, VotedOk,
      NewEntriesOk, NetOk, MayTouch;
    assert ApplierOk(w, s);
    FinishIsTouch(w, s);
    TouchKeeps(w, s, Applied(w.peers[s], w.appliers[s].last), Idle, w.delivered[s], w.pending[s]);
  }
}

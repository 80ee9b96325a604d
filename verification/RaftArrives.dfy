/** Commands can always get through: from every reachable state of two or more peers, and for any
    command, some run leads to a state in which every peer has delivered it, at the same new index.
    It takes an election, replication with backing up and with snapshots, a commit, its news by
    heartbeat, and the appliers. */
module RaftArrives {
  import opened RaftPeer
  import opened RaftWorld
  import opened RaftInv
  import opened RaftFacts
  import opened RaftElection
  import opened RaftLead
  import opened RaftSafety
  import opened RaftElectable

  // ----- The applier empties its hands ---------------------------------------------------------------

  /** Only the applier of peer f moved. */
  ghost predicate OnlyApplies(w: World, w': World, f: nat) {
    && f < |w.peers| == |w'.peers| == |w'.appliers| == |w'.delivered| == |w'.pending|
    && w'.peers == w.peers[f := w'.peers[f]] && w'.peers[f] == w.peers[f].(lastApplied := w'.peers[f].lastApplied)
    && w'.pre == w.pre && w'.net == w.net && w'.elections == w.elections && w'.reigns == w.reigns && w'.acks == w.acks
    && forall v :: 0 <= v < |w.delivered| && v < |w'.delivered| && v != f ==> w'.delivered[v] == w.delivered[v]
  }

  /** The service of f holds all that f had committed, and f holds nothing for it. */
  ghost predicate Drained(w: World, f: nat) {
    && f < |w.peers| == |w.appliers| == |w.delivered| == |w.pending|
    && !w.appliers[f].busy && w.pending[f] == [] && |w.delivered[f]| >= w.peers[f].commitIndex
  }

  predicate Emptied(q: Applier) { q.snapshot == [] && q.queue == [] }

  lemma {:induction false} DeliverAll(w: World, f: nat) returns (w': World)
    requires Inv(w) && f < |w.peers|
    ensures Reaches(w, w') && Inv(w') && OnlyApplies(w, w', f) && w'.peers == w.peers && w'.pending == w.pending
    ensures Shape(w) && Emptied(w'.appliers[f]) && w'.appliers[f].busy == w.appliers[f].busy && w'.appliers[f].last == w.appliers[f].last
    decreases if Shape(w) then |w.appliers[f].queue| + |w.appliers[f].snapshot| else 0
  {
    hide Inv, Reaches, PeerShape;
    InvShape(w);
    if Emptied(w.appliers[f]) {
      w' := w;
      Stays(w);
    } else {
      var w1 := OneStep(w, Deliver(f));
      InvShape(w1);
      w' := DeliverAll(w1, f);
      Onward(w, w1, w');
    }
  }

  lemma FinishUp(w: World, f: nat) returns (w': World)
    requires Inv(w) && f < |w.peers|
    ensures Reaches(w, w') && Inv(w') && OnlyApplies(w, w', f) && Shape(w)
    ensures !w'.appliers[f].busy && w'.pending == w.pending
    ensures w'.peers[f].lastApplied == if w.appliers[f].busy && w.appliers[f].last != 0 then Max(w.peers[f].lastApplied, w.appliers[f].last) else w.peers[f].lastApplied
  {
    hide Inv, Reaches, PeerShape;
    InvShape(w);
    w' := w;
    Stays(w);
    if w.appliers[f].busy {
      var w1 := DeliverAll(w, f);
      InvShape(w1);
      w' := OneStep(w1, Finish(f));
      InvShape(w');
      Onward(w, w1, w');
    }
  }

  /** What the invariant says of an idle applier, and of the batch it may take. */
  lemma ApplierStands(w: World, f: nat)
    requires Inv(w) && f < |w.peers|
    ensures Shape(w) && PeerShape(w.peers[f], w.pre[f], |w.peers|, f)
    ensures !w.appliers[f].busy ==> w.peers[f].lastApplied == Max(|w.delivered[f]|, |w.pending[f]|)
    ensures w.peers[f].lastApplied < w.peers[f].commitIndex ==> CanTake(w.peers[f])
  {
    hide ReignsOk, LogsOk, ElectionsOk, GrantsOk, TermsHeard, LeadersOk, AcksOk, CompleteOk, HeldOk, VotedOk,
      NewEntriesOk, NetOk, CommitOk;
    assert ApplierOk(w, f);
    CommitOkBound(w, Full(w, f), w.peers[f].commitIndex, w.peers[f].currentTerm);
  }

  lemma TakeUp(w: World, f: nat) returns (w': World)
    requires Inv(w) && f < |w.peers| && Shape(w) && !w.appliers[f].busy
    requires w.peers[f].lastApplied < w.peers[f].commitIndex || w.pending[f] != []
    ensures Reaches(w, w') && Inv(w') && OnlyApplies(w, w', f) && Shape(w')
    ensures !w'.appliers[f].busy && w'.pending[f] == [] && w'.peers[f].lastApplied >= w.peers[f].commitIndex
  {
    hide Inv, Reaches, PeerShape, Taken, Batch, CanTake;
    ApplierStands(w, f);
    TakenIs(w.pre[f], w.peers[f], |w.peers|, f, w.pending[f]);
    var w1 := OneStep(w, Take(f));
    InvShape(w1);
    w' := FinishUp(w1, f);
    InvShape(w');
    Onward(w, w1, w');
  }

  /** A peer can hand over all it has committed, and nothing else moves. */
  lemma Drain(w: World, f: nat) returns (w': World)
    requires Inv(w) && f < |w.peers|
    ensures Reaches(w, w') && Inv(w') && OnlyApplies(w, w', f) && Drained(w', f)
  {
    hide Inv, Reaches, PeerShape;
    InvShape(w);
    var w1 := FinishUp(w, f);
    InvShape(w1);
    w' := w1;
    if w1.peers[f].lastApplied < w1.peers[f].commitIndex || w1.pending[f] != [] {
      w' := TakeUp(w1, f);
      Onward(w, w1, w');
    }
    ApplierStands(w', f);
  }

  ghost predicate Delivered(w: World, f: nat, k: nat) {
    f < |w.delivered| && |w.delivered[f]| >= k
  }

  ghost predicate CommittedAll(w: World, k: nat) {
    forall v :: 0 <= v < |w.peers| ==> w.peers[v].commitIndex >= k
  }

  lemma {:induction false} DrainAll(w: World, k: nat, todo: set<nat>) returns (w': World)
    requires Inv(w) && CommittedAll(w, k) && todo <= Ids(|w.peers|)
    requires forall v: nat :: v < |w.peers| && v !in todo ==> Delivered(w, v, k)
    ensures Reaches(w, w') && Inv(w') && |w'.peers| == |w.peers| && w'.pre == w.pre && SameStored(w, w')
    ensures forall v: nat :: v < |w'.peers| ==> Delivered(w', v, k)
    decreases |todo|
  {
    hide Inv, Reaches;
    InvShape(w);
    if todo == {} {
      w' := w;
      Stays(w);
    } else {
      var f :| f in todo;
      var w1 := Drain(w, f);
      InvShape(w1);
      forall v: nat | v < |w1.peers| && v !in todo - {f} ensures Delivered(w1, v, k) {
        assert v != f ==> Delivered(w, v, k);
      }
      w' := DrainAll(w1, k, todo - {f});
      Onward(w, w1, w');
    }
  }

  /** No stored log changed. */
  ghost predicate SameStored(w: World, w': World) {
    |w'.peers| == |w.peers| && forall v :: 0 <= v < |w.peers| ==> w'.peers[v].log == w.peers[v].log
  }

  // ----- A follower catches up -------------------------------------------------------------------------

  /** Peer s leads everyone in term t; its log has k entries, the last of its own term. */
  ghost predicate Leading(w: World, s: nat, t: int, k: nat) {
    && Shape(w) && LeadsAll(w, s, t) && |Full(w, s)| == k
    && var p := w.peers[s];
    && p.log != [] && p.log[|p.log| - 1].term == t
    && |p.nextIndex| == |p.matchIndex| == |w.peers| && p.nextIndex[s] == k + 1 && p.matchIndex[s] >= k
  }

  predicate HoldsAt(q: Peer, k: int, t: int) {
    k <= q.snapIndex || (k <= q.snapIndex + |q.log| && q.log[k - q.snapIndex - 1].term == t)
  }

  /** Follower f has the leader's k entries, heard of them in this term, and the leader knows. */
  ghost predicate CaughtUp(w: World, s: nat, f: nat, t: int, k: nat) {
    && s < |w.peers| && f < |w.peers|
    && |w.peers[s].nextIndex| == |w.peers[s].matchIndex| == |w.peers|
    && w.peers[s].matchIndex[f] >= k && w.peers[s].nextIndex[f] == k + 1
    && w.peers[f].lastNewEntryIndex >= k && HoldsAt(w.peers[f], k, t)
  }

  /** What the exchange between s and f may change. */
  ghost predicate OnlyFor(w: World, w': World, s: nat, f: nat) {
    && s < |w.peers| == |w'.peers| && f < |w.peers| && s != f
    && s < |w.pre| && s < |w'.pre| && w'.pre[s] == w.pre[s]
    && (forall v :: 0 <= v < |w.peers| && v != s && v != f ==> w'.peers[v] == w.peers[v])
    && f < |w.peers[s].nextIndex| == |w'.peers[s].nextIndex| && f < |w.peers[s].matchIndex| == |w'.peers[s].matchIndex|
    && w'.peers[s] == w.peers[s].(nextIndex := w.peers[s].nextIndex[f := w'.peers[s].nextIndex[f]],
                                  matchIndex := w.peers[s].matchIndex[f := w'.peers[s].matchIndex[f]])
    && w'.peers[f].role == Follower && w'.peers[f].currentTerm == w'.peers[f].leaderTerm == w.peers[s].currentTerm
    && w'.peers[f].commitIndex <= Max(w.peers[f].commitIndex, Max(w.peers[s].commitIndex, w.peers[s].snapIndex))
  }

  lemma OnlyForTrans(a: World, b: World, c: World, s: nat, f: nat)
    requires OnlyFor(a, b, s, f) && OnlyFor(b, c, s, f)
    ensures OnlyFor(a, c, s, f)
  {
    assert c.peers[s].nextIndex == a.peers[s].nextIndex[f := c.peers[s].nextIndex[f]];
    assert c.peers[s].matchIndex == a.peers[s].matchIndex[f := c.peers[s].matchIndex[f]];
  }

  lemma LeadingStays(w: World, w': World, s: nat, f: nat, t: int, k: nat)
    requires Leading(w, s, t, k) && Shape(w') && OnlyFor(w, w', s, f)
    ensures Leading(w', s, t, k)
  {
    hide PeerShape;
  }

  /** A follower that is in the leader's term keeps it, and does what the request asks. */
  lemma FollowerAppend(p: Peer, a: AppendArgs)
    requires p.currentTerm == p.leaderTerm == a.term && p.role == Follower && 0 <= p.snapIndex
    ensures var (p', r) := AppendEntries(p, a);
      && p'.currentTerm == p'.leaderTerm == a.term && p'.role == Follower && p'.snapIndex == p.snapIndex && r.term == a.term
      && p'.commitIndex <= Max(p.commitIndex, a.leaderCommit)
      && (if PrevMatches(p, a)
          then r.success && (a.entries != [] ==> p'.lastNewEntryIndex >= a.prevLogIndex + |a.entries|)
          else !r.success && r.conflict)
  {
  }

  /** The leader has sent its entries from the next index on, and the follower has answered. */
  ghost predicate Answered(w: World, w1: World, s: nat, f: nat, t: int, k: nat, a: AppendArgs, r: AppendReply) {
    && s < |w.peers| && f < |w.peers| && s != f && 0 <= w.peers[f].snapIndex && f < |w.peers[s].nextIndex|
    && a.term == t && a.leaderId == s && a.prevLogIndex == w.peers[s].nextIndex[f] - 1 && a.prevLogIndex + |a.entries| == k && a.entries != []
    && a.leaderCommit == w.peers[s].commitIndex
    && (w1.peers, r) == (w.peers[f := AppendEntries(w.peers[f], a).0], AppendEntries(w.peers[f], a).1)
    && w1.pre == w.pre && AppendAck(f, a, r) in w1.net && w1.reigns == w.reigns
    && (r.success && k > w1.peers[f].snapIndex ==> Acked(w1, f, t) >= k)
  }

  lemma ArgsReach(w: World, s: nat, f: nat, t: int, k: nat)
    requires Leading(w, s, t, k) && f < |w.peers| && w.peers[s].snapIndex < w.peers[s].nextIndex[f] <= k
    ensures CanReplicate(w.peers[s], f) && NextInRange(w.peers[s], f)
    ensures var a := ReplicateArgs(w.peers[s], f);
      a.term == t && a.leaderId == s && a.prevLogIndex == w.peers[s].nextIndex[f] - 1 && a.prevLogIndex + |a.entries| == k && a.entries != []
      && a.leaderCommit == w.peers[s].commitIndex
  {
    assert PeerShape(w.peers[s], w.pre[s], |w.peers|, s);
  }

  lemma LeaderElected(w: World, s: nat, t: int)
    requires Inv(w) && LeadsAll(w, s, t)
    ensures Elected(w, s, t) && t in w.reigns && w.reigns[t].leader == s && Shape(w) && Full(w, s) == w.reigns[t].log
    ensures forall j :: 0 <= j < |w.peers| ==> 1 <= w.peers[s].nextIndex[j] <= |w.reigns[t].log| + 1
  {
    hide LogsOk, ElectionsOk, GrantsOk, TermsHeard, AcksOk, CompleteOk, HeldOk, VotedOk, CommitsOk, NewEntriesOk,
      NetOk, AppliersOk;
    assert ReignOk(w, t) && LeaderOk(w, t);
  }

  lemma SnapPositive(w: World, f: nat)
    requires Shape(w) && f < |w.peers|
    ensures 0 <= w.peers[f].snapIndex
  {
    assert PeerShape(w.peers[f], w.pre[f], |w.peers|, f);
  }

  lemma Ask(w: World, s: nat, f: nat, t: int, k: nat) returns (w1: World, a: AppendArgs, r: AppendReply)
    requires Inv(w) && Leading(w, s, t, k) && f < |w.peers| && f != s && w.peers[s].snapIndex < w.peers[s].nextIndex[f] <= k
    ensures Reaches(w, w1) && Inv(w1) && Answered(w, w1, s, f, t, k, a, r)
  {
    hide Inv, Reaches, PeerShape, AppendEntries, ReplicateArgs, CanReplicate, NextInRange;
    ArgsReach(w, s, f, t, k);
    LeaderElected(w, s, t);
    SnapPositive(w, f);
    a := ReplicateArgs(w.peers[s], f);
    var w0 := OneStep(w, Replicate(s, f));
    InvShape(w0);
    r := AppendEntries(w.peers[f], a).1;
    w1 := OneStep(w0, RecvAppend(Append(f, a)));
    Onward(w, w0, w1);
  }

  /** What a follower acknowledged in a term nobody has left, it holds. */
  lemma HeldNow(w: World, s: nat, f: nat, t: int, k: nat)
    requires Inv(w) && LeadsAll(w, s, t) && Shape(w) && f < |w.peers| && |Full(w, s)| == k && 1 <= k && Full(w, s)[k - 1].term == t
    requires k > w.peers[f].snapIndex ==> Acked(w, f, t) >= k
    ensures HoldsAt(w.peers[f], k, t)
  {
    hide ReignsOk, LogsOk, ElectionsOk, GrantsOk, TermsHeard, LeadersOk, AcksOk, CompleteOk, VotedOk, CommitsOk,
      NewEntriesOk, NetOk, AppliersOk;
    LeaderElected(w, s, t);
    if k > w.peers[f].snapIndex {
      assert Choosable(w, t, k) by { AllCanAck(w, s, t, k); }
      assert Keeps(w, Full(w, f), t, k);
      assert PeerShape(w.peers[f], w.pre[f], |w.peers|, f);
      var own := w.reigns[t].log;
      assert Full(w, f)[k - 1] == own[..k][k - 1] == own[k - 1];
    }
  }

  lemma AllCanAck(w: World, s: nat, t: int, k: nat)
    requires LeadsAll(w, s, t) && OwnEntry(w, t, k) && |w.peers| >= 1
    ensures Choosable(w, t, k)
  {
    var q := Ids(|w.peers|);
    assert Quorum(|w.peers|, q);
    forall v | v in q ensures CanAck(w, v, t, k) {
    }
    assert CanAckAll(w, q, t, k);
  }

  lemma LastEntry(w: World, s: nat, t: int, k: nat)
    requires Leading(w, s, t, k)
    ensures 1 <= k && Full(w, s)[k - 1].term == t && w.peers[s].snapIndex < k == w.peers[s].snapIndex + |w.peers[s].log|
  {
    assert PeerShape(w.peers[s], w.pre[s], |w.peers|, s);
  }

  /** The leader hears that its entries were taken. */
  lemma HearSuccess(w: World, w1: World, s: nat, f: nat, t: int, k: nat, a: AppendArgs, r: AppendReply) returns (w': World)
    requires Leading(w, s, t, k) && Inv(w1) && Leading(w1, s, t, k) && OnlyFor(w, w1, s, f)
    requires Answered(w, w1, s, f, t, k, a, r) && w.peers[s].nextIndex[f] <= k && r.success && r.term == t && w1.peers[f].lastNewEntryIndex >= k
    ensures Reaches(w1, w') && Inv(w') && OnlyFor(w1, w', s, f) && CaughtUp(w', s, f, t, k)
  {
    hide Inv, Reaches, PeerShape, AppendEntries, Full;
    LastEntry(w1, s, t, k);
    HeldNow(w1, s, f, t, k);
    w' := OneStep(w1, RecvAppendAck(AppendAck(f, a, r)));
  }

  /** Or that it has to go back, and goes back. */
  lemma HearConflict(w: World, w1: World, s: nat, f: nat, t: int, k: nat, a: AppendArgs, r: AppendReply) returns (w': World)
    requires Leading(w, s, t, k) && Inv(w1) && Leading(w1, s, t, k) && OnlyFor(w, w1, s, f)
    requires Answered(w, w1, s, f, t, k, a, r) && !r.success && r.conflict && r.term == t
    ensures Reaches(w1, w') && Inv(w') && OnlyFor(w1, w', s, f) && 1 <= w'.peers[s].nextIndex[f] < w.peers[s].nextIndex[f]
  {
    hide Inv, Reaches, PeerShape, AppendEntries, Full, Backup, BackupInRange;
    var m := AppendAck(f, a, r);
    BacksOff(w1, s, t, m);
    w' := OneStep(w1, RecvAppendAck(m));
  }

  lemma BacksOff(w: World, s: nat, t: int, m: Msg)
    requires Inv(w) && LeadsAll(w, s, t) && m in w.net && m.AppendAck? && m.append.term == t
    requires m.src < |w.peers| && |w.peers[s].nextIndex| == |w.peers| && BacksUp(w.peers[s], m.src, m.append, m.appendReply)
    ensures BackupInRange(w.peers[s].log, m.appendReply) && 1 <= Backup(w.peers[s].log, m.appendReply) < w.peers[s].nextIndex[m.src]
  {
    hide LogsOk, ElectionsOk, GrantsOk, TermsHeard, AcksOk, CompleteOk, HeldOk, VotedOk, CommitsOk, NewEntriesOk, AppliersOk;
    assert MsgOk(w, m);
    FastBackup(w, m);
  }

  /** One exchange of entries: the follower has caught up, or the leader goes further back. */
  lemma Round(w: World, s: nat, f: nat, t: int, k: nat) returns (w': World)
    requires Inv(w) && Leading(w, s, t, k) && f < |w.peers| && f != s && w.peers[s].snapIndex < w.peers[s].nextIndex[f] <= k
    ensures Reaches(w, w') && Inv(w') && OnlyFor(w, w', s, f) && Leading(w', s, t, k)
    ensures CaughtUp(w', s, f, t, k) || 1 <= w'.peers[s].nextIndex[f] < w.peers[s].nextIndex[f]
    ensures w.peers[s].nextIndex[f] <= w.peers[f].snapIndex + 1 ==> CaughtUp(w', s, f, t, k)
  {
    hide Inv, Reaches, PeerShape, AppendEntries, HoldsAt, Full, Acked;
    var w1, a, r := Ask(w, s, f, t, k);
    FollowerAppend(w.peers[f], a);
    InvShape(w1);
    LeadingStays(w, w1, s, f, t, k);
    if r.success {
      w' := HearSuccess(w, w1, s, f, t, k, a, r);
    } else {
      w' := HearConflict(w, w1, s, f, t, k, a, r);
    }
    Onward(w, w1, w');
    OnlyForTrans(w, w1, w', s, f);
    InvShape(w');
    LeadingStays(w, w', s, f, t, k);
  }

  lemma FollowerInstall(p: Peer, a: InstallArgs)
    requires p.currentTerm == p.leaderTerm == a.term && p.role == Follower && a.lastIncludedIndex >= 0
    ensures var (p', _, r) := InstallSnapshot(p, 0, a);
      && p'.currentTerm == p'.leaderTerm == a.term && p'.role == Follower && p'.snapIndex >= a.lastIncludedIndex
      && p'.commitIndex <= Max(p.commitIndex, a.lastIncludedIndex)
      && r == InstallReply(a.term, true)
  {
    hide Trim;
  }

  /** The snapshot was sent and answered. */
  ghost predicate Shipped(w: World, w2: World, s: nat, f: nat, t: int) {
    && s < |w.peers| && f < |w.peers| == |w2.peers| && w2.peers[s] == w.peers[s] && s < |w.pre| && s < |w2.pre| && w2.pre[s] == w.pre[s]
    && (forall v :: 0 <= v < |w.peers| && v != f ==> w2.peers[v] == w.peers[v])
    && w2.peers[f].role == Follower && w2.peers[f].currentTerm == w2.peers[f].leaderTerm == t
    && w2.peers[f].snapIndex >= w.peers[s].snapIndex && w2.peers[f].commitIndex <= Max(w.peers[f].commitIndex, w.peers[s].snapIndex)
    && InstallAck(f, SnapshotArgs(w.peers[s]), InstallReply(t, true)) in w2.net
  }

  lemma Ship(w: World, s: nat, f: nat, t: int, k: nat) returns (w2: World)
    requires Inv(w) && Leading(w, s, t, k) && f < |w.peers| && f != s && w.peers[s].nextIndex[f] <= w.peers[s].snapIndex && w.pending[f] == []
    ensures Reaches(w, w2) && Inv(w2) && Shipped(w, w2, s, f, t)
  {
    hide Inv, Reaches, PeerShape, InstallSnapshot, Installs, Full;
    LastEntry(w, s, t, k);
    LeaderElected(w, s, t);
    SnapPositive(w, s);
    ShapeSize(w, s);
    var a := SnapshotArgs(w.peers[s]);
    var w1 := OneStep(w, SendSnapshot(s, f));
    InvShape(w1);
    FollowerInstall(w.peers[f], a);
    w2 := OneStep(w1, RecvInstall(Install(f, a, w.pre[s])));
    Onward(w, w1, w2);
  }

  /** One exchange of a snapshot: the next index is past it, and so is the follower. */
  lemma SnapshotRound(w: World, s: nat, f: nat, t: int, k: nat) returns (w': World)
    requires Inv(w) && Leading(w, s, t, k) && f < |w.peers| && f != s && w.peers[s].nextIndex[f] <= w.peers[s].snapIndex && w.pending[f] == []
    ensures Reaches(w, w') && Inv(w') && OnlyFor(w, w', s, f)
    ensures w'.peers[s].nextIndex[f] == w.peers[s].snapIndex + 1 <= w'.peers[f].snapIndex + 1
  {
    hide Inv, Reaches, PeerShape, Full;
    ShapeSize(w, s);
    var w2 := Ship(w, s, f, t, k);
    InvShape(w2);
    w' := OneStep(w2, RecvInstallAck(InstallAck(f, SnapshotArgs(w.peers[s]), InstallReply(t, true))));
    Onward(w, w2, w');
  }

  lemma BySnapshot(w: World, s: nat, f: nat, t: int, k: nat) returns (w': World)
    requires Inv(w) && Leading(w, s, t, k) && f < |w.peers| && f != s && w.peers[s].nextIndex[f] <= w.peers[s].snapIndex
    ensures Reaches(w, w') && Inv(w') && OnlyFor(w, w', s, f) && Leading(w', s, t, k) && CaughtUp(w', s, f, t, k)
  {
    hide Inv, Reaches, PeerShape, Full, CaughtUp;
    var w1 := Drain(w, f);
    InvShape(w1);
    assert OnlyFor(w, w1, s, f);
    LeadingStays(w, w1, s, f, t, k);
    var w2 := SnapshotRound(w1, s, f, t, k);
    InvShape(w2);
    LeadingStays(w1, w2, s, f, t, k);
    LastEntry(w2, s, t, k);
    w' := Round(w2, s, f, t, k);
    Onward(w, w1, w2);
    Onward(w, w2, w');
    OnlyForTrans(w, w1, w2, s, f);
    OnlyForTrans(w, w2, w', s, f);
  }

  /** However far its log has gone another way, a follower catches up with its leader. */
  lemma {:induction false} CatchUp(w: World, s: nat, f: nat, t: int, k: nat) returns (w': World)
    requires Inv(w) && Leading(w, s, t, k) && f < |w.peers| && f != s && w.peers[s].nextIndex[f] <= k
    ensures Reaches(w, w') && Inv(w') && OnlyFor(w, w', s, f) && Leading(w', s, t, k) && CaughtUp(w', s, f, t, k)
    decreases if Leading(w, s, t, k) && f < |w.peers| then w.peers[s].nextIndex[f] else 0
  {
    hide Inv, Reaches, PeerShape, Full, CaughtUp;
    LastEntry(w, s, t, k);
    if w.peers[s].nextIndex[f] <= w.peers[s].snapIndex {
      w' := BySnapshot(w, s, f, t, k);
    } else {
      w' := Round(w, s, f, t, k);
      if !CaughtUp(w', s, f, t, k) {
        var w1 := w';
        w' := CatchUp(w1, s, f, t, k);
        Onward(w, w1, w');
        OnlyForTrans(w, w1, w', s, f);
      }
    }
  }

  lemma OthersCaught(w: World, w': World, s: nat, f: nat, v: nat, t: int, k: nat)
    requires OnlyFor(w, w', s, f) && v != f && v != s && CaughtUp(w, s, v, t, k)
    ensures CaughtUp(w', s, v, t, k)
  {
  }

  ghost predicate Behind(w: World, s: nat, v: nat, k: nat) {
    s < |w.peers| && v < |w.peers[s].nextIndex| && w.peers[s].nextIndex[v] <= k
  }

  /** Nobody has committed further than it had, or than the leader had. */
  ghost predicate CommitsFollow(w: World, w': World, s: nat) {
    && s < |w.peers| == |w'.peers| && w'.peers[s].commitIndex == w.peers[s].commitIndex && w'.peers[s].snapIndex == w.peers[s].snapIndex
    && forall v :: 0 <= v < |w.peers| ==>
         w'.peers[v].commitIndex <= Max(w.peers[v].commitIndex, Max(w.peers[s].commitIndex, w.peers[s].snapIndex))
  }

  lemma FollowsSelf(w: World, s: nat)
    requires s < |w.peers|
    ensures CommitsFollow(w, w, s)
  {
  }

  lemma FollowsOn(w: World, w1: World, w': World, s: nat, f: nat)
    requires OnlyFor(w, w1, s, f) && CommitsFollow(w1, w', s)
    ensures CommitsFollow(w, w', s)
  {
  }

  lemma {:induction false} CatchUpAll(w: World, s: nat, t: int, k: nat, todo: set<nat>) returns (w': World)
    requires Inv(w) && Leading(w, s, t, k) && todo <= Ids(|w.peers|) - {s}
    requires forall v: nat :: v in todo ==> Behind(w, s, v, k)
    requires forall v: nat :: v < |w.peers| && v != s && v !in todo ==> CaughtUp(w, s, v, t, k)
    ensures Reaches(w, w') && Inv(w') && CommitsFollow(w, w', s) && Leading(w', s, t, k) && Full(w', s) == Full(w, s)
    ensures forall v: nat :: v < |w'.peers| && v != s ==> CaughtUp(w', s, v, t, k)
    decreases |todo|
  {
    hide Inv, Reaches, PeerShape, CaughtUp, CommitsFollow;
    if todo == {} {
      w' := w;
      Stays(w);
      FollowsSelf(w, s);
    } else {
      var f :| f in todo;
      assert Behind(w, s, f, k);
      var w1 := CatchUp(w, s, f, t, k);
      forall v: nat | v in todo - {f} ensures Behind(w1, s, v, k) {
        assert Behind(w, s, v, k);
      }
      forall v: nat | v < |w1.peers| && v != s && v !in todo - {f} ensures CaughtUp(w1, s, v, t, k) {
        if v != f { OthersCaught(w, w1, s, f, v, t, k); }
      }
      w' := CatchUpAll(w1, s, t, k, todo - {f});
      Onward(w, w1, w');
      FollowsOn(w, w1, w', s, f);
    }
  }

  // ----- The leader commits and tells ----------------------------------------------------------------

  lemma {:induction false} AllCounted(matchIndex: seq<int>, k: int)
    requires forall i :: 0 <= i < |matchIndex| ==> matchIndex[i] >= k
    ensures Replicas(matchIndex, k) == |matchIndex|
  {
    if matchIndex != [] { AllCounted(matchIndex[..|matchIndex| - 1], k); }
  }

  lemma ScanFindsLast(w: World, s: nat, t: int, k: nat)
    requires Leading(w, s, t, k) && forall v: nat :: v < |w.peers| && v != s ==> CaughtUp(w, s, v, t, k)
    ensures UpdateCommit(w.peers[s]).commitIndex >= k
  {
    var p := w.peers[s];
    assert PeerShape(p, w.pre[s], |w.peers|, s);
    forall v | 0 <= v < |p.matchIndex| ensures p.matchIndex[v] >= k {
      if v != s { assert CaughtUp(w, s, v, t, k); }
    }
    AllCounted(p.matchIndex, k);
    assert p.log[|p.log| - 1].index == k;
  }

  lemma CommitNow(w: World, s: nat, t: int, k: nat) returns (w': World)
    requires Inv(w) && Leading(w, s, t, k) && forall v: nat :: v < |w.peers| && v != s ==> CaughtUp(w, s, v, t, k)
    ensures Reaches(w, w') && Inv(w') && |w'.peers| == |w.peers| && Leading(w', s, t, k) && Full(w', s) == Full(w, s)
    ensures w'.peers[s].commitIndex >= k && forall v: nat :: v < |w'.peers| && v != s ==> CaughtUp(w', s, v, t, k)
    ensures forall v :: 0 <= v < |w.peers| && v != s ==> w'.peers[v] == w.peers[v]
  {
    hide Inv, Reaches, PeerShape, ScanCommit;
    LeaderElected(w, s, t);
    ScanFindsLast(w, s, t, k);
    w' := OneStep(w, Commit(s));
    InvShape(w');
    forall v: nat | v < |w'.peers| && v != s ensures CaughtUp(w', s, v, t, k) {
      assert CaughtUp(w, s, v, t, k);
    }
  }

  lemma HeartbeatIs(w: World, s: nat, f: nat, t: int, k: nat)
    requires Leading(w, s, t, k) && f < |w.peers| && w.peers[s].nextIndex[f] == k + 1
    ensures NextInRange(w.peers[s], f) && HeartbeatArgs(w.peers[s], f) == AppendArgs(t, s, k, t, [], w.peers[s].commitIndex)
  {
    assert PeerShape(w.peers[s], w.pre[s], |w.peers|, s);
  }

  /** A heartbeat that follows the entries brings their commit. */
  lemma FollowerHears(p: Peer, a: AppendArgs, k: nat)
    requires p.currentTerm == p.leaderTerm == a.term && p.role == Follower && 0 <= p.snapIndex
    requires a.entries == [] && HoldsAt(p, a.prevLogIndex, a.prevLogTerm) && p.lastNewEntryIndex >= k && a.leaderCommit >= k
    ensures var p' := AppendEntries(p, a).0;
      && p'.commitIndex >= k && p'.currentTerm == p'.leaderTerm == a.term && p'.role == Follower
      && p'.commitIndex <= Max(p.commitIndex, a.leaderCommit)
  {
  }

  lemma Tell(w: World, s: nat, f: nat, t: int, k: nat) returns (w': World)
    requires Inv(w) && Leading(w, s, t, k) && w.peers[s].commitIndex >= k && f < |w.peers| && f != s && CaughtUp(w, s, f, t, k)
    ensures Reaches(w, w') && Inv(w') && OnlyFor(w, w', s, f) && Leading(w', s, t, k) && w'.peers[f].commitIndex >= k
  {
    hide Inv, Reaches, PeerShape, AppendEntries, HeartbeatArgs, NextInRange, HoldsAt, Full;
    HeartbeatIs(w, s, f, t, k);
    SnapPositive(w, f);
    var a := HeartbeatArgs(w.peers[s], f);
    var w1 := OneStep(w, Heartbeat(s, f));
    InvShape(w1);
    FollowerHears(w.peers[f], a, k);
    w' := OneStep(w1, RecvAppend(Append(f, a)));
    InvShape(w');
    Onward(w, w1, w');
    LeadingStays(w, w', s, f, t, k);
  }

  lemma {:induction false} TellAll(w: World, s: nat, t: int, k: nat, todo: set<nat>) returns (w': World)
    requires Inv(w) && Leading(w, s, t, k) && w.peers[s].commitIndex >= k && todo <= Ids(|w.peers|) - {s}
    requires forall v: nat :: v in todo ==> CaughtUp(w, s, v, t, k)
    requires forall v: nat :: v < |w.peers| && v !in todo ==> w.peers[v].commitIndex >= k
    ensures Reaches(w, w') && Inv(w') && |w'.peers| == |w.peers| && Leading(w', s, t, k) && Full(w', s) == Full(w, s)
    ensures CommittedAll(w', k)
    decreases |todo|
  {
    hide Inv, Reaches, PeerShape, CaughtUp;
    if todo == {} {
      w' := w;
      Stays(w);
    } else {
      var f :| f in todo;
      assert CaughtUp(w, s, f, t, k);
      var w1 := Tell(w, s, f, t, k);
      forall v: nat | v in todo - {f} ensures CaughtUp(w1, s, v, t, k) {
        OthersCaught(w, w1, s, f, v, t, k);
      }
      w' := TellAll(w1, s, t, k, todo - {f});
      Onward(w, w1, w');
    }
  }

  // ----- All together ------------------------------------------------------------------------------------

  lemma ProposeNow(w: World, s: nat, t: int, command: Command) returns (w': World, k: nat)
    requires Inv(w) && LeadsAll(w, s, t)
    ensures Reaches(w, w') && Inv(w') && |w'.peers| == |w.peers| && Leading(w', s, t, k)
    ensures k >= 1 && |Full(w', s)| == k && Full(w', s)[k - 1] == Entry(command, t, k)
    ensures forall v: nat :: v < |w'.peers| ==> v == s || Behind(w', s, v, k)
    ensures forall v :: 0 <= v < |w'.peers| ==> w'.peers[v].commitIndex < k
  {
    hide Inv, Reaches, PeerShape;
    LeaderElected(w, s, t);
    CommitsInLog(w, s, t);
    LastOfFull(w, s);
    ShapeSize(w, s);
    k := |Full(w, s)| + 1;
    assert |w.peers[s].nextIndex| == |w.peers[s].matchIndex| == |w.peers| by { ShapeArrays(w, s); }
    w' := OneStep(w, Propose(s, command));
    InvShape(w');
    forall v: nat | v < |w'.peers| && v != s ensures Behind(w', s, v, k) {
      assert w'.peers[s].nextIndex[v] == w.peers[s].nextIndex[v];
    }
  }

  /** Nobody has committed more than the leader has. */
  lemma CommitsInLog(w: World, s: nat, t: int)
    requires Inv(w) && LeadsAll(w, s, t)
    ensures Shape(w) && forall v :: 0 <= v < |w.peers| ==> w.peers[v].commitIndex <= |Full(w, s)|
  {
    hide ReignsOk, LogsOk, ElectionsOk, GrantsOk, TermsHeard, LeadersOk, AcksOk, CompleteOk, HeldOk, VotedOk,
      NewEntriesOk, NetOk, AppliersOk, CommitOk;
    LeaderElected(w, s, t);
    forall v | 0 <= v < |w.peers| ensures w.peers[v].commitIndex <= |Full(w, s)| {
      assert w.peers[v].currentTerm == t;
      CommitInReign(w, Full(w, v), w.peers[v].commitIndex, t, t);
    }
  }

  lemma ShapeArrays(w: World, s: nat)
    requires Shape(w) && s < |w.peers|
    ensures |w.peers[s].nextIndex| == |w.peers[s].matchIndex| == |w.peers|
  {
    assert PeerShape(w.peers[s], w.pre[s], |w.peers|, s);
  }

  /** Peer v has delivered this entry where it belongs. */
  ghost predicate Got(w: World, v: nat, e: Entry) {
    v < |w.delivered| && 1 <= e.index <= |w.delivered[v]| && w.delivered[v][e.index - 1] == e
  }

  ghost predicate AllHave(w: World, e: Entry) {
    forall v: nat :: v < |w.peers| ==> Got(w, v, e)
  }

  lemma AllGot(w: World, s: nat, k: nat, e: Entry, v: nat)
    requires Inv(w) && s < |w.peers| && v < |w.peers| && Delivered(w, s, k) && Delivered(w, v, k)
    requires 1 <= k <= |Full(w, s)| && Full(w, s)[k - 1] == e && e.index == k
    ensures Got(w, v, e)
  {
    hide ReignsOk, LogsOk, ElectionsOk, GrantsOk, TermsHeard, LeadersOk, AcksOk, CompleteOk, HeldOk, VotedOk,
      CommitsOk, NewEntriesOk, NetOk, Evolves;
    assert ApplierOk(w, s) && ApplierOk(w, v);
    EvolvesRefl(w);
    if |w.delivered[s]| <= |w.delivered[v]| {
      DeliveriesAgree(w, w, w, s, v, k - 1);
    } else {
      DeliveriesAgree(w, w, w, v, s, k - 1);
    }
  }

  lemma Spread(w: World, s: nat, t: int, k: nat) returns (w': World)
    requires Inv(w) && Leading(w, s, t, k) && forall v: nat :: v < |w.peers| ==> v == s || Behind(w, s, v, k)
    ensures Reaches(w, w') && Inv(w') && |w'.peers| == |w.peers| == |w'.pre| && Full(w', s) == Full(w, s)
    ensures forall v: nat :: v < |w'.peers| ==> Delivered(w', v, k)
  {
    hide Inv, Reaches, PeerShape, CaughtUp, Behind;
    var others := Ids(|w.peers|) - {s};
    var w1 := CatchUpAll(w, s, t, k, others);
    var w2 := CommitNow(w1, s, t, k);
    var w3 := TellAll(w2, s, t, k, others);
    w' := DrainAll(w3, k, Ids(|w.peers|));
    InvShape(w');
    Onward(w, w1, w2);
    Onward(w, w2, w3);
    Onward(w, w3, w');
  }

  /** Leader s has one new entry that nobody else has yet. */
  ghost predicate Proposed(w: World, s: nat, e: Entry) {
    && e.index >= 1 && Leading(w, s, e.term, e.index) && Full(w, s)[e.index - 1] == e
    && (forall v: nat :: v < |w.peers| ==> v == s || Behind(w, s, v, e.index))
    && (forall v :: 0 <= v < |w.peers| ==> w.peers[v].commitIndex < e.index)
  }

  lemma Begin(w: World, command: Command) returns (w': World, s: nat, e: Entry)
    requires Inv(w) && |w.peers| >= 2
    ensures Reaches(w, w') && Inv(w') && |w'.peers| == |w.peers| && Proposed(w', s, e) && e.command == command && TermsBelow(w, e.term)
  {
    hide Inv, Reaches, LeadsAll, Leading, Full, TermsBelow, FreshIndexes, NothingHeard, Behind, AsLate;
    InvShape(w);
    s := FindLatest(w, |w.peers|);
    var w1, t := Elect(w, s);
    var k;
    w', k := ProposeNow(w1, s, t, command);
    e := Entry(command, t, k);
    Onward(w, w1, w');
  }

  lemma Arrive(w: World, command: Command) returns (w': World, e: Entry)
    requires Inv(w) && |w.peers| >= 2
    ensures Reaches(w, w') && |w'.peers| == |w.peers| && e.command == command && TermsBelow(w, e.term)
    ensures AllHave(w', e)
  {
    hide Inv, Reaches, Full, Got, Delivered, TermsBelow;
    InvShape(w);
    var w1, s;
    w1, s, e := Begin(w, command);
    w' := Spread(w1, s, e.term, e.index);
    forall v: nat | v < |w'.peers| ensures Got(w', v, e) { AllGot(w', s, e.index, e, v); }
    Onward(w, w1, w');
  }

  /** From every state of every run of two or more peers, any command can still be delivered by every
      peer, in one new entry of a term that nobody had reached. */
  lemma CommandArrives(ws: seq<World>, steps: seq<Step>, n: nat, command: Command)
    returns (ws': seq<World>, steps': seq<Step>, e: Entry)
    requires Run(ws, steps, n) && n >= 2
    ensures Run(ws', steps', n) && ws <= ws' && steps <= steps'
    ensures e.command == command && TermsBelow(ws[|ws| - 1], e.term)
    ensures |ws'[|ws'| - 1].peers| == n && AllHave(ws'[|ws'| - 1], e)
  {
    hide Run, Inv, AllHave, TermsBelow;
    RunLength(ws, steps, n);
    var w := ws[|ws| - 1];
    RunKeeps(ws, steps, n, |ws| - 1, |ws| - 1);
    RunSize(ws, steps, n, |ws| - 1);
    var w';
    w', e := Arrive(w, command);
    var more :| Path(w, more, w');
    ws' := RunOnward(ws, steps, n, more, w');
    steps' := steps + more;
    RunLength(ws', steps', n);
  }
}

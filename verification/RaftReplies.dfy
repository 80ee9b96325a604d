/** What a leader makes of the replies it gets: its match indexes are exactly what was acknowledged
    to it in its term, and backing up passes no index at which the logs agree. */
module RaftReplies {
  import opened RaftPeer
  import opened RaftWorld
  import opened RaftInv
  import opened RaftFacts
  import opened RaftElection
  import opened RaftAppend
  import opened RaftSafety

  /** In this step peer s, in term t, learns that peer j has the first c entries. */
  ghost predicate Credit(w: World, step: Step, s: nat, t: int, j: nat, c: int) {
    && s < |w.peers| && w.peers[s].currentTerm == t
    && (|| (step.RecvAppendAck? && step.m.AppendAck? && step.m.src == j && step.m.append.leaderId == s
            && step.m.append.term == step.m.appendReply.term == t && step.m.appendReply.success && c <= Upto(step.m.append))
        || (step.RecvInstallAck? && step.m.InstallAck? && step.m.src == j && step.m.install.leaderId == s
            && step.m.install.term == step.m.installReply.term == t && step.m.installReply.success && c <= step.m.install.lastIncludedIndex))
  }

  ghost predicate Learnt(ws: seq<World>, steps: seq<Step>, i: nat, s: nat, t: int, j: nat, c: int)
    requires i <= |steps| <= |ws|
  {
    exists x :: 0 <= x < i && Credit(ws[x], steps[x], s, t, j, c)
  }

  /** What a leader believes of another peer is what it learnt in its term. */
  ghost predicate Believes(ws: seq<World>, steps: seq<Step>, i: nat, s: nat, p: Peer, j: nat)
    requires i <= |steps| <= |ws|
  {
    p.role == Leader && j < |p.matchIndex| ==>
      forall c :: c > 0 ==> (c <= p.matchIndex[j] <==> Learnt(ws, steps, i, s, p.currentTerm, j, c))
  }

  /** What a step makes of a leader's match indexes. */
  ghost predicate Moved(w: World, step: Step, s: nat, p: Peer, p': Peer, j: nat) {
    p'.role == Leader && j < |p'.matchIndex| ==>
      || (p.role == Leader && p'.currentTerm == p.currentTerm && |p.matchIndex| == |p'.matchIndex|
          && p.matchIndex[j] <= p'.matchIndex[j] && (forall c :: Credit(w, step, s, p.currentTerm, j, c) ==> c <= p'.matchIndex[j])
          && (p'.matchIndex[j] == p.matchIndex[j] || Credit(w, step, s, p.currentTerm, j, p'.matchIndex[j])))
      || (p'.matchIndex[j] == 0 && step.RecvVoteAck? && p.currentTerm == p'.currentTerm && p.role != Leader)
  }

  lemma ShapeOf(w: World, s: nat)
    requires Shape(w) && s < |w.peers|
    ensures |w.peers[s].nextIndex| == |w.peers[s].matchIndex| == w.peers[s].n == |w.peers| && w.peers[s].me == s
  {
    assert PeerShape(w.peers[s], w.pre[s], |w.peers|, s);
  }

  lemma AckLearns(w: World, m: Msg, j: nat)
    requires Shape(w) && Enabled(w, RecvAppendAck(m)) && j < |w.peers|
    ensures var s := m.append.leaderId; Moved(w, RecvAppendAck(m), s, w.peers[s], DoRecvAppendAck(w, m).peers[s], j)
  {
    hide Backup, BackupInRange, PeerShape;
    ShapeOf(w, m.append.leaderId);
  }

  lemma InstallAckLearns(w: World, m: Msg, j: nat)
    requires Shape(w) && Enabled(w, RecvInstallAck(m)) && j < |w.peers|
    ensures var s := m.install.leaderId; Moved(w, RecvInstallAck(m), s, w.peers[s], DoRecvInstallAck(w, m).peers[s], j)
  {
    hide PeerShape;
    ShapeOf(w, m.install.leaderId);
  }

  lemma VoteAckLearns(w: World, m: Msg, j: nat)
    requires Shape(w) && Enabled(w, RecvVoteAck(m)) && j < |w.peers| && j != m.vote.candidateId
    requires w.peers[m.vote.candidateId].role == Leader && w.peers[m.vote.candidateId].currentTerm == m.vote.term ==>
      w.elections[(m.vote.candidateId, m.vote.term)].ballot.done
    ensures var s := m.vote.candidateId; Moved(w, RecvVoteAck(m), s, w.peers[s], DoRecvVoteAck(w, m).peers[s], j)
  {
    hide PeerShape, Full;
    ShapeOf(w, m.vote.candidateId);
  }

  /** A request leaves a leader's match indexes alone, or ends its reign. */
  predicate KeepsIndexes(p: Peer, p': Peer) {
    p'.role == Leader ==> p.role == Leader && p'.currentTerm == p.currentTerm && p'.matchIndex == p.matchIndex
  }

  lemma AppendKeepsIndexes(p: Peer, a: AppendArgs)
    requires 0 <= p.snapIndex
    ensures KeepsIndexes(p, AppendEntries(p, a).0)
  {
    hide Splice, Conflict, PrevMatches;
  }

  lemma OthersKeepIndexes(p: Peer, a: VoteArgs, pending: int, b: InstallArgs)
    ensures KeepsIndexes(p, RequestVote(p, a).0) && KeepsIndexes(p, InstallSnapshot(p, pending, b).0)
  {
    hide UpToDate, OldSnapshot, Trim;
  }

  lemma KeptLearns(w: World, step: Step, s: nat, p: Peer, p': Peer, j: nat)
    requires KeepsIndexes(p, p') && (step.RecvVote? || step.RecvAppend? || step.RecvInstall?)
    ensures Moved(w, step, s, p, p', j)
  {
  }

  lemma RequestLearns(w: World, step: Step, j: nat)
    requires Shape(w) && Enabled(w, step) && Actor(step) < |w.peers| && j < |w.peers| && (step.RecvVote? || step.RecvAppend? || step.RecvInstall?)
    ensures |Do(w, step).peers| == |w.peers| && Moved(w, step, Actor(step), w.peers[Actor(step)], Do(w, step).peers[Actor(step)], j)
  {
    hide AppendEntries, RequestVote, InstallSnapshot, Installs, NewAck, Moved, KeepsIndexes;
    var s := Actor(step);
    assert PeerShape(w.peers[s], w.pre[s], |w.peers|, s);
    if step.RecvAppend? {
      AppendKeepsIndexes(w.peers[s], step.m.append);
    } else if step.RecvVote? {
      OthersKeepIndexes(w.peers[s], step.m.vote, 0, InstallArgs(0, 0, 0, 0));
    } else {
      OthersKeepIndexes(w.peers[s], VoteArgs(0, 0, 0, 0), |w.pending[s]|, step.m.install);
    }
    KeptLearns(w, step, s, w.peers[s], Do(w, step).peers[s], j);
  }

  lemma LocalLearns(w: World, step: Step, j: nat)
    requires Shape(w) && Enabled(w, step) && !Receives(step) && Actor(step) < |w.peers| && j < |w.peers| && j != Actor(step)
    ensures |Do(w, step).peers| == |w.peers| && Moved(w, step, Actor(step), w.peers[Actor(step)], Do(w, step).peers[Actor(step)], j)
  {
    hide Trim, ScanCommit, Ids, PeerShape, Full, Elected, CanReplicate, CanSendSnapshot, NextInRange, SnapshotArgs,
      LastIndex, LastTerm, Taken, Received, Batch;
    ShapeOf(w, Actor(step));
  }

  lemma StillLearns(w: World, step: Step, s: nat, p: Peer, j: nat)
    requires s != Actor(step)
    ensures Moved(w, step, s, p, p, j)
  {
  }

  /** Who leads in a term has won its election, and wins it only once. */
  lemma LeaderDone(w: World, s: nat)
    requires Inv(w) && s < |w.peers| && w.peers[s].role == Leader
    ensures Elected(w, s, w.peers[s].currentTerm)
  {
    hide LogsOk, ElectionsOk, GrantsOk, TermsHeard, AcksOk, CompleteOk, HeldOk, VotedOk, CommitsOk, NewEntriesOk,
      NetOk, AppliersOk;
    assert ReignOk(w, w.peers[s].currentTerm);
  }

  lemma StepLearns(w: World, step: Step, s: nat, j: nat)
    requires Inv(w) && Shape(w) && Enabled(w, step) && s < |w.peers| && j < |w.peers| && j != s
    ensures |Do(w, step).peers| == |w.peers| && Moved(w, step, s, w.peers[s], Do(w, step).peers[s], j)
  {
    hide Inv, PeerShape, Moved, HandleAppendReply, HandleInstallReply, HandleVoteReply, Full, BacksUp, BackupInRange;
    if s != Actor(step) {
      hide Do;
      OthersUntouched(w, step, s);
      StillLearns(w, step, s, w.peers[s], j);
    } else if !Receives(step) {
      hide Do;
      LocalLearns(w, step, j);
    } else if step.RecvAppendAck? {
      AckLearns(w, step.m, j);
    } else if step.RecvInstallAck? {
      InstallAckLearns(w, step.m, j);
    } else if step.RecvVoteAck? {
      if w.peers[s].role == Leader { LeaderDone(w, s); }
      VoteAckLearns(w, step.m, j);
    } else {
      hide Do;
      RequestLearns(w, step, j);
    }
  }

  lemma CreditLeads(w: World, step: Step, s: nat, t: int, j: nat, c: int)
    requires Inv(w) && Enabled(w, step) && Credit(w, step, s, t, j, c)
    ensures w.peers[s].role == Leader && w.peers[s].currentTerm == t
  {
    hide ReignsOk, LogsOk, ElectionsOk, GrantsOk, TermsHeard, AcksOk, CompleteOk, HeldOk, VotedOk, CommitsOk,
      NewEntriesOk, AppliersOk, CommitOk;
    assert MsgOk(w, step.m);
    assert LeaderOk(w, t);
  }

  lemma NothingLearnt(ws: seq<World>, steps: seq<Step>, n: nat, i: nat, s: nat, j: nat, c: int)
    requires Run(ws, steps, n) && i < |ws| && s < n && |ws[i].peers| == n && ws[i].peers[s].role != Leader
    ensures i <= |steps| <= |ws| && !Learnt(ws, steps, i, s, ws[i].peers[s].currentTerm, j, c)
  {
    hide Inv, Credit, Do;
    var t := ws[i].peers[s].currentTerm;
    forall x | 0 <= x < i ensures !Credit(ws[x], steps[x], s, t, j, c) {
      if Credit(ws[x], steps[x], s, t, j, c) {
        RunKeeps(ws, steps, n, x, i);
        RunSize(ws, steps, n, x);
        CreditLeads(ws[x], steps[x], s, t, j, c);
        InvShape(ws[i]);
        LeaderAppendOnly(ws, steps, n, x, i, s);
      }
    }
  }

  lemma LearntStep(ws: seq<World>, steps: seq<Step>, i: nat, s: nat, t: int, j: nat, c: int)
    requires i < |steps| <= |ws|
    ensures Learnt(ws, steps, i + 1, s, t, j, c) <==> Learnt(ws, steps, i, s, t, j, c) || Credit(ws[i], steps[i], s, t, j, c)
  {
  }

  lemma BelievesStep(ws: seq<World>, steps: seq<Step>, n: nat, i: nat, s: nat, p: Peer, p': Peer, j: nat)
    requires i < |steps| <= |ws| && Believes(ws, steps, i, s, p, j) && Moved(ws[i], steps[i], s, p, p', j)
    requires p.role != Leader ==> forall c :: !Learnt(ws, steps, i, s, p.currentTerm, j, c)
    ensures Believes(ws, steps, i + 1, s, p', j)
  {
    hide Learnt;
    if p'.role == Leader && j < |p'.matchIndex| {
      var next := i + 1;
      forall c | c > 0 ensures c <= p'.matchIndex[j] <==> Learnt(ws, steps, next, s, p'.currentTerm, j, c) {
        LearntStep(ws, steps, i, s, p'.currentTerm, j, c);
        if p.role == Leader {
          assert c <= p.matchIndex[j] <==> Learnt(ws, steps, i, s, p.currentTerm, j, c);
        } else {
          assert !Credit(ws[i], steps[i], s, p.currentTerm, j, c);
        }
      }
    }
  }

  lemma {:induction false} RunBelieves(ws: seq<World>, steps: seq<Step>, n: nat, i: nat, s: nat, j: nat)
    requires Run(ws, steps, n) && i < |ws| && s < n && j < n && j != s
    ensures |ws[i].peers| == n && i <= |steps| <= |ws| && Believes(ws, steps, i, s, ws[i].peers[s], j)
  {
    hide Inv, Learnt, Moved, Do, Enabled, Shape;
    if i > 0 {
      var w := ws[i - 1];
      RunBelieves(ws, steps, n, i - 1, s, j);
      RunKeeps(ws, steps, n, i - 1, i - 1);
      StepLearns(w, steps[i - 1], s, j);
      if w.peers[s].role != Leader {
        var last, t := i - 1, w.peers[s].currentTerm;
        forall c ensures !Learnt(ws, steps, last, s, t, j, c) { NothingLearnt(ws, steps, n, last, s, j, c); }
      }
      BelievesStep(ws, steps, n, i - 1, s, w.peers[s], ws[i].peers[s], j);
    }
  }

  /** A leader's match index of another peer reaches c if and only if, in this term, a success reply
      to entries up to c or to a snapshot up to c has come from that peer. */
  lemma MatchExactly(ws: seq<World>, steps: seq<Step>, n: nat, i: nat, s: nat, j: nat, c: int)
    requires Run(ws, steps, n) && i < |ws| && s < n && j < n && j != s && c > 0
    requires |ws[i].peers| == n && ws[i].peers[s].role == Leader
    ensures i <= |steps| <= |ws| && |ws[i].peers[s].matchIndex| == n
    ensures c <= ws[i].peers[s].matchIndex[j] <==> exists x :: 0 <= x < i && Credit(ws[x], steps[x], s, ws[i].peers[s].currentTerm, j, c)
  {
    hide Run, Credit, Inv;
    RunBelieves(ws, steps, n, i, s, j);
    RunKeeps(ws, steps, n, i, i);
    InvShape(ws[i]);
    ShapeOf(ws[i], s);
    assert c <= ws[i].peers[s].matchIndex[j] <==> Learnt(ws, steps, i, s, ws[i].peers[s].currentTerm, j, c);
  }

  // ----- Backing up ---------------------------------------------------------------------------------

  ghost predicate Rising(log: seq<Entry>) {
    forall i, j :: 0 <= i <= j < |log| ==> log[i].term <= log[j].term
  }

  /** The terms of a matched log never fall. */
  lemma MatchedRises(w: World, log: seq<Entry>)
    requires ReignsOk(w) && Matched(w.reigns, log)
    ensures Rising(log)
  {
    forall i, j | 0 <= i <= j < |log| ensures log[i].term <= log[j].term {
      var u := log[j].term;
      assert ReignOk(w, u);
      assert log[..j + 1] <= w.reigns[u].log;
      assert log[i] == log[..j + 1][i] == w.reigns[u].log[i];
    }
  }

  /** What a conflict reply says, in terms of the whole log of the follower that made it, of which h
      entries were behind the snapshot: the log is too short, or the previous entry has another term,
      and then the run of that term before it starts at the given index, unless it goes back to the
      first stored entry. */
  ghost predicate Tells(full: seq<Entry>, h: nat, a: AppendArgs, r: AppendReply) {
    && a.prevLogIndex > h
    && (if a.prevLogIndex > |full| then r.conflictTerm == 0 && r.conflictIndex == |full|
        else
          && r.conflictTerm == full[a.prevLogIndex - 1].term != a.prevLogTerm
          && (if AllOf(full, r.conflictTerm, h, a.prevLogIndex) then r.conflictIndex == a.prevLogIndex
              else h + 2 <= r.conflictIndex <= a.prevLogIndex && full[r.conflictIndex - 2].term != r.conflictTerm
                   && AllOf(full, r.conflictTerm, r.conflictIndex - 1, a.prevLogIndex)))
  }

  /** Indexes past `from`, up to `upto`, hold entries of this term. */
  ghost predicate AllOf(full: seq<Entry>, term: int, from: int, upto: int) {
    0 <= from <= upto <= |full| && forall k :: from <= k < upto ==> full[k].term == term
  }

  lemma StartTells(pre: seq<Entry>, log: seq<Entry>, k: nat)
    requires Numbered(log, |pre|) && k < |log|
    ensures var full, h, term, c := pre + log, |pre|, log[k].term, ConflictStart(log, k);
      && full[h + k].term == term
      && (if AllOf(full, term, h, h + k + 1) then c == h + k + 1
          else h + 2 <= c <= h + k + 1 && full[c - 2].term != term && AllOf(full, term, c - 1, h + k + 1))
  {
    var full, h, j := pre + log, |pre|, RunStart(log, k);
    forall i | h + j <= i < h + k + 1 ensures full[i].term == log[k].term { assert full[i] == log[i - h]; }
    if j > 0 { assert full[h + j - 1] == log[j - 1]; }
  }

  lemma ConflictTells(w: World, f: nat, a: AppendArgs)
    requires Shape(w) && f < |w.peers| && 0 <= w.peers[f].snapIndex && AppendEntries(w.peers[f], a).1.conflict
    ensures Tells(Full(w, f), w.peers[f].snapIndex, a, AppendEntries(w.peers[f], a).1)
  {
    hide Splice, AllOf, ConflictStart;
    var p := w.peers[f];
    assert PeerShape(p, w.pre[f], |w.peers|, f);
    if a.prevLogIndex <= |Full(w, f)| { StartTells(w.pre[f], p.log, a.prevLogIndex - p.snapIndex - 1); }
  }

  /** Where the leader goes back to: the end of a short log; the index after the last entry it stores
      of the conflicting term; or, if it stores none, what the follower told. */
  ghost predicate GoesTo(lead: seq<Entry>, b: nat, r: AppendReply, next: int) {
    if r.conflictTerm == 0 then next == Max(r.conflictIndex, 1)
    else if exists x :: b <= x < |lead| && lead[x].term == r.conflictTerm then
      b + 2 <= next <= |lead| && lead[next - 2].term == r.conflictTerm && forall x :: next - 1 <= x < |lead| ==> lead[x].term != r.conflictTerm
    else next == r.conflictIndex
  }

  lemma PastRun(log: seq<Entry>, k: nat, u: int)
    requires Rising(log) && 1 <= k < |log| && log[k - 1].term == u != log[k].term
    ensures forall x :: k <= x < |log| ==> log[x].term != u
  {
    forall x | k <= x < |log| ensures log[x].term != u {
      assert log[k - 1].term <= log[k].term <= log[x].term;
    }
  }

  lemma BackupGoes(pre: seq<Entry>, p: Peer, r: AppendReply)
    requires WellFormed(p) && |pre| == p.snapIndex && BackupInRange(p.log, r) && Rising(pre + p.log)
    ensures GoesTo(pre + p.log, |pre|, r, Backup(p.log, r))
  {
    hide Rising;
    var lead, b, u := pre + p.log, |pre|, r.conflictTerm;
    var first := FirstOf(p.log, u);
    if u != 0 {
      if first < |p.log| {
        var e := RunEnd(p.log, u, first);
        assert lead[b + first] == p.log[first] && lead[b + e - 1] == p.log[e - 1] && lead[b + e] == p.log[e];
        PastRun(lead, b + e, u);
      } else {
        forall x | b <= x < |lead| ensures lead[x].term != u { assert lead[x] == p.log[x - b]; }
      }
    }
  }

  /** A conflict reply that the leader acts on: who sent it, what about, and when it was made. */
  ghost predicate Backs(ws: seq<World>, steps: seq<Step>, j: nat, i: nat) {
    && j < i < |steps| <= |ws| && steps[j].RecvAppend? && steps[j].m.Append? && steps[i].RecvAppendAck? && steps[i].m.AppendAck?
    && var f, a, r := steps[j].m.dst, steps[j].m.append, steps[i].m.appendReply;
    && Shape(ws[j]) && Shape(ws[i]) && f < |ws[j].peers| == |ws[i].peers| && a.leaderId < |ws[i].peers| && 0 <= ws[j].peers[f].snapIndex
    && steps[i].m.src == f && steps[i].m.append == a && r == AppendEntries(ws[j].peers[f], a).1
    && f < |ws[i].peers[a.leaderId].nextIndex| && BacksUp(ws[i].peers[a.leaderId], f, a, r)
  }

  lemma LeaderLog(w: World, m: Msg)
    requires Inv(w) && Enabled(w, RecvAppendAck(m)) && BacksUp(w.peers[m.append.leaderId], m.src, m.append, m.appendReply)
    ensures var s, t := m.append.leaderId, m.append.term;
      Shape(w) && t in w.reigns && Full(w, s) == w.reigns[t].log && Matched(w.reigns, Full(w, s)) && ReignsOk(w) && CompleteOk(w)
  {
    hide LogsOk, ElectionsOk, GrantsOk, TermsHeard, AcksOk, CompleteOk, HeldOk, VotedOk, CommitsOk, NewEntriesOk, AppliersOk;
    assert MsgOk(w, m);
    assert LeaderOk(w, m.append.term) && ReignOk(w, m.append.term);
  }

  /** Fast backup, exactly: what the reply tells of the follower's log as it was, and where it takes
      the next index in the leader's log as it is. */
  lemma BackupExactly(ws: seq<World>, steps: seq<Step>, n: nat, j: nat, i: nat)
    requires Run(ws, steps, n) && Backs(ws, steps, j, i)
    ensures var f, a, r := steps[j].m.dst, steps[j].m.append, steps[i].m.appendReply;
      && Tells(Full(ws[j], f), ws[j].peers[f].snapIndex, a, r)
      && |ws[i + 1].peers| == n && a.leaderId < n && f < |ws[i + 1].peers[a.leaderId].nextIndex| && 0 <= ws[i].peers[a.leaderId].snapIndex
      && GoesTo(Full(ws[i], a.leaderId), ws[i].peers[a.leaderId].snapIndex, r, ws[i + 1].peers[a.leaderId].nextIndex[f])
  {
    hide Inv, Tells, GoesTo, AppendEntries, Matched, CompleteOk, Rising;
    var f, a, r, w := steps[j].m.dst, steps[j].m.append, steps[i].m.appendReply, ws[i];
    var s := a.leaderId;
    ConflictTells(ws[j], f, a);
    RunKeeps(ws, steps, n, i, i);
    RunSize(ws, steps, n, i);
    LeaderLog(w, steps[i].m);
    assert PeerShape(w.peers[s], w.pre[s], |w.peers|, s);
    MatchedRises(w, Full(w, s));
    BackupGoes(w.pre[s], w.peers[s], r);
  }

  /** Backing up does not pass an index up to which the logs are equal. */
  lemma GoesNotPast(full: seq<Entry>, h: nat, lead: seq<Entry>, b: nat, a: AppendArgs, r: AppendReply, next: int, q: int)
    requires Tells(full, h, a, r) && GoesTo(lead, b, r, next) && b <= |lead| && r.conflictTerm != 0
    requires h < q <= |full| && b < q <= |lead| && next < q <= a.prevLogIndex <= |full|
    requires Rising(full)
    ensures full[..q] != lead[..q]
  {
    var u := r.conflictTerm;
    if exists x :: b <= x < |lead| && lead[x].term == u {
      assert full[..q][next - 2] == full[next - 2] && lead[..q][next - 2] == lead[next - 2];
      assert full[..q][next - 1] == full[next - 1] && lead[..q][next - 1] == lead[next - 1];
      assert full[next - 2].term <= full[next - 1].term <= full[a.prevLogIndex - 1].term;
    } else {
      assert full[..q][q - 1] == full[q - 1] && lead[..q][q - 1] == lead[q - 1];
      assert full[q - 1].term == u;
    }
  }

  lemma TermsKnown(w: World, full: seq<Entry>, h: nat, k: nat)
    requires ReignsOk(w) && (Matched(w.reigns, full) || AllStray(w.reigns, full, h)) && h <= k < |full|
    ensures full[k].term >= 1
  {
    if Matched(w.reigns, full) { assert full[..k + 1] <= w.reigns[full[k].term].log; } else { assert Stray(w.reigns, full, h, k); }
    assert ReignOk(w, full[k].term);
  }

  lemma SkippedDiffer(w: World, full: seq<Entry>, h: nat, bound: int, t: int, b: nat, a: AppendArgs, r: AppendReply, next: int, q: int)
    requires ReignsOk(w) && CompleteOk(w) && LogOk(w, full, h, bound) && t in w.reigns && bound <= t && b <= |w.reigns[t].log|
    requires Tells(full, h, a, r) && GoesTo(w.reigns[t].log, b, r, next)
    requires h < q <= |full| && b < q <= |w.reigns[t].log| && next < q <= a.prevLogIndex
    ensures full[q - 1].term != w.reigns[t].log[q - 1].term
  {
    hide ReignsOk, CompleteOk, CommitOk, Matched, GoesTo, Tells, Stray, Rising;
    var lead := w.reigns[t].log;
    CommitInReign(w, full, h, bound, t);
    assert Matched(w.reigns, lead) by { ReignMatched(w, t); }
    ShortOrTerm(w, full, h, lead, b, a, r, next, q);
    if full[q - 1].term == lead[q - 1].term {
      SameTermAgrees(w.reigns, full, h, lead, q - 1);
      if Matched(w.reigns, full) {
        MatchedRises(w, full);
        GoesNotPast(full, h, lead, b, a, r, next, q);
      } else {
        assert Stray(w.reigns, full, h, q - 1);
        StrayApart(w.reigns, full, h, q - 1, lead);
      }
    }
  }

  lemma ReignMatched(w: World, t: int)
    requires ReignsOk(w) && t in w.reigns
    ensures Matched(w.reigns, w.reigns[t].log)
  {
    assert ReignOk(w, t);
  }

  lemma ShortOrTerm(w: World, full: seq<Entry>, h: nat, lead: seq<Entry>, b: nat, a: AppendArgs, r: AppendReply, next: int, q: int)
    requires ReignsOk(w) && (Matched(w.reigns, full) || AllStray(w.reigns, full, h)) && b <= |lead|
    requires Tells(full, h, a, r) && GoesTo(lead, b, r, next) && next < q <= |full|
    ensures r.conflictTerm != 0 && a.prevLogIndex <= |full|
  {
    hide ReignsOk, Matched, AllStray;
    if a.prevLogIndex <= |full| { TermsKnown(w, full, h, a.prevLogIndex - 1); }
  }

  /** Backing up passes no index at which the follower's log, as it was, agrees with the leader's:
      above the new next index, up to the rejected one and past both snapshots, the terms differ. */
  lemma BackupSkipsConflicts(ws: seq<World>, steps: seq<Step>, n: nat, j: nat, i: nat, q: int)
    requires Run(ws, steps, n) && Backs(ws, steps, j, i)
    requires var f, a := steps[j].m.dst, steps[j].m.append;
      && |ws[i + 1].peers| == n && a.leaderId < n && f < |ws[i + 1].peers[a.leaderId].nextIndex|
      && ws[i + 1].peers[a.leaderId].nextIndex[f] < q <= a.prevLogIndex
      && ws[j].peers[f].snapIndex < q <= |Full(ws[j], f)| && ws[i].peers[a.leaderId].snapIndex < q <= |Full(ws[i], a.leaderId)|
    ensures 0 < q && Full(ws[j], steps[j].m.dst)[q - 1].term != Full(ws[i], steps[j].m.append.leaderId)[q - 1].term
  {
    hide Run, Inv, Tells, GoesTo, Matched, CompleteOk, ReignsOk, LogOk, Evolves;
    var f, a, r, w := steps[j].m.dst, steps[j].m.append, steps[i].m.appendReply, ws[i];
    var s, full, h := a.leaderId, Full(ws[j], f), ws[j].peers[f].snapIndex;
    BackupExactly(ws, steps, n, j, i);
    RunKeeps(ws, steps, n, j, i);
    RunLength(ws, steps, n);
    RunEnabled(ws, steps, n, i);
    LeaderLog(w, steps[i].m);
    LogKept(ws[j], f);
    LogOkLater(ws[j], w, full, h, ws[j].peers[f].currentTerm, ws[j].peers[f].currentTerm);
    assert w.peers[s].snapIndex <= |Full(w, s)| by { assert PeerShape(w.peers[s], w.pre[s], |w.peers|, s); }
    SkippedDiffer(w, full, h, ws[j].peers[f].currentTerm, a.term, w.peers[s].snapIndex, a, r, ws[i + 1].peers[s].nextIndex[f], q);
  }

  lemma RunEnabled(ws: seq<World>, steps: seq<Step>, n: nat, i: nat)
    requires Run(ws, steps, n) && i < |steps|
    ensures Shape(ws[i]) && Enabled(ws[i], steps[i]) && ws[i + 1] == Do(ws[i], steps[i])
  {
    hide Shape, Enabled, Do;
  }

  lemma LogKept(w: World, f: nat)
    requires Inv(w) && f < |w.peers|
    ensures Shape(w) && LogOk(w, Full(w, f), w.peers[f].snapIndex, w.peers[f].currentTerm)
  {
    hide ReignsOk, ElectionsOk, GrantsOk, TermsHeard, LeadersOk, AcksOk, CompleteOk, HeldOk, VotedOk, CommitsOk,
      NewEntriesOk, NetOk, AppliersOk, LogOk;
  }
}

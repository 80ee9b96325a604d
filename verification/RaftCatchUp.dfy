/** How far a follower commits, told by the history of the run: past what it had committed already,
    a request commits exactly the indexes that its leader has committed and that some request with
    entries, accepted from a leader of the same term, has reached. */
module RaftCatchUp {
  import opened RaftPeer
  import opened RaftWorld
  import opened RaftInv
  import opened RaftFacts
  import opened RaftElection
  import opened RaftAppend
  import opened RaftSafety
  import opened RaftLead
  import opened RaftElectable
  import opened RaftArrives

  /** The peer has an entry of that index and term, or the index is behind its snapshot. */
  ghost predicate Has(p: Peer, index: int, term: int) {
    index <= p.snapIndex || exists e :: e in p.log && e.index == index && e.term == term
  }

  /** An AppendEntries request reaches peer s, which is not ahead of its term and has its previous entry. */
  ghost predicate Accepted(w: World, step: Step, s: nat) {
    && step.RecvAppend? && step.m.Append? && step.m.dst == s < |w.peers|
    && step.m.append.term >= w.peers[s].currentTerm
    && Has(w.peers[s], step.m.append.prevLogIndex, step.m.append.prevLogTerm)
  }

  /** ... with entries up to index c or past it. */
  ghost predicate Brought(w: World, step: Step, s: nat, t: int, c: int) {
    Accepted(w, step, s) && step.m.append.term == t && step.m.append.entries != [] && c <= Upto(step.m.append)
  }

  lemma HasMatches(p: Peer, a: AppendArgs)
    requires WellFormed(p)
    ensures PrevMatches(p, a) <==> Has(p, a.prevLogIndex, a.prevLogTerm)
  {
    if PrevMatches(p, a) && a.prevLogIndex > p.snapIndex {
      assert p.log[a.prevLogIndex - p.snapIndex - 1] in p.log;
    }
  }

  /** AppendEntries answers success exactly when it accepts, and a conflict exactly when only the
      previous entry is missing. */
  lemma SuccessIff(p: Peer, a: AppendArgs)
    requires WellFormed(p)
    ensures AppendEntries(p, a).1.success <==> a.term >= p.currentTerm && Has(p, a.prevLogIndex, a.prevLogTerm)
    ensures AppendEntries(p, a).1.conflict <==> a.term >= p.currentTerm && !Has(p, a.prevLogIndex, a.prevLogTerm)
    ensures AppendEntries(p, a).1.term == p.currentTerm
  {
    HasMatches(p, a);
  }

  /** Whoever gets a request of its term or a later one follows its sender; it has a free vote, unless
      it followed a leader of that term already. An earlier term is ignored. */
  lemma HearsLeader(p: Peer, a: AppendArgs)
    requires 0 <= p.snapIndex && p.leaderTerm <= p.currentTerm
    ensures var q := AppendEntries(p, a).0;
      if a.term < p.currentTerm then q == p
      else
        && q.role == Follower && q.currentTerm == q.leaderTerm == a.term
        && q.votedFor == if a.term == p.leaderTerm then p.votedFor else -1
  {
  }

  /** What peer p of state i has heard, told by the steps before: it accepted nothing of a later term,
      lastNewEntryIndex covers what it accepted in its term, and if it lies past the commit index
      a request brought the log that far. */
  ghost predicate Told(ws: seq<World>, steps: seq<Step>, i: nat, s: nat, p: Peer)
    requires i <= |steps| <= |ws|
  {
    && p.leaderTerm <= p.currentTerm
    && (forall j :: 0 <= j < i && Accepted(ws[j], steps[j], s) ==> steps[j].m.append.term <= p.leaderTerm)
    && (forall j, c :: 0 <= j < i && Brought(ws[j], steps[j], s, p.currentTerm, c) ==> c <= p.lastNewEntryIndex)
    && (p.leaderTerm == p.currentTerm && p.lastNewEntryIndex > p.commitIndex ==>
          exists j :: 0 <= j < i && Brought(ws[j], steps[j], s, p.currentTerm, p.lastNewEntryIndex))
  }

  /** What every other step does to a peer: nothing but a raise of the commit index, or it enters a
      term, or hears of a leader of its own. */
  predicate Moves(p: Peer, p': Peer) {
    || (p'.currentTerm == p.currentTerm && p'.leaderTerm == p.leaderTerm
        && p'.lastNewEntryIndex == p.lastNewEntryIndex && p'.commitIndex >= p.commitIndex)
    || (p'.currentTerm > p.currentTerm && p'.leaderTerm == p.leaderTerm)
    || (p'.currentTerm == p'.leaderTerm >= p.currentTerm && p'.leaderTerm > p.leaderTerm && p'.lastNewEntryIndex <= p'.commitIndex)
  }

  lemma {:induction false} ScanUp(p: Peer, k: nat)
    requires k <= |p.log|
    ensures ScanCommit(p, k) >= p.commitIndex
  {
    if k > 0 { ScanUp(p, k - 1); }
  }

  lemma InstallMoves(p: Peer, pending: int, a: InstallArgs)
    requires p.leaderTerm <= p.currentTerm
    ensures Moves(p, InstallSnapshot(p, pending, a).0)
  {
    hide Trim;
  }

  lemma ReceiverMoves(w: World, step: Step)
    requires Shape(w) && Enabled(w, step) && Receives(step) && !step.RecvAppend? && Actor(step) < |w.peers|
    requires w.peers[Actor(step)].leaderTerm <= w.peers[Actor(step)].currentTerm
    ensures |Do(w, step).peers| == |w.peers| && Moves(w.peers[Actor(step)], Do(w, step).peers[Actor(step)])
  {
    hide InstallSnapshot, Backup, BackupInRange, BacksUp, UpToDate, PeerShape, Full, Installs, LastIndex;
    if step.RecvInstall? { InstallMoves(w.peers[step.m.dst], |w.pending[step.m.dst]|, step.m.install); }
  }

  lemma LocalMoves(w: World, step: Step)
    requires Shape(w) && Enabled(w, step) && !Receives(step) && Actor(step) < |w.peers|
    ensures |Do(w, step).peers| == |w.peers| && Moves(w.peers[Actor(step)], Do(w, step).peers[Actor(step)])
  {
    hide Trim, ScanCommit, Ids, PeerShape, Full, Elected, CanReplicate, CanSendSnapshot, NextInRange, SnapshotArgs,
      LastIndex, LastTerm, Taken, Received, Batch;
    if step.Commit? { ScanUp(w.peers[step.s], |w.peers[step.s].log|); }
  }

  /** A request that is not accepted. */
  lemma RefusedMoves(p: Peer, a: AppendArgs)
    requires WellFormed(p) && p.leaderTerm <= p.currentTerm
    requires a.term < p.currentTerm || !Has(p, a.prevLogIndex, a.prevLogTerm)
    ensures Moves(p, AppendEntries(p, a).0)
  {
    HasMatches(p, a);
  }

  lemma OtherMoves(w: World, step: Step, s: nat)
    requires Shape(w) && Enabled(w, step) && s < |w.peers| && !Accepted(w, step, s) && w.peers[s].leaderTerm <= w.peers[s].currentTerm
    ensures |Do(w, step).peers| == |w.peers| && Moves(w.peers[s], Do(w, step).peers[s])
  {
    hide Do, Moves, PeerShape;
    if s != Actor(step) {
      OthersUntouched(w, step, s);
      MovesNot(w.peers[s]);
    } else if step.RecvAppend? {
      RefusedStep(w, step.m);
    } else if Receives(step) {
      ReceiverMoves(w, step);
    } else {
      LocalMoves(w, step);
    }
  }

  lemma MovesNot(p: Peer)
    ensures Moves(p, p)
  {
  }

  lemma RefusedStep(w: World, m: Msg)
    requires Shape(w) && Enabled(w, RecvAppend(m)) && !Accepted(w, RecvAppend(m), m.dst)
    requires w.peers[m.dst].leaderTerm <= w.peers[m.dst].currentTerm
    ensures |Do(w, RecvAppend(m)).peers| == |w.peers| && Moves(w.peers[m.dst], Do(w, RecvAppend(m)).peers[m.dst])
  {
    hide AppendEntries, Has, Moves, NewAck;
    assert PeerShape(w.peers[m.dst], w.pre[m.dst], |w.peers|, m.dst);
    RefusedMoves(w.peers[m.dst], m.append);
  }

  // ----- The history of lastNewEntryIndex ---------------------------------------------------------

  lemma ToldMoves(ws: seq<World>, steps: seq<Step>, i: nat, s: nat, p: Peer, p': Peer)
    requires i < |steps| <= |ws| && Told(ws, steps, i, s, p) && Moves(p, p') && !Accepted(ws[i], steps[i], s)
    ensures Told(ws, steps, i + 1, s, p')
  {
    hide Accepted;
    forall j, c | 0 <= j < i + 1 && Brought(ws[j], steps[j], s, p'.currentTerm, c) ensures c <= p'.lastNewEntryIndex {
      assert j < i && Accepted(ws[j], steps[j], s);
    }
  }

  lemma ToldAccepts(ws: seq<World>, steps: seq<Step>, i: nat, s: nat, p: Peer)
    requires i < |steps| <= |ws| && Told(ws, steps, i, s, p) && WellFormed(p)
    requires Accepted(ws[i], steps[i], s) && ws[i].peers[s] == p
    ensures Told(ws, steps, i + 1, s, AppendEntries(p, steps[i].m.append).0)
  {
    hide Splice, Has;
    var a := steps[i].m.append;
    HasMatches(p, a);
    var p' := AppendEntries(p, a).0;
    forall j, c | 0 <= j < i + 1 && Brought(ws[j], steps[j], s, p'.currentTerm, c) ensures c <= p'.lastNewEntryIndex {
      assert Accepted(ws[j], steps[j], s);
    }
    if p'.lastNewEntryIndex > p'.commitIndex {
      if a.entries != [] && p'.lastNewEntryIndex == Upto(a) {
        assert Brought(ws[i], steps[i], s, p'.currentTerm, p'.lastNewEntryIndex);
      } else {
        assert p.leaderTerm == p.currentTerm == a.term;
        var j :| 0 <= j < i && Brought(ws[j], steps[j], s, p.currentTerm, p.lastNewEntryIndex);
        assert Brought(ws[j], steps[j], s, p'.currentTerm, p'.lastNewEntryIndex);
      }
    }
  }

  lemma {:induction false} RunTold(ws: seq<World>, steps: seq<Step>, n: nat, i: nat, s: nat)
    requires Run(ws, steps, n) && i < |ws| && s < n
    ensures Shape(ws[i]) && |ws[i].peers| == n && Told(ws, steps, i, s, ws[i].peers[s])
  {
    hide Inv, Accepted, Brought, PeerShape, Do, Enabled;
    RunKeeps(ws, steps, n, i, i);
    InvShape(ws[i]);
    if i > 0 {
      RunTold(ws, steps, n, i - 1, s);
      ToldStep(ws, steps, i - 1, s);
    }
  }

  lemma ToldStep(ws: seq<World>, steps: seq<Step>, i: nat, s: nat)
    requires i < |steps| < |ws| && Shape(ws[i]) && s < |ws[i].peers| && Told(ws, steps, i, s, ws[i].peers[s])
    requires Enabled(ws[i], steps[i]) && ws[i + 1] == Do(ws[i], steps[i])
    ensures |ws[i + 1].peers| == |ws[i].peers| && Told(ws, steps, i + 1, s, ws[i + 1].peers[s])
  {
    hide AppendEntries, Has, NewAck, Moves;
    if Accepted(ws[i], steps[i], s) {
      assert PeerShape(ws[i].peers[s], ws[i].pre[s], |ws[i].peers|, s);
      ToldAccepts(ws, steps, i, s, ws[i].peers[s]);
    } else {
      OtherMoves(ws[i], steps[i], s);
      ToldMoves(ws, steps, i, s, ws[i].peers[s], ws[i + 1].peers[s]);
    }
  }

  lemma AcceptedCommits(ws: seq<World>, steps: seq<Step>, i: nat, s: nat, p: Peer, p': Peer, a: AppendArgs, c: int)
    requires i < |steps| <= |ws| && Accepted(ws[i], steps[i], s) && ws[i].peers[s] == p && WellFormed(p) && a == steps[i].m.append
    requires p' == AppendEntries(p, a).0 && Told(ws, steps, i, s, p) && Told(ws, steps, i + 1, s, p') && c > p.commitIndex
    ensures c <= p'.commitIndex <==> c <= a.leaderCommit && exists j :: 0 <= j <= i && Brought(ws[j], steps[j], s, a.term, c)
  {
    hide Splice, Has;
    HasMatches(p, a);
    if c <= p'.commitIndex {
      if a.entries != [] && c <= Upto(a) {
        assert Brought(ws[i], steps[i], s, a.term, c);
      } else {
        var j :| 0 <= j < i && Brought(ws[j], steps[j], s, p.currentTerm, p.lastNewEntryIndex);
        assert Brought(ws[j], steps[j], s, a.term, c);
      }
    }
  }

  /** Past what a follower had committed, an accepted request commits index c if and only if its
      leader has committed c and some request with entries that the follower accepted from a leader
      of that term, this one included, reached c. */
  lemma CommitsExactly(ws: seq<World>, steps: seq<Step>, n: nat, i: nat, s: nat, c: int)
    requires Run(ws, steps, n) && i < |steps| && s < n && Accepted(ws[i], steps[i], s) && c > ws[i].peers[s].commitIndex
    ensures |ws[i + 1].peers| == n
    ensures c <= ws[i + 1].peers[s].commitIndex <==>
      && c <= steps[i].m.append.leaderCommit
      && exists j :: 0 <= j <= i && Brought(ws[j], steps[j], s, steps[i].m.append.term, c)
  {
    hide Inv, Has, Enabled, AppendEntries, Told, Brought, NewAck;
    RunTold(ws, steps, n, i, s);
    RunTold(ws, steps, n, i + 1, s);
    assert PeerShape(ws[i].peers[s], ws[i].pre[s], n, s);
    AcceptedCommits(ws, steps, i, s, ws[i].peers[s], ws[i + 1].peers[s], steps[i].m.append, c);
  }

  /** A request whose entries reach its leader's commit index is committed that far at once. */
  lemma EntriesCommit(ws: seq<World>, steps: seq<Step>, n: nat, i: nat, s: nat)
    requires Run(ws, steps, n) && i < |steps| && s < n && Accepted(ws[i], steps[i], s)
    requires steps[i].m.append.entries != [] && Upto(steps[i].m.append) >= steps[i].m.append.leaderCommit > ws[i].peers[s].commitIndex
    ensures |ws[i + 1].peers| == n && ws[i + 1].peers[s].commitIndex >= steps[i].m.append.leaderCommit
  {
    hide Run;
    RunLength(ws, steps, n);
    var a := steps[i].m.append;
    assert Brought(ws[i], steps[i], s, a.term, a.leaderCommit);
    CommitsExactly(ws, steps, n, i, s, a.leaderCommit);
  }

  // ----- A heartbeat alone does not commit ----------------------------------------------------------

  /** A leader's log is as late as any. */
  lemma LeaderLatest(w: World, s: nat, t: int, k: nat)
    requires Inv(w) && Leading(w, s, t, k)
    ensures Latest(w, s)
  {
    hide ReignsOk, ElectionsOk, GrantsOk, TermsHeard, LeadersOk, AcksOk, CompleteOk, HeldOk, VotedOk, CommitsOk,
      NewEntriesOk, NetOk, AppliersOk, CommitOk, PeerShape;
    LeaderElected(w, s, t);
    LastEntry(w, s, t, k);
    forall v: nat | v < |w.peers| ensures AsLate(Full(w, s), Full(w, v)) {
      var full := Full(w, v);
      if full != [] && full[|full| - 1].term == t { SameTermShorter(w, v, t); }
      assert full != [] ==> full[|full| - 1].term <= t;
    }
  }

  lemma SameTermShorter(w: World, v: nat, t: int)
    requires Shape(w) && LogsOk(w) && v < |w.peers| && Full(w, v) != [] && Full(w, v)[|Full(w, v)| - 1].term == t && t in w.reigns
    ensures |Full(w, v)| <= |w.reigns[t].log|
  {
    hide PeerShape, CommitOk;
    var full, h := Full(w, v), w.peers[v].snapIndex;
    assert LogOk(w, full, h, w.peers[v].currentTerm);
    if Matched(w.reigns, full) {
      assert full[..|full| - 1 + 1] <= w.reigns[t].log;
    } else {
      assert Stray(w.reigns, full, h, |full| - 1);
    }
  }

  /** The leader of a fresh term sends its first heartbeat. */
  lemma FirstHeartbeat(w: World, s: nat, f: nat, u: int, t: int, k: nat)
    requires Shape(w) && LeadsAll(w, s, u) && FreshIndexes(w, s) && f < |w.peers| && |Full(w, s)| == k && w.peers[s].log != []
    requires w.peers[s].log[|w.peers[s].log| - 1].term == t
    ensures NextInRange(w.peers[s], f) && HeartbeatArgs(w.peers[s], f) == AppendArgs(u, s, k, t, [], w.peers[s].commitIndex)
  {
    assert PeerShape(w.peers[s], w.pre[s], |w.peers|, s);
  }

  lemma HoldsIsHas(p: Peer, k: int, t: int)
    requires WellFormed(p) && HoldsAt(p, k, t)
    ensures Has(p, k, t)
  {
    HasMatches(p, AppendArgs(0, 0, k, t, [], 0));
  }

  /** An accepted heartbeat in a term that brought nothing. */
  lemma HeartbeatKeepsCommit(p: Peer, a: AppendArgs)
    requires 0 <= p.snapIndex && p.currentTerm == p.leaderTerm == a.term && p.lastNewEntryIndex == p.commitIndex && a.entries == []
    ensures AppendEntries(p, a).0.commitIndex == p.commitIndex
  {
  }

  /** The leader alone has committed its last entry, which everyone holds. */
  ghost predicate Uneven(w: World, s: nat, f: nat, t: int, k: nat) {
    && Leading(w, s, t, k) && w.peers[s].commitIndex >= k && f < |w.peers| && f != s
    && CaughtUp(w, s, f, t, k) && w.peers[f].commitIndex < k
  }

  lemma MakeUneven(w: World, command: Command) returns (w': World, s: nat, f: nat, t: int, k: nat)
    requires Inv(w) && |w.peers| >= 2
    ensures Reaches(w, w') && Inv(w') && |w'.peers| == |w.peers| && Uneven(w', s, f, t, k)
  {
    hide Inv, Reaches, LeadsAll, Full, CaughtUp, Behind, TermsBelow;
    var w1, e;
    w1, s, e := Begin(w, command);
    f, t, k := if s == 0 then 1 else 0, e.term, e.index;
    LastEntry(w1, s, t, k);
    var w2 := CatchUpAll(w1, s, t, k, Ids(|w.peers|) - {s});
    w' := CommitNow(w2, s, t, k);
    Onward(w, w1, w2);
    Onward(w, w2, w');
  }

  /** Message m is a heartbeat that follower f accepts and that leaves its commit index below the
      previous entry, although the leader says it is committed. */
  ghost predicate Lags(w: World, m: Msg) {
    && Shape(w) && m.Append? && m in w.net && m.dst < |w.peers| && Accepted(w, RecvAppend(m), m.dst)
    && m.append.prevLogIndex <= m.append.leaderCommit
    && DoRecvAppend(w, m).peers[m.dst].commitIndex < m.append.prevLogIndex
  }

  lemma HeartbeatLags(w: World, s: nat, f: nat, u: int, t: int, k: nat) returns (w': World, m: Msg)
    requires Inv(w) && Shape(w) && LeadsAll(w, s, u) && FreshIndexes(w, s) && NothingHeard(w, s) && f < |w.peers| && f != s
    requires |Full(w, s)| == k && w.peers[s].log != [] && w.peers[s].log[|w.peers[s].log| - 1].term == t
    requires HoldsAt(w.peers[f], k, t) && w.peers[f].commitIndex < k <= w.peers[s].commitIndex
    ensures Reaches(w, w') && Inv(w') && |w'.peers| == |w.peers| && Lags(w', m)
  {
    hide Inv, Reaches, AppendEntries, HeartbeatArgs, NextInRange, HoldsAt, Full, Has, NewAck;
    FirstHeartbeat(w, s, f, u, t, k);
    var a := HeartbeatArgs(w.peers[s], f);
    m := Append(f, a);
    w' := OneStep(w, Heartbeat(s, f));
    InvShape(w');
    assert PeerShape(w.peers[f], w.pre[f], |w.peers|, f);
    HoldsIsHas(w.peers[f], k, t);
    HeartbeatKeepsCommit(w.peers[f], a);
  }

  lemma SameHolds(w: World, w': World, f: nat, k: int, t: int)
    requires Shape(w) && Shape(w') && SameLogs(w, w') && f < |w.peers| && HoldsAt(w.peers[f], k, t)
    ensures HoldsAt(w'.peers[f], k, t)
  {
    assert PeerShape(w.peers[f], w.pre[f], |w.peers|, f) && PeerShape(w'.peers[f], w'.pre[f], |w'.peers|, f);
  }

  lemma LagsBehind(w: World, command: Command) returns (w': World, m: Msg)
    requires Inv(w) && |w.peers| >= 2
    ensures Reaches(w, w') && Inv(w') && |w'.peers| == |w.peers| && Lags(w', m)
  {
    hide Inv, Reaches, LeadsAll, FreshIndexes, NothingHeard, HoldsAt, Lags, PeerShape, Latest;
    var w1, s, f, t, k := MakeUneven(w, command);
    InvShape(w1);
    LeaderLatest(w1, s, t, k);
    var w2, u := Elect(w1, s);
    InvShape(w2);
    SameHolds(w1, w2, f, k, t);
    w', m := HeartbeatLags(w2, s, f, u, t, k);
    Onward(w, w1, w2);
    Onward(w, w2, w');
  }

  /** From every state of every run of two or more peers: some run leads to a state where a follower
      that accepts a heartbeat, and with it holds an entry it is told is committed, does not commit it. */
  lemma HeartbeatLeavesBehind(ws: seq<World>, steps: seq<Step>, n: nat, command: Command)
    returns (ws': seq<World>, steps': seq<Step>, m: Msg)
    requires Run(ws, steps, n) && n >= 2
    ensures Run(ws', steps', n) && ws <= ws' && steps <= steps' && Lags(ws'[|ws'| - 1], m)
  {
    hide Run, Inv, Lags;
    RunLength(ws, steps, n);
    var w := ws[|ws| - 1];
    RunKeeps(ws, steps, n, |ws| - 1, |ws| - 1);
    RunSize(ws, steps, n, |ws| - 1);
    var w';
    w', m := LagsBehind(w, command);
    var more :| Path(w, more, w');
    ws' := RunOnward(ws, steps, n, more, w');
    steps' := steps + more;
    RunLength(ws', steps', n);
  }
}

/** Safety of Raft over whole runs: any number of peers, any schedule of steps, any loss, delay,
    repetition and reordering of messages, compaction by the service at any time, and snapshots that
    leaders send and followers install. */
module RaftSafety {
  import opened RaftPeer
  import opened RaftWorld
  import opened RaftInv
  import opened RaftFacts
  import opened RaftElection
  import opened RaftTally
  import opened RaftAppend
  import opened RaftLead
  import opened RaftGrow
  import opened RaftInstall

  ghost predicate Run(ws: seq<World>, steps: seq<Step>, n: nat) {
    && |ws| == |steps| + 1 && Initial(ws[0], n)
    && (forall i :: 0 <= i < |steps| ==> Shape(ws[i]) && Enabled(ws[i], steps[i]) && ws[i + 1] == Do(ws[i], steps[i]))
  }

  lemma InitialInv(w: World, n: nat)
    requires Initial(w, n)
    ensures Inv(w)
  {
    assert forall s: nat :: s < n ==> Full(w, s) == [];
    assert forall s: nat :: s < n ==> ApplierOk(w, s);
  }

  lemma StepKeeps(w: World, step: Step)
    requires Inv(w) && Enabled(w, step)
    ensures Inv(Do(w, step)) && Evolves(w, Do(w, step))
  {
    hide ReignsOk, LogsOk, ElectionsOk, GrantsOk, TermsHeard, LeadersOk, AcksOk, CompleteOk, HeldOk, VotedOk,
      CommitsOk, NewEntriesOk, NetOk, AppliersOk, Evolves,
      DoTimeout, DoRecvVote, DoRecvVoteAck, DoRecvAppend, DoRecvAppendAck, DoRecvInstall, DoRecvInstallAck, DoPropose, DoCompact, DoTake, DoDeliver, DoFinish;
    match step
    case Timeout(s) => TimeoutKeeps(w, s);
    case RecvVote(m) => RecvVoteKeeps(w, m);
    case RecvVoteAck(m) => RecvVoteAckKeeps(w, m);
    case Heartbeat(s, dst) => HeartbeatKeeps(w, s, dst);
    case Replicate(s, dst) => ReplicateKeeps(w, s, dst);
    case SendSnapshot(s, dst) => SendSnapshotKeeps(w, s, dst);
    case RecvAppend(m) => RecvAppendKeeps(w, m);
    case RecvAppendAck(m) => RecvAppendAckKeeps(w, m);
    case RecvInstall(m) => RecvInstallKeeps(w, m);
    case RecvInstallAck(m) => RecvInstallAckKeeps(w, m);
    case Propose(s, command) => ProposeKeeps(w, s, command);
    case Commit(s) => CommitKeeps(w, s);
    case Compact(s, index) => CompactKeeps(w, s, index);
    case Take(s) => TakeKeeps(w, s);
    case Deliver(s) => DeliverKeeps(w, s);
    case Finish(s) => FinishKeeps(w, s);
  }

  /** Every state of every run satisfies the invariant, and later states evolve from earlier ones. */
  lemma {:induction false} RunKeeps(ws: seq<World>, steps: seq<Step>, n: nat, i: nat, j: nat)
    requires Run(ws, steps, n) && i <= j < |ws|
    ensures Inv(ws[i]) && Inv(ws[j]) && Evolves(ws[i], ws[j])
    decreases j
  {
    hide Inv, Evolves, Initial;
    EvolvesRefl(ws[j]);
    if j == 0 {
      InitialInv(ws[0], n);
    } else {
      RunKeeps(ws, steps, n, if i < j then i else j - 1, j - 1);
      StepKeeps(ws[j - 1], steps[j - 1]);
      if i < j {
        EvolvesTrans(ws[i], ws[j - 1], ws[j]);
      }
    }
  }

  lemma RunLength(ws: seq<World>, steps: seq<Step>, n: nat)
    requires Run(ws, steps, n)
    ensures |ws| == |steps| + 1
  {
  }

  lemma BothKeep(ws: seq<World>, steps: seq<Step>, n: nat, i: nat, j: nat)
    requires Run(ws, steps, n) && i < |ws| && j < |ws|
    ensures var last := ws[|ws| - 1]; Inv(ws[i]) && Inv(ws[j]) && Inv(last) && Evolves(ws[i], last) && Evolves(ws[j], last)
  {
    hide Inv, Evolves, Run;
    RunKeeps(ws, steps, n, i, |ws| - 1);
    RunKeeps(ws, steps, n, j, |ws| - 1);
  }

  /** Election safety: over a whole run a term has at most one leader. */
  lemma ElectionSafety(ws: seq<World>, steps: seq<Step>, n: nat, i: nat, j: nat, s: nat, t: nat)
    requires Run(ws, steps, n) && i < |ws| && j < |ws|
    requires s < |ws[i].peers| && ws[i].peers[s].role == Leader
    requires t < |ws[j].peers| && ws[j].peers[t].role == Leader
    requires ws[i].peers[s].currentTerm == ws[j].peers[t].currentTerm
    ensures s == t
  {
    hide Run, ReignsOk, LogsOk, ElectionsOk, GrantsOk, TermsHeard, AcksOk, CompleteOk, HeldOk, VotedOk, CommitsOk,
      NewEntriesOk, NetOk, AppliersOk;
    BothKeep(ws, steps, n, i, j);
    var last, term := ws[|ws| - 1], ws[i].peers[s].currentTerm;
    assert SameReign(ws[i].reigns[term], last.reigns[term]) && SameReign(ws[j].reigns[term], last.reigns[term]);
  }

  // ----- Log matching -----------------------------------------------------------------------

  /** No snapshot from a leader reached peer s before state i. */
  ghost predicate NotInstalled(steps: seq<Step>, i: nat, s: nat) {
    forall x :: 0 <= x < i && x < |steps| ==> !Installing(steps[x], s)
  }

  predicate Installing(step: Step, s: nat) {
    step.RecvInstall? && step.m.Install? && step.m.dst == s
  }

  /** Only an install can leave a log unmatched. */
  lemma MatchedStep(w: World, step: Step, s: nat)
    requires Inv(w) && Enabled(w, step) && Inv(Do(w, step)) && Evolves(w, Do(w, step))
    requires s < |w.peers| && !Installing(step, s) && Matched(w.reigns, Full(w, s))
    ensures |Do(w, step).peers| == |w.peers| && Matched(Do(w, step).reigns, Full(Do(w, step), s))
  {
    hide ReignsOk, LogsOk, ElectionsOk, GrantsOk, TermsHeard, LeadersOk, AcksOk, CompleteOk, HeldOk, VotedOk,
      CommitsOk, NewEntriesOk, NetOk, AppliersOk, Matched;
    var w' := Do(w, step);
    assert |w'.peers| == |w.peers| by { EvolvedTerm(w, w', s); }
    if step.Propose? && step.s == s {
      ProposedMatched(w, w', s, step.command);
    } else if step.RecvAppend? && step.m.dst == s {
      AppendedMatched(w, step.m);
    } else if step.Compact? && step.s == s {
      CompactedSame(w, s, step.index);
      MatchedLater(w, w', Full(w, s));
    } else {
      FullUntouched(w, step, s);
      MatchedLater(w, w', Full(w, s));
    }
  }

  lemma FullUntouched(w: World, step: Step, s: nat)
    requires Shape(w) && Enabled(w, step) && s < |w.peers| && !Installing(step, s) && Shape(Do(w, step))
    requires (step.Propose? || step.Compact?) ==> step.s != s
    requires step.RecvAppend? ==> step.m.dst != s
    ensures |Do(w, step).peers| == |w.peers| && Full(Do(w, step), s) == Full(w, s)
  {
    hide AppendEntries, InstallSnapshot, Snapshot, Start, Taken, Received, PeerShape, Backup, ScanCommit, Ids;
    if s != Actor(step) { OthersUntouched(w, step, s); }
  }

  lemma CompactedSame(w: World, s: nat, index: nat)
    requires Inv(w) && Enabled(w, Compact(s, index)) && Shape(DoCompact(w, s, index))
    ensures Full(DoCompact(w, s, index), s) == Full(w, s)
  {
    hide ReignsOk, LogsOk, ElectionsOk, GrantsOk, TermsHeard, LeadersOk, AcksOk, CompleteOk, HeldOk, VotedOk,
      CommitsOk, NewEntriesOk, NetOk;
    assert ApplierOk(w, s);
    CompactQuiet(w, s, index);
  }

  lemma ProposedMatched(w: World, w': World, s: nat, command: Command)
    requires Inv(w) && Enabled(w, Propose(s, command)) && w' == DoPropose(w, s, command) && Inv(w') && |w'.peers| == |w.peers|
    ensures Matched(w'.reigns, Full(w', s))
  {
    hide LogsOk, ElectionsOk, GrantsOk, TermsHeard, AcksOk, CompleteOk, HeldOk, VotedOk, CommitsOk, NewEntriesOk,
      NetOk, AppliersOk;
    var t := w'.peers[s].currentTerm;
    assert LeaderOk(w', t) && ReignOk(w', t);
  }

  lemma AppendedMatched(w: World, m: Msg)
    requires Inv(w) && Enabled(w, RecvAppend(m)) && Matched(w.reigns, Full(w, m.dst))
    ensures var w' := DoRecvAppend(w, m); Shape(w') && |w'.peers| == |w.peers| && Matched(w'.reigns, Full(w', m.dst))
  {
    hide ReignsOk, LogsOk, ElectionsOk, GrantsOk, TermsHeard, LeadersOk, AcksOk, CompleteOk, HeldOk, VotedOk,
      CommitsOk, NewEntriesOk, AppliersOk, Matched;
    var s, a, w' := m.dst, m.append, DoRecvAppend(w, m);
    assert MsgOk(w, m);
    RecvAppendKeeps(w, m);
    if a.term >= w.peers[s].currentTerm {
      var w1 := Hear(w, s, a.term);
      HearKeeps(w, s, a.term);
      RecvAppendParts(w, m);
      if PrevMatches(w1.peers[s], a) {
        MsgStays(w, w1, m);
        AcceptShape(w1, s, a);
        OverwriteMatched(w1, Full(w1, s), a.term, Upto(a));
      }
    }
  }

  lemma OverwriteMatched(w: World, full: seq<Entry>, t: int, m: nat)
    requires ReignsOk(w) && t in w.reigns && m <= |w.reigns[t].log| && Matched(w.reigns, full)
    ensures Matched(w.reigns, Overwrite(full, w.reigns[t].log, m))
  {
    assert ReignOk(w, t);
    MatchedPrefix(w.reigns, w.reigns[t].log[..m], w.reigns[t].log);
  }

  lemma {:induction false} MatchedRun(ws: seq<World>, steps: seq<Step>, n: nat, i: nat, s: nat)
    requires Run(ws, steps, n) && i < |ws| && s < n && NotInstalled(steps, i, s)
    ensures Shape(ws[i]) && |ws[i].peers| == n && Matched(ws[i].reigns, Full(ws[i], s))
  {
    hide Inv, Evolves, Matched;
    RunKeeps(ws, steps, n, i, i);
    InvShape(ws[i]);
    if i == 0 {
      assert Full(ws[0], s) == [];
      EmptyMatched(ws[0].reigns);
    } else {
      MatchedRun(ws, steps, n, i - 1, s);
      RunKeeps(ws, steps, n, i - 1, i);
      MatchedStep(ws[i - 1], steps[i - 1], s);
    }
  }

  lemma EmptyMatched(reigns: map<int, Reign>)
    ensures Matched(reigns, [])
  {
  }

  lemma InvShape(w: World)
    requires Inv(w)
    ensures Shape(w)
  {
  }

  /** What is behind the snapshot is matched, whatever follows it. */
  lemma SnapshotMatched(w: World, s: nat, k: nat)
    requires Inv(w) && s < |w.peers| && k < w.peers[s].snapIndex
    ensures k < |Full(w, s)| && Matched(w.reigns, Full(w, s)[..k + 1])
  {
    hide ElectionsOk, GrantsOk, TermsHeard, LeadersOk, AcksOk, CompleteOk, HeldOk, VotedOk, CommitsOk, NewEntriesOk,
      NetOk, AppliersOk, Matched, Committed;
    var full, h, t := Full(w, s), w.peers[s].snapIndex, w.peers[s].currentTerm;
    assert LogOk(w, full, h, t);
    var u, i :| Committed(w, u, i) && CommitBy(w, full, h, t, u, i);
    assert ReignOk(w, u);
    Shorter(full, w.reigns[u].log, h, k + 1);
    MatchedPrefix(w.reigns, full[..k + 1], w.reigns[u].log);
  }

  /** Index k of peer s lies behind its snapshot, or no snapshot was ever installed there. */
  ghost predicate Continuous(ws: seq<World>, steps: seq<Step>, i: nat, s: nat, k: nat)
    requires i < |ws| && s < |ws[i].peers|
  {
    NotInstalled(steps, i, s) || k < ws[i].peers[s].snapIndex
  }

  lemma ContinuousMatched(ws: seq<World>, steps: seq<Step>, n: nat, i: nat, s: nat, k: nat)
    requires Run(ws, steps, n) && i < |ws| && s < |ws[i].peers| && Continuous(ws, steps, i, s, k)
    requires Shape(ws[i]) && k < |Full(ws[i], s)|
    ensures Matched(ws[|ws| - 1].reigns, Full(ws[i], s)[..k + 1])
  {
    hide Inv, Evolves, Matched;
    RunKeeps(ws, steps, n, i, |ws| - 1);
    RunSize(ws, steps, n, i);
    var full := Full(ws[i], s);
    if NotInstalled(steps, i, s) {
      MatchedRun(ws, steps, n, i, s);
      MatchedPrefix(ws[i].reigns, full[..k + 1], full);
    } else {
      SnapshotMatched(ws[i], s, k);
    }
    MatchedLater(ws[i], ws[|ws| - 1], full[..k + 1]);
  }

  lemma RunSize(ws: seq<World>, steps: seq<Step>, n: nat, i: nat)
    requires Run(ws, steps, n) && i < |ws|
    ensures |ws[i].peers| == n
  {
    hide Inv;
    RunKeeps(ws, steps, n, 0, i);
  }

  /** Log matching: two logs, of any peers at any times, that agree on the term at one index agree up
      to that index, commands included. It holds of everything behind a snapshot, and of the whole
      log of a peer that never installed one. */
  lemma LogsMatch(ws: seq<World>, steps: seq<Step>, n: nat, i: nat, j: nat, s: nat, t: nat, k: nat)
    requires Run(ws, steps, n) && i < |ws| && j < |ws|
    requires Shape(ws[i]) && s < |ws[i].peers| && k < |Full(ws[i], s)| && Continuous(ws, steps, i, s, k)
    requires Shape(ws[j]) && t < |ws[j].peers| && k < |Full(ws[j], t)| && Continuous(ws, steps, j, t, k)
    requires Full(ws[i], s)[k].term == Full(ws[j], t)[k].term
    ensures Full(ws[i], s)[..k + 1] == Full(ws[j], t)[..k + 1]
  {
    hide Run, Matched, Continuous;
    ContinuousMatched(ws, steps, n, i, s, k);
    ContinuousMatched(ws, steps, n, j, t, k);
    LogMatching(ws[|ws| - 1].reigns, Full(ws[i], s)[..k + 1], Full(ws[j], t)[..k + 1], k);
  }

  /** A leader never overwrites or removes an entry of its log during its term. */
  lemma LeaderAppendOnly(ws: seq<World>, steps: seq<Step>, n: nat, i: nat, j: nat, s: nat)
    requires Run(ws, steps, n) && i <= j < |ws|
    requires Shape(ws[i]) && Shape(ws[j]) && s < |ws[i].peers| && s < |ws[j].peers|
    requires ws[i].peers[s].role == Leader && ws[j].peers[s].currentTerm == ws[i].peers[s].currentTerm
    ensures ws[j].peers[s].role == Leader && Full(ws[i], s) <= Full(ws[j], s)
  {
    hide Run, ReignsOk, LogsOk, ElectionsOk, GrantsOk, TermsHeard, AcksOk, CompleteOk, HeldOk, VotedOk, CommitsOk,
      NewEntriesOk, NetOk, AppliersOk;
    RunKeeps(ws, steps, n, i, j);
    var t := ws[i].peers[s].currentTerm;
    assert LeaderOk(ws[i], t) && SameReign(ws[i].reigns[t], ws[j].reigns[t]);
    assert LeaderOk(ws[j], t);
  }

  /** What is committed in a term that already has a successor was in place when the successor was elected. */
  lemma CommittedBefore(v: World, w: World, a: int, i: int, u: int)
    requires Shape(v) && ReignsOk(v) && GrantsOk(v) && AcksOk(v) && Evolves(v, w)
    requires Committed(w, a, i) && u in v.reigns && a < u
    ensures a in v.reigns && i <= |v.reigns[a].log|
  {
    var q :| Quorum(|w.peers|, q) && AckedAll(w, q, a, i);
    assert ReignOk(v, u);
    var x := QuorumsMeet(|w.peers|, q, v.reigns[u].voters);
    assert GrantOk(v, u, x, v.reigns[u].leader);
    assert Acked(w, x, a) >= i && Acked(v, x, a) >= i;
    assert (x, a) in v.acks;
  }

  /** An entry committed at w is in the log of a later term's leader at v, whichever state comes first. */
  lemma CommittedInReign(w: World, v: World, a: int, i: int, u: int)
    requires Shape(v) && ReignsOk(v) && GrantsOk(v) && AcksOk(v) && CompleteOk(v)
    requires Evolves(w, v) || Evolves(v, w)
    requires Committed(w, a, i) && u in v.reigns && a < u
    ensures w.reigns[a].log[..i] <= v.reigns[u].log
  {
    if Evolves(w, v) {
      CommittedStays(w, v, a, i);
      CommittedChoosable(v, a, i);
      assert SameReign(w.reigns[a], v.reigns[a]);
    } else {
      CommittedBefore(v, w, a, i, u);
      CommittedChoosable(w, a, i);
      ChoosableBefore(v, w, a, i);
    }
  }

  /** Leader completeness: what a peer has committed is in the log of the leader of every later term. */
  lemma LeaderCompleteness(ws: seq<World>, steps: seq<Step>, n: nat, i: nat, j: nat, s: nat, l: nat)
    requires Run(ws, steps, n) && i < |ws| && j < |ws|
    requires Shape(ws[i]) && s < |ws[i].peers| && Shape(ws[j]) && l < |ws[j].peers|
    requires ws[j].peers[l].role == Leader && ws[j].peers[l].currentTerm > ws[i].peers[s].currentTerm
    ensures var c := ws[i].peers[s].commitIndex;
      0 <= c <= |Full(ws[i], s)| && Full(ws[i], s)[..c] <= Full(ws[j], l)
  {
    RunKeeps(ws, steps, n, if i <= j then i else j, if i <= j then j else i);
    LeaderHolds(ws[i], ws[j], s, l);
  }

  lemma LeaderHolds(w: World, v: World, s: nat, l: nat)
    requires Inv(w) && Inv(v) && (Evolves(w, v) || Evolves(v, w))
    requires s < |w.peers| && l < |v.peers| && v.peers[l].role == Leader && v.peers[l].currentTerm > w.peers[s].currentTerm
    ensures var c := w.peers[s].commitIndex; 0 <= c <= |Full(w, s)| && Full(w, s)[..c] <= Full(v, l)
  {
    hide ReignsOk, LogsOk, ElectionsOk, GrantsOk, TermsHeard, AcksOk, CompleteOk, HeldOk, VotedOk, NewEntriesOk, NetOk,
      AppliersOk, Evolves, Committed;
    var c, t, u := w.peers[s].commitIndex, w.peers[s].currentTerm, v.peers[l].currentTerm;
    CommitOkBound(w, Full(w, s), c, t);
    assert LeaderOk(v, u);
    if c > 0 {
      var a, k :| Committed(w, a, k) && CommitBy(w, Full(w, s), c, t, a, k);
      CommittedInReign(w, v, a, k, u);
      Shorter(w.reigns[a].log, v.reigns[u].log, k, c);
    }
  }

  // ----- State machine safety -------------------------------------------------------------

  lemma DeliveredLater(w: World, w': World, s: nat)
    requires Shape(w) && s < |w.peers| && ApplierOk(w, s) && Evolves(w, w')
    ensures var d, full := w.delivered[s], Full(w, s);
      && |d| <= |full| && d == full[..|d|] && CommitOk(w', full, |d|, w.peers[s].currentTerm)
  {
    var d, full, t := w.delivered[s], Full(w, s), w.peers[s].currentTerm;
    CommitOkLess(w, full, Reach(w, s), |d|, t);
    CommitOkStays(w, w', full, full, |d|, t, t);
  }

  lemma DeliveriesAgree(w: World, v: World, last: World, s: nat, t: nat, k: nat)
    requires Shape(w) && Shape(v) && CompleteOk(last) && Evolves(w, last) && Evolves(v, last)
    requires s < |w.peers| && ApplierOk(w, s) && t < |v.peers| && ApplierOk(v, t)
    requires k < |w.delivered[s]| <= |v.delivered[t]|
    ensures w.delivered[s][k] == v.delivered[t][k] && w.delivered[s][k].index == k + 1
  {
    DeliveredLater(w, last, s);
    DeliveredLater(v, last, t);
    LastOfFull(w, s);
    CommitsAgree(last, Full(w, s), |w.delivered[s]|, w.peers[s].currentTerm,
                 Full(v, t), |v.delivered[t]|, v.peers[t].currentTerm);
    assert Full(w, s)[k] == Full(w, s)[..|w.delivered[s]|][k] == Full(v, t)[k];
  }

  /** State machine safety: whatever two peers deliver at the same position, at any two times of a
      run, is the same entry, and it carries that index. */
  lemma StateMachineSafety(ws: seq<World>, steps: seq<Step>, n: nat, i: nat, j: nat, s: nat, t: nat, k: nat)
    requires Run(ws, steps, n) && i < |ws| && j < |ws|
    requires s < |ws[i].delivered| && k < |ws[i].delivered[s]|
    requires t < |ws[j].delivered| && k < |ws[j].delivered[t]|
    ensures ws[i].delivered[s][k] == ws[j].delivered[t][k] && ws[i].delivered[s][k].index == k + 1
  {
    hide Run, ReignsOk, LogsOk, ElectionsOk, GrantsOk, TermsHeard, LeadersOk, AcksOk, CompleteOk, HeldOk, VotedOk,
      CommitsOk, NewEntriesOk, NetOk;
    BothKeep(ws, steps, n, i, j);
    var w, v, last := ws[i], ws[j], ws[|ws| - 1];
    assert ApplierOk(w, s) && ApplierOk(v, t);
    if |w.delivered[s]| <= |v.delivered[t]| {
      DeliveriesAgree(w, v, last, s, t, k);
    } else {
      DeliveriesAgree(v, w, last, t, s, k);
    }
  }

  // ----- Nothing goes out of range ----------------------------------------------------------

  /** In a reachable state no handler indexes or slices outside a log: the guards that stand for
      this in Enabled never block a step the code would take. */
  lemma NeverOutOfRange(ws: seq<World>, steps: seq<Step>, n: nat, i: nat, s: nat)
    requires Run(ws, steps, n) && i < |ws| && s < |ws[i].peers|
    ensures Shape(ws[i])
    ensures ws[i].peers[s].role == Leader ==> forall dst :: 0 <= dst < |ws[i].peers| ==> NextInRange(ws[i].peers[s], dst)
    ensures ws[i].peers[s].lastApplied < ws[i].peers[s].commitIndex ==> CanTake(ws[i].peers[s])
    ensures forall m :: m in ws[i].net && m.AppendAck? && m.append.leaderId == s ==>
      m.src < |ws[i].peers| &&
      (BacksUp(ws[i].peers[s], m.src, m.append, m.appendReply) ==> BackupInRange(ws[i].peers[s].log, m.appendReply))
  {
    hide LogsOk, ElectionsOk, GrantsOk, TermsHeard, AcksOk, CompleteOk, HeldOk, VotedOk, NewEntriesOk, CommitOk, Run, Evolves;
    RunKeeps(ws, steps, n, i, i);
    var w, p := ws[i], ws[i].peers[s];
    assert PeerShape(p, w.pre[s], |w.peers|, s) && ApplierOk(w, s);
    CommitOkBound(w, Full(w, s), p.commitIndex, p.currentTerm);
    if p.role == Leader { assert LeaderOk(w, p.currentTerm); }
    forall m | m in w.net && m.AppendAck? && m.append.leaderId == s && BacksUp(p, m.src, m.append, m.appendReply)
      ensures BackupInRange(p.log, m.appendReply)
    {
      assert MsgOk(w, m);
      FastBackup(w, m);
    }
  }

  /** Fast backup over a run: every conflict reply the leader acts on strictly lowers the next index
      and keeps it at least 1. */
  lemma BackupDescends(ws: seq<World>, steps: seq<Step>, n: nat, i: nat)
    requires Run(ws, steps, n) && i < |steps| && steps[i].RecvAppendAck?
    requires var m := steps[i].m; BacksUp(ws[i].peers[m.append.leaderId], m.src, m.append, m.appendReply)
    ensures var m := steps[i].m; var s := m.append.leaderId;
      1 <= ws[i + 1].peers[s].nextIndex[m.src] < ws[i].peers[s].nextIndex[m.src]
  {
    RunKeeps(ws, steps, n, i, i);
    assert MsgOk(ws[i], steps[i].m);
    FastBackup(ws[i], steps[i].m);
  }

  // ----- Every log and every request stays numbered ----------------------------------------------

  /** At any time entry k of a stored log carries the snapshot index plus k plus 1, and so do the
      entries of every request that was ever sent. */
  lemma AlwaysNumbered(ws: seq<World>, steps: seq<Step>, n: nat, i: nat, s: nat, m: Msg)
    requires Run(ws, steps, n) && i < |ws| && s < |ws[i].peers|
    ensures Numbered(ws[i].peers[s].log, ws[i].peers[s].snapIndex)
    ensures m in ws[i].net && m.Append? ==> Numbered(m.append.entries, m.append.prevLogIndex)
  {
    hide Run, LogsOk, ElectionsOk, GrantsOk, TermsHeard, LeadersOk, AcksOk, CompleteOk, HeldOk, VotedOk, CommitsOk,
      NewEntriesOk, AppliersOk, Evolves, CommitOk, Matched;
    RunKeeps(ws, steps, n, i, i);
    var w := ws[i];
    assert PeerShape(w.peers[s], w.pre[s], |w.peers|, s);
    if m in w.net && m.Append? {
      assert MsgOk(w, m);
      assert ReignOk(w, m.append.term);
    }
  }

  // ----- The commit index never falls -----------------------------------------------------------

  /** Outside its own reign a peer has committed no further than lastNewEntryIndex, and it delivers
      only what it has committed. */
  ghost predicate PeerAhead(p: Peer, q: Applier, d: seq<Entry>, pending: seq<Entry>) {
    && pending == q.snapshot == [] && |d| + |q.queue| <= p.commitIndex
    && (p.role != Leader ==> p.commitIndex <= p.lastNewEntryIndex)
  }

  ghost predicate CommitAhead(w: World, s: nat)
    requires Shape(w) && s < |w.peers|
  {
    PeerAhead(w.peers[s], w.appliers[s], w.delivered[s], w.pending[s])
  }

  /** What the invariant contributes: only a leader scans for a commit, no leader hears from a
      leader of its own term, and a batch ends at the commit index. */
  ghost predicate StepFits(w: World, step: Step)
    requires Shape(w) && Enabled(w, step)
  {
    match step
    case Commit(s) => w.peers[s].role == Leader && UpdateCommit(w.peers[s]).commitIndex >= w.peers[s].commitIndex
    case RecvAppend(m) => m.append.term == w.peers[m.dst].currentTerm ==> w.peers[m.dst].role != Leader
    case Take(s) => w.pending[s] == [] && CommitAhead(w, s) ==> |w.delivered[s]| + |Uncovered(Batch(w.peers[s]), 0)| <= w.peers[s].commitIndex
    case _ => true
  }

  lemma InvFits(w: World, step: Step)
    requires Inv(w) && Enabled(w, step)
    ensures StepFits(w, step)
  {
    match step
    case Commit(s) => ScanFits(w, s);
    case RecvAppend(m) => if m.append.term == w.peers[m.dst].currentTerm { AppendFits(w, m); }
    case Take(s) => if w.pending[s] == [] && CommitAhead(w, s) { TakeInRange(w, s); }
    case _ =>
  }

  lemma ScanFits(w: World, s: nat)
    requires Inv(w) && Enabled(w, Commit(s))
    ensures w.peers[s].role == Leader && UpdateCommit(w.peers[s]).commitIndex >= w.peers[s].commitIndex
  {
    hide ReignsOk, LogsOk, GrantsOk, TermsHeard, AcksOk, CompleteOk, HeldOk, VotedOk, NewEntriesOk, NetOk, AppliersOk;
    assert ElectionOk(w, s, w.peers[s].currentTerm);
    assert LeaderOk(w, w.peers[s].currentTerm);
    ScanCommits(w, s, |w.peers[s].log|);
  }

  lemma AppendFits(w: World, m: Msg)
    requires Inv(w) && Enabled(w, RecvAppend(m)) && m.append.term == w.peers[m.dst].currentTerm
    ensures w.peers[m.dst].role != Leader
  {
    hide ReignsOk, LogsOk, GrantsOk, TermsHeard, AcksOk, CompleteOk, HeldOk, VotedOk, CommitsOk, NewEntriesOk, AppliersOk;
    assert MsgOk(w, m);
  }

  lemma TakeInRange(w: World, s: nat)
    requires Inv(w) && Enabled(w, Take(s)) && w.pending[s] == [] && CommitAhead(w, s)
    ensures |w.delivered[s]| + |Uncovered(Batch(w.peers[s]), 0)| <= w.peers[s].commitIndex
  {
    hide ReignsOk, LogsOk, GrantsOk, TermsHeard, LeadersOk, AcksOk, CompleteOk, HeldOk, VotedOk, CommitsOk,
      NewEntriesOk, NetOk, CommitOk, Uncovered;
    assert ApplierOk(w, s) && PeerShape(w.peers[s], w.pre[s], |w.peers|, s);
    if CanTake(w.peers[s]) { BatchIsSlice(w.pre[s], w.peers[s], |w.peers|, s); }
    AllUncovered(Batch(w.peers[s]), 0);
  }

  function Actor(step: Step): nat {
    match step
    case RecvVote(m) => if m.Vote? then m.dst else 0
    case RecvVoteAck(m) => if m.VoteAck? then m.vote.candidateId else 0
    case RecvAppend(m) => if m.Append? then m.dst else 0
    case RecvAppendAck(m) => if m.AppendAck? then m.append.leaderId else 0
    case RecvInstall(m) => if m.Install? then m.dst else 0
    case RecvInstallAck(m) => if m.InstallAck? then m.install.leaderId else 0
    case _ => step.s
  }

  ghost predicate SamePeer(w: World, w': World, i: nat) {
    && |w'.peers| == |w'.appliers| == |w'.delivered| == |w'.pending| == |w'.pre| == |w.peers|
    && |w.peers| == |w.appliers| == |w.delivered| == |w.pending| == |w.pre| && i < |w.peers|
    && w'.peers[i] == w.peers[i] && w'.appliers[i] == w.appliers[i]
    && w'.delivered[i] == w.delivered[i] && w'.pending[i] == w.pending[i] && w'.pre[i] == w.pre[i]
  }

  predicate Receives(step: Step) {
    step.RecvVote? || step.RecvVoteAck? || step.RecvAppend? || step.RecvAppendAck? || step.RecvInstall? || step.RecvInstallAck?
  }

  lemma OthersReceive(w: World, step: Step, i: nat)
    requires Shape(w) && Enabled(w, step) && Receives(step) && i < |w.peers| && i != Actor(step)
    ensures SamePeer(w, Do(w, step), i)
  {
    hide AppendEntries, RequestVote, HandleVoteReply, HandleAppendReply, InstallSnapshot, HandleInstallReply,
      PeerShape, BacksUp, BackupInRange,
      Installs, NewAck, Full;
  }

  lemma OthersLocal(w: World, step: Step, i: nat)
    requires Shape(w) && Enabled(w, step) && !Receives(step) && i < |w.peers| && i != Actor(step)
    ensures SamePeer(w, Do(w, step), i)
  {
    hide PrepareElection, Snapshot, Start, UpdateCommit, Taken, Received, PeerShape, CanReplicate, NextInRange,
      CanSendSnapshot, SnapshotArgs,
      Applied, Batch, Ids, Full, Elected;
  }

  /** A step touches one peer. */
  lemma OthersUntouched(w: World, step: Step, i: nat)
    requires Shape(w) && Enabled(w, step) && i < |w.peers| && i != Actor(step)
    ensures SamePeer(w, Do(w, step), i)
  {
    hide SamePeer, Do, Enabled, Shape;
    if Receives(step) { OthersReceive(w, step, i); } else { OthersLocal(w, step, i); }
  }

  lemma ActorAhead(w: World, step: Step)
    requires Shape(w) && Enabled(w, step) && StepFits(w, step) && !Installing(step, Actor(step))
    requires Actor(step) < |w.peers| && CommitAhead(w, Actor(step))
    ensures var w', s := Do(w, step), Actor(step);
      && |w'.peers| == |w'.appliers| == |w'.delivered| == |w'.pending| == |w.peers|
      && PeerAhead(w'.peers[s], w'.appliers[s], w'.delivered[s], w'.pending[s]) && w.peers[s].commitIndex <= w'.peers[s].commitIndex
  {
    hide AppendEntries, InstallSnapshot, Trim, Backup, ScanCommit, Ids, Uncovered, Numbered, TermAt, BackupInRange,
      BacksUp, NewAck, UpToDate;
    if step.RecvAppend? { AppendAhead(w.peers[step.m.dst], step.m.append, w.appliers[step.m.dst], w.delivered[step.m.dst]); }
  }

  lemma AppendAhead(p: Peer, a: AppendArgs, q: Applier, d: seq<Entry>)
    requires 0 <= p.snapIndex && PeerAhead(p, q, d, []) && (a.term == p.currentTerm ==> p.role != Leader)
    ensures var p' := AppendEntries(p, a).0; PeerAhead(p', q, d, []) && p.commitIndex <= p'.commitIndex
  {
  }

  lemma AheadKeeps(w: World, step: Step, s: nat)
    requires Shape(w) && s < |w.peers| && CommitAhead(w, s) && Enabled(w, step) && StepFits(w, step) && !Installing(step, s)
    requires Shape(Do(w, step)) && |Do(w, step).peers| == |w.peers|
    ensures CommitAhead(Do(w, step), s) && w.peers[s].commitIndex <= Do(w, step).peers[s].commitIndex
  {
    hide StepFits;
    if s == Actor(step) { ActorAhead(w, step); } else { OthersUntouched(w, step, s); }
  }

  lemma StepAhead(w: World, step: Step, s: nat)
    requires Inv(w) && s < |w.peers| && CommitAhead(w, s) && Enabled(w, step) && !Installing(step, s)
    ensures Inv(Do(w, step)) && |Do(w, step).peers| == |w.peers| && CommitAhead(Do(w, step), s)
    ensures w.peers[s].commitIndex <= Do(w, step).peers[s].commitIndex
  {
    hide ReignsOk, LogsOk, ElectionsOk, GrantsOk, TermsHeard, LeadersOk, AcksOk, CompleteOk, HeldOk, VotedOk,
      CommitsOk, NewEntriesOk, NetOk, AppliersOk, CommitAhead, Evolves, StepFits;
    StepKeeps(w, step);
    EvolvedTerm(w, Do(w, step), s);
    InvFits(w, step);
    AheadKeeps(w, step, s);
  }

  /** The commit index of a peer that never installed a snapshot never falls, although a follower
      sets it to a minimum. */
  lemma {:induction false} CommitNeverFalls(ws: seq<World>, steps: seq<Step>, n: nat, i: nat, j: nat, s: nat)
    requires Run(ws, steps, n) && i <= j < |ws| && s < n && NotInstalled(steps, j, s)
    ensures |ws[i].peers| == |ws[j].peers| == n && ws[i].peers[s].commitIndex <= ws[j].peers[s].commitIndex
    decreases j
  {
    hide Run;
    RunLength(ws, steps, n);
    if i == j {
      RunAhead(ws, steps, n, i, s);
    } else {
      CommitNeverFalls(ws, steps, n, i, j - 1, s);
      CommitStepUp(ws, steps, n, j - 1, s);
    }
  }

  lemma CommitStepUp(ws: seq<World>, steps: seq<Step>, n: nat, i: nat, s: nat)
    requires Run(ws, steps, n) && i < |steps| && s < n && NotInstalled(steps, i + 1, s)
    ensures |ws[i].peers| == |ws[i + 1].peers| == n && ws[i].peers[s].commitIndex <= ws[i + 1].peers[s].commitIndex
  {
    hide Inv, CommitAhead;
    RunAhead(ws, steps, n, i, s);
    StepAhead(ws[i], steps[i], s);
  }

  lemma {:induction false} RunAhead(ws: seq<World>, steps: seq<Step>, n: nat, i: nat, s: nat)
    requires Run(ws, steps, n) && i < |ws| && s < n && NotInstalled(steps, i, s)
    ensures Inv(ws[i]) && |ws[i].peers| == n && CommitAhead(ws[i], s)
  {
    hide Inv;
    if i == 0 {
      InitialInv(ws[0], n);
      InvShape(ws[0]);
    } else {
      RunAhead(ws, steps, n, i - 1, s);
      StepAhead(ws[i - 1], steps[i - 1], s);
    }
  }
}

/** Sending, installing and acknowledging a snapshot keep the invariant, although the receiver keeps
    the entries it had past the snapshot without comparing terms. */
module RaftInstall {
  import opened RaftPeer
  import opened RaftWorld
  import opened RaftInv
  import opened RaftFacts
  import opened RaftElection
  import opened RaftAppend
  import opened RaftLead

  // ----- Sending ---------------------------------------------------------------------------

  lemma SnapshotFits(w: World, s: nat, dst: nat)
    requires Shape(w) && LogsOk(w) && LeadersOk(w) && ElectionsOk(w) && Enabled(w, SendSnapshot(s, dst))
    ensures InstallOk(w, dst, SnapshotArgs(w.peers[s]), w.pre[s])
  {
    hide LogsOk, CommitOk, LogOk;
    var p, t, full, h := w.peers[s], w.peers[s].currentTerm, Full(w, s), w.peers[s].snapIndex;
    assert ElectionOk(w, s, t);
    assert LeaderOk(w, t) && PeerShape(p, w.pre[s], |w.peers|, s);
    SnapshotCommitted(w, s);
    EvolvesRefl(w);
    assert full[..h] == w.pre[s] == w.pre[s][..h];
    CommitOkStays(w, w, full, w.pre[s], h, t, t);
  }

  lemma SendSnapshotKeeps(w: World, s: nat, dst: nat)
    requires Inv(w) && Enabled(w, SendSnapshot(s, dst))
    ensures Inv(DoSendSnapshot(w, s, dst)) && Evolves(w, DoSendSnapshot(w, s, dst))
  {
    hide ReignsOk, LogsOk, ElectionsOk, GrantsOk, TermsHeard, LeadersOk, AcksOk, CompleteOk, HeldOk, VotedOk,
      CommitsOk, NewEntriesOk, AppliersOk;
    SnapshotFits(w, s, dst);
    AddMessage(w, DoSendSnapshot(w, s, dst), Install(dst, SnapshotArgs(w.peers[s]), w.pre[s]));
  }

  // ----- The reply ---------------------------------------------------------------------------

  lemma InstallAckQuiet(w: World, m: Msg)
    requires CoreInv(w) && Enabled(w, RecvInstallAck(m)) && m.installReply.term <= w.peers[m.install.leaderId].currentTerm
    ensures Quiet(w, DoRecvInstallAck(w, m), m.install.leaderId) && Evolves(w, DoRecvInstallAck(w, m))
    ensures var s, w' := m.install.leaderId, DoRecvInstallAck(w, m);
      w'.peers[s] == w.peers[s].(matchIndex := w'.peers[s].matchIndex, nextIndex := w'.peers[s].nextIndex)
  {
    hide ReignsOk, LogsOk, ElectionsOk, GrantsOk, TermsHeard, AcksOk, CompleteOk, HeldOk, VotedOk, Numbered;
    var s, w' := m.install.leaderId, DoRecvInstallAck(w, m);
    assert PeerShape(w.peers[s], w.pre[s], |w.peers|, s);
    assert PeerShape(w'.peers[s], w'.pre[s], |w.peers|, s);
    assert forall i: nat :: i < |w.peers| ==> Full(w', i) == Full(w, i);
    CoreStays(w, w');
  }

  lemma InstallAckLeader(w: World, m: Msg)
    requires Shape(w) && LeadersOk(w) && Enabled(w, RecvInstallAck(m)) && MsgOk(w, m)
    requires m.installReply.term <= w.peers[m.install.leaderId].currentTerm
    requires Shape(DoRecvInstallAck(w, m)) && Evolves(w, DoRecvInstallAck(w, m))
    ensures var s, w' := m.install.leaderId, DoRecvInstallAck(w, m);
      w'.peers[s].currentTerm in w'.reigns ==> LeaderOk(w', w'.peers[s].currentTerm)
  {
    hide CommitOk, Evolves;
    var s, w' := m.install.leaderId, DoRecvInstallAck(w, m);
    var t := w.peers[s].currentTerm;
    if t in w.reigns {
      assert LeaderOk(w, t);
      ReplicasLater(w, w', t);
      CommitOkBound(w, w.reigns[m.install.term].log, m.install.lastIncludedIndex, m.install.term);
      assert t == m.install.term ==> Replicated(w, m.src, t, m.install.lastIncludedIndex);
      assert Full(w', s) == Full(w, s);
    }
  }

  lemma RecvInstallAckKeeps(w: World, m: Msg)
    requires Inv(w) && Enabled(w, RecvInstallAck(m))
    ensures Inv(DoRecvInstallAck(w, m)) && Evolves(w, DoRecvInstallAck(w, m))
  {
    hide ReignsOk, LogsOk, ElectionsOk, GrantsOk, TermsHeard, LeadersOk, AcksOk, CompleteOk, HeldOk, VotedOk, NewEntriesOk;
    var w', s := DoRecvInstallAck(w, m), m.install.leaderId;
    assert MsgOk(w, m);
    if m.installReply.term > w.peers[s].currentTerm {
      StepDownKeeps(w, s, m.installReply.term);
    } else {
      InstallAckQuiet(w, m);
      assert ApplierOk(w, s);
      InstallAckLeader(w, m);
      CommitStays(w, w', s);
      ApplierStays(w, w', s);
      QuietKeeps(w, w', s);
    }
  }

  // ----- Installing ----------------------------------------------------------------------------

  /** Peer s has adopted the term of the leader that sent it the snapshot, and the snapshot is newer
      than what it has. */
  ghost predicate MayInstall(w: World, s: nat, a: InstallArgs, data: seq<Entry>)
    requires Shape(w)
  {
    && s < |w.peers| && InstallOk(w, s, a, data)
    && w.peers[s].currentTerm == w.peers[s].leaderTerm == a.term && w.peers[s].role == Follower
    && !OldSnapshot(w.peers[s], |w.pending[s]|, a)
  }

  function InstallWorld(w: World, s: nat, a: InstallArgs, data: seq<Entry>): World
    requires Shape(w) && s < |w.peers|
  {
    WithPeer(w, s, PutSnapshot(w.peers[s], a)).(pending := w.pending[s := data], pre := w.pre[s := data])
  }

  /** The full log afterwards: the snapshot, then the entries that were past it. */
  function Replaced(full: seq<Entry>, data: seq<Entry>): seq<Entry> {
    if |full| <= |data| then data else data + full[|data|..]
  }

  lemma SnapshotPut(p: Peer, pre: seq<Entry>, a: InstallArgs, data: seq<Entry>)
    requires WellFormed(p) && |pre| == p.snapIndex < a.lastIncludedIndex == |data|
    ensures data + PutSnapshot(p, a).log == Replaced(pre + p.log, data)
    ensures Numbered(PutSnapshot(p, a).log, |data|)
  {
    var q, full, li := PutSnapshot(p, a), pre + p.log, |data|;
    if |full| > li {
      assert q.log == p.log[li - p.snapIndex..] == full[li..];
    } else {
      assert q.log == [];
    }
  }

  lemma InstallShape(w: World, s: nat, a: InstallArgs, data: seq<Entry>)
    requires Shape(w) && ReignsOk(w) && MayInstall(w, s, a, data)
    ensures Shape(InstallWorld(w, s, a, data)) && Evolves(w, InstallWorld(w, s, a, data))
    ensures Full(InstallWorld(w, s, a, data), s) == Replaced(Full(w, s), data)
    ensures forall i :: 0 <= i < |w.peers| && i != s ==> Full(InstallWorld(w, s, a, data), i) == Full(w, i)
  {
    hide Matched, CommitOk, Replaced, Trim;
    var w', p := InstallWorld(w, s, a, data), w.peers[s];
    assert PeerShape(p, w.pre[s], |w.peers|, s);
    SnapshotPut(p, w.pre[s], a, data);
    assert Numbered(data, 0) by { assert ReignOk(w, a.term); }
    assert PeerShape(w'.peers[s], data, |w.peers|, s);
  }

  /** Whatever of the old log is committed stays in place. */
  lemma InstallKeepsPrefix(w: World, full: seq<Entry>, t: int, data: seq<Entry>, u: int, c: nat)
    requires CompleteOk(w) && CommitOk(w, data, |data|, u) && CommitOk(w, full, c, t) && c <= |full|
    ensures c <= |Replaced(full, data)| && Replaced(full, data)[..c] == full[..c]
  {
    hide CommitOk, CompleteOk;
    if c <= |data| {
      CommitsAgree(w, full, c, t, data, |data|, u);
      assert Replaced(full, data)[..c] == data[..c];
    } else {
      CommitsAgree(w, data, |data|, u, full, c, t);
      SameReplaced(full, data);
    }
  }

  lemma SameReplaced(full: seq<Entry>, data: seq<Entry>)
    requires data <= full
    ensures Replaced(full, data) == full
  {
    assert data == full[..|data|];
  }

  lemma DataCommitted(w: World, w': World, full: seq<Entry>, data: seq<Entry>, u: int)
    requires Evolves(w, w') && CommitOk(w, data, |data|, u)
    ensures CommitOk(w', Replaced(full, data), |data|, u)
  {
    assert data[..|data|] == Replaced(full, data)[..|data|];
    CommitOkStays(w, w', data, Replaced(full, data), |data|, u, u);
  }

  /** An entry kept past a snapshot that the log did not begin with is stray. */
  lemma KeptStray(w: World, full: seq<Entry>, h: nat, t: int, data: seq<Entry>, u: int, k: nat)
    requires LogOk(w, full, h, t) && CompleteOk(w) && CommitOk(w, data, |data|, u)
    requires h < |data| <= k < |full| && !(data <= full)
    ensures Stray(w.reigns, Replaced(full, data), |data|, k)
  {
    hide CommitOk, CompleteOk;
    var full', li := Replaced(full, data), |data|;
    assert full'[k] == full[k] && full'[..li] == data;
    var v := full[k].term;
    if Matched(w.reigns, full) {
      assert full[..k + 1] <= w.reigns[v].log;
      assert full[..k + 1][k] == full[k];
      Differ(data, full, w.reigns[v].log, k + 1);
    } else {
      assert Stray(w.reigns, full, h, k);
      InstallKeepsPrefix(w, full, t, data, u, h);
      assert data[..h] == full[..h];
      Begins(data, w.reigns[v].log, h);
    }
  }

  lemma Differ<T>(a: seq<T>, b: seq<T>, c: seq<T>, k: nat)
    requires |a| <= k <= |b| && b[..k] <= c && !(a <= b)
    ensures !(a <= c)
  {
    assert b[..k][..|a|] == c[..|a|] == b[..|a|];
  }

  lemma Begins<T>(a: seq<T>, c: seq<T>, h: nat)
    requires h <= |a|
    ensures a <= c ==> a[..h] <= c
  {
    if a <= c { PrefixTrans(a[..h], a, c); }
  }

  /** After the install the log is matched, or everything it kept is stray. */
  lemma InstallLogOk(w: World, full: seq<Entry>, h: nat, t: int, data: seq<Entry>, u: int)
    requires ReignsOk(w) && CompleteOk(w) && LogOk(w, full, h, t) && h < |data| && CommitOk(w, data, |data|, u)
    requires u in w.reigns && data <= w.reigns[u].log
    ensures LogOk(w, Replaced(full, data), |data|, u)
  {
    hide CommitOk, Matched, Stray, CompleteOk;
    var full' := Replaced(full, data);
    EvolvesRefl(w);
    DataCommitted(w, w, full, data, u);
    if |full| <= |data| {
      DataMatched(w, data, u);
    } else if data <= full {
      SameReplaced(full, data);
      if AllStray(w.reigns, full, h) { StrayUncommitted(w, full, h, |data|, u); }
    } else {
      forall k | |data| <= k < |full'| ensures Stray(w.reigns, full', |data|, k) { KeptStray(w, full, h, t, data, u, k); }
    }
  }

  lemma InstallLogs(w: World, s: nat, a: InstallArgs, data: seq<Entry>)
    requires Shape(w) && ReignsOk(w) && LogsOk(w) && CompleteOk(w) && MayInstall(w, s, a, data)
    ensures Shape(InstallWorld(w, s, a, data)) && LogsOk(InstallWorld(w, s, a, data))
  {
    hide ReignsOk, CompleteOk, LogOk, CommitOk, Replaced, Evolves;
    var w', full := InstallWorld(w, s, a, data), Full(w, s);
    InstallShape(w, s, a, data);
    assert PeerShape(w.peers[s], w.pre[s], |w.peers|, s);
    InstallLogOk(w, full, w.peers[s].snapIndex, a.term, data, a.term);
    LogOkLater(w, w', Replaced(full, data), |data|, a.term, a.term);
    ReplacedTerms(w, full, data, a.term);
    forall i: nat | i < |w.peers| && i != s
      ensures LogOk(w', Full(w', i), w'.peers[i].snapIndex, w'.peers[i].currentTerm)
    {
      LogOkLater(w, w', Full(w, i), w.peers[i].snapIndex, w.peers[i].currentTerm, w.peers[i].currentTerm);
    }
  }

  lemma ReplacedTerms(w: World, full: seq<Entry>, data: seq<Entry>, u: int)
    requires ReignsOk(w) && u in w.reigns && data <= w.reigns[u].log && TermsUpTo(full, u)
    ensures TermsUpTo(Replaced(full, data), u)
  {
    assert ReignOk(w, u);
  }

  lemma InstallElections(w: World, s: nat, a: InstallArgs, data: seq<Entry>)
    requires Shape(w) && MayInstall(w, s, a, data) && ElectionsOk(w)
    requires Shape(InstallWorld(w, s, a, data)) && Evolves(w, InstallWorld(w, s, a, data))
    ensures ElectionsOk(InstallWorld(w, s, a, data))
  {
    hide LogOk, Matched, CommitOk, Evolves, Trim;
    var w' := InstallWorld(w, s, a, data);
    forall c, u | (c, u) in w'.elections
      ensures ElectionOk(w', c, u)
    {
      assert ElectionOk(w, c, u);
      ElectionLater(w, w', c, u);
      if c != s { assert Full(w', c) == Full(w, c); }
    }
  }

  lemma InstallVotes(w: World, s: nat, a: InstallArgs, data: seq<Entry>)
    requires Shape(w) && MayInstall(w, s, a, data) && ReignsOk(w) && GrantsOk(w) && TermsHeard(w) && AcksOk(w)
    requires Shape(InstallWorld(w, s, a, data))
    ensures var w' := InstallWorld(w, s, a, data); ReignsOk(w') && GrantsOk(w') && TermsHeard(w') && AcksOk(w')
  {
    hide Matched, CommitOk, Trim, Numbered, TermsUpTo;
    var w' := InstallWorld(w, s, a, data);
    forall u | u in w'.reigns
      ensures ReignOk(w', u)
    {
      assert ReignOk(w, u);
    }
    forall u, v, c | (u, v, c) in w'.grants
      ensures GrantOk(w', u, v, c)
    {
      assert GrantOk(w, u, v, c);
    }
  }

  /** What can be chosen and what is committed lie on one line. */
  lemma ChosenMeetsCommitted(w: World, data: seq<Entry>, u: int, t: int, i: int)
    requires CompleteOk(w) && CommitOk(w, data, |data|, u) && Choosable(w, t, i)
    ensures w.reigns[t].log[..i] <= data || data <= w.reigns[t].log[..i]
  {
    hide CanAckAll, AckedAll;
    var own := w.reigns[t].log[..i];
    if data != [] {
      var a, j :| Committed(w, a, j) && CommitBy(w, data, |data|, u, a, j);
      assert data[..|data|] == data;
      if t < a {
        BeginsOneOf(data, own, w.reigns[a].log, own);
      } else {
        CommittedBegins(w, data, |data|, u, a, j, t);
        BeginsOneOf(data, own, w.reigns[t].log, own);
      }
    }
  }

  lemma DataMatched(w: World, data: seq<Entry>, u: int)
    requires ReignsOk(w) && u in w.reigns && data <= w.reigns[u].log
    ensures Matched(w.reigns, data)
  {
    assert ReignOk(w, u);
    MatchedPrefix(w.reigns, data, w.reigns[u].log);
  }

  lemma InstallKeepsEntry(w: World, full: seq<Entry>, data: seq<Entry>, u: int, t: int, i: int)
    requires ReignsOk(w) && CompleteOk(w) && CommitOk(w, data, |data|, u) && Choosable(w, t, i) && Keeps(w, full, t, i)
    requires u in w.reigns && data <= w.reigns[u].log
    ensures Keeps(w, Replaced(full, data), t, i)
  {
    hide ReignsOk, CompleteOk, CommitOk, Matched, CanAckAll, AllStray;
    var own := w.reigns[t].log[..i];
    ChosenMeetsCommitted(w, data, u, t, i);
    if own <= data {
      PrefixTrans(own, data, Replaced(full, data));
      if |full| > |data| {
        assert Replaced(full, data)[|full| - 1] == full[|full| - 1];
      } else {
        DataMatched(w, data, u);
        MatchedKeeps(w, data, t, i);
      }
    } else {
      PrefixTrans(data, own, full);
      SameReplaced(full, data);
    }
  }

  lemma InstallHeld(w: World, s: nat, a: InstallArgs, data: seq<Entry>)
    requires Shape(w) && ReignsOk(w) && CompleteOk(w) && HeldOk(w) && MayInstall(w, s, a, data)
    requires Shape(InstallWorld(w, s, a, data)) && Evolves(w, InstallWorld(w, s, a, data))
    requires Full(InstallWorld(w, s, a, data), s) == Replaced(Full(w, s), data)
    ensures CompleteOk(InstallWorld(w, s, a, data)) && HeldOk(InstallWorld(w, s, a, data))
  {
    hide ReignsOk, Replaced, CommitOk, Trim;
    var w' := InstallWorld(w, s, a, data);
    forall t, i | Choosable(w', t, i)
      ensures Choosable(w, t, i)
    {
      ChoosableBefore(w, w', t, i);
    }
    forall v: nat, t, i | v < |w.peers| && Choosable(w', t, i) && Acked(w', v, t) >= i
      ensures Keeps(w', Full(w', v), t, i)
    {
      assert Keeps(w, Full(w, v), t, i);
      if v == s {
        InstallKeepsEntry(w, Full(w, s), data, a.term, t, i);
      } else {
        assert Full(w', v) == Full(w, v);
      }
    }
  }

  // ----- Commitment and delivery after an install -----------------------------------------------

  lemma InstallCommit(w: World, s: nat, a: InstallArgs, data: seq<Entry>)
    requires Shape(w) && CompleteOk(w) && CommitsOk(w) && MayInstall(w, s, a, data)
    requires Shape(InstallWorld(w, s, a, data)) && Evolves(w, InstallWorld(w, s, a, data))
    requires Full(InstallWorld(w, s, a, data), s) == Replaced(Full(w, s), data)
    ensures var w' := InstallWorld(w, s, a, data);
      0 <= w'.peers[s].commitIndex && CommitOk(w', Full(w', s), w'.peers[s].commitIndex, w'.peers[s].currentTerm)
  {
    hide CommitOk, CompleteOk, Replaced, Evolves, Trim;
    var w', full, t, c := InstallWorld(w, s, a, data), Full(w, s), a.term, w.peers[s].commitIndex;
    DataCommitted(w, w', full, data, t);
    CommitOkBound(w, full, c, t);
    InstallKeepsPrefix(w, full, t, data, t, c);
    CommitOkStays(w, w', full, Replaced(full, data), c, t, t);
  }

  /** If the leader's entries past the commit index are there, the snapshot changes nothing. */
  lemma InstallNewEntry(w: World, s: nat, a: InstallArgs, data: seq<Entry>)
    requires Shape(w) && NewEntriesOk(w) && MayInstall(w, s, a, data) && Shape(InstallWorld(w, s, a, data))
    requires Full(InstallWorld(w, s, a, data), s) == Replaced(Full(w, s), data)
    ensures var w' := InstallWorld(w, s, a, data); NewEntryOk(w', w'.peers[s], Full(w', s))
  {
    hide CommitOk, Trim;
    var p, full, k, leader := w.peers[s], Full(w, s), w.peers[s].lastNewEntryIndex, w.reigns[a.term].log;
    assert NewEntryOk(w, p, full);
    if k > p.commitIndex && k > |data| {
      assert data == leader[..|data|] == full[..|data|] by { Shorter(full, leader, k, |data|); }
      SameReplaced(full, data);
    }
  }

  lemma InstallFits(w: World, w': World, full: seq<Entry>, p: Peer, q: Applier, d: seq<Entry>, pending: seq<Entry>,
                    a: InstallArgs, data: seq<Entry>)
    requires ApplierFits(w, full, p, q, d, pending) && Evolves(w, w') && CompleteOk(w) && 0 <= p.lastApplied
    requires CommitOk(w, data, |data|, p.currentTerm) && |pending| <= |data| == a.lastIncludedIndex
    ensures ApplierFits(w', Replaced(full, data), PutSnapshot(p, a), q, d, data)
  {
    hide CommitOk, Evolves, CompleteOk, Trim;
    var full', t, k := Replaced(full, data), p.currentTerm, Max(End(q, d), |pending|);
    InstallKeepsPrefix(w, full, t, data, t, k);
    DataCommitted(w, w', full, data, t);
    CommitOkStays(w, w', full, full', k, t, t);
    BeginsStill(d, full, full', k);
    BeginsStill(q.snapshot, full, full', k);
    SliceStill(full, full', k, Max(|d|, |q.snapshot|), End(q, d));
  }

  lemma InstallTail(w: World, s: nat, a: InstallArgs, data: seq<Entry>)
    requires Shape(w) && CompleteOk(w) && CommitsOk(w) && AppliersOk(w) && NewEntriesOk(w) && MayInstall(w, s, a, data)
    requires Shape(InstallWorld(w, s, a, data)) && Evolves(w, InstallWorld(w, s, a, data))
    requires Full(InstallWorld(w, s, a, data), s) == Replaced(Full(w, s), data)
    ensures var w' := InstallWorld(w, s, a, data); CommitsOk(w') && AppliersOk(w') && NewEntriesOk(w')
  {
    hide CommitOk, CompleteOk, Replaced, Evolves, Trim, ApplierFits;
    var w' := InstallWorld(w, s, a, data);
    InstallCommit(w, s, a, data);
    InstallNewEntry(w, s, a, data);
    NewEntriesStay(w, w', s);
    forall i: nat | i < |w.peers|
      ensures 0 <= w'.peers[i].commitIndex && CommitOk(w', Full(w', i), w'.peers[i].commitIndex, w'.peers[i].currentTerm)
    {
      if i != s { CommitStays(w, w', i); }
    }
    forall i: nat | i < |w.peers|
      ensures ApplierOk(w', i)
    {
      assert ApplierOk(w, i);
      ReachInLog(w, i);
      if i != s {
        ApplierStays(w, w', i);
      } else {
        InstallFits(w, w', Full(w, s), w.peers[s], w.appliers[s], w.delivered[s], w.pending[s], a, data);
      }
    }
  }

  lemma ReachInLog(w: World, s: nat)
    requires Shape(w) && s < |w.peers| && ApplierOk(w, s)
    ensures Reach(w, s) <= |Full(w, s)| && 0 <= w.peers[s].lastApplied
  {
    assert PeerShape(w.peers[s], w.pre[s], |w.peers|, s);
  }

  lemma InstallWorldKeeps(w: World, s: nat, a: InstallArgs, data: seq<Entry>)
    requires Inv(w) && MayInstall(w, s, a, data)
    ensures Inv(InstallWorld(w, s, a, data)) && Evolves(w, InstallWorld(w, s, a, data))
  {
    hide ReignsOk, LogsOk, ElectionsOk, GrantsOk, TermsHeard, LeadersOk, AcksOk, CompleteOk, HeldOk, VotedOk,
      CommitsOk, NewEntriesOk, AppliersOk, Trim, Replaced;
    var w' := InstallWorld(w, s, a, data);
    InstallShape(w, s, a, data);
    InstallLogs(w, s, a, data);
    InstallElections(w, s, a, data);
    InstallVotes(w, s, a, data);
    InstallHeld(w, s, a, data);
    InstallTail(w, s, a, data);
    VotedStays(w, w');
    LeadersStay(w, w', s);
    NetStays(w, w', {});
  }

  // ----- The whole handler -----------------------------------------------------------------------

  lemma RecvInstallParts(w: World, m: Msg)
    requires Shape(w) && m.Install? && m.dst < |w.peers| && m.install.term >= w.peers[m.dst].currentTerm
    requires Shape(Hear(w, m.dst, m.install.term))
    ensures var s, a, w1 := m.dst, m.install, Hear(w, m.dst, m.install.term);
      var ack := InstallAck(s, a, InstallReply(w.peers[s].currentTerm, true));
      DoRecvInstall(w, m) ==
        if OldSnapshot(w1.peers[s], |w1.pending[s]|, a) then w1.(net := w.net + {ack})
        else InstallWorld(w1, s, a, m.data).(net := w.net + {ack})
  {
    hide Trim;
  }

  lemma AckInstall(w: World, w1: World, m: Msg, term: int)
    requires Inv(w) && m.Install? && MsgOk(w, m) && Inv(w1) && Evolves(w, w1) && w1.net == w.net
    ensures var ack := InstallAck(m.dst, m.install, InstallReply(term, true));
      var w' := w1.(net := w.net + {ack}); Inv(w') && Evolves(w, w')
  {
    hide ReignsOk, LogsOk, ElectionsOk, GrantsOk, TermsHeard, LeadersOk, AcksOk, CompleteOk, HeldOk, VotedOk,
      CommitsOk, NewEntriesOk, AppliersOk;
    var ack := InstallAck(m.dst, m.install, InstallReply(term, true));
    MsgStays(w, w1, m);
    InstallAcked(w1, m);
    AddMessage(w1, w1.(net := w.net + {ack}), ack);
    EvolvesTrans(w, w1, w1.(net := w.net + {ack}));
  }

  lemma InstallAcked(w: World, m: Msg)
    requires m.Install? && MsgOk(w, m)
    ensures InstallAckOk(w, m.dst, m.install)
  {
    var data, t := m.data, m.install.term;
    EvolvesRefl(w);
    assert data[..|data|] == w.reigns[t].log[..|data|];
    CommitOkStays(w, w, data, w.reigns[t].log, |data|, t, t);
  }

  lemma RecvInstallKeeps(w: World, m: Msg)
    requires Inv(w) && Enabled(w, RecvInstall(m))
    ensures Inv(DoRecvInstall(w, m)) && Evolves(w, DoRecvInstall(w, m))
  {
    hide ReignsOk, LogsOk, ElectionsOk, GrantsOk, TermsHeard, LeadersOk, AcksOk, CompleteOk, HeldOk, VotedOk,
      CommitsOk, NewEntriesOk, AppliersOk;
    var s, a := m.dst, m.install;
    assert MsgOk(w, m);
    if a.term < w.peers[s].currentTerm {
      InstallAcked(w, m);
      assert w.peers[s := w.peers[s]] == w.peers;
      AddMessage(w, DoRecvInstall(w, m), InstallAck(s, a, InstallReply(w.peers[s].currentTerm, false)));
    } else {
      var w1 := Hear(w, s, a.term);
      HearKeeps(w, s, a.term);
      MsgStays(w, w1, m);
      RecvInstallParts(w, m);
      if OldSnapshot(w1.peers[s], |w1.pending[s]|, a) {
        AckInstall(w, w1, m, w.peers[s].currentTerm);
      } else {
        var w2 := InstallWorld(w1, s, a, m.data);
        InstallWorldKeeps(w1, s, a, m.data);
        EvolvesTrans(w, w1, w2);
        AckInstall(w, w2, m, w.peers[s].currentTerm);
      }
    }
  }
}

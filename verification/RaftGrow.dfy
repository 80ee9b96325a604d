/** Log compaction, and the leader's own log growing by a proposed command, keep the invariant. */
module RaftGrow {
  import opened RaftPeer
  import opened RaftWorld
  import opened RaftInv
  import opened RaftFacts
  import opened RaftElection
  import opened RaftLead

  // ----- Snapshot -----------------------------------------------------------------------

  /** Compaction moves entries behind the snapshot and loses none. */
  lemma SnapshotMoves(p: Peer, pre: seq<Entry>, n: nat, s: nat, index: nat)
    requires PeerShape(p, pre, n, s) && index <= |pre + p.log|
    ensures var q := Snapshot(p, index);
      && q.snapIndex == Max(p.snapIndex, index)
      && PeerShape(q, (pre + p.log)[..q.snapIndex], n, s)
      && (pre + p.log)[..q.snapIndex] + q.log == pre + p.log
  {
    var q, full := Snapshot(p, index), pre + p.log;
    if p.snapIndex < index {
      SnapshotCuts(p, index);
      CutAt(pre, p.log, index);
    } else {
      assert full[..p.snapIndex] == pre;
    }
  }

  lemma SnapshotCuts(p: Peer, index: nat)
    requires WellFormed(p) && p.snapIndex < index <= p.snapIndex + |p.log|
    ensures var q, k := Snapshot(p, index), index - p.snapIndex;
      q.log == p.log[k..] && q.snapIndex == index && q.snapTerm == p.log[k - 1].term
  {
  }

  lemma CutAt(pre: seq<Entry>, log: seq<Entry>, index: nat)
    requires |pre| < index <= |pre + log|
    ensures (pre + log)[..index] + log[index - |pre|..] == pre + log
    ensures (pre + log)[index - 1] == log[index - |pre| - 1]
  {
  }

  /** The stored snapshot holds what the log held up to there. */
  lemma CompactQuiet(w: World, s: nat, index: nat)
    requires Shape(w) && Enabled(w, Compact(s, index)) && ApplierOk(w, s)
    ensures Quiet(w, DoCompact(w, s, index), s)
    ensures DoCompact(w, s, index).peers[s].snapIndex == Max(w.peers[s].snapIndex, index)
  {
    hide CommitOk, Numbered;
    var w', full, d := DoCompact(w, s, index), Full(w, s), w.delivered[s];
    assert PeerShape(w.peers[s], w.pre[s], |w.peers|, s);
    SnapshotMoves(w.peers[s], w.pre[s], |w.peers|, s, index);
    assert d[..index] == full[..index] by { BeginsStill(d[..index], d, full, |d|); }
    assert full[..w.peers[s].snapIndex] == w.pre[s];
    assert w'.pre[s] == full[..w'.peers[s].snapIndex];
    assert PeerShape(w'.peers[s], w'.pre[s], |w.peers|, s);
    assert forall i: nat :: i < |w.peers| ==> Full(w', i) == Full(w, i);
    assert MaySnap(w, s, w'.peers[s].snapIndex) by {
      CommitOkLess(w, full, Reach(w, s), w'.peers[s].snapIndex, w.peers[s].currentTerm);
    }
  }

  lemma CompactTail(w: World, s: nat, index: nat)
    requires Shape(w) && Enabled(w, Compact(s, index)) && ApplierOk(w, s) && CommitsOk(w)
    requires Quiet(w, DoCompact(w, s, index), s) && Evolves(w, DoCompact(w, s, index))
    requires DoCompact(w, s, index).peers[s].snapIndex == Max(w.peers[s].snapIndex, index)
    ensures var w' := DoCompact(w, s, index); CommitOk(w', Full(w', s), w'.peers[s].commitIndex, w'.peers[s].currentTerm)
  {
    hide CommitOk, Evolves;
    var w', full, t := DoCompact(w, s, index), Full(w, s), w.peers[s].currentTerm;
    var k := Reach(w, s);
    CommitOkStays(w, w', full, full, k, t, t);
    CommitOkLess(w', full, k, index, t);
    CommitOkBound(w, full, w.peers[s].commitIndex, t);
    CommitOkStays(w, w', full, full, w.peers[s].commitIndex, t, t);
  }

  lemma CompactFits(w: World, full: seq<Entry>, p: Peer, q: Applier, d: seq<Entry>, pending: seq<Entry>, index: nat)
    requires ApplierFits(w, full, p, q, d, pending) && index <= |d|
    ensures ApplierFits(w, full, Snapshot(p, index).(snapIndex := Max(p.snapIndex, index)), q, d, pending)
  {
    hide CommitOk, Trim;
  }

  lemma CompactApplier(w: World, s: nat, index: nat)
    requires Shape(w) && Enabled(w, Compact(s, index)) && ApplierOk(w, s)
    requires Quiet(w, DoCompact(w, s, index), s) && Evolves(w, DoCompact(w, s, index))
    requires DoCompact(w, s, index).peers[s].snapIndex == Max(w.peers[s].snapIndex, index)
    ensures ApplierOk(DoCompact(w, s, index), s)
  {
    hide CommitOk, Evolves, Snapshot;
    var w', t, full := DoCompact(w, s, index), w.peers[s].currentTerm, Full(w, s);
    CommitOkStays(w, w', full, full, Reach(w, s), t, t);
    CompactFits(w, full, w.peers[s], w.appliers[s], w.delivered[s], w.pending[s], index);
    assert Full(w', s) == full;
  }

  lemma CompactKeeps(w: World, s: nat, index: nat)
    requires Inv(w) && Enabled(w, Compact(s, index))
    ensures Inv(DoCompact(w, s, index)) && Evolves(w, DoCompact(w, s, index))
  {
    hide ReignsOk, LogsOk, ElectionsOk, GrantsOk, TermsHeard, LeadersOk, AcksOk, CompleteOk, HeldOk, VotedOk, NewEntriesOk;
    var w' := DoCompact(w, s, index);
    assert ApplierOk(w, s);
    CompactQuiet(w, s, index);
    CoreStays(w, w');
    CompactTail(w, s, index);
    CompactApplier(w, s, index);
    var t := w.peers[s].currentTerm;
    assert t in w.reigns ==> LeaderOk(w', t) by { if t in w.reigns { CompactLeader(w, s, index); } }
    QuietKeeps(w, w', s);
  }

  lemma CompactLeader(w: World, s: nat, index: nat)
    requires Shape(w) && Enabled(w, Compact(s, index)) && LeadersOk(w) && Quiet(w, DoCompact(w, s, index), s)
    requires Evolves(w, DoCompact(w, s, index))
    requires w.peers[s].currentTerm in w.reigns
    ensures LeaderOk(DoCompact(w, s, index), w.peers[s].currentTerm)
  {
    hide CommitOk, Evolves;
    assert LeaderOk(w, w.peers[s].currentTerm);
    ReplicasLater(w, DoCompact(w, s, index), w.peers[s].currentTerm);
  }

  // ----- A new command ----------------------------------------------------------------------

  ghost function NewEntry(w: World, s: nat, command: Command): Entry
    requires Shape(w) && s < |w.peers|
  {
    Entry(command, w.peers[s].currentTerm, LastIndex(w.peers[s]) + 1)
  }

  ghost predicate Leads(w: World, s: nat)
    requires Shape(w)
  {
    s < |w.peers| && w.peers[s].role == Leader
    && w.peers[s].currentTerm in w.reigns && w.reigns[w.peers[s].currentTerm].leader == s
    && Full(w, s) == w.reigns[w.peers[s].currentTerm].log
  }

  lemma ProposeShape(w: World, s: nat, command: Command)
    requires Shape(w) && AcksOk(w) && Leads(w, s)
    ensures Shape(DoPropose(w, s, command)) && Evolves(w, DoPropose(w, s, command))
    ensures var w', t := DoPropose(w, s, command), w.peers[s].currentTerm;
      && Full(w', s) == Full(w, s) + [NewEntry(w, s, command)] == w'.reigns[t].log
      && Numbered(Full(w', s), 0)
      && (forall i :: 0 <= i < |w.peers| && i != s ==> Full(w', i) == Full(w, i))
  {
    var w', e := DoPropose(w, s, command), NewEntry(w, s, command);
    LastOfFull(w, s);
    assert PeerShape(w.peers[s], w.pre[s], |w.peers|, s);
    assert w.pre[s] + (w.peers[s].log + [e]) == Full(w, s) + [e];
    assert PeerShape(w'.peers[s], w'.pre[s], |w.peers|, s);
    assert Numbered(Full(w, s) + [e], 0);
  }

  /** The extended log is still matched: its last entry ends its own leader's log. */
  lemma MatchedExtend(reigns: map<int, Reign>, t: int, e: Entry)
    requires t in reigns && e.term == t && Matched(reigns, reigns[t].log)
    ensures Matched(reigns[t := reigns[t].(log := reigns[t].log + [e])], reigns[t].log + [e])
  {
    var log, reigns' := reigns[t].log, reigns[t := reigns[t].(log := reigns[t].log + [e])];
    MatchedGrow(reigns, reigns', log);
    forall k | 0 <= k < |log + [e]|
      ensures (log + [e])[k].term in reigns' && (log + [e])[..k + 1] <= reigns'[(log + [e])[k].term].log
    {
      if k < |log| {
        assert (log + [e])[..k + 1] == log[..k + 1];
      }
    }
  }

  lemma ProposeReigns(w: World, s: nat, command: Command)
    requires Shape(w) && ReignsOk(w) && LogsOk(w) && AcksOk(w) && Leads(w, s)
    ensures Shape(DoPropose(w, s, command)) && ReignsOk(DoPropose(w, s, command)) && LogsOk(DoPropose(w, s, command))
    ensures AcksOk(DoPropose(w, s, command))
  {
    hide Matched, LogsOk, Evolves;
    var w', t := DoPropose(w, s, command), w.peers[s].currentTerm;
    ProposeShape(w, s, command);
    assert ReignOk(w, t);
    MatchedExtend(w.reigns, t, NewEntry(w, s, command));
    assert w'.reigns == w.reigns[t := w.reigns[t].(log := w.reigns[t].log + [NewEntry(w, s, command)])];
    forall u | u in w'.reigns
      ensures ReignOk(w', u)
    {
      assert ReignOk(w, u);
      if u != t { MatchedLater(w, w', w.reigns[u].log); }
    }
    ProposeLogs(w, s, command);
  }

  lemma ProposeLogs(w: World, s: nat, command: Command)
    requires Shape(w) && LogsOk(w) && AcksOk(w) && Leads(w, s) && Shape(DoPropose(w, s, command))
    requires Matched(DoPropose(w, s, command).reigns, Full(DoPropose(w, s, command), s))
    ensures LogsOk(DoPropose(w, s, command))
  {
    hide Matched, CommitOk, Evolves, AllStray;
    var w' := DoPropose(w, s, command);
    ProposeShape(w, s, command);
    forall i: nat | i < |w.peers|
      ensures LogOk(w', Full(w', i), w'.peers[i].snapIndex, w'.peers[i].currentTerm) && TermsUpTo(Full(w', i), w'.peers[i].currentTerm)
    {
      var full, h, t := Full(w, i), w.peers[i].snapIndex, w.peers[i].currentTerm;
      assert PeerShape(w.peers[i], w.pre[i], |w.peers|, i);
      LogOkLater(w, w', full, h, t, t);
      if i == s {
        EvolvesRefl(w');
        CommitOkStays(w', w', full, Full(w', i), h, t, t);
      }
    }
  }

  lemma ProposeElections(w: World, s: nat, command: Command)
    requires Shape(w) && AcksOk(w) && ElectionsOk(w) && GrantsOk(w) && TermsHeard(w) && Leads(w, s)
    ensures Shape(DoPropose(w, s, command)) && ElectionsOk(DoPropose(w, s, command))
    ensures GrantsOk(DoPropose(w, s, command)) && TermsHeard(DoPropose(w, s, command))
  {
    hide LogOk, Evolves, Numbered;
    var w' := DoPropose(w, s, command);
    ProposeShape(w, s, command);
    forall c, u | (c, u) in w'.elections
      ensures ElectionOk(w', c, u)
    {
      assert ElectionOk(w, c, u);
      ElectionLater(w, w', c, u);
    }
    forall u, v, c | (u, v, c) in w'.grants
      ensures GrantOk(w', u, v, c)
    {
      assert GrantOk(w, u, v, c);
    }
  }

  /** An entry proposed in a term that already has a successor can never be chosen. */
  lemma FreshNotChosen(w: World, s: nat, command: Command, u: int)
    requires Shape(w) && ReignsOk(w) && GrantsOk(w) && AcksOk(w) && Leads(w, s)
    requires u in w.reigns && w.peers[s].currentTerm < u
    ensures !Choosable(DoPropose(w, s, command), w.peers[s].currentTerm, |Full(w, s)| + 1)
  {
    var w', t, i := DoPropose(w, s, command), w.peers[s].currentTerm, |Full(w, s)| + 1;
    assert ReignOk(w, u);
    forall q | Quorum(|w.peers|, q)
      ensures !CanAckAll(w', q, t, i)
    {
      var v := QuorumsMeet(|w.peers|, q, w.reigns[u].voters);
      assert GrantOk(w, u, v, w.reigns[u].leader);
      assert !CanAck(w', v, t, i);
    }
  }

  lemma ProposeComplete(w: World, s: nat, command: Command)
    requires Shape(w) && ReignsOk(w) && GrantsOk(w) && AcksOk(w) && CompleteOk(w) && Leads(w, s)
    ensures CompleteOk(DoPropose(w, s, command))
  {
    var w' := DoPropose(w, s, command);
    ProposeShape(w, s, command);
    forall a, b, i | a in w'.reigns && b in w'.reigns && a < b && Choosable(w', a, i)
      ensures w'.reigns[a].log[..i] <= w'.reigns[b].log
    {
      if i > |w.reigns[a].log| {
        FreshNotChosen(w, s, command, b);
      } else {
        ChoosableBefore(w, w', a, i);
        assert w.reigns[a].log[..i] <= w.reigns[b].log && SameReign(w.reigns[b], w'.reigns[b]);
        PrefixTrans(w.reigns[a].log[..i], w.reigns[b].log, w'.reigns[b].log);
      }
    }
  }

  lemma ProposeHeld(w: World, s: nat, command: Command)
    requires Shape(w) && ReignsOk(w) && AcksOk(w) && HeldOk(w) && Leads(w, s)
    requires Shape(DoPropose(w, s, command)) && ReignsOk(DoPropose(w, s, command))
    ensures HeldOk(DoPropose(w, s, command))
  {
    hide Numbered, CanAckAll;
    var w', t := DoPropose(w, s, command), w.peers[s].currentTerm;
    ProposeShape(w, s, command);
    forall v: nat, a, i | v < |w.peers| && Choosable(w', a, i) && Acked(w', v, a) >= i
      ensures Keeps(w', Full(w', v), a, i)
    {
      if v == s && a == t {
        ProposeKeepsOwn(w', Full(w', s), t, i);
      } else {
        ChoosableBefore(w, w', a, i);
        assert Keeps(w, Full(w, v), a, i);
        if v == s {
          assert ReignOk(w, t);
          ProposeKeepsOther(w, w', Full(w, s), Full(w', s), a, i);
        }
      }
    }
  }

  lemma ProposeKeepsOwn(w: World, log: seq<Entry>, t: int, i: int)
    requires t in w.reigns && log == w.reigns[t].log && 0 <= i <= |log| && t <= TermAt(log, |log|)
    ensures Keeps(w, log, t, i)
  {
  }

  lemma ProposeKeepsOther(w: World, w': World, log: seq<Entry>, log': seq<Entry>, a: int, i: int)
    requires a in w.reigns && 0 <= i <= |w.reigns[a].log| && Keeps(w, log, a, i)
    requires a in w'.reigns && i <= |w'.reigns[a].log| && w'.reigns[a].log[..i] == w.reigns[a].log[..i]
    requires log <= log' && TermAt(log, |log|) <= TermAt(log', |log'|)
    ensures Keeps(w', log', a, i)
  {
    PrefixTrans(w.reigns[a].log[..i], log, log');
  }

  lemma ProposeVoted(w: World, s: nat, command: Command)
    requires Shape(w) && AcksOk(w) && GrantsOk(w) && VotedOk(w) && Leads(w, s)
    ensures Shape(DoPropose(w, s, command)) && VotedOk(DoPropose(w, s, command))
  {
    hide Numbered;
    var w' := DoPropose(w, s, command);
    ProposeShape(w, s, command);
    forall u, v, c, a, i | (u, v, c) in w'.grants && (c, u) in w'.elections && a < u && Choosable(w', a, i) && Acked(w', v, a) >= i
      ensures Keeps(w', w'.elections[(c, u)].log, a, i)
    {
      assert GrantOk(w, u, v, c);
      ChoosableBefore(w, w', a, i);
      assert Keeps(w, w.elections[(c, u)].log, a, i);
    }
  }

  lemma ProposeLeaders(w: World, s: nat, command: Command)
    requires Shape(w) && AcksOk(w) && ReignsOk(w) && LeadersOk(w) && Leads(w, s)
    ensures Shape(DoPropose(w, s, command)) && LeadersOk(DoPropose(w, s, command))
  {
    hide ReignsOk, Evolves, Numbered, CommitOk;
    var w', t := DoPropose(w, s, command), w.peers[s].currentTerm;
    ProposeShape(w, s, command);
    LastOfFull(w, s);
    forall u | u in w'.reigns
      ensures LeaderOk(w', u)
    {
      assert LeaderOk(w, u);
      ReplicasLater(w, w', u);
    }
  }

  lemma ProposeTail(w: World, s: nat, command: Command)
    requires Shape(w) && AcksOk(w) && CommitsOk(w) && Leads(w, s)
    ensures Shape(DoPropose(w, s, command)) && CommitsOk(DoPropose(w, s, command))
  {
    hide CommitOk, Evolves;
    var w' := DoPropose(w, s, command);
    ProposeShape(w, s, command);
    forall i: nat | i < |w.peers|
      ensures CommitOk(w', Full(w', i), w'.peers[i].commitIndex, w'.peers[i].currentTerm)
    {
      var ci := w.peers[i].commitIndex;
      CommitOkBound(w, Full(w, i), ci, w.peers[i].currentTerm);
      assert Full(w', i)[..ci] == Full(w, i)[..ci];
      CommitOkStays(w, w', Full(w, i), Full(w', i), ci, w.peers[i].currentTerm, w.peers[i].currentTerm);
    }
  }

  lemma ProposeAppliers(w: World, s: nat, command: Command)
    requires Shape(w) && AcksOk(w) && AppliersOk(w) && Leads(w, s)
    ensures Shape(DoPropose(w, s, command)) && AppliersOk(DoPropose(w, s, command))
  {
    hide CommitOk, Evolves;
    var w' := DoPropose(w, s, command);
    ProposeShape(w, s, command);
    forall i: nat | i < |w.peers|
      ensures ApplierOk(w', i)
    {
      assert ApplierOk(w, i);
      var k := Reach(w, i);
      assert Full(w', i)[..k] == Full(w, i)[..k];
      ApplierStays(w, w', i);
    }
  }

  lemma ProposeNewEntries(w: World, s: nat, command: Command)
    requires Shape(w) && AcksOk(w) && NewEntriesOk(w) && Leads(w, s)
    ensures Shape(DoPropose(w, s, command)) && NewEntriesOk(DoPropose(w, s, command))
  {
    var w' := DoPropose(w, s, command);
    ProposeShape(w, s, command);
    forall i: nat | i < |w.peers|
      ensures NewEntryOk(w', w'.peers[i], Full(w', i))
    {
      assert NewEntryOk(w, w.peers[i], Full(w, i));
      var p, k := w.peers[i], w.peers[i].lastNewEntryIndex;
      if p.leaderTerm == p.currentTerm && k > p.commitIndex {
        assert Full(w', i)[..k] == Full(w, i)[..k];
        assert w'.reigns[p.currentTerm].log[..k] == w.reigns[p.currentTerm].log[..k];
      }
    }
  }

  lemma ProposeKeeps(w: World, s: nat, command: Command)
    requires Inv(w) && Enabled(w, Propose(s, command))
    ensures Inv(DoPropose(w, s, command)) && Evolves(w, DoPropose(w, s, command))
  {
    hide ReignsOk, LogsOk, ElectionsOk, GrantsOk, TermsHeard, AcksOk, CompleteOk, HeldOk, VotedOk, CommitsOk,
      NewEntriesOk, AppliersOk;
    assert LeaderOk(w, w.peers[s].currentTerm);
    assert Leads(w, s);
    var w' := DoPropose(w, s, command);
    assert Shape(w') && Evolves(w, w') by { ProposeShape(w, s, command); }
    ProposeReigns(w, s, command);
    ProposeElections(w, s, command);
    ProposeComplete(w, s, command);
    ProposeHeld(w, s, command);
    ProposeVoted(w, s, command);
    ProposeLeaders(w, s, command);
    ProposeTail(w, s, command);
    ProposeAppliers(w, s, command);
    ProposeNewEntries(w, s, command);
    NetStays(w, w', {});
  }
}

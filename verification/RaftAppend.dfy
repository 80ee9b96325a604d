/** Receiving AppendEntries keeps the invariant. */
module RaftAppend {
  import opened RaftPeer
  import opened RaftWorld
  import opened RaftInv
  import opened RaftFacts
  import opened RaftElection

  lemma FollowKeeps(w: World, s: nat)
    requires Inv(w) && s < |w.peers|
    requires w.peers[s].currentTerm in w.reigns && w.reigns[w.peers[s].currentTerm].leader != s
    ensures Inv(WithPeer(w, s, w.peers[s].(role := Follower)))
    ensures Evolves(w, WithPeer(w, s, w.peers[s].(role := Follower)))
  {
    hide ReignsOk, LogsOk, ElectionsOk, GrantsOk, TermsHeard, AcksOk, CompleteOk, HeldOk, VotedOk, CommitsOk, AppliersOk;
    var w' := WithPeer(w, s, w.peers[s].(role := Follower));
    assert PeerShape(w.peers[s], w.pre[s], |w.peers|, s);
    assert forall i: nat :: i < |w.peers| ==> Full(w', i) == Full(w, i);
    CoreStays(w, w');
    TailStays(w, w');
    LeadersStay(w, w', s);
    NetStays(w, w', {});
    assert NewEntryOk(w, w.peers[s], Full(w, s));
    NewEntriesStay(w, w', s);
  }

  // ----- Accepting entries -----------------------------------------------------------------

  /** Peer s has adopted the term of the request, which is addressed to it by the leader of that
      term, and holds the entry before the new ones. */
  ghost predicate MayAccept(w: World, s: nat, a: AppendArgs)
    requires Shape(w)
  {
    && s < |w.peers| && AppendOk(w, s, a)
    && w.peers[s].currentTerm == w.peers[s].leaderTerm == a.term && w.peers[s].role == Follower
    && PrevMatches(w.peers[s], a)
  }

  function Upto(a: AppendArgs): int { a.prevLogIndex + |a.entries| }

  function AcceptWorld(w: World, s: nat, a: AppendArgs): World
    requires Shape(w) && s < |w.peers| && PrevMatches(w.peers[s], a)
  {
    WithPeer(w, s, Accept(w.peers[s], a)).(
      acks := if Upto(a) > w.peers[s].snapIndex then w.acks[(s, a.term) := Max(Acked(w, s, a.term), Upto(a))] else w.acks)
  }

  /** The snapshotted entries are in the log of every leader from the current term on. */
  lemma SnapshotAgrees(w: World, s: nat, u: int)
    requires Shape(w) && s < |w.peers| && LogsOk(w) && CompleteOk(w) && u in w.reigns && w.peers[s].currentTerm <= u
    ensures w.pre[s] <= w.reigns[u].log
  {
    hide CommitOk, CompleteOk, Matched;
    var full := Full(w, s);
    assert PeerShape(w.peers[s], w.pre[s], |w.peers|, s);
    assert LogOk(w, full, |w.pre[s]|, w.peers[s].currentTerm);
    CommitInReign(w, full, |w.pre[s]|, w.peers[s].currentTerm, u);
    assert w.pre[s] == full[..|w.pre[s]|];
  }

  /** Before the splice, the log agrees with the leader's up to the previous entry. */
  lemma PrevAgrees(reigns: map<int, Reign>, pre: seq<Entry>, p: Peer, leader: seq<Entry>, a: AppendArgs)
    requires |pre| == p.snapIndex && PrevMatches(p, a) && 0 <= a.prevLogIndex <= |leader| && pre <= leader
    requires a.prevLogTerm == TermAt(leader, a.prevLogIndex)
    requires (Matched(reigns, pre + p.log) || AllStray(reigns, pre + p.log, |pre|)) && Matched(reigns, leader)
    ensures a.prevLogIndex <= |pre + p.log| && (pre + p.log)[..a.prevLogIndex] == leader[..a.prevLogIndex]
  {
    var full := pre + p.log;
    assert full[..p.snapIndex] == pre == leader[..p.snapIndex];
    if a.prevLogIndex <= p.snapIndex {
      Shorter(full, leader, p.snapIndex, a.prevLogIndex);
    } else {
      assert full[a.prevLogIndex - 1] == p.log[a.prevLogIndex - p.snapIndex - 1];
      SameTermAgrees(reigns, full, |pre|, leader, a.prevLogIndex - 1);
    }
  }

  lemma NumberedFull(w: World, s: nat)
    requires Shape(w) && s < |w.peers|
    ensures Numbered(Full(w, s), 0)
  {
    LastOfFull(w, s);
  }

  /** The full log after the splice, for one peer. */
  lemma AcceptSplices(reigns: map<int, Reign>, pre: seq<Entry>, p: Peer, leader: seq<Entry>, a: AppendArgs)
    requires PrevMatches(p, a) && |pre| == p.snapIndex && 0 <= a.prevLogIndex && Upto(a) <= |leader|
    requires Matched(reigns, pre + p.log) || AllStray(reigns, pre + p.log, |pre|)
    requires Matched(reigns, leader) && Numbered(pre + p.log, 0) && Numbered(leader, 0)
    requires a.entries == leader[a.prevLogIndex..Upto(a)] && pre <= leader
    requires a.prevLogIndex <= |pre + p.log| && (pre + p.log)[..a.prevLogIndex] == leader[..a.prevLogIndex]
    ensures pre + Accept(p, a).log == Overwrite(pre + p.log, leader, Upto(a))
    ensures leader[..Upto(a)] <= pre + Accept(p, a).log
    ensures Numbered(pre + Accept(p, a).log, 0)
  {
    hide Matched, AllStray, Splice;
    var full := pre + p.log;
    SpliceOverwrites(reigns, pre, p.log, leader, a.prevLogIndex, Upto(a));
    assert Accept(p, a).log == Splice(p.log, a.prevLogIndex - p.snapIndex, a.entries) by { AcceptIsSplice(p, a); }
    OverwriteNumbered(full, leader, Upto(a));
    hide Accept;
  }

  lemma AcceptIsSplice(p: Peer, a: AppendArgs)
    requires PrevMatches(p, a) && 0 <= p.snapIndex
    ensures Accept(p, a).log == Splice(p.log, a.prevLogIndex - p.snapIndex, a.entries)
  {
  }

  lemma OverwriteNumbered(full: seq<Entry>, leader: seq<Entry>, m: nat)
    requires m <= |leader| && Numbered(full, 0) && Numbered(leader, 0)
    ensures Numbered(Overwrite(full, leader, m), 0) && leader[..m] <= Overwrite(full, leader, m)
  {
  }

  lemma AcceptLog(w: World, s: nat, a: AppendArgs)
    requires Shape(w) && ReignsOk(w) && LogsOk(w) && CompleteOk(w) && MayAccept(w, s, a)
    ensures w.pre[s] + Accept(w.peers[s], a).log == Overwrite(Full(w, s), w.reigns[a.term].log, Upto(a))
    ensures w.reigns[a.term].log[..Upto(a)] <= w.pre[s] + Accept(w.peers[s], a).log
    ensures Numbered(w.pre[s] + Accept(w.peers[s], a).log, 0)
  {
    hide CommitOk, CompleteOk, Matched, AllStray;
    assert ReignOk(w, a.term);
    assert PeerShape(w.peers[s], w.pre[s], |w.peers|, s);
    assert LogOk(w, Full(w, s), |w.pre[s]|, w.peers[s].currentTerm);
    SnapshotAgrees(w, s, a.term);
    PrevAgrees(w.reigns, w.pre[s], w.peers[s], w.reigns[a.term].log, a);
    NumberedFull(w, s);
    AcceptSplices(w.reigns, w.pre[s], w.peers[s], w.reigns[a.term].log, a);
  }

  lemma NumberedSuffix(pre: seq<Entry>, log: seq<Entry>)
    requires Numbered(pre + log, 0)
    ensures Numbered(log, |pre|)
  {
    assert forall k :: 0 <= k < |log| ==> (pre + log)[|pre| + k] == log[k];
  }

  lemma AcceptEvolves(w: World, s: nat, a: AppendArgs)
    requires Shape(w) && MayAccept(w, s, a)
    ensures Evolves(w, AcceptWorld(w, s, a))
  {
  }

  lemma AcceptShape(w: World, s: nat, a: AppendArgs)
    requires Shape(w) && ReignsOk(w) && LogsOk(w) && CompleteOk(w) && MayAccept(w, s, a)
    ensures Shape(AcceptWorld(w, s, a)) && Evolves(w, AcceptWorld(w, s, a))
    ensures Full(AcceptWorld(w, s, a), s) == Overwrite(Full(w, s), w.reigns[a.term].log, Upto(a))
    ensures w.reigns[a.term].log[..Upto(a)] <= Full(AcceptWorld(w, s, a), s)
    ensures forall i :: 0 <= i < |w.peers| && i != s ==> Full(AcceptWorld(w, s, a), i) == Full(w, i)
  {
    hide CompleteOk, ReignsOk, LogsOk, Evolves;
    AcceptEvolves(w, s, a);
    var w', p := AcceptWorld(w, s, a), Accept(w.peers[s], a);
    AcceptLog(w, s, a);
    NumberedSuffix(w.pre[s], p.log);
    assert PeerShape(p, w.pre[s], |w.peers|, s) by { assert PeerShape(w.peers[s], w.pre[s], |w.peers|, s); }
  }

  /** The spliced log is as good as before: it kept its stray entries, or none are left. */
  lemma AcceptLogOk(w: World, w': World, s: nat, leader: seq<Entry>, m: nat)
    requires Shape(w) && s < |w.peers| && LogsOk(w) && Evolves(w, w') && Matched(w.reigns, leader)
    requires w.pre[s] <= leader && m <= |leader| && |w.pre[s]| <= |Overwrite(Full(w, s), leader, m)|
    ensures LogOk(w', Overwrite(Full(w, s), leader, m), |w.pre[s]|, w.peers[s].currentTerm)
  {
    hide Matched, CommitOk, Evolves, AllStray;
    var full, t, h := Full(w, s), w.peers[s].currentTerm, |w.pre[s]|;
    assert PeerShape(w.peers[s], w.pre[s], |w.peers|, s);
    assert LogOk(w, full, h, t);
    LogOkLater(w, w', full, h, t, t);
    if !(leader[..m] <= full) {
      var full' := leader[..m];
      assert full'[..h] == leader[..h] == w.pre[s] == full[..h];
      CommitOkStays(w, w', full, full', h, t, t);
      MatchedPrefix(w.reigns, full', leader);
      MatchedLater(w, w', full');
    }
  }

  lemma AcceptLogs(w: World, s: nat, a: AppendArgs)
    requires Shape(w) && ReignsOk(w) && LogsOk(w) && CompleteOk(w) && AcksOk(w) && MayAccept(w, s, a)
    ensures Shape(AcceptWorld(w, s, a)) && LogsOk(AcceptWorld(w, s, a)) && AcksOk(AcceptWorld(w, s, a))
  {
    hide Matched, CommitOk, Evolves, CompleteOk, LogOk, Overwrite;
    var w', leader := AcceptWorld(w, s, a), w.reigns[a.term].log;
    AcceptShape(w, s, a);
    assert ReignOk(w, a.term);
    SnapshotAgrees(w, s, a.term);
    assert PeerShape(w'.peers[s], w'.pre[s], |w.peers|, s);
    AcceptLogOk(w, w', s, leader, Upto(a));
    OverwriteTerms(Full(w, s), leader, Upto(a), a.term);
    forall i: nat | i < |w.peers| && i != s
      ensures LogOk(w', Full(w', i), w'.peers[i].snapIndex, w'.peers[i].currentTerm)
    {
      LogOkLater(w, w', Full(w, i), w.peers[i].snapIndex, w.peers[i].currentTerm, w.peers[i].currentTerm);
    }
  }

  lemma OverwriteTerms(full: seq<Entry>, leader: seq<Entry>, m: nat, t: int)
    requires m <= |leader| && TermsUpTo(full, t) && TermsUpTo(leader, t)
    ensures TermsUpTo(Overwrite(full, leader, m), t)
  {
  }

  lemma AcceptElections(w: World, s: nat, a: AppendArgs)
    requires Shape(w) && MayAccept(w, s, a) && Shape(AcceptWorld(w, s, a)) && Evolves(w, AcceptWorld(w, s, a))
    requires ElectionsOk(w) && TermsHeard(w)
    ensures ElectionsOk(AcceptWorld(w, s, a)) && TermsHeard(AcceptWorld(w, s, a))
  {
    hide CommitOk, Matched, LogOk, Evolves;
    var w' := AcceptWorld(w, s, a);
    forall c, u | (c, u) in w'.elections
      ensures ElectionOk(w', c, u)
    {
      assert ElectionOk(w, c, u);
      ElectionLater(w, w', c, u);
      if c != s { assert Full(w', c) == Full(w, c); }
    }
  }

  lemma AcceptGrants(w: World, s: nat, a: AppendArgs)
    requires Shape(w) && MayAccept(w, s, a) && Shape(AcceptWorld(w, s, a))
    requires ReignsOk(w) && GrantsOk(w)
    ensures ReignsOk(AcceptWorld(w, s, a)) && GrantsOk(AcceptWorld(w, s, a))
  {
    var w' := AcceptWorld(w, s, a);
    forall u | u in w'.reigns
      ensures ReignOk(w', u)
    {
      assert ReignOk(w, u);
    }
    forall u, v, c | (u, v, c) in w'.grants
      ensures GrantOk(w', u, v, c)
    {
      assert GrantOk(w, u, v, c);
    }
  }

  /** An acknowledged choosable entry survives the splice; the entries just sent are all there. */
  lemma AcceptHolds(full: seq<Entry>, leader: seq<Entry>, m: nat, own: seq<Entry>, i: int, before: bool)
    requires m <= |leader| && 0 <= i <= |own|
    requires if before then own[..i] <= full && own[..i] <= leader else own == leader && i <= m
    ensures own[..i] <= Overwrite(full, leader, m)
  {
    if before {
      OverwriteKeeps(full, leader, m, own[..i]);
    } else {
      assert leader[..m][..i] == leader[..i];
      PrefixTrans(leader[..i], leader[..m], Overwrite(full, leader, m));
    }
  }

  lemma AcceptHeldHere(w: World, s: nat, a: AppendArgs, t: int, i: int)
    requires Shape(w) && CompleteOk(w) && AcksOk(w) && HeldOk(w) && MayAccept(w, s, a)
    requires Choosable(w, t, i) && Acked(AcceptWorld(w, s, a), s, t) >= i
    ensures w.reigns[t].log[..i] <= Overwrite(Full(w, s), w.reigns[a.term].log, Upto(a))
  {
    var before := Acked(w, s, t) >= i;
    if before {
      assert Keeps(w, Full(w, s), t, i);
      assert (s, t) in w.acks;
      assert t < a.term ==> w.reigns[t].log[..i] <= w.reigns[a.term].log;
    }
    AcceptHolds(Full(w, s), w.reigns[a.term].log, Upto(a), w.reigns[t].log, i, before);
  }

  /** Once entries past the snapshot were accepted no stray entry is left. */
  lemma AcceptMatched(w: World, s: nat, a: AppendArgs)
    requires Shape(w) && ReignsOk(w) && LogsOk(w) && CompleteOk(w) && MayAccept(w, s, a)
    requires Upto(a) > w.peers[s].snapIndex || Overwrite(Full(w, s), w.reigns[a.term].log, Upto(a)) != Full(w, s)
    ensures Matched(w.reigns, Overwrite(Full(w, s), w.reigns[a.term].log, Upto(a)))
  {
    hide CommitOk, CompleteOk;
    var full, leader, m, h := Full(w, s), w.reigns[a.term].log, Upto(a), |w.pre[s]|;
    assert PeerShape(w.peers[s], w.pre[s], |w.peers|, s);
    assert LogOk(w, full, h, w.peers[s].currentTerm);
    assert ReignOk(w, a.term);
    MatchedPrefix(w.reigns, leader[..m], leader);
    if leader[..m] <= full && AllStray(w.reigns, full, h) {
      SnapshotAgrees(w, s, a.term);
      assert full[h] == leader[..m][h] == leader[h] && full[..h] == w.pre[s];
      StrayApart(w.reigns, full, h, h, leader);
    }
  }

  lemma AcceptKeepsEntry(w: World, s: nat, a: AppendArgs, t: int, i: int)
    requires Shape(w) && ReignsOk(w) && LogsOk(w) && CompleteOk(w) && AcksOk(w) && HeldOk(w) && MayAccept(w, s, a)
    requires Choosable(w, t, i) && Acked(AcceptWorld(w, s, a), s, t) >= i
    ensures Keeps(w, Overwrite(Full(w, s), w.reigns[a.term].log, Upto(a)), t, i)
  {
    hide ReignsOk, LogsOk, CompleteOk, AcksOk, Matched, Overwrite, CanAckAll;
    AcceptHeldHere(w, s, a, t, i);
    var full' := Overwrite(Full(w, s), w.reigns[a.term].log, Upto(a));
    if Upto(a) > w.peers[s].snapIndex || full' != Full(w, s) {
      AcceptMatched(w, s, a);
      MatchedKeeps(w, full', t, i);
    }
  }

  lemma AcceptHeld(w: World, s: nat, a: AppendArgs)
    requires Shape(w) && ReignsOk(w) && LogsOk(w) && CompleteOk(w) && AcksOk(w) && HeldOk(w) && MayAccept(w, s, a)
    ensures Shape(AcceptWorld(w, s, a)) && CompleteOk(AcceptWorld(w, s, a)) && HeldOk(AcceptWorld(w, s, a))
  {
    hide ReignsOk, LogsOk, AcksOk, Overwrite;
    var w' := AcceptWorld(w, s, a);
    AcceptShape(w, s, a);
    forall t, i | Choosable(w', t, i)
      ensures Choosable(w, t, i)
    {
      ChoosableBefore(w, w', t, i);
    }
    forall v: nat, t, i | v < |w.peers| && Choosable(w', t, i) && Acked(w', v, t) >= i
      ensures Keeps(w', Full(w', v), t, i)
    {
      if v == s {
        AcceptKeepsEntry(w, s, a, t, i);
      } else {
        assert Keeps(w, Full(w, v), t, i);
      }
    }
  }

  lemma AcceptVoted(w: World, s: nat, a: AppendArgs)
    requires Shape(w) && GrantsOk(w) && VotedOk(w) && MayAccept(w, s, a)
    requires Shape(AcceptWorld(w, s, a)) && Evolves(w, AcceptWorld(w, s, a))
    ensures VotedOk(AcceptWorld(w, s, a))
  {
    var w' := AcceptWorld(w, s, a);
    forall u, v, c, t, i | (u, v, c) in w'.grants && (c, u) in w'.elections && t < u && Choosable(w', t, i) && Acked(w', v, t) >= i
      ensures Keeps(w', w'.elections[(c, u)].log, t, i)
    {
      ChoosableBefore(w, w', t, i);
      assert GrantOk(w, u, v, c);
    }
  }

  /** A prefix of the old log that the leader of the term shares stays in place. */
  lemma AcceptKeepsPrefix(w: World, s: nat, a: AppendArgs, k: int)
    requires Shape(w) && ReignsOk(w) && LogsOk(w) && CompleteOk(w) && MayAccept(w, s, a)
    requires 0 <= k <= |Full(w, s)| && k <= |w.reigns[a.term].log| && Full(w, s)[..k] == w.reigns[a.term].log[..k]
    ensures Shape(AcceptWorld(w, s, a))
    ensures k <= |Full(AcceptWorld(w, s, a), s)| && Full(AcceptWorld(w, s, a), s)[..k] == Full(w, s)[..k]
  {
    AcceptShape(w, s, a);
    OverwriteKeeps(Full(w, s), w.reigns[a.term].log, Upto(a), Full(w, s)[..k]);
  }

  /** After the handler, the log up to lastNewEntryIndex is the leader's. */
  lemma AcceptNewEntry(w: World, s: nat, a: AppendArgs)
    requires Shape(w) && ReignsOk(w) && LogsOk(w) && CompleteOk(w) && AppliersOk(w) && MayAccept(w, s, a)
    requires CommitsOk(w) && NewEntriesOk(w)
    ensures Shape(AcceptWorld(w, s, a))
    ensures var k, full, leader := Accept(w.peers[s], a).lastNewEntryIndex, Full(AcceptWorld(w, s, a), s), w.reigns[a.term].log;
      0 <= k <= |full| && k <= |leader| && full[..k] == leader[..k]
  {
    hide ReignsOk, LogsOk, CompleteOk, AppliersOk, CommitOk, Evolves, Overwrite;
    var w', p, leader := AcceptWorld(w, s, a), w.peers[s], w.reigns[a.term].log;
    AcceptShape(w, s, a);
    assert NewEntryOk(w, p, Full(w, s));
    CommitInReign(w, Full(w, s), p.commitIndex, p.currentTerm, a.term);
    var k := p.lastNewEntryIndex;
    if k <= p.commitIndex {
      Shorter(Full(w, s), leader, p.commitIndex, k);
    }
    AcceptKeepsPrefix(w, s, a, k);
    assert leader[..Upto(a)] == Full(w', s)[..Upto(a)];
  }

  lemma AcceptCommit(w: World, s: nat, a: AppendArgs)
    requires Shape(w) && ReignsOk(w) && LogsOk(w) && CompleteOk(w) && AppliersOk(w) && MayAccept(w, s, a)
    requires CommitsOk(w) && NewEntriesOk(w)
    ensures Shape(AcceptWorld(w, s, a))
    ensures var p := Accept(w.peers[s], a);
      0 <= p.commitIndex && CommitOk(AcceptWorld(w, s, a), Full(AcceptWorld(w, s, a), s), p.commitIndex, p.currentTerm)
  {
    hide ReignsOk, LogsOk, CompleteOk, AppliersOk, NewEntriesOk, CommitOk, Evolves, Overwrite, Splice;
    var w', p, leader := AcceptWorld(w, s, a), w.peers[s], w.reigns[a.term].log;
    AcceptShape(w, s, a);
    AcceptNewEntry(w, s, a);
    CommitInReign(w, Full(w, s), p.commitIndex, p.currentTerm, a.term);
    AcceptKeepsPrefix(w, s, a, p.commitIndex);
    var full, ci := Full(w', s), Accept(p, a).commitIndex;
    CommitOkStays(w, w', Full(w, s), full, p.commitIndex, p.currentTerm, p.currentTerm);
    if a.leaderCommit > p.commitIndex {
      var k := Accept(p, a).lastNewEntryIndex;
      Shorter(full, leader, k, ci);
      CommitOkLess(w, leader, a.leaderCommit, ci, a.term);
      CommitOkStays(w, w', leader, full, ci, a.term, a.term);
    }
  }

  lemma AcceptApplier(w: World, s: nat, a: AppendArgs)
    requires Shape(w) && ReignsOk(w) && LogsOk(w) && CompleteOk(w) && AppliersOk(w) && MayAccept(w, s, a)
    ensures Shape(AcceptWorld(w, s, a)) && ApplierOk(AcceptWorld(w, s, a), s)
  {
    hide ReignsOk, LogsOk, CompleteOk, Evolves, Overwrite;
    assert ApplierOk(w, s);
    var k := Reach(w, s);
    CommitInReign(w, Full(w, s), k, w.peers[s].currentTerm, a.term);
    AcceptShape(w, s, a);
    AcceptKeepsPrefix(w, s, a, k);
    ApplierStays(w, AcceptWorld(w, s, a), s);
  }

  lemma AcceptTail(w: World, s: nat, a: AppendArgs)
    requires Shape(w) && CommitsOk(w) && AppliersOk(w) && MayAccept(w, s, a)
    requires Shape(AcceptWorld(w, s, a)) && Evolves(w, AcceptWorld(w, s, a))
    requires ApplierOk(AcceptWorld(w, s, a), s)
    requires var p := Accept(w.peers[s], a);
      0 <= p.commitIndex && CommitOk(AcceptWorld(w, s, a), Full(AcceptWorld(w, s, a), s), p.commitIndex, p.currentTerm)
    ensures CommitsOk(AcceptWorld(w, s, a)) && AppliersOk(AcceptWorld(w, s, a))
  {
    var w' := AcceptWorld(w, s, a);
    forall i: nat | i < |w.peers|
      ensures 0 <= w'.peers[i].commitIndex && CommitOk(w', Full(w', i), w'.peers[i].commitIndex, w'.peers[i].currentTerm)
    {
      if i != s { CommitStays(w, w', i); }
    }
    forall i: nat | i < |w.peers|
      ensures ApplierOk(w', i)
    {
      if i != s { ApplierStays(w, w', i); }
    }
  }

  lemma AcceptLeaders(w: World, s: nat, a: AppendArgs)
    requires Shape(w) && LeadersOk(w) && MayAccept(w, s, a)
    requires Shape(AcceptWorld(w, s, a)) && Evolves(w, AcceptWorld(w, s, a))
    ensures LeadersOk(AcceptWorld(w, s, a))
  {
    hide CommitOk, Evolves;
    var w' := AcceptWorld(w, s, a);
    forall u | u in w'.reigns
      ensures LeaderOk(w', u)
    {
      assert LeaderOk(w, u);
      ReplicasLater(w, w', u);
    }
  }

  lemma AcceptRest(w: World, s: nat, a: AppendArgs)
    requires Shape(w) && ReignsOk(w) && LogsOk(w) && CompleteOk(w) && MayAccept(w, s, a)
    requires CommitsOk(w) && AppliersOk(w) && NewEntriesOk(w)
    ensures Shape(AcceptWorld(w, s, a)) && CommitsOk(AcceptWorld(w, s, a))
    ensures AppliersOk(AcceptWorld(w, s, a)) && NewEntriesOk(AcceptWorld(w, s, a))
  {
    hide ReignsOk, LogsOk, CompleteOk, Evolves, Overwrite;
    var w' := AcceptWorld(w, s, a);
    AcceptShape(w, s, a);
    AcceptCommit(w, s, a);
    AcceptApplier(w, s, a);
    AcceptTail(w, s, a);
    AcceptNewEntry(w, s, a);
    NewEntriesStay(w, w', s);
  }

  lemma AcceptKeeps(w: World, s: nat, a: AppendArgs)
    requires Inv(w) && MayAccept(w, s, a)
    ensures Inv(AcceptWorld(w, s, a)) && Evolves(w, AcceptWorld(w, s, a))
  {
    hide ReignsOk, LogsOk, ElectionsOk, GrantsOk, TermsHeard, LeadersOk, AcksOk, CompleteOk, HeldOk, VotedOk,
      CommitsOk, NewEntriesOk, AppliersOk;
    var w' := AcceptWorld(w, s, a);
    assert Shape(w') && Evolves(w, w') by { AcceptShape(w, s, a); }
    AcceptLogs(w, s, a);
    AcceptElections(w, s, a);
    AcceptGrants(w, s, a);
    AcceptHeld(w, s, a);
    AcceptVoted(w, s, a);
    AcceptRest(w, s, a);
    AcceptLeaders(w, s, a);
    NetStays(w, w', {});
  }

  // ----- The reply to a request that does not fit ---------------------------------------------

  /** The leader of an entry's term put it where it stands, stray or not. */
  lemma EntryOfReign(w: World, s: nat, k: nat)
    requires Shape(w) && LogsOk(w) && s < |w.peers| && w.peers[s].snapIndex <= k < |Full(w, s)|
    ensures var e := Full(w, s)[k]; e.term in w.reigns && k < |w.reigns[e.term].log| && w.reigns[e.term].log[k] == e
  {
    var full, h := Full(w, s), w.peers[s].snapIndex;
    assert LogOk(w, full, h, w.peers[s].currentTerm);
    if Matched(w.reigns, full) {
      assert full[..k + 1] <= w.reigns[full[k].term].log;
      assert full[..k + 1][k] == full[k];
    } else {
      assert Stray(w.reigns, full, h, k);
    }
  }

  lemma ConflictFits(w: World, s: nat, a: AppendArgs, term: int)
    requires Shape(w) && ReignsOk(w) && LogsOk(w) && s < |w.peers| && AppendOk(w, s, a) && !PrevMatches(w.peers[s], a)
    ensures AppendAckOk(w, s, a, Conflict(w.peers[s], a, term))
  {
    hide LogsOk, Matched;
    var p, full := w.peers[s], Full(w, s);
    assert PeerShape(p, w.pre[s], |w.peers|, s);
    if a.prevLogIndex <= p.snapIndex + |p.log| {
      var k := a.prevLogIndex - p.snapIndex - 1;
      assert full[a.prevLogIndex - 1] == p.log[k];
      EntryOfReign(w, s, a.prevLogIndex - 1);
      assert ReignOk(w, p.log[k].term);
    }
  }

  // ----- The whole handler -----------------------------------------------------------------------

  function Hear(w: World, s: nat, t: int): World
    requires s < |w.peers|
  {
    WithPeer(w, s, HearLeader(w.peers[s], t))
  }

  lemma HearKeeps(w: World, s: nat, t: int)
    requires Inv(w) && s < |w.peers| && t in w.reigns && w.reigns[t].leader != s && t >= w.peers[s].currentTerm
    ensures Inv(Hear(w, s, t)) && Evolves(w, Hear(w, s, t))
    ensures var p := Hear(w, s, t).peers[s]; p.currentTerm == p.leaderTerm == t && p.role == Follower
  {
    hide ReignsOk, LogsOk, ElectionsOk, GrantsOk, TermsHeard, AcksOk, CompleteOk, HeldOk, VotedOk, CommitsOk, AppliersOk;
    if t != w.peers[s].leaderTerm || t > w.peers[s].currentTerm {
      StepDownKeeps(w, s, t);
    } else {
      FollowKeeps(w, s);
    }
  }

  lemma RecvAppendParts(w: World, m: Msg)
    requires Shape(w) && m.Append? && m.dst < |w.peers| && m.append.term >= w.peers[m.dst].currentTerm
    requires Shape(Hear(w, m.dst, m.append.term))
    ensures var s, a, w1 := m.dst, m.append, Hear(w, m.dst, m.append.term);
      DoRecvAppend(w, m) ==
        if PrevMatches(w1.peers[s], a)
        then AcceptWorld(w1, s, a).(net := w.net + {AppendAck(s, a, AppendReply(w.peers[s].currentTerm, true, false, 0, 0))})
        else w1.(net := w.net + {AppendAck(s, a, Conflict(w1.peers[s], a, w.peers[s].currentTerm))})
  {
  }

  /** What the reply acknowledges is recorded, or is behind the snapshot and committed. */
  lemma AcceptReplicated(w: World, s: nat, a: AppendArgs)
    requires Shape(w) && LogsOk(w) && CompleteOk(w) && MayAccept(w, s, a) && Evolves(w, AcceptWorld(w, s, a))
    ensures Replicated(AcceptWorld(w, s, a), s, a.term, Upto(a))
  {
    hide CommitOk, CompleteOk, Evolves, LogsOk;
    var w', h, t, m, full, leader := AcceptWorld(w, s, a), w.peers[s].snapIndex, a.term, Upto(a), Full(w, s), w.reigns[a.term].log;
    if m <= h {
      SnapshotCommitted(w, s);
      SnapshotAgrees(w, s, t);
      assert PeerShape(w.peers[s], w.pre[s], |w.peers|, s);
      CommitOkLess(w, full, h, m, t);
      assert full[..m] == w.pre[s][..m] == leader[..m];
      CommitOkStays(w, w', full, leader, m, t, t);
    }
  }

  lemma SnapshotCommitted(w: World, s: nat)
    requires Shape(w) && LogsOk(w) && s < |w.peers|
    ensures CommitOk(w, Full(w, s), w.peers[s].snapIndex, w.peers[s].currentTerm)
  {
    assert LogOk(w, Full(w, s), w.peers[s].snapIndex, w.peers[s].currentTerm);
  }

  lemma AcceptAndReply(w: World, m: Msg, term: int)
    requires Inv(w) && m.Append? && MsgOk(w, m) && MayAccept(w, m.dst, m.append)
    ensures var s, a := m.dst, m.append;
      var w' := AcceptWorld(w, s, a).(net := w.net + {AppendAck(s, a, AppendReply(term, true, false, 0, 0))});
      Inv(w') && Evolves(w, w')
  {
    hide ReignsOk, LogsOk, ElectionsOk, GrantsOk, TermsHeard, LeadersOk, AcksOk, CompleteOk, HeldOk, VotedOk,
      CommitsOk, NewEntriesOk, AppliersOk;
    var s, a := m.dst, m.append;
    var w1 := AcceptWorld(w, s, a);
    var ack := AppendAck(s, a, AppendReply(term, true, false, 0, 0));
    AcceptKeeps(w, s, a);
    MsgStays(w, w1, m);
    AcceptReplicated(w, s, a);
    AddMessage(w1, w1.(net := w.net + {ack}), ack);
    EvolvesTrans(w, w1, w1.(net := w.net + {ack}));
  }

  lemma RecvAppendKeeps(w: World, m: Msg)
    requires Inv(w) && Enabled(w, RecvAppend(m))
    ensures Inv(DoRecvAppend(w, m)) && Evolves(w, DoRecvAppend(w, m))
  {
    hide ReignsOk, LogsOk, ElectionsOk, GrantsOk, TermsHeard, LeadersOk, AcksOk, CompleteOk, HeldOk, VotedOk,
      CommitsOk, NewEntriesOk, AppliersOk;
    var s, a, w' := m.dst, m.append, DoRecvAppend(w, m);
    assert MsgOk(w, m);
    if a.term < w.peers[s].currentTerm {
      assert w.peers[s := w.peers[s]] == w.peers;
      AddMessage(w, w', AppendAck(s, a, AppendEntries(w.peers[s], a).1));
    } else {
      var w1, term := Hear(w, s, a.term), w.peers[s].currentTerm;
      HearKeeps(w, s, a.term);
      MsgStays(w, w1, m);
      RecvAppendParts(w, m);
      if PrevMatches(w1.peers[s], a) {
        AcceptAndReply(w1, m, term);
        EvolvesTrans(w, w1, w');
      } else {
        ConflictFits(w1, s, a, term);
        AddMessage(w1, w', AppendAck(s, a, Conflict(w1.peers[s], a, term)));
        EvolvesTrans(w, w1, w');
      }
    }
  }
}

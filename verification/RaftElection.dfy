/** The steps of an election keep the invariant. Compound handlers are taken apart: a handler that
    first adopts a higher term and then acts is two transitions, each of which keeps it. */
module RaftElection {
  import opened RaftPeer
  import opened RaftWorld
  import opened RaftInv
  import opened RaftFacts

  // ----- Transitions that leave terms, votes and full logs alone --------------------------

  /** The snapshot of peer s may move up to h: as far as that its log is committed. */
  ghost predicate MaySnap(w: World, s: nat, h: int)
    requires Shape(w) && s < |w.peers|
  {
    w.peers[s].snapIndex <= h && CommitOk(w, Full(w, s), h, w.peers[s].currentTerm)
  }

  ghost predicate SameCore(w: World, w': World)
    requires Shape(w) && Shape(w')
  {
    && |w.peers| == |w'.peers|
    && (forall s :: 0 <= s < |w.peers| ==>
         && w'.peers[s].currentTerm == w.peers[s].currentTerm && w'.peers[s].votedFor == w.peers[s].votedFor
         && w'.peers[s].leaderTerm == w.peers[s].leaderTerm && Full(w', s) == Full(w, s)
         && (w'.peers[s].snapIndex == w.peers[s].snapIndex || MaySnap(w, s, w'.peers[s].snapIndex)))
    && w'.elections == w.elections && w'.grants == w.grants && w'.reigns == w.reigns && w'.acks == w.acks
  }

  ghost predicate CoreInv(w: World) {
    && Shape(w)
    && ReignsOk(w) && LogsOk(w)
    && ElectionsOk(w) && GrantsOk(w) && TermsHeard(w)
    && AcksOk(w) && CompleteOk(w) && HeldOk(w) && VotedOk(w)
  }

  lemma CoreStays(w: World, w': World)
    requires CoreInv(w) && Shape(w') && SameCore(w, w')
    ensures CoreInv(w') && Evolves(w, w')
  {
    hide ReignsOk, LogsOk, ElectionsOk, GrantsOk, CompleteOk, HeldOk, VotedOk;
    CoreElections(w, w');
    CoreVotes(w, w');
    SafetyStays(w, w');
    VotedStays(w, w');
    LogsStay(w, w');
  }

  lemma CoreElections(w: World, w': World)
    requires Shape(w) && ElectionsOk(w) && Shape(w') && SameCore(w, w') && Evolves(w, w')
    ensures ElectionsOk(w')
  {
    hide LogOk, MaySnap, Evolves;
    forall c, u | (c, u) in w'.elections
      ensures ElectionOk(w', c, u)
    {
      assert ElectionOk(w, c, u);
      ElectionLater(w, w', c, u);
    }
  }

  lemma CoreVotes(w: World, w': World)
    requires Shape(w) && ReignsOk(w) && GrantsOk(w) && Shape(w') && SameCore(w, w')
    ensures ReignsOk(w') && GrantsOk(w')
  {
    hide Matched, MaySnap, Numbered, TermsUpTo;
    forall u | u in w'.reigns
      ensures ReignOk(w', u)
    {
      assert ReignOk(w, u);
    }
    forall u, v, c | (u, v, c) in w'.grants
      ensures GrantOk(w', u, v, c)
    {
      assert GrantOk(w, u, v, c);
    }
  }

  /** The log a candidate stood with stays as good as it was. */
  lemma ElectionLater(w: World, w': World, c: nat, u: int)
    requires Shape(w) && Evolves(w, w') && (c, u) in w.elections && ElectionOk(w, c, u)
    ensures var e := w.elections[(c, u)]; LogOk(w', e.log, e.snap, u - 1)
  {
    var e := w.elections[(c, u)];
    LogOkLater(w, w', e.log, e.snap, u - 1, u - 1);
  }

  /** A snapshot that moves up over committed entries leaves no stray entry behind it. */
  lemma LogStays(w: World, w': World, s: nat)
    requires Shape(w) && Shape(w') && ReignsOk(w) && LogsOk(w) && Evolves(w, w') && s < |w.peers| && Full(w', s) == Full(w, s)
    requires w'.peers[s].snapIndex == w.peers[s].snapIndex || MaySnap(w, s, w'.peers[s].snapIndex)
    ensures LogOk(w', Full(w', s), w'.peers[s].snapIndex, w'.peers[s].currentTerm)
  {
    hide ReignsOk, Evolves, CommitOk, Matched;
    EvolvedTerm(w, w', s);
    var full, t, h := Full(w, s), w.peers[s].currentTerm, w'.peers[s].snapIndex;
    assert LogOk(w, full, w.peers[s].snapIndex, t);
    if AllStray(w.reigns, full, w.peers[s].snapIndex) && MaySnap(w, s, h) {
      StrayUncommitted(w, full, w.peers[s].snapIndex, h, t);
    }
    LogOkLater(w, w', full, h, t, w'.peers[s].currentTerm);
  }

  lemma EvolvedTerm(w: World, w': World, s: nat)
    requires Evolves(w, w') && s < |w.peers|
    ensures |w.peers| == |w'.peers| && w.peers[s].currentTerm <= w'.peers[s].currentTerm
  {
  }

  lemma LogsStay(w: World, w': World)
    requires Shape(w) && Shape(w') && ReignsOk(w) && LogsOk(w) && Evolves(w, w')
    requires forall s: nat :: s < |w.peers| ==> Full(w', s) == Full(w, s)
    requires forall s: nat :: s < |w.peers| ==>
      w'.peers[s].snapIndex == w.peers[s].snapIndex || MaySnap(w, s, w'.peers[s].snapIndex)
    ensures LogsOk(w')
  {
    hide LogOk, ReignsOk;
    forall s: nat | s < |w.peers|
      ensures LogOk(w', Full(w', s), w'.peers[s].snapIndex, w'.peers[s].currentTerm)
    {
      LogStays(w, w', s);
    }
  }

  /** Completeness, acknowledgements and votes survive any transition that adds no reign, no
      acknowledgement and no vote, and keeps the full logs. */
  lemma SafetyStays(w: World, w': World)
    requires Shape(w) && Shape(w') && Evolves(w, w')
    requires CompleteOk(w) && HeldOk(w)
    requires w'.reigns == w.reigns && w'.acks == w.acks
    requires forall s :: 0 <= s < |w.peers| ==> Full(w', s) == Full(w, s)
    ensures CompleteOk(w') && HeldOk(w')
  {
    forall t, i | Choosable(w', t, i)
      ensures Choosable(w, t, i)
    {
      ChoosableBefore(w, w', t, i);
    }
  }

  // ----- Adopting a term --------------------------------------------------------------------

  /** Peer s may restart in term t: a higher term, or its own term once it is known to have another leader. */
  ghost predicate MayStepDown(w: World, s: nat, t: int)
    requires Shape(w)
  {
    && s < |w.peers|
    && (t > w.peers[s].currentTerm
        || (t == w.peers[s].currentTerm && t in w.reigns && w.reigns[t].leader != s && w.peers[s].leaderTerm != t))
  }

  lemma StepDownVotes(w: World, s: nat, t: int)
    requires CoreInv(w) && MayStepDown(w, s, t)
    ensures GrantsOk(WithPeer(w, s, StepDown(w.peers[s], t)))
  {
    var w' := WithPeer(w, s, StepDown(w.peers[s], t));
    forall u, v, c | (u, v, c) in w'.grants
      ensures GrantOk(w', u, v, c)
    {
      assert GrantOk(w, u, v, c);
      if v == s && u == t && u == w.peers[s].currentTerm {
        assert ReignOk(w, t);
        assert (s, t) in w.elections && ElectionOk(w, s, t);
        assert GrantOk(w, t, s, s);
      }
    }
  }

  lemma StepDownElections(w: World, s: nat, t: int)
    requires Shape(w) && ElectionsOk(w) && ReignsOk(w) && MayStepDown(w, s, t)
    requires Evolves(w, WithPeer(w, s, StepDown(w.peers[s], t)))
    ensures var w' := WithPeer(w, s, StepDown(w.peers[s], t)); Shape(w') && ElectionsOk(w') && ReignsOk(w')
  {
    hide LogOk, Matched, Evolves;
    var w' := WithPeer(w, s, StepDown(w.peers[s], t));
    assert Shape(w') by { assert PeerShape(w.peers[s], w.pre[s], |w.peers|, s); }
    forall c, u | (c, u) in w'.elections
      ensures ElectionOk(w', c, u)
    {
      assert ElectionOk(w, c, u);
      ElectionLater(w, w', c, u);
      if c < |w.peers| { assert Full(w', c) == Full(w, c); }
    }
    forall u | u in w'.reigns
      ensures ReignOk(w', u)
    {
      assert ReignOk(w, u);
    }
  }

  lemma StepDownCore(w: World, s: nat, t: int)
    requires CoreInv(w) && MayStepDown(w, s, t)
    ensures CoreInv(WithPeer(w, s, StepDown(w.peers[s], t)))
    ensures Evolves(w, WithPeer(w, s, StepDown(w.peers[s], t)))
  {
    hide LogsOk, ReignsOk, ElectionsOk, GrantsOk, CompleteOk, HeldOk, VotedOk;
    var w' := WithPeer(w, s, StepDown(w.peers[s], t));
    StepDownElections(w, s, t);
    StepDownVotes(w, s, t);
    assert forall i: nat :: i < |w.peers| ==> Full(w', i) == Full(w, i);
    SafetyStays(w, w');
    LogsStay(w, w');
    VotedStays(w, w');
  }

  lemma VotedStays(w: World, w': World)
    requires Shape(w) && Shape(w') && Evolves(w, w') && VotedOk(w)
    requires w'.reigns == w.reigns && w'.acks == w.acks && w'.grants == w.grants
    requires forall k :: k in w'.elections && k !in w.elections ==> forall u, v :: (u, v, k.0) in w.grants ==> u != k.1
    ensures VotedOk(w')
  {
    forall u, v, c, t, i | (u, v, c) in w'.grants && (c, u) in w'.elections && t < u && Choosable(w', t, i) && Acked(w', v, t) >= i
      ensures Keeps(w', w'.elections[(c, u)].log, t, i)
    {
      ChoosableBefore(w, w', t, i);
      assert (c, u) in w.elections;
    }
  }

  // ----- Commitment and delivery while the full logs stand still -------------------------------

  ghost predicate SameTail(w: World, w': World)
    requires Shape(w) && Shape(w')
  {
    && |w.peers| == |w'.peers| && w'.appliers == w.appliers && w'.delivered == w.delivered && w'.pending == w.pending
    && (forall s :: 0 <= s < |w.peers| ==>
         && w'.peers[s].commitIndex == w.peers[s].commitIndex && w'.peers[s].lastApplied == w.peers[s].lastApplied
         && w'.peers[s].snapIndex == w.peers[s].snapIndex && Full(w', s) == Full(w, s))
  }

  lemma CommitStays(w: World, w': World, s: nat)
    requires Shape(w) && Shape(w') && CommitsOk(w) && Evolves(w, w') && s < |w.peers|
    requires w'.peers[s].commitIndex == w.peers[s].commitIndex
    requires Full(w, s) == Full(w', s)
    ensures CommitOk(w', Full(w', s), w'.peers[s].commitIndex, w'.peers[s].currentTerm)
  {
    CommitOkBound(w, Full(w, s), w.peers[s].commitIndex, w.peers[s].currentTerm);
    CommitOkStays(w, w', Full(w, s), Full(w', s), w.peers[s].commitIndex, w.peers[s].currentTerm, w'.peers[s].currentTerm);
  }

  /** How far the parts of ApplierOk reach. */
  ghost function Reach(w: World, s: nat): nat
    requires Shape(w) && s < |w.peers|
  {
    Max(End(w.appliers[s], w.delivered[s]), |w.pending[s]|)
  }

  lemma ApplierStays(w: World, w': World, s: nat)
    requires Shape(w) && Shape(w') && Evolves(w, w') && s < |w.peers| && ApplierOk(w, s)
    requires w'.appliers[s] == w.appliers[s] && w'.delivered[s] == w.delivered[s] && w'.pending[s] == w.pending[s]
    requires w'.peers[s].lastApplied == w.peers[s].lastApplied && w'.peers[s].snapIndex == w.peers[s].snapIndex
    requires var k := Reach(w, s); k <= |Full(w', s)| && Full(w, s)[..k] == Full(w', s)[..k]
    ensures ApplierOk(w', s)
  {
    hide CommitOk;
    var full, full', k, q, d := Full(w, s), Full(w', s), Reach(w, s), w.appliers[s], w.delivered[s];
    CommitOkStays(w, w', full, full', k, w.peers[s].currentTerm, w'.peers[s].currentTerm);
    BeginsStill(d, full, full', k);
    BeginsStill(q.snapshot, full, full', k);
    BeginsStill(w.pending[s], full, full', k);
    SliceStill(full, full', k, Max(|d|, |q.snapshot|), End(q, d));
  }

  lemma BeginsStill<T>(a: seq<T>, b: seq<T>, c: seq<T>, k: nat)
    requires a <= b && |a| <= k <= |b| && k <= |c| && b[..k] == c[..k]
    ensures a <= c
  {
    Shorter(b, c, k, |a|);
  }

  lemma SliceStill<T>(b: seq<T>, c: seq<T>, k: nat, i: nat, j: nat)
    requires i <= j <= k <= |b| && k <= |c| && b[..k] == c[..k]
    ensures b[i..j] == c[i..j]
  {
    assert b[i..j] == b[..k][i..j] && c[i..j] == c[..k][i..j];
  }

  lemma TailStays(w: World, w': World)
    requires Shape(w) && Shape(w') && CommitsOk(w) && AppliersOk(w)
    requires Evolves(w, w') && SameTail(w, w')
    ensures CommitsOk(w') && AppliersOk(w')
  {
    forall s: nat | s < |w.peers|
      ensures CommitOk(w', Full(w', s), w'.peers[s].commitIndex, w'.peers[s].currentTerm)
    {
      CommitStays(w, w', s);
    }
    forall s: nat | s < |w.peers|
      ensures ApplierOk(w', s)
    {
      ApplierStays(w, w', s);
    }
  }

  lemma StepDownKeeps(w: World, s: nat, t: int)
    requires Inv(w) && MayStepDown(w, s, t)
    ensures Inv(WithPeer(w, s, StepDown(w.peers[s], t)))
    ensures Evolves(w, WithPeer(w, s, StepDown(w.peers[s], t)))
  {
    hide ReignsOk, ElectionsOk, GrantsOk, CompleteOk, HeldOk, VotedOk, AppliersOk;
    var w' := WithPeer(w, s, StepDown(w.peers[s], t));
    StepDownCore(w, s, t);
    assert forall i: nat :: i < |w.peers| ==> Full(w', i) == Full(w, i);
    TailStays(w, w');
    NetStays(w, w', {});
    LeadersStay(w, w', s);
    NewEntriesStay(w, w', s);
  }

  // ----- What a vote or an election says about terms ------------------------------------------

  lemma ElectionTerm(w: World, c: nat, t: int)
    requires Shape(w) && ElectionsOk(w) && (c, t) in w.elections
    ensures c < |w.peers| && w.peers[c].currentTerm >= t
  {
    assert ElectionOk(w, c, t);
  }

  lemma GrantTerm(w: World, t: int, v: nat, c: nat)
    requires Shape(w) && GrantsOk(w) && (t, v, c) in w.grants
    ensures v < |w.peers| && w.peers[v].currentTerm >= t && (c, t) in w.elections
    ensures t !in w.reigns && w.peers[v].currentTerm == t ==> w.peers[v].votedFor == c
  {
    assert GrantOk(w, t, v, c);
  }

  lemma VoterTerm(w: World, t: int, v: nat)
    requires Shape(w) && ReignsOk(w) && GrantsOk(w) && t in w.reigns && v in w.reigns[t].voters
    ensures v < |w.peers| && w.peers[v].currentTerm >= t
    ensures w.peers[v].currentTerm == t ==> w.peers[v].votedFor == w.reigns[t].leader
  {
    assert ReignOk(w, t);
    assert GrantOk(w, t, v, w.reigns[t].leader);
  }

  // ----- Standing for election --------------------------------------------------------------------

  lemma TimeoutFresh(w: World, s: nat)
    requires Shape(w) && ElectionsOk(w) && Enabled(w, Timeout(s))
    ensures Shape(DoTimeout(w, s)) && Evolves(w, DoTimeout(w, s))
    ensures (s, w.peers[s].currentTerm + 1) !in w.elections
    ensures forall i :: 0 <= i < |w.peers| ==> Full(DoTimeout(w, s), i) == Full(w, i)
  {
    if (s, w.peers[s].currentTerm + 1) in w.elections { ElectionTerm(w, s, w.peers[s].currentTerm + 1); }
    assert PeerShape(w.peers[s], w.pre[s], |w.peers|, s);
  }

  lemma TimeoutLog(w: World, w': World, s: nat)
    requires Shape(w) && LogsOk(w) && Evolves(w, w') && s < |w.peers|
    ensures LogOk(w', Full(w, s), |w.pre[s]|, w.peers[s].currentTerm)
  {
    assert PeerShape(w.peers[s], w.pre[s], |w.peers|, s);
    LogOkLater(w, w', Full(w, s), |w.pre[s]|, w.peers[s].currentTerm, w.peers[s].currentTerm);
  }

  lemma TimeoutTerms(w: World, s: nat)
    requires Shape(w) && LogsOk(w) && s < |w.peers|
    ensures TermsUpTo(Full(w, s), w.peers[s].currentTerm) && 0 <= w.peers[s].currentTerm
  {
  }

  lemma TimeoutElections(w: World, s: nat)
    requires Shape(w) && ReignsOk(w) && LogsOk(w) && ElectionsOk(w) && Enabled(w, Timeout(s))
    ensures Shape(DoTimeout(w, s)) && ElectionsOk(DoTimeout(w, s)) && ReignsOk(DoTimeout(w, s))
  {
    hide LogOk, Matched, Evolves, Numbered, LogsOk;
    var w' := DoTimeout(w, s);
    var t := w.peers[s].currentTerm + 1;
    TimeoutFresh(w, s);
    TimeoutTerms(w, s);
    forall c, u | (c, u) in w'.elections
      ensures ElectionOk(w', c, u)
    {
      if (c, u) == (s, t) {
        assert t in w.reigns ==> ReignOk(w, t);
        TimeoutLog(w, w', s);
      } else {
        assert ElectionOk(w, c, u);
        ElectionLater(w, w', c, u);
      }
    }
    forall u | u in w'.reigns
      ensures ReignOk(w', u)
    {
      assert ReignOk(w, u);
    }
  }

  lemma TimeoutHeard(w: World, s: nat)
    requires Shape(w) && TermsHeard(w) && AcksOk(w) && Enabled(w, Timeout(s)) && Shape(DoTimeout(w, s))
    ensures TermsHeard(DoTimeout(w, s)) && AcksOk(DoTimeout(w, s))
  {
  }

  lemma TimeoutGrants(w: World, s: nat)
    requires Shape(w) && ReignsOk(w) && ElectionsOk(w) && GrantsOk(w) && Enabled(w, Timeout(s))
    ensures Shape(DoTimeout(w, s)) && GrantsOk(DoTimeout(w, s))
  {
    hide ReignsOk, ElectionsOk, Evolves, LogOk;
    var w' := DoTimeout(w, s);
    var t := w.peers[s].currentTerm + 1;
    TimeoutFresh(w, s);
    forall u, v, c | (u, v, c) in w'.grants
      ensures GrantOk(w', u, v, c)
    {
      if (u, v, c) in w.grants {
        assert GrantOk(w, u, v, c);
      } else if t in w.reigns && s in w.reigns[t].voters {
        VoterTerm(w, t, s);
      }
    }
    forall u, v, c, d | (u, v, c) in w'.grants && (u, v, d) in w'.grants && u !in w'.reigns
      ensures c == d
    {
      if (u, v, c) in w.grants { GrantTerm(w, u, v, c); }
      if (u, v, d) in w.grants { GrantTerm(w, u, v, d); }
    }
  }

  lemma TimeoutVoted(w: World, s: nat)
    requires Shape(w) && ElectionsOk(w) && GrantsOk(w) && HeldOk(w) && VotedOk(w) && Enabled(w, Timeout(s))
    ensures Shape(DoTimeout(w, s)) && VotedOk(DoTimeout(w, s))
  {
    var w' := DoTimeout(w, s);
    TimeoutFresh(w, s);
    forall u, v, c, t, i | (u, v, c) in w'.grants && (c, u) in w'.elections && t < u && Choosable(w', t, i) && Acked(w', v, t) >= i
      ensures Keeps(w', w'.elections[(c, u)].log, t, i)
    {
      ChoosableBefore(w, w', t, i);
      if (u, v, c) in w.grants {
        assert GrantOk(w, u, v, c);
      }
    }
  }

  /** A peer that does not lead its term can leave the reigns' leaders as they are. */
  lemma LeadersStay(w: World, w': World, s: nat)
    requires Shape(w) && Shape(w') && ReignsOk(w) && ElectionsOk(w) && LeadersOk(w) && Evolves(w, w')
    requires s < |w.peers| && w'.reigns == w.reigns
    requires forall i :: 0 <= i < |w.peers| && i != s ==> w'.peers[i] == w.peers[i] && w'.pre[i] == w.pre[i]
    requires w'.peers[s].currentTerm == w.peers[s].currentTerm ==> w.peers[s].role != Leader
    requires w'.peers[s].role != Leader
    ensures LeadersOk(w')
  {
    forall u | u in w'.reigns
      ensures LeaderOk(w', u)
    {
      assert LeaderOk(w, u) && ReignOk(w, u);
      assert ElectionOk(w, w.reigns[u].leader, u);
      ReplicasLater(w, w', u);
    }
  }

  /** What a leader counts as replicated stays so. */
  lemma ReplicasLater(w: World, w': World, u: int)
    requires Evolves(w, w') && u in w.reigns
    ensures u in w'.reigns && forall j: nat, i :: Replicated(w, j, u, i) ==> Replicated(w', j, u, i)
  {
    hide Replicated;
    assert u in w'.reigns by { assert SameReign(w.reigns[u], w'.reigns[u]); }
    forall j: nat, i | Replicated(w, j, u, i) ensures Replicated(w', j, u, i) { ReplicatedLater(w, w', j, u, i); }
  }

  lemma NewEntriesStay(w: World, w': World, s: nat)
    requires Shape(w) && Shape(w') && NewEntriesOk(w) && |w.peers| == |w'.peers|
    requires s < |w.peers| && w'.reigns == w.reigns
    requires forall i :: 0 <= i < |w.peers| && i != s ==> w'.peers[i] == w.peers[i] && w'.pre[i] == w.pre[i]
    requires NewEntryOk(w', w'.peers[s], Full(w', s))
    ensures NewEntriesOk(w')
  {
    forall i: nat | i < |w.peers|
      ensures NewEntryOk(w', w'.peers[i], Full(w', i))
    {
      assert NewEntryOk(w, w.peers[i], Full(w, i));
    }
  }

  lemma TimeoutNet(w: World, s: nat)
    requires Shape(w) && ElectionsOk(w) && NetOk(w) && Enabled(w, Timeout(s))
    ensures NetOk(DoTimeout(w, s))
  {
    TimeoutFresh(w, s);
    LastOfFull(w, s);
    var a := PrepareElection(w.peers[s]).1;
    NetStays(w, DoTimeout(w, s), set i | i in Ids(|w.peers|) - {s} :: Vote(i, a));
  }

  lemma TimeoutKeeps(w: World, s: nat)
    requires Inv(w) && Enabled(w, Timeout(s))
    ensures Inv(DoTimeout(w, s)) && Evolves(w, DoTimeout(w, s))
  {
    hide ReignsOk, LogsOk, ElectionsOk, GrantsOk, LeadersOk, AcksOk, CompleteOk, HeldOk, VotedOk, CommitsOk, NetOk, AppliersOk;
    var w' := DoTimeout(w, s);
    TimeoutFresh(w, s);
    TimeoutHeard(w, s);
    TimeoutElections(w, s);
    TimeoutGrants(w, s);
    TimeoutVoted(w, s);
    SafetyStays(w, w');
    LogsStay(w, w');
    TailStays(w, w');
    LeadersStay(w, w', s);
    assert NewEntryOk(w, w.peers[s], Full(w, s));
    NewEntriesStay(w, w', s);
    TimeoutNet(w, s);
  }

  /** The compacted log reports the index and term of the last entry of the full log. */
  lemma LastOfFull(w: World, s: nat)
    requires Shape(w) && s < |w.peers|
    ensures Numbered(Full(w, s), 0)
    ensures LastIndex(w.peers[s]) == |Full(w, s)|
    ensures LastTerm(w.peers[s]) == TermAt(Full(w, s), |Full(w, s)|)
  {
    assert PeerShape(w.peers[s], w.pre[s], |w.peers|, s);
    var p := w.peers[s];
    if p.log == [] {
      assert Full(w, s) == w.pre[s];
    }
  }

  // ----- Voting ---------------------------------------------------------------------------------------

  /** A log that is at least as up to date as the voter's holds every choosable entry the voter
      acknowledged, stray entries or not. */
  lemma UpToDateHolds(w: World, s: nat, log: seq<Entry>, h: int, bound: int, t: int, i: int)
    requires Shape(w) && ReignsOk(w) && CompleteOk(w) && HeldOk(w)
    requires s < |w.peers| && Choosable(w, t, i) && Acked(w, s, t) >= i
    requires LogOk(w, log, h, bound)
    requires var full := Full(w, s);
      || TermAt(log, |log|) > TermAt(full, |full|)
      || (TermAt(log, |log|) == TermAt(full, |full|) && |log| >= |full|)
    ensures Keeps(w, log, t, i)
  {
    hide ReignsOk, CompleteOk, LogOk;
    assert Keeps(w, Full(w, s), t, i);
    LateEnough(w, log, h, bound, t, i);
  }

  function GrantPeer(p: Peer, c: nat): Peer { p.(votedFor := c) }

  function GrantWorld(w: World, s: nat, c: nat): World
    requires s < |w.peers|
  {
    WithPeer(w, s, GrantPeer(w.peers[s], c)).(grants := w.grants + {(w.peers[s].currentTerm, s, c)})
  }

  ghost predicate MayGrant(w: World, s: nat, a: VoteArgs)
    requires Shape(w)
  {
    && s < |w.peers| && VoteOk(w, s, a) && a.term == w.peers[s].currentTerm
    && (w.peers[s].votedFor == -1 || w.peers[s].votedFor == a.candidateId) && UpToDate(w.peers[s], a)
  }

  lemma GrantGrants(w: World, s: nat, a: VoteArgs)
    requires Shape(w) && ReignsOk(w) && GrantsOk(w) && MayGrant(w, s, a)
    ensures Shape(GrantWorld(w, s, a.candidateId)) && GrantsOk(GrantWorld(w, s, a.candidateId))
    ensures Evolves(w, GrantWorld(w, s, a.candidateId))
    ensures forall i :: 0 <= i < |w.peers| ==> Full(GrantWorld(w, s, a.candidateId), i) == Full(w, i)
  {
    hide ReignsOk, Numbered, CommitOk, LogOk, UpToDate, TermAt;
    var c, t := a.candidateId, a.term;
    var w' := GrantWorld(w, s, c);
    assert PeerShape(w.peers[s], w.pre[s], |w.peers|, s);
    forall u, v, d | (u, v, d) in w'.grants
      ensures GrantOk(w', u, v, d)
    {
      if (u, v, d) in w.grants {
        assert GrantOk(w, u, v, d);
      } else if t in w.reigns && s in w.reigns[t].voters {
        VoterTerm(w, t, s);
      }
    }
    forall u, v, d, e | (u, v, d) in w'.grants && (u, v, e) in w'.grants && u !in w'.reigns
      ensures d == e
    {
      if (t, s, d) in w.grants { GrantTerm(w, t, s, d); }
      if (t, s, e) in w.grants { GrantTerm(w, t, s, e); }
    }
  }

  lemma GrantVoted(w: World, s: nat, a: VoteArgs)
    requires Shape(w) && ReignsOk(w) && LogsOk(w) && ElectionsOk(w) && CompleteOk(w) && HeldOk(w) && VotedOk(w)
    requires MayGrant(w, s, a) && Evolves(w, GrantWorld(w, s, a.candidateId)) && Shape(GrantWorld(w, s, a.candidateId))
    ensures VotedOk(GrantWorld(w, s, a.candidateId))
  {
    hide ReignsOk, LogsOk, ElectionsOk, CompleteOk, HeldOk;
    var w' := GrantWorld(w, s, a.candidateId);
    forall u, v, c, t, i | (u, v, c) in w'.grants && (c, u) in w'.elections && t < u && Choosable(w', t, i) && Acked(w', v, t) >= i
      ensures Keeps(w', w'.elections[(c, u)].log, t, i)
    {
      ChoosableBefore(w, w', t, i);
      if (u, v, c) !in w.grants { GrantHolds(w, s, a, t, i); }
    }
  }

  lemma GrantHolds(w: World, s: nat, a: VoteArgs, t: int, i: int)
    requires Shape(w) && ReignsOk(w) && LogsOk(w) && ElectionsOk(w) && CompleteOk(w) && HeldOk(w) && MayGrant(w, s, a)
    requires Choosable(w, t, i) && Acked(w, s, t) >= i
    ensures Keeps(w, w.elections[(a.candidateId, a.term)].log, t, i)
  {
    hide ReignsOk, LogsOk, CompleteOk, HeldOk, CanAckAll, LogOk;
    LastOfFull(w, s);
    assert ElectionOk(w, a.candidateId, a.term);
    var e := w.elections[(a.candidateId, a.term)];
    UpToDateHolds(w, s, e.log, e.snap, a.term - 1, t, i);
  }

  /** Changing only who a peer voted for leaves everything but the votes alone. */
  ghost predicate OnlyVotes(w: World, w': World)
    requires Shape(w) && Shape(w')
  {
    && |w.peers| == |w'.peers| && w'.pre == w.pre && w'.appliers == w.appliers && w'.delivered == w.delivered && w'.pending == w.pending
    && (forall s :: 0 <= s < |w.peers| ==> w'.peers[s] == w.peers[s].(votedFor := w'.peers[s].votedFor))
    && w.grants <= w'.grants && w'.reigns == w.reigns && w'.acks == w.acks && w'.elections == w.elections
  }

  lemma OnlyVotesElections(w: World, w': World)
    requires Shape(w) && Shape(w') && OnlyVotes(w, w') && Evolves(w, w')
    requires ReignsOk(w) && LogsOk(w) && ElectionsOk(w) && TermsHeard(w) && AcksOk(w)
    ensures ReignsOk(w') && LogsOk(w') && ElectionsOk(w') && TermsHeard(w') && AcksOk(w')
  {
    hide LogOk, Matched;
    assert forall i: nat :: i < |w.peers| ==> Full(w', i) == Full(w, i);
    LogsStay(w, w');
    forall c, u | (c, u) in w'.elections
      ensures ElectionOk(w', c, u)
    {
      assert ElectionOk(w, c, u);
      ElectionLater(w, w', c, u);
    }
    forall u | u in w'.reigns
      ensures ReignOk(w', u)
    {
      assert ReignOk(w, u);
    }
  }

  lemma OnlyVotesRest(w: World, w': World)
    requires Shape(w) && Shape(w') && OnlyVotes(w, w') && Evolves(w, w')
    requires LeadersOk(w) && NewEntriesOk(w)
    ensures LeadersOk(w') && NewEntriesOk(w')
  {
    hide CommitOk, Evolves;
    forall u | u in w'.reigns
      ensures LeaderOk(w', u)
    {
      assert LeaderOk(w, u);
      ReplicasLater(w, w', u);
    }
    forall i: nat | i < |w.peers|
      ensures NewEntryOk(w', w'.peers[i], Full(w', i))
    {
      assert NewEntryOk(w, w.peers[i], Full(w, i));
    }
  }

  lemma GrantKeeps(w: World, s: nat, a: VoteArgs)
    requires Inv(w) && MayGrant(w, s, a)
    ensures Inv(GrantWorld(w, s, a.candidateId)) && Evolves(w, GrantWorld(w, s, a.candidateId))
  {
    hide ReignsOk, LogsOk, ElectionsOk, GrantsOk, TermsHeard, LeadersOk, AcksOk, CompleteOk, HeldOk, VotedOk,
      CommitsOk, AppliersOk, NewEntriesOk;
    var w' := GrantWorld(w, s, a.candidateId);
    GrantGrants(w, s, a);
    GrantVoted(w, s, a);
    OnlyVotesElections(w, w');
    OnlyVotesRest(w, w');
    SafetyStays(w, w');
    TailStays(w, w');
    NetStays(w, w', {});
  }

  lemma RecvVoteKeeps(w: World, m: Msg)
    requires Inv(w) && Enabled(w, RecvVote(m))
    ensures Inv(DoRecvVote(w, m)) && Evolves(w, DoRecvVote(w, m))
  {
    hide ReignsOk, LogsOk, ElectionsOk, GrantsOk, TermsHeard, LeadersOk, AcksOk, CompleteOk, HeldOk, VotedOk,
      CommitsOk, AppliersOk, NewEntriesOk;
    var s, a := m.dst, m.vote;
    var p := w.peers[s];
    var w', r := DoRecvVote(w, m), RequestVote(p, a).1;
    assert MsgOk(w, m);
    if a.term < p.currentTerm {
      assert w.peers[s := p] == w.peers;
      AddMessage(w, w', VoteAck(s, a, r));
    } else {
      var w1 := if a.term > p.currentTerm then WithPeer(w, s, StepDown(p, a.term)) else w;
      if a.term > p.currentTerm { StepDownKeeps(w, s, a.term); MsgStays(w, w1, m); }
      var q := w1.peers[s];
      if (q.votedFor == -1 || q.votedFor == a.candidateId) && UpToDate(q, a) {
        GrantKeeps(w1, s, a);
        var w2 := GrantWorld(w1, s, a.candidateId);
        EvolvesTrans(w, w1, w2);
        MsgStays(w1, w2, m);
        assert w'.peers == w2.peers;
        AddMessage(w2, w', VoteAck(s, a, r));
        EvolvesTrans(w, w2, w');
      } else {
        assert w'.peers == w1.peers;
        AddMessage(w1, w', VoteAck(s, a, r));
        EvolvesTrans(w, w1, w');
      }
    }
  }

  lemma EvolvesTrans(w: World, w1: World, w2: World)
    requires Evolves(w, w1) && Evolves(w1, w2)
    ensures Evolves(w, w2)
  {
    forall t | t in w.reigns
      ensures t in w2.reigns && SameReign(w.reigns[t], w2.reigns[t])
    {
      assert SameReign(w.reigns[t], w1.reigns[t]) && SameReign(w1.reigns[t], w2.reigns[t]);
      PrefixTrans(w.reigns[t].log, w1.reigns[t].log, w2.reigns[t].log);
    }
  }

  lemma AddMessage(w: World, w': World, m: Msg)
    requires Inv(w) && w' == w.(net := w.net + {m}) && MsgOk(w, m)
    ensures Inv(w') && Evolves(w, w')
  {
    hide ReignsOk, LogsOk, ElectionsOk, GrantsOk, TermsHeard, LeadersOk, AcksOk, CompleteOk, HeldOk, VotedOk,
      CommitsOk, AppliersOk, NewEntriesOk;
    CoreStays(w, w');
    TailStays(w, w');
    MsgStays(w, w', m);
    NetStays(w, w', {m});
    OnlyVotesRest(w, w');
  }
}

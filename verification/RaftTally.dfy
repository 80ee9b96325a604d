/** Counting votes and winning: at most one leader per term, and the leader holds all that can be chosen. */
module RaftTally {
  import opened RaftPeer
  import opened RaftWorld
  import opened RaftInv
  import opened RaftFacts
  import opened RaftElection

  // ----- Counting a reply ---------------------------------------------------------------

  function Counted(e: Election, src: nat, granted: bool): Election {
    if granted then Election(Ballot(e.ballot.votes + 1, e.ballot.done), e.waiting - {src}, e.log, e.snap, e.voters + {src})
    else e.(waiting := e.waiting - {src})
  }

  function Count(w: World, m: Msg): World
    requires m.VoteAck? && (m.vote.candidateId, m.vote.term) in w.elections
  {
    var k := (m.vote.candidateId, m.vote.term);
    w.(elections := w.elections[k := Counted(w.elections[k], m.src, m.voteReply.voteGranted)])
  }

  lemma CountElections(w: World, m: Msg)
    requires Shape(w) && Enabled(w, RecvVoteAck(m)) && MsgOk(w, m)
    requires ElectionsOk(w) && Evolves(w, Count(w, m))
    ensures ElectionsOk(Count(w, m))
  {
    hide LogOk, Matched, Evolves;
    var w' := Count(w, m);
    assert w'.peers == w.peers && w'.pre == w.pre;
    forall c, u | (c, u) in w'.elections
      ensures ElectionOk(w', c, u)
    {
      assert ElectionOk(w, c, u);
      ElectionLater(w, w', c, u);
      assert Full(w', c) == Full(w, c);
    }
  }

  lemma CountReigns(w: World, m: Msg)
    requires Shape(w) && Enabled(w, RecvVoteAck(m))
    requires ReignsOk(w) && GrantsOk(w) && TermsHeard(w)
    ensures ReignsOk(Count(w, m)) && GrantsOk(Count(w, m)) && TermsHeard(Count(w, m))
    ensures Evolves(w, Count(w, m))
  {
    var w' := Count(w, m);
    forall u | u in w'.reigns
      ensures ReignOk(w', u)
    {
      assert ReignOk(w, u);
    }
    forall u, v, c | (u, v, c) in w'.grants
      ensures GrantOk(w', u, v, c)
    {
      assert GrantOk(w, u, v, c);
    }
  }

  lemma CountVoted(w: World, m: Msg)
    requires Shape(w) && Enabled(w, RecvVoteAck(m)) && VotedOk(w) && Evolves(w, Count(w, m))
    ensures VotedOk(Count(w, m))
  {
    var w' := Count(w, m);
    forall u, v, c, t, i | (u, v, c) in w'.grants && (c, u) in w'.elections && t < u && Choosable(w', t, i) && Acked(w', v, t) >= i
      ensures Keeps(w', w'.elections[(c, u)].log, t, i)
    {
      ChoosableBefore(w, w', t, i);
    }
  }

  lemma CountRest(w: World, m: Msg)
    requires Shape(w) && Enabled(w, RecvVoteAck(m)) && Evolves(w, Count(w, m))
    requires ReignsOk(w) && LogsOk(w) && AcksOk(w) && LeadersOk(w) && NewEntriesOk(w)
    ensures LogsOk(Count(w, m)) && AcksOk(Count(w, m)) && LeadersOk(Count(w, m)) && NewEntriesOk(Count(w, m))
  {
    hide ReignsOk, LogsOk, Evolves, CommitOk;
    var w' := Count(w, m);
    assert forall i: nat :: i < |w.peers| ==> Full(w', i) == Full(w, i);
    LogsStay(w, w');
    forall u | u in w'.reigns
      ensures LeaderOk(w', u)
    {
      assert LeaderOk(w, u);
      ReplicasLater(w, w', u);
    }
    forall i: nat | i < |w.peers|
      ensures NewEntryOk(w', w'.peers[i], Full(w', i))
    {
      assert NewEntryOk(w, w.peers[i], Full(w, i));
    }
  }

  lemma CountKeeps(w: World, m: Msg)
    requires Inv(w) && Enabled(w, RecvVoteAck(m))
    ensures Inv(Count(w, m)) && Evolves(w, Count(w, m))
  {
    hide ReignsOk, LogsOk, ElectionsOk, GrantsOk, TermsHeard, LeadersOk, AcksOk, CompleteOk, HeldOk, VotedOk,
      CommitsOk, AppliersOk, NewEntriesOk;
    var w' := Count(w, m);
    assert MsgOk(w, m);
    CountReigns(w, m);
    CountElections(w, m);
    CountVoted(w, m);
    CountRest(w, m);
    SafetyStays(w, w');
    TailStays(w, w');
    NetStays(w, w', {});
  }

  // ----- Winning ----------------------------------------------------------------------------

  /** Candidate c holds a majority of votes in its current term and has not been crowned. */
  ghost predicate MayWin(w: World, c: nat, t: int)
    requires Shape(w)
  {
    && c < |w.peers| && (c, t) in w.elections && w.peers[c].currentTerm == t
    && !w.elections[(c, t)].ballot.done && w.elections[(c, t)].ballot.votes > Half(|w.peers|)
  }

  function Crown(w: World, c: nat, t: int): World
    requires Shape(w) && c < |w.peers| && (c, t) in w.elections
  {
    var e := w.elections[(c, t)];
    WithPeer(w, c, BecomeLeader(w.peers[c])).(
      elections := w.elections[(c, t) := e.(ballot := e.ballot.(done := true))],
      reigns := w.reigns[t := Reign(c, e.voters, Full(w, c))],
      acks := w.acks[(c, t) := |Full(w, c)|])
  }

  /** Election safety: a second majority in a term meets the votes that elected its leader. */
  lemma FirstInTerm(w: World, c: nat, t: int)
    requires Shape(w) && ReignsOk(w) && ElectionsOk(w) && GrantsOk(w) && MayWin(w, c, t)
    ensures t !in w.reigns
    ensures Quorum(|w.peers|, w.elections[(c, t)].voters)
    ensures Full(w, c) == w.elections[(c, t)].log
  {
    assert ElectionOk(w, c, t);
    if t in w.reigns { SecondMajority(w, c, t); }
  }

  /** Two majorities of votes in one term were cast for the same candidate. */
  lemma SecondMajority(w: World, c: nat, t: int)
    requires Shape(w) && ReignsOk(w) && GrantsOk(w) && t in w.reigns && (c, t) in w.elections
    requires Quorum(|w.peers|, w.elections[(c, t)].voters)
    requires forall v :: v in w.elections[(c, t)].voters ==> (t, v, c) in w.grants
    ensures w.reigns[t].leader == c
  {
    assert ReignOk(w, t);
    var v := QuorumsMeet(|w.peers|, w.elections[(c, t)].voters, w.reigns[t].voters);
    assert GrantOk(w, t, v, c);
  }

  /** A candidate with stray entries does not win: one of its voters acknowledged, in the term that
      committed its snapshot, an entry that ends no log of an earlier term. */
  lemma WinnerMatched(w: World, c: nat, t: int)
    requires Shape(w) && ReignsOk(w) && ElectionsOk(w) && GrantsOk(w) && CompleteOk(w) && VotedOk(w) && MayWin(w, c, t)
    ensures Matched(w.reigns, Full(w, c))
  {
    hide ReignsOk, GrantsOk, CompleteOk, Matched, VotedOk, OwnEntry;
    FirstInTerm(w, c, t);
    assert ElectionOk(w, c, t);
    var e := w.elections[(c, t)];
    if AllStray(w.reigns, e.log, e.snap) {
      var k := |e.log| - 1;
      assert Stray(w.reigns, e.log, e.snap, k);
      assert e.snap > 0 by { assert e.log[..0] <= w.reigns[e.log[k].term].log; }
      var a, i :| Committed(w, a, i) && CommitBy(w, e.log, e.snap, t - 1, a, i);
      StrayBelow(w, e.log, e.snap, k, t - 1, a, i);
      WinnerLate(w, c, t, a, i);
    }
  }

  /** The log of a winner ends in no term before one that committed. */
  lemma WinnerLate(w: World, c: nat, t: int, a: int, i: int)
    requires Shape(w) && ElectionsOk(w) && GrantsOk(w) && VotedOk(w) && MayWin(w, c, t)
    requires Quorum(|w.peers|, w.elections[(c, t)].voters) && Committed(w, a, i) && a < t
    ensures a <= TermAt(w.elections[(c, t)].log, |w.elections[(c, t)].log|)
  {
    assert ElectionOk(w, c, t);
    var q :| Quorum(|w.peers|, q) && AckedAll(w, q, a, i);
    var v := QuorumsMeet(|w.peers|, q, w.elections[(c, t)].voters);
    CommittedChoosable(w, a, i);
    assert (t, v, c) in w.grants && Acked(w, v, a) >= i;
    assert Keeps(w, w.elections[(c, t)].log, a, i);
  }

  lemma CrownEvolves(w: World, c: nat, t: int)
    requires Shape(w) && ReignsOk(w) && ElectionsOk(w) && GrantsOk(w) && AcksOk(w) && MayWin(w, c, t)
    ensures Shape(Crown(w, c, t)) && Evolves(w, Crown(w, c, t))
    ensures forall i :: 0 <= i < |w.peers| ==> Full(Crown(w, c, t), i) == Full(w, i)
  {
    hide ReignsOk, ElectionsOk, GrantsOk, Matched;
    FirstInTerm(w, c, t);
    assert PeerShape(w.peers[c], w.pre[c], |w.peers|, c);
  }

  lemma CrownReigns(w: World, c: nat, t: int)
    requires Shape(w) && ReignsOk(w) && ElectionsOk(w) && GrantsOk(w) && AcksOk(w) && MayWin(w, c, t)
    requires Matched(w.reigns, Full(w, c))
    ensures Shape(Crown(w, c, t)) && ReignsOk(Crown(w, c, t)) && AcksOk(Crown(w, c, t))
  {
    hide Matched, LogOk, GrantsOk;
    var w' := Crown(w, c, t);
    FirstInTerm(w, c, t);
    CrownEvolves(w, c, t);
    assert ElectionOk(w, c, t);
    LastOfFull(w, c);
    forall u | u in w'.reigns
      ensures ReignOk(w', u)
    {
      if u != t { assert ReignOk(w, u); }
      MatchedLater(w, w', w'.reigns[u].log);
    }
  }

  lemma CrownElections(w: World, c: nat, t: int)
    requires Shape(w) && ElectionsOk(w) && TermsHeard(w) && MayWin(w, c, t) && t !in w.reigns && Shape(Crown(w, c, t))
    requires Evolves(w, Crown(w, c, t))
    requires forall i :: 0 <= i < |w.peers| ==> Full(Crown(w, c, t), i) == Full(w, i)
    ensures ElectionsOk(Crown(w, c, t)) && TermsHeard(Crown(w, c, t))
  {
    hide LogOk, Matched, Evolves;
    var w' := Crown(w, c, t);
    assert ElectionOk(w, c, t);
    forall d, u | (d, u) in w'.elections
      ensures ElectionOk(w', d, u)
    {
      assert ElectionOk(w, d, u);
      ElectionLater(w, w', d, u);
    }
  }

  lemma CrownGrants(w: World, c: nat, t: int)
    requires Shape(w) && ElectionsOk(w) && GrantsOk(w) && MayWin(w, c, t) && t !in w.reigns && Shape(Crown(w, c, t))
    ensures GrantsOk(Crown(w, c, t))
  {
    var w' := Crown(w, c, t);
    assert ElectionOk(w, c, t);
    forall u, v, d | (u, v, d) in w'.grants
      ensures GrantOk(w', u, v, d)
    {
      assert GrantOk(w, u, v, d);
    }
  }

  /** The new leader's log extends every entry that an earlier term can still choose. */
  lemma CrownComplete(w: World, c: nat, t: int)
    requires Inv(w) && MayWin(w, c, t)
    ensures CompleteOk(Crown(w, c, t))
  {
    hide LogsOk, TermsHeard, LeadersOk, HeldOk, CommitsOk, NewEntriesOk, NetOk, AppliersOk;
    var w' := Crown(w, c, t);
    FirstInTerm(w, c, t);
    CrownEvolves(w, c, t);
    assert ElectionOk(w, c, t);
    forall a, b, i | a in w'.reigns && b in w'.reigns && a < b && Choosable(w', a, i)
      ensures w'.reigns[a].log[..i] <= w'.reigns[b].log
    {
      assert a != t;
      ChoosableBefore(w, w', a, i);
      if b == t {
        var q :| Quorum(|w'.peers|, q) && CanAckAll(w', q, a, i);
        var v := QuorumsMeet(|w.peers|, q, w.elections[(c, t)].voters);
        assert CanAck(w', v, a, i) && GrantOk(w, t, v, c);
        assert Acked(w, v, a) >= i;
      }
    }
  }

  lemma CrownHeld(w: World, c: nat, t: int)
    requires Shape(w) && ReignsOk(w) && ElectionsOk(w) && GrantsOk(w) && AcksOk(w) && HeldOk(w) && VotedOk(w) && MayWin(w, c, t)
    ensures Shape(Crown(w, c, t)) && HeldOk(Crown(w, c, t)) && VotedOk(Crown(w, c, t))
  {
    var w' := Crown(w, c, t);
    FirstInTerm(w, c, t);
    CrownEvolves(w, c, t);
    assert ElectionOk(w, c, t);
    forall a, i | Choosable(w', a, i)
      ensures a != t && Choosable(w, a, i) && w.reigns[a].log == w'.reigns[a].log
    {
      assert a != t;
      ChoosableBefore(w, w', a, i);
    }
  }

  lemma CrownRest(w: World, c: nat, t: int)
    requires Shape(w) && ReignsOk(w) && ElectionsOk(w) && GrantsOk(w) && AcksOk(w) && MayWin(w, c, t)
    requires LeadersOk(w)
    ensures Shape(Crown(w, c, t)) && LeadersOk(Crown(w, c, t))
  {
    hide ReignsOk, ElectionsOk, GrantsOk, Evolves, CommitOk;
    var w' := Crown(w, c, t);
    FirstInTerm(w, c, t);
    CrownEvolves(w, c, t);
    LastOfFull(w, c);
    forall u | u in w'.reigns
      ensures LeaderOk(w', u)
    {
      if u != t {
        assert LeaderOk(w, u);
        ReplicasLater(w, w', u);
      }
    }
  }

  lemma CrownNewEntries(w: World, c: nat, t: int)
    requires Shape(w) && MayWin(w, c, t) && Shape(Crown(w, c, t)) && NewEntriesOk(w) && t !in w.reigns
    ensures NewEntriesOk(Crown(w, c, t))
  {
    var w' := Crown(w, c, t);
    forall i: nat | i < |w.peers|
      ensures NewEntryOk(w', w'.peers[i], Full(w', i))
    {
      assert NewEntryOk(w, w.peers[i], Full(w, i));
    }
  }

  lemma CrownKeeps(w: World, c: nat, t: int)
    requires Inv(w) && MayWin(w, c, t)
    ensures Inv(Crown(w, c, t)) && Evolves(w, Crown(w, c, t))
  {
    hide ReignsOk, LogsOk, ElectionsOk, GrantsOk, TermsHeard, LeadersOk, AcksOk, CompleteOk, HeldOk, VotedOk,
      CommitsOk, AppliersOk, NewEntriesOk, NetOk;
    var w' := Crown(w, c, t);
    CrownEvolves(w, c, t);
    WinnerMatched(w, c, t);
    CrownReigns(w, c, t);
    FirstInTerm(w, c, t);
    CrownElections(w, c, t);
    CrownGrants(w, c, t);
    CrownComplete(w, c, t);
    CrownHeld(w, c, t);
    CrownRest(w, c, t);
    LogsStay(w, w');
    CrownNewEntries(w, c, t);
    TailStays(w, w');
    NetStays(w, w', {});
  }

  /** Handling a vote reply is counting it, then being crowned or stepping down if it calls for that. */
  lemma RecvVoteAckParts(w: World, m: Msg)
    requires Shape(w) && Enabled(w, RecvVoteAck(m))
    ensures var c, t, r, w1 := m.vote.candidateId, m.vote.term, m.voteReply, Count(w, m);
      DoRecvVoteAck(w, m) ==
        if Wins(w.peers[c], w.elections[(c, t)].ballot, m.vote, r) then Crown(w1, c, t)
        else if !r.voteGranted && r.term > w.peers[c].currentTerm then WithPeer(w1, c, StepDown(w.peers[c], r.term))
        else w1
  {
    var c, t := m.vote.candidateId, m.vote.term;
    assert w.peers[c := w.peers[c]] == w.peers;
    assert DoRecvVoteAck(w, m).elections == Count(w, m).elections
        || DoRecvVoteAck(w, m).elections == Crown(Count(w, m), c, t).elections;
  }

  lemma RecvVoteAckKeeps(w: World, m: Msg)
    requires Inv(w) && Enabled(w, RecvVoteAck(m))
    ensures Inv(DoRecvVoteAck(w, m)) && Evolves(w, DoRecvVoteAck(w, m))
  {
    hide ReignsOk, LogsOk, ElectionsOk, GrantsOk, TermsHeard, LeadersOk, AcksOk, CompleteOk, HeldOk, VotedOk,
      CommitsOk, AppliersOk, NewEntriesOk;
    var c, t, r := m.vote.candidateId, m.vote.term, m.voteReply;
    var w1 := Count(w, m);
    CountKeeps(w, m);
    RecvVoteAckParts(w, m);
    if Wins(w.peers[c], w.elections[(c, t)].ballot, m.vote, r) {
      assert PeerShape(w.peers[c], w.pre[c], |w.peers|, c);
      CrownKeeps(w1, c, t);
      EvolvesTrans(w, w1, Crown(w1, c, t));
    } else if !r.voteGranted && r.term > w.peers[c].currentTerm {
      StepDownKeeps(w1, c, r.term);
      EvolvesTrans(w, w1, WithPeer(w1, c, StepDown(w1.peers[c], r.term)));
    }
  }
}

/** Elections can always be won: from every reachable state of a cluster of at least two peers some
    run leads to a leader whose term everyone is in. Which votes are granted decides this. */
module RaftElectable {
  import opened RaftPeer
  import opened RaftWorld
  import opened RaftInv
  import opened RaftFacts
  import opened RaftElection
  import opened RaftSafety

  // ----- Going on from a state ----------------------------------------------------------------

  ghost predicate Path(w: World, steps: seq<Step>, w': World)
    decreases |steps|
  {
    if steps == [] then w' == w
    else Shape(w) && Enabled(w, steps[0]) && Path(Do(w, steps[0]), steps[1..], w')
  }

  /** Some steps lead from w to w'. */
  ghost predicate Reaches(w: World, w': World) {
    exists steps :: Path(w, steps, w')
  }

  lemma Stays(w: World)
    ensures Reaches(w, w)
  {
    assert Path(w, [], w);
  }

  lemma {:induction false} PathJoins(a: World, s: seq<Step>, b: World, t: seq<Step>, c: World)
    requires Path(a, s, b) && Path(b, t, c)
    ensures Path(a, s + t, c)
    decreases |s|
  {
    hide Do, Enabled, Shape;
    if s == [] {
      assert s + t == t;
    } else {
      PathJoins(Do(a, s[0]), s[1..], b, t, c);
      assert (s + t)[1..] == s[1..] + t;
    }
  }

  lemma Onward(a: World, b: World, c: World)
    requires Reaches(a, b) && Reaches(b, c)
    ensures Reaches(a, c)
  {
    var s :| Path(a, s, b);
    var t :| Path(b, t, c);
    PathJoins(a, s, b, t, c);
  }

  lemma OneStep(w: World, step: Step) returns (w': World)
    requires Inv(w) && Enabled(w, step)
    ensures w' == Do(w, step) && Inv(w') && |w'.peers| == |w.peers| && Reaches(w, w')
  {
    hide Inv, Do, Enabled;
    InvShape(w);
    w' := Do(w, step);
    StepKeeps(w, step);
    assert Path(w', [], w');
    assert [step][1..] == [];
    assert Path(w, [step], w');
  }

  /** The run goes on along a path. */
  lemma {:induction false} RunOnward(ws: seq<World>, steps: seq<Step>, n: nat, more: seq<Step>, w': World) returns (ws': seq<World>)
    requires Run(ws, steps, n) && Path(ws[|ws| - 1], more, w')
    ensures Run(ws', steps + more, n) && ws <= ws' && ws'[|ws'| - 1] == w'
    decreases |more|
  {
    hide Do, Enabled, Shape, Initial;
    if more == [] {
      ws' := ws;
      assert steps + more == steps;
    } else {
      var w1 := Do(ws[|ws| - 1], more[0]);
      var ws1, steps1 := ws + [w1], steps + [more[0]];
      forall i | 0 <= i < |steps1| ensures Shape(ws1[i]) && Enabled(ws1[i], steps1[i]) && ws1[i + 1] == Do(ws1[i], steps1[i]) {
        if i < |steps| { assert ws[i + 1] == Do(ws[i], steps[i]); }
      }
      ws' := RunOnward(ws1, steps1, n, more[1..], w');
      assert steps1 + more[1..] == steps + more;
    }
  }

  // ----- Who gets a vote --------------------------------------------------------------------------

  /** Log a ends in a later term than log b, or in the same term and is not shorter. */
  predicate AsLate(a: seq<Entry>, b: seq<Entry>) {
    TermAt(a, |a|) > TermAt(b, |b|) || (TermAt(a, |a|) == TermAt(b, |b|) && |a| >= |b|)
  }

  /** The request of a candidate with this log. */
  predicate StandsFor(a: VoteArgs, log: seq<Entry>) {
    a.lastLogIndex == |log| && a.lastLogTerm == TermAt(log, |log|)
  }

  predicate FreeVote(p: Peer, a: VoteArgs) {
    a.term > p.currentTerm || (a.term == p.currentTerm && (p.votedFor == -1 || p.votedFor == a.candidateId))
  }

  /** A vote is granted if and only if it is free and the candidate's whole log, compacted or not, is
      as late as the voter's; a granted vote binds, and a later term is joined in any case. */
  lemma VoteGrantedIff(w: World, v: nat, a: VoteArgs, log: seq<Entry>)
    requires Shape(w) && v < |w.peers| && StandsFor(a, log)
    ensures var (p, r) := RequestVote(w.peers[v], a);
      && (r.voteGranted <==> FreeVote(w.peers[v], a) && AsLate(log, Full(w, v)))
      && (r.voteGranted ==> p.votedFor == a.candidateId)
      && p.currentTerm == Max(w.peers[v].currentTerm, a.term) && p.log == w.peers[v].log && p.commitIndex == w.peers[v].commitIndex
      && (a.term > w.peers[v].currentTerm ==>
           p.role == Follower && p.leaderTerm == a.term && p.lastNewEntryIndex == p.commitIndex)
  {
    LastOfFull(w, v);
  }

  /** A log that equals the voter's, or extends it without falling back in term, gets a free vote. */
  lemma GrantsExtending(w: World, v: nat, a: VoteArgs, log: seq<Entry>)
    requires Shape(w) && v < |w.peers| && StandsFor(a, log) && FreeVote(w.peers[v], a) && Full(w, v) <= log
    ensures RequestVote(w.peers[v], a).1.voteGranted <==> TermAt(log, |log|) >= TermAt(Full(w, v), |Full(w, v)|)
    ensures log == Full(w, v) ==> RequestVote(w.peers[v], a).1.voteGranted
  {
    VoteGrantedIff(w, v, a, log);
  }

  /** It can be refused although it extends: after an installed snapshot a log may fall back in term. */
  lemma ExtendingCanBeRefused(c: Command)
    ensures var x := InstallSnapshot(NewPeer(0, 3).(currentTerm := 1, leaderTerm := 1, log := [Entry(c, 1, 1), Entry(c, 1, 2)]), 0,
                                     InstallArgs(2, 1, 1, 2)).0;
      && x.snapIndex == 1 && x.snapTerm == 2 && x.log == [Entry(c, 1, 2)]
      && !RequestVote(NewPeer(2, 3).(currentTerm := 2, leaderTerm := 2, log := [Entry(c, 2, 1)]), PrepareElection(x).1).1.voteGranted
  {
  }

  /** A candidate that never installed a snapshot gets every free vote of those whose log it extends. */
  lemma RunGrantsExtending(ws: seq<World>, steps: seq<Step>, n: nat, i: nat, x: nat, v: nat, a: VoteArgs)
    requires Run(ws, steps, n) && i < |ws| && Shape(ws[i]) && x < |ws[i].peers| && v < |ws[i].peers| && |ws[i].peers| == n
    requires NotInstalled(steps, i, x) && Full(ws[i], v) <= Full(ws[i], x) && StandsFor(a, Full(ws[i], x)) && FreeVote(ws[i].peers[v], a)
    ensures RequestVote(ws[i].peers[v], a).1.voteGranted
  {
    hide Run, Inv, RequestVote, Matched, PeerShape;
    var w, log, short := ws[i], Full(ws[i], x), Full(ws[i], v);
    MatchedRun(ws, steps, n, i, x);
    RunKeeps(ws, steps, n, i, i);
    if log != [] { LastTermRises(w, log, if short == [] then 0 else |short| - 1); }
    assert short != [] ==> log[|short| - 1] == short[|short| - 1];
    GrantsExtending(w, v, a, log);
  }

  lemma LastTermRises(w: World, log: seq<Entry>, k: nat)
    requires Inv(w) && Matched(w.reigns, log) && k < |log|
    ensures log[k].term <= log[|log| - 1].term && log[|log| - 1].term >= 1
  {
    hide LogsOk, ElectionsOk, GrantsOk, TermsHeard, LeadersOk, AcksOk, CompleteOk, HeldOk, VotedOk, CommitsOk,
      NewEntriesOk, NetOk, AppliersOk;
    var u := log[|log| - 1].term;
    assert log[..|log| - 1 + 1] <= w.reigns[u].log && ReignOk(w, u);
    assert log[k] == w.reigns[u].log[k];
  }

  /** Of any two peers at least one gets the other's vote, once it asks in a term neither has reached. */
  lemma OneWouldGrant(w: World, x: nat, y: nat, a: VoteArgs, b: VoteArgs)
    requires Shape(w) && x < |w.peers| && y < |w.peers| && StandsFor(a, Full(w, x)) && StandsFor(b, Full(w, y))
    requires a.term > w.peers[y].currentTerm && b.term > w.peers[x].currentTerm
    ensures RequestVote(w.peers[y], a).1.voteGranted || RequestVote(w.peers[x], b).1.voteGranted
  {
    VoteGrantedIff(w, y, a, Full(w, x));
    VoteGrantedIff(w, x, b, Full(w, y));
  }

  /** Elections leave every log and every commit index alone. */
  ghost predicate SameLogs(w: World, w': World) {
    && |w'.peers| == |w.peers| && w'.pre == w.pre && w'.delivered == w.delivered
    && forall v :: 0 <= v < |w.peers| ==>
         w'.peers[v].log == w.peers[v].log && w'.peers[v].commitIndex == w.peers[v].commitIndex
  }

  // ----- A candidate asks everyone ----------------------------------------------------------------

  ghost predicate Granted(w: World, v: nat, t: int, a: VoteArgs) {
    && v < |w.peers| && w.peers[v].currentTerm == w.peers[v].leaderTerm == t && w.peers[v].role == Follower
    && w.peers[v].lastNewEntryIndex == w.peers[v].commitIndex
    && exists u: int :: VoteAck(v, a, VoteReply(u, true)) in w.net
  }

  ghost predicate Asked(w: World, v: nat, t: int, a: VoteArgs, log: seq<Entry>)
    requires Shape(w)
  {
    v < |w.peers| && w.peers[v].currentTerm < t && Vote(v, a) in w.net && AsLate(log, Full(w, v))
  }

  /** Peer s stands in term t; its ballot is open and nobody has been counted. */
  ghost predicate Stands(w: World, s: nat, t: int, a: VoteArgs) {
    && s < |w.peers| && w.peers[s].currentTerm == t && w.peers[s].role == Candidate && a.candidateId == s && a.term == t
    && (s, t) in w.elections && w.elections[(s, t)].ballot == Ballot(1, false)
    && w.elections[(s, t)].waiting == Ids(|w.peers|) - {s}
  }

  ghost predicate Canvass(w: World, s: nat, t: int, a: VoteArgs, log: seq<Entry>, todo: set<nat>)
    requires Shape(w)
  {
    && Stands(w, s, t, a) && StandsFor(a, log)
    && (forall v: nat :: v < |w.peers| && v != s && v in todo ==> Asked(w, v, t, a, log))
    && (forall v: nat :: v < |w.peers| && v != s && v !in todo ==> Granted(w, v, t, a))
  }

  lemma AskOne(w: World, s: nat, t: int, a: VoteArgs, log: seq<Entry>, todo: set<nat>, v: nat) returns (w': World)
    requires Inv(w) && Canvass(w, s, t, a, log, todo) && v < |w.peers| && v != s && v in todo
    ensures Reaches(w, w') && Inv(w') && SameLogs(w, w') && Canvass(w', s, t, a, log, todo - {v})
  {
    hide Inv, RequestVote, AsLate, StandsFor, PeerShape, Reaches, Ids;
    InvShape(w);
    var m := Vote(v, a);
    assert Asked(w, v, t, a, log);
    VoteGrantedIff(w, v, a, log);
    w' := OneStep(w, RecvVote(m));
    InvShape(w');
    AskedOne(w, s, t, a, log, todo, v, w');
  }

  lemma AskedOne(w: World, s: nat, t: int, a: VoteArgs, log: seq<Entry>, todo: set<nat>, v: nat, w': World)
    requires Shape(w) && Shape(w') && Canvass(w, s, t, a, log, todo) && v < |w.peers| && v != s && v in todo
    requires w' == DoRecvVote(w, Vote(v, a))
    requires var (p, r) := RequestVote(w.peers[v], a);
      r.voteGranted && p.currentTerm == p.leaderTerm == t && p.role == Follower && p.lastNewEntryIndex == p.commitIndex
    ensures Canvass(w', s, t, a, log, todo - {v})
  {
    hide RequestVote, AsLate, StandsFor, PeerShape, Ids;
    forall x: nat | x < |w'.peers| && x != s && x in todo - {v} ensures Asked(w', x, t, a, log) {
      assert Asked(w, x, t, a, log) && w'.peers[x] == w.peers[x];
    }
    forall x: nat | x < |w'.peers| && x != s && x !in todo - {v} ensures Granted(w', x, t, a) {
      if x == v {
        var r := RequestVote(w.peers[v], a).1;
        assert VoteAck(v, a, VoteReply(r.term, true)) in w'.net;
      } else {
        assert Granted(w, x, t, a);
        var u: int :| VoteAck(x, a, VoteReply(u, true)) in w.net;
        assert VoteAck(x, a, VoteReply(u, true)) in w'.net;
      }
    }
  }

  lemma {:induction false} AskAll(w: World, s: nat, t: int, a: VoteArgs, log: seq<Entry>, todo: set<nat>) returns (w': World)
    requires Inv(w) && Canvass(w, s, t, a, log, todo) && todo <= Ids(|w.peers|) - {s}
    ensures Reaches(w, w') && Inv(w') && SameLogs(w, w') && Canvass(w', s, t, a, log, {})
    decreases |todo|
  {
    hide Inv, Canvass, Reaches;
    InvShape(w);
    if todo == {} {
      w' := w;
      Stays(w);
    } else {
      var v :| v in todo;
      var w1 := AskOne(w, s, t, a, log, todo, v);
      w' := AskAll(w1, s, t, a, log, todo - {v});
      Onward(w, w1, w');
    }
  }

  // ----- And counts the votes -----------------------------------------------------------------------

  /** The next index of every peer is past the whole log, and only the leader itself has it all. */
  ghost predicate FreshIndexes(w: World, s: nat)
    requires Shape(w) && s < |w.peers|
  {
    && |w.peers[s].nextIndex| == |w.peers[s].matchIndex| == |w.peers|
    && forall j :: 0 <= j < |w.peers| ==>
         w.peers[s].nextIndex[j] == |Full(w, s)| + 1 && w.peers[s].matchIndex[j] == if j == s then |Full(w, s)| else 0
  }

  /** Everyone has granted; the votes of all but `todo` are counted, and a majority made s the leader. */
  ghost predicate Counts(w: World, s: nat, t: int, a: VoteArgs, todo: set<nat>)
    requires Shape(w)
  {
    && s < |w.peers| && w.peers[s].currentTerm == t && a.candidateId == s && a.term == t && (s, t) in w.elections
    && var e := w.elections[(s, t)];
    && e.waiting == todo && e.ballot.votes + |todo| == |w.peers|
    && (e.ballot.done <==> e.ballot.votes > Half(|w.peers|))
    && (e.ballot.done ==> w.peers[s].role == Leader && FreshIndexes(w, s))
    && forall v: nat :: v < |w.peers| && v != s ==> Granted(w, v, t, a)
  }

  lemma CountOne(w: World, s: nat, t: int, a: VoteArgs, todo: set<nat>, v: nat) returns (w': World)
    requires Inv(w) && Counts(w, s, t, a, todo) && v < |w.peers| && v != s && v in todo
    ensures Reaches(w, w') && Inv(w') && SameLogs(w, w') && Counts(w', s, t, a, todo - {v})
  {
    hide Inv, Reaches, PeerShape, Half, BecomeLeader;
    InvShape(w);
    assert Granted(w, v, t, a);
    var u: int :| VoteAck(v, a, VoteReply(u, true)) in w.net;
    var m := VoteAck(v, a, VoteReply(u, true));
    w' := OneStep(w, RecvVoteAck(m));
    InvShape(w');
    CountedOne(w, s, t, a, todo, m, w');
  }

  lemma CountedOne(w: World, s: nat, t: int, a: VoteArgs, todo: set<nat>, m: Msg, w': World)
    requires Shape(w) && Counts(w, s, t, a, todo) && Enabled(w, RecvVoteAck(m)) && m.vote == a && m.src in todo
    requires m.voteReply.voteGranted && w' == DoRecvVoteAck(w, m) && Shape(w')
    ensures SameLogs(w, w') && Counts(w', s, t, a, todo - {m.src})
  {
    hide PeerShape, Half, LastIndex;
    ShapeSize(w, s);
    LastOfFull(w, s);
    assert Full(w', s) == Full(w, s);
    forall x: nat | x < |w'.peers| && x != s ensures Granted(w', x, t, a) {
      assert Granted(w, x, t, a);
    }
  }

  lemma ShapeSize(w: World, s: nat)
    requires Shape(w) && s < |w.peers|
    ensures w.peers[s].n == |w.peers| && w.peers[s].me == s
  {
    assert PeerShape(w.peers[s], w.pre[s], |w.peers|, s);
  }

  lemma {:induction false} CountAll(w: World, s: nat, t: int, a: VoteArgs, todo: set<nat>) returns (w': World)
    requires Inv(w) && Counts(w, s, t, a, todo) && todo <= Ids(|w.peers|) - {s}
    ensures Reaches(w, w') && Inv(w') && SameLogs(w, w') && Counts(w', s, t, a, {})
    decreases |todo|
  {
    hide Inv, Counts, Reaches;
    InvShape(w);
    if todo == {} {
      w' := w;
      Stays(w);
    } else {
      var v :| v in todo;
      var w1 := CountOne(w, s, t, a, todo, v);
      w' := CountAll(w1, s, t, a, todo - {v});
      Onward(w, w1, w');
    }
  }

  // ----- Standing ------------------------------------------------------------------------------------

  /** Peer s leads in term t and everyone else follows in it. */
  ghost predicate LeadsAll(w: World, s: nat, t: int) {
    && s < |w.peers| && w.peers[s].role == Leader && w.peers[s].currentTerm == t
    && forall v :: 0 <= v < |w.peers| && v != s ==> w.peers[v].role == Follower && w.peers[v].currentTerm == w.peers[v].leaderTerm == t
  }

  /** No follower has had entries from this leader. */
  ghost predicate NothingHeard(w: World, s: nat) {
    forall v :: 0 <= v < |w.peers| && v != s ==> w.peers[v].lastNewEntryIndex == w.peers[v].commitIndex
  }

  ghost predicate Latest(w: World, s: nat)
    requires Shape(w)
  {
    s < |w.peers| && forall v: nat :: v < |w.peers| ==> AsLate(Full(w, s), Full(w, v))
  }

  lemma Stand(w: World, s: nat) returns (w': World, a: VoteArgs)
    requires Inv(w) && Latest(w, s) && w.peers[s].role != Leader
    requires forall v :: 0 <= v < |w.peers| && v != s ==> w.peers[v].currentTerm <= w.peers[s].currentTerm
    ensures Reaches(w, w') && Inv(w') && SameLogs(w, w')
    ensures Canvass(w', s, w.peers[s].currentTerm + 1, a, Full(w, s), Ids(|w.peers|) - {s})
  {
    hide Inv, Reaches, PeerShape, AsLate, Ids;
    InvShape(w);
    w' := OneStep(w, Timeout(s));
    a := PrepareElection(w.peers[s]).1;
    LastOfFull(w, s);
    ShapeSize(w, s);
    InvShape(w');
    var t := w.peers[s].currentTerm + 1;
    forall v: nat | v < |w'.peers| && v != s ensures Asked(w', v, t, a, Full(w, s)) {
      assert Vote(v, a) in w'.net && w'.peers[v] == w.peers[v] && Full(w', v) == Full(w, v);
      assert AsLate(Full(w, s), Full(w, v));
    }
  }

  lemma StartCount(w: World, s: nat, t: int, a: VoteArgs, log: seq<Entry>)
    requires Shape(w) && Canvass(w, s, t, a, log, {}) && |w.peers| >= 2
    ensures Counts(w, s, t, a, Ids(|w.peers|) - {s})
  {
    assert |Ids(|w.peers|) - {s}| == |w.peers| - 1;
  }

  lemma CountedAll(w: World, s: nat, t: int, a: VoteArgs)
    requires Shape(w) && Counts(w, s, t, a, {})
    ensures LeadsAll(w, s, t) && FreshIndexes(w, s) && NothingHeard(w, s)
  {
    forall v: nat | v < |w.peers| && v != s
      ensures w.peers[v].role == Follower && w.peers[v].currentTerm == w.peers[v].leaderTerm == t
      ensures w.peers[v].lastNewEntryIndex == w.peers[v].commitIndex
    {
      assert Granted(w, v, t, a);
    }
  }

  /** A peer whose log is as late as any and whose term is as high as any, and who does not lead, can
      win the next term. */
  lemma WinNext(w: World, s: nat) returns (w': World)
    requires Inv(w) && Latest(w, s) && w.peers[s].role != Leader && |w.peers| >= 2
    requires forall v :: 0 <= v < |w.peers| && v != s ==> w.peers[v].currentTerm <= w.peers[s].currentTerm
    ensures Reaches(w, w') && Inv(w') && SameLogs(w, w') && LeadsAll(w', s, w.peers[s].currentTerm + 1) && FreshIndexes(w', s) && NothingHeard(w', s)
  {
    hide Inv, Reaches, Canvass, Counts, LeadsAll, FreshIndexes, NothingHeard;
    InvShape(w);
    var t := w.peers[s].currentTerm + 1;
    var w1, a := Stand(w, s);
    InvShape(w1);
    var w2 := AskAll(w1, s, t, a, Full(w, s), Ids(|w.peers|) - {s});
    InvShape(w2);
    StartCount(w2, s, t, a, Full(w, s));
    w' := CountAll(w2, s, t, a, Ids(|w.peers|) - {s});
    InvShape(w');
    CountedAll(w', s, t, a);
    Onward(w, w1, w2);
    Onward(w, w2, w');
  }

  // ----- From anywhere --------------------------------------------------------------------------------

  /** Some peer's log is as late as any. */
  lemma {:induction false} FindLatest(w: World, k: nat) returns (s: nat)
    requires Shape(w) && 1 <= k <= |w.peers|
    ensures s < k && forall v: nat :: v < k ==> AsLate(Full(w, s), Full(w, v))
  {
    hide PeerShape;
    s := k - 1;
    if k > 1 {
      var r := FindLatest(w, k - 1);
      if AsLate(Full(w, r), Full(w, s)) { s := r; }
    }
  }

  lemma {:induction false} FindTop(w: World, k: nat) returns (x: nat)
    requires 1 <= k <= |w.peers|
    ensures x < k && forall v :: 0 <= v < k ==> w.peers[v].currentTerm <= w.peers[x].currentTerm
  {
    x := k - 1;
    if k > 1 {
      var y := FindTop(w, k - 1);
      if w.peers[y].currentTerm > w.peers[x].currentTerm { x := y; }
    }
  }

  lemma OtherVoter(w: World, y: nat) returns (v: nat)
    requires Inv(w) && y < |w.peers| && w.peers[y].role == Leader && |w.peers| >= 2
    ensures v < |w.peers| && v != y && w.peers[v].currentTerm >= w.peers[y].currentTerm
    ensures w.peers[v].currentTerm == w.peers[y].currentTerm ==> w.peers[v].role != Leader
  {
    hide LogsOk, ElectionsOk, TermsHeard, AcksOk, CompleteOk, HeldOk, VotedOk, CommitsOk, NewEntriesOk, NetOk, AppliersOk;
    var t := w.peers[y].currentTerm;
    assert ReignOk(w, t);
    var q := w.reigns[t].voters;
    assert q - {y} != {} by { if q - {y} == {} { SubsetCard(q, {y}); } }
    v :| v in q - {y};
    assert (t, v, y) in w.grants && GrantOk(w, t, v, y);
  }

  /** No term is above that of some peer that does not lead. */
  lemma TopTerm(w: World) returns (x: nat)
    requires Inv(w) && |w.peers| >= 2
    ensures x < |w.peers| && w.peers[x].role != Leader
    ensures forall v :: 0 <= v < |w.peers| ==> w.peers[v].currentTerm <= w.peers[x].currentTerm
  {
    hide Inv;
    x := FindTop(w, |w.peers|);
    if w.peers[x].role == Leader { x := OtherVoter(w, x); }
  }

  lemma LatestStays(w: World, w': World, s: nat)
    requires Shape(w) && Shape(w') && SameLogs(w, w') && Latest(w, s)
    ensures Latest(w', s)
  {
    hide PeerShape, AsLate;
    forall v: nat | v < |w'.peers| ensures AsLate(Full(w', s), Full(w', v)) {
      assert AsLate(Full(w, s), Full(w, v));
    }
  }

  /** The peer is made to see a term that nobody is past, and does not lead. */
  lemma StepAside(w: World, s: nat) returns (w': World)
    requires Inv(w) && s < |w.peers| && |w.peers| >= 2
    ensures Reaches(w, w') && Inv(w') && SameLogs(w, w') && w'.peers[s].role != Leader
    ensures forall v :: 0 <= v < |w.peers| ==> w'.peers[v].currentTerm <= w'.peers[s].currentTerm && w.peers[v].currentTerm <= w'.peers[s].currentTerm
  {
    hide Inv, Reaches, PeerShape, Full, Ids;
    InvShape(w);
    var x := TopTerm(w);
    w' := OneStep(w, Timeout(x));
    if s != x {
      var a, w1 := PrepareElection(w.peers[x]).1, w';
      InvShape(w1);
      assert Vote(s, a) in w1.net;
      w' := OneStep(w1, RecvVote(Vote(s, a)));
      Onward(w, w1, w');
    }
  }

  ghost predicate TermsBelow(w: World, t: int) {
    forall v :: 0 <= v < |w.peers| ==> w.peers[v].currentTerm < t
  }

  /** Every peer with a latest log can be made the leader of a term above all, with everyone else
      following it in that term, whatever has happened before. */
  lemma Elect(w: World, s: nat) returns (w': World, t: int)
    requires Inv(w) && Latest(w, s) && |w.peers| >= 2
    ensures Reaches(w, w') && Inv(w') && SameLogs(w, w') && LeadsAll(w', s, t) && FreshIndexes(w', s) && NothingHeard(w', s) && TermsBelow(w, t)
  {
    hide Inv, Reaches, Latest, LeadsAll, FreshIndexes, NothingHeard;
    InvShape(w);
    assert s < |w.peers| by { LatestIn(w, s); }
    var w1 := StepAside(w, s);
    InvShape(w1);
    LatestStays(w, w1, s);
    w' := WinNext(w1, s);
    t := w1.peers[s].currentTerm + 1;
    Onward(w, w1, w');
  }

  lemma LatestIn(w: World, s: nat)
    requires Shape(w) && Latest(w, s)
    ensures s < |w.peers|
  {
  }

  // ----- Exactly when a leader can be had ---------------------------------------------------------

  /** From every state of every run of two or more peers, some peer can be made the leader of a term
      above all. */
  lemma LeaderReachable(ws: seq<World>, steps: seq<Step>, n: nat) returns (ws': seq<World>, steps': seq<Step>, s: nat, t: int)
    requires Run(ws, steps, n) && n >= 2
    ensures Run(ws', steps', n) && ws <= ws' && steps <= steps' && LeadsAll(ws'[|ws'| - 1], s, t)
    ensures TermsBelow(ws[|ws| - 1], t)
  {
    hide Run, Inv, LeadsAll;
    RunLength(ws, steps, n);
    var w := ws[|ws| - 1];
    RunKeeps(ws, steps, n, |ws| - 1, |ws| - 1);
    RunSize(ws, steps, n, |ws| - 1);
    InvShape(w);
    s := FindLatest(w, n);
    var w';
    w', t := Elect(w, s);
    var more :| Path(w, more, w');
    ws' := RunOnward(ws, steps, n, more, w');
    steps' := steps + more;
  }

  /** A peer without others: its elections wait for nobody, and votes are counted only as replies
      come in. */
  ghost predicate Alone(w: World) {
    && |w.peers| <= 1 && (forall s :: 0 <= s < |w.peers| ==> w.peers[s].role != Leader)
    && forall c, t :: (c, t) in w.elections ==> w.elections[(c, t)].waiting == {}
  }

  lemma AloneReceives(w: World, step: Step)
    requires Shape(w) && Enabled(w, step) && Alone(w) && Receives(step)
    ensures Alone(Do(w, step))
  {
    hide Splice, Conflict, PrevMatches, Trim, Backup, BackupInRange, BacksUp, UpToDate, OldSnapshot, PeerShape, Full,
      NewAck, LastIndex;
  }

  lemma AloneLocal(w: World, step: Step)
    requires Shape(w) && Enabled(w, step) && Alone(w) && !Receives(step)
    ensures Alone(Do(w, step))
  {
    hide Trim, ScanCommit, PeerShape, Full, Elected, CanReplicate, CanSendSnapshot, NextInRange, SnapshotArgs,
      LastIndex, LastTerm, Taken, Received, Batch;
    if step.Timeout? { assert Ids(|w.peers|) - {step.s} == {}; }
  }

  lemma {:induction false} AloneNeverLeads(ws: seq<World>, steps: seq<Step>, n: nat, i: nat)
    requires Run(ws, steps, n) && i < |ws| && n <= 1
    ensures Alone(ws[i])
  {
    hide Do, Enabled, Shape, Alone;
    if i == 0 {
      FirstAlone(ws[0], n);
    } else {
      AloneNeverLeads(ws, steps, n, i - 1);
      if Receives(steps[i - 1]) { AloneReceives(ws[i - 1], steps[i - 1]); } else { AloneLocal(ws[i - 1], steps[i - 1]); }
    }
  }

  lemma FirstAlone(w: World, n: nat)
    requires Initial(w, n) && n <= 1
    ensures Alone(w)
  {
  }

  function First(n: nat): World {
    World(seq(n, s requires 0 <= s => NewPeer(s, n)), {}, map[], seq(n, _ => Idle), seq(n, _ => []), seq(n, _ => []), seq(n, _ => []), {}, map[], map[])
  }

  /** In state i of the run somebody leads. */
  ghost predicate Led(ws: seq<World>, i: nat) {
    i < |ws| && exists s :: 0 <= s < |ws[i].peers| && ws[i].peers[s].role == Leader
  }

  /** A cluster has a run with a leader if and only if it has two peers or more: a single peer counts
      no votes, as nobody replies to it. */
  lemma LeaderReachableIff(n: nat)
    ensures (exists ws, steps, i: nat :: Run(ws, steps, n) && Led(ws, i)) <==> n >= 2
  {
    hide Run;
    if n >= 2 {
      assert Initial(First(n), n);
      assert Run([First(n)], [], n) by { FirstRun(n); }
      var ws, steps, s, t := LeaderReachable([First(n)], [], n);
      assert Led(ws, |ws| - 1);
    } else {
      forall ws, steps, i: nat | Run(ws, steps, n) && i < |ws| ensures !Led(ws, i) {
        AloneNeverLeads(ws, steps, n, i);
      }
    }
  }

  lemma FirstRun(n: nat)
    ensures Run([First(n)], [], n)
  {
  }
}

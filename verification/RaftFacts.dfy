/** Facts that every step of the cluster relies on: majorities meet, equal terms mean equal
    prefixes, and what was once committed or promised stays so as the cluster evolves. */
module RaftFacts {
  import opened RaftPeer
  import opened RaftWorld
  import opened RaftInv

  lemma QuorumsMeet(n: nat, q: set<nat>, r: set<nat>) returns (v: nat)
    requires Quorum(n, q) && Quorum(n, r)
    ensures v in q && v in r
  {
    assert q + r <= Ids(n);
    SubsetCard(q + r, Ids(n));
    assert |q + r| == |q| + |r| - |q * r|;
    v :| v in q * r;
  }

  lemma {:induction false} SubsetCard(a: set<nat>, b: set<nat>)
    requires a <= b
    ensures |a| <= |b|
  {
    if a != {} {
      var x :| x in a;
      SubsetCard(a - {x}, b - {x});
    }
  }

  // ----- Log matching -----------------------------------------------------------------

  /** Two matched logs that agree on the term of one index agree on everything up to it. */
  lemma LogMatching(reigns: map<int, Reign>, a: seq<Entry>, b: seq<Entry>, k: nat)
    requires Matched(reigns, a) && Matched(reigns, b)
    requires k < |a| && k < |b| && a[k].term == b[k].term
    ensures a[..k + 1] == b[..k + 1]
  {
    var l := reigns[a[k].term].log;
    assert a[..k + 1] == l[..k + 1] && b[..k + 1] == l[..k + 1];
  }

  lemma MatchedPrefix(reigns: map<int, Reign>, a: seq<Entry>, b: seq<Entry>)
    requires Matched(reigns, b) && a <= b
    ensures Matched(reigns, a)
  {
    forall k | 0 <= k < |a|
      ensures a[k].term in reigns && a[..k + 1] <= reigns[a[k].term].log
    {
      assert a[..k + 1] == b[..k + 1] && a[k] == b[k];
    }
  }

  lemma MatchedGrow(reigns: map<int, Reign>, reigns': map<int, Reign>, a: seq<Entry>)
    requires Matched(reigns, a)
    requires forall t :: t in reigns ==> t in reigns' && reigns[t].log <= reigns'[t].log
    ensures Matched(reigns', a)
  {
    forall k | 0 <= k < |a|
      ensures a[k].term in reigns' && a[..k + 1] <= reigns'[a[k].term].log
    {
      PrefixTrans(a[..k + 1], reigns[a[k].term].log, reigns'[a[k].term].log);
    }
  }

  lemma PrefixTrans<T>(a: seq<T>, b: seq<T>, c: seq<T>)
    requires a <= b && b <= c
    ensures a <= c
  {
    assert c[..|a|] == b[..|a|];
  }

  /** Two prefixes of one log are comparable. */
  lemma PrefixesCompare<T>(a: seq<T>, b: seq<T>, c: seq<T>)
    requires a <= c && b <= c && |a| <= |b|
    ensures a <= b
  {
    assert a == c[..|a|] && b == c[..|b|];
    assert b[..|a|] == c[..|a|];
  }

  lemma Shorter<T>(a: seq<T>, b: seq<T>, k: int, j: int)
    requires 0 <= j <= k <= |a| && k <= |b| && a[..k] == b[..k]
    ensures a[..j] == b[..j]
  {
    assert a[..j] == a[..k][..j] && b[..j] == b[..k][..j];
  }

  /** Where a matched log and another meet in one term, that term's leader has what precedes. */
  lemma SameTermBefore(reigns: map<int, Reign>, before: seq<Entry>, other: seq<Entry>, k: nat)
    requires Matched(reigns, other) && |before| <= k < |other| && before <= other
    ensures other[k].term in reigns && before <= reigns[other[k].term].log
  {
    assert other[..k + 1] <= reigns[other[k].term].log;
    PrefixTrans(before, other[..k + 1], reigns[other[k].term].log);
  }

  /** A stray entry never meets an entry of its own term in a log that begins with the snapshot. */
  lemma StrayApart(reigns: map<int, Reign>, log: seq<Entry>, h: int, k: int, other: seq<Entry>)
    requires 0 <= h <= k < |log| && Stray(reigns, log, h, k) && Matched(reigns, other)
    requires k < |other| && log[..h] <= other
    ensures other[k].term != log[k].term
  {
    SameTermBefore(reigns, log[..h], other, k);
  }

  /** A log that meets a leader's log past the snapshot in one term agrees with it up to there. */
  lemma SameTermAgrees(reigns: map<int, Reign>, full: seq<Entry>, h: nat, leader: seq<Entry>, k: nat)
    requires (Matched(reigns, full) || AllStray(reigns, full, h)) && Matched(reigns, leader)
    requires h <= k < |full| && k < |leader| && full[..h] <= leader && full[k].term == leader[k].term
    ensures full[..k + 1] == leader[..k + 1]
  {
    if Matched(reigns, full) {
      LogMatching(reigns, full, leader, k);
    } else {
      StrayApart(reigns, full, h, k, leader);
    }
  }

  // ----- What AppendEntries does to the log ----------------------------------------------

  /** On the uncompacted log: keep it if it already holds the leader's log up to m, otherwise take
      the leader's log up to m. */
  ghost function Overwrite(full: seq<Entry>, leader: seq<Entry>, m: nat): seq<Entry>
    requires m <= |leader|
  {
    if leader[..m] <= full then full else leader[..m]
  }

  /** Splicing entries prev+1..m of the leader's log into a compacted log overwrites the full log,
      whatever part of it the snapshot hides, and drops stray entries it reaches. */
  lemma {:induction false} SpliceOverwrites(reigns: map<int, Reign>, pre: seq<Entry>, log: seq<Entry>,
                                            leader: seq<Entry>, prev: nat, m: nat)
    requires Matched(reigns, pre + log) || AllStray(reigns, pre + log, |pre|)
    requires Matched(reigns, leader) && Numbered(pre + log, 0) && Numbered(leader, 0) && pre <= leader
    requires prev <= m <= |leader| && prev <= |pre + log|
    requires (pre + log)[..prev] == leader[..prev]
    ensures pre + Splice(log, prev - |pre|, leader[prev..m]) == Overwrite(pre + log, leader, m)
    decreases m - prev
  {
    var full, at, es := pre + log, prev - |pre|, leader[prev..m];
    if prev == m {
      assert es == [];
      assert leader[..m] <= full;
    } else {
      assert es[1..] == leader[prev + 1..m];
      assert full[..|pre|] == pre;
      if at < 0 {
        assert full[prev] == pre[prev] == leader[prev];
        ExtendEqual(full, leader, prev);
        SpliceOverwrites(reigns, pre, log, leader, prev + 1, m);
      } else if at < |log| && SameSlot(log[at], es[0]) {
        assert full[prev] == log[at];
        SameTermAgrees(reigns, full, |pre|, leader, prev);
        SpliceOverwrites(reigns, pre, log, leader, prev + 1, m);
      } else {
        SpliceHere(pre, log, leader, prev, m);
      }
    }
  }

  /** Entry prev + 1 is missing or different: the rest of the log is replaced. */
  lemma SpliceHere(pre: seq<Entry>, log: seq<Entry>, leader: seq<Entry>, prev: nat, m: nat)
    requires |pre| <= prev < m <= |leader| && prev <= |pre + log| && (pre + log)[..prev] == leader[..prev]
    requires prev < |pre + log| ==> (pre + log)[prev] != leader[prev]
    ensures pre + (log[..prev - |pre|] + leader[prev..m]) == Overwrite(pre + log, leader, m)
  {
    var full := pre + log;
    assert pre + log[..prev - |pre|] == full[..prev];
    assert leader[..prev] + leader[prev..m] == leader[..m];
    assert pre + (log[..prev - |pre|] + leader[prev..m]) == (pre + log[..prev - |pre|]) + leader[prev..m];
    assert leader[..m][prev] == leader[prev];
  }

  lemma ExtendEqual<T>(a: seq<T>, b: seq<T>, k: nat)
    requires k < |a| && k < |b| && a[..k] == b[..k] && a[k] == b[k]
    ensures a[..k + 1] == b[..k + 1]
  {
    assert a[..k + 1] == a[..k] + [a[k]] && b[..k + 1] == b[..k] + [b[k]];
  }

  /** A common prefix of the old log and the leader's log survives. */
  lemma OverwriteKeeps(full: seq<Entry>, leader: seq<Entry>, m: nat, common: seq<Entry>)
    requires m <= |leader| && common <= full && common <= leader
    ensures common <= Overwrite(full, leader, m)
  {
    if m < |common| {
      assert leader[..m] == common[..m] == full[..m];
    } else {
      assert leader[..m][..|common|] == leader[..|common|];
    }
  }

  // ----- Evolution -------------------------------------------------------------------------

  /** What every step keeps: terms and histories only grow, and a peer acknowledges only in a term
      it has not left. */
  ghost predicate Evolves(w: World, w': World) {
    && |w.peers| == |w'.peers|
    && (forall s :: 0 <= s < |w.peers| ==> w.peers[s].currentTerm <= w'.peers[s].currentTerm)
    && (forall t :: t in w.reigns ==> t in w'.reigns && SameReign(w.reigns[t], w'.reigns[t]))
    && (forall v: nat, t :: Acked(w, v, t) <= Acked(w', v, t))
    && (forall v: nat, t :: v < |w.peers| && Acked(w, v, t) < Acked(w', v, t) ==> w.peers[v].currentTerm <= t)
    && (forall k :: k in w.elections ==> k in w'.elections && w'.elections[k].log == w.elections[k].log)
    && w.grants <= w'.grants
  }

  ghost predicate SameReign(r: Reign, r': Reign) {
    r.leader == r'.leader && r.voters == r'.voters && r.log <= r'.log
  }

  lemma EvolvesRefl(w: World)
    ensures Evolves(w, w)
  {
  }

  lemma CommittedStays(w: World, w': World, t: int, i: int)
    requires Evolves(w, w') && Committed(w, t, i)
    ensures Committed(w', t, i)
  {
    assert SameReign(w.reigns[t], w'.reigns[t]);
    var q :| Quorum(|w.peers|, q) && AckedAll(w, q, t, i);
    assert AckedAll(w', q, t, i);
  }

  lemma CommitOkStays(w: World, w': World, log: seq<Entry>, log': seq<Entry>, ci: int, bound: int, bound': int)
    requires Evolves(w, w') && CommitOk(w, log, ci, bound) && bound <= bound'
    requires ci > 0 ==> ci <= |log| && ci <= |log'| && log[..ci] == log'[..ci]
    ensures CommitOk(w', log', ci, bound')
  {
    if ci > 0 {
      var t, i :| Committed(w, t, i) && CommitBy(w, log, ci, bound, t, i);
      CommittedStays(w, w', t, i);
      assert SameReign(w.reigns[t], w'.reigns[t]);
      assert w'.reigns[t].log[..ci] == w.reigns[t].log[..ci];
      assert CommitBy(w', log', ci, bound', t, i);
    }
  }

  lemma CommitOkLess(w: World, log: seq<Entry>, ci: int, ci': int, bound: int)
    requires CommitOk(w, log, ci, bound) && ci' <= ci
    ensures CommitOk(w, log, ci', bound)
  {
    if ci' > 0 {
      var t, i :| Committed(w, t, i) && CommitBy(w, log, ci, bound, t, i);
      Shorter(log, w.reigns[t].log, ci, ci');
      assert CommitBy(w, log, ci', bound, t, i);
    }
  }

  lemma CommitOkBound(w: World, log: seq<Entry>, ci: int, bound: int)
    requires CommitOk(w, log, ci, bound)
    ensures ci <= |log|
  {
    if ci > 0 {
      var t, i :| Committed(w, t, i) && CommitBy(w, log, ci, bound, t, i);
    }
  }

  lemma ChoosableBefore(w: World, w': World, t: int, i: int)
    requires Evolves(w, w') && Choosable(w', t, i)
    requires t in w.reigns && i <= |w.reigns[t].log|
    ensures Choosable(w, t, i)
    ensures w.reigns[t].log[..i] == w'.reigns[t].log[..i]
  {
    assert SameReign(w.reigns[t], w'.reigns[t]);
    var q :| Quorum(|w'.peers|, q) && CanAckAll(w', q, t, i);
    forall v | v in q
      ensures CanAck(w, v, t, i)
    {
      assert CanAck(w', v, t, i);
    }
    assert CanAckAll(w, q, t, i);
  }

  lemma CommittedChoosable(w: World, t: int, i: int)
    requires Committed(w, t, i)
    ensures Choosable(w, t, i)
  {
    var q :| Quorum(|w.peers|, q) && AckedAll(w, q, t, i);
    forall v | v in q
      ensures CanAck(w, v, t, i)
    {
    }
    assert CanAckAll(w, q, t, i);
  }

  /** A committed prefix is a prefix of every leader's log from the committing term on. */
  lemma CommitInReign(w: World, log: seq<Entry>, ci: int, bound: int, u: int)
    requires CommitOk(w, log, ci, bound) && CompleteOk(w) && u in w.reigns && bound <= u && ci >= 0
    ensures ci <= |log| && ci <= |w.reigns[u].log| && log[..ci] == w.reigns[u].log[..ci]
  {
    if ci > 0 {
      var t, i :| Committed(w, t, i) && CommitBy(w, log, ci, bound, t, i);
      CommittedChoosable(w, t, i);
      if t < u {
        assert w.reigns[t].log[..i] <= w.reigns[u].log;
        Shorter(w.reigns[t].log, w.reigns[u].log, i, ci);
      }
    }
  }

  /** Two committed prefixes agree. */
  lemma CommitsAgree(w: World, a: seq<Entry>, ca: int, ta: int, b: seq<Entry>, cb: int, tb: int)
    requires CommitOk(w, a, ca, ta) && CommitOk(w, b, cb, tb) && CompleteOk(w)
    requires 0 <= ca <= |a| && 0 <= cb <= |b| && ca <= cb
    ensures a[..ca] == b[..ca]
  {
    hide Choosable, Committed, OwnEntry;
    if ca > 0 {
      var t, i :| Committed(w, t, i) && CommitBy(w, a, ca, ta, t, i);
      var u, k :| Committed(w, u, k) && CommitBy(w, b, cb, tb, u, k);
      CommittedChoosable(w, t, i);
      CommittedChoosable(w, u, k);
      Shorter(b, w.reigns[u].log, cb, ca);
      if t < u {
        Shorter(w.reigns[t].log, w.reigns[u].log, i, ca);
      } else if u < t {
        Shorter(w.reigns[u].log, w.reigns[t].log, k, ca);
      }
    }
  }

  // ----- Logs behind a snapshot ------------------------------------------------------------

  lemma MatchedLater(w: World, w': World, log: seq<Entry>)
    requires Evolves(w, w') && Matched(w.reigns, log)
    ensures Matched(w'.reigns, log)
  {
    forall t | t in w.reigns
      ensures t in w'.reigns && w.reigns[t].log <= w'.reigns[t].log
    {
      assert SameReign(w.reigns[t], w'.reigns[t]);
    }
    MatchedGrow(w.reigns, w'.reigns, log);
  }

  lemma StrayLater(w: World, w': World, log: seq<Entry>, h: int, k: int)
    requires Evolves(w, w') && 0 <= h <= k < |log| && Stray(w.reigns, log, h, k)
    ensures Stray(w'.reigns, log, h, k)
  {
    var u := log[k].term;
    assert SameReign(w.reigns[u], w'.reigns[u]);
    assert w'.reigns[u].log[..h] == w.reigns[u].log[..h];
  }

  lemma LogOkLater(w: World, w': World, log: seq<Entry>, h: int, bound: int, bound': int)
    requires Evolves(w, w') && LogOk(w, log, h, bound) && bound <= bound'
    ensures LogOk(w', log, h, bound')
  {
    hide CommitOk, Matched, Stray, Evolves;
    CommitOkBound(w, log, h, bound);
    CommitOkStays(w, w', log, log, h, bound, bound');
    if Matched(w.reigns, log) {
      MatchedLater(w, w', log);
    } else {
      forall k | h <= k < |log| ensures Stray(w'.reigns, log, h, k) { StrayLater(w, w', log, h, k); }
    }
  }

  /** What is committed past h continues the first h entries. */
  lemma CommittedContinues(w: World, log: seq<Entry>, h: nat, c: int, bound: int)
    requires ReignsOk(w) && CommitOk(w, log, c, bound) && h < c <= |log|
    ensures log[h].term in w.reigns && log[..h] <= w.reigns[log[h].term].log
  {
    var t, i :| Committed(w, t, i) && CommitBy(w, log, c, bound, t, i);
    assert ReignOk(w, t);
    var leader := w.reigns[t].log;
    assert log[..h] == leader[..h] by { Shorter(log, leader, c, h); }
    assert log[h] == log[..c][h] == leader[..c][h] == leader[h];
    SameTermBefore(w.reigns, log[..h], leader, h);
  }

  /** Nothing past the snapshot is committed while stray entries are there. */
  lemma StrayUncommitted(w: World, log: seq<Entry>, h: int, c: int, bound: int)
    requires ReignsOk(w) && AllStray(w.reigns, log, h) && CommitOk(w, log, c, bound)
    ensures c <= h
  {
    CommitOkBound(w, log, c, bound);
    assert Stray(w.reigns, log, h, h);
    if c > h { CommittedContinues(w, log, h, c, bound); }
  }

  /** Leaders from the committing term on begin with what was committed. */
  lemma CommittedBegins(w: World, log: seq<Entry>, h: int, bound: int, t: int, i: int, u: int)
    requires CompleteOk(w) && Committed(w, t, i) && CommitBy(w, log, h, bound, t, i) && u in w.reigns && t <= u
    ensures log[..h] <= w.reigns[u].log
  {
    CommittedChoosable(w, t, i);
    if t < u { Shorter(w.reigns[t].log, w.reigns[u].log, i, h); }
  }

  /** The terms of stray entries are below every term that committed the snapshot. */
  lemma StrayBelow(w: World, log: seq<Entry>, h: int, k: int, bound: int, t: int, i: int)
    requires CompleteOk(w) && 0 <= h <= k < |log| && Stray(w.reigns, log, h, k)
    requires Committed(w, t, i) && CommitBy(w, log, h, bound, t, i)
    ensures log[k].term < t
  {
    if t <= log[k].term { CommittedBegins(w, log, h, bound, t, i, log[k].term); }
  }

  /** A matched log that begins with an entry of term t ends in no earlier term. */
  lemma MatchedKeeps(w: World, log: seq<Entry>, t: int, i: int)
    requires ReignsOk(w) && Matched(w.reigns, log) && OwnEntry(w, t, i) && w.reigns[t].log[..i] <= log
    ensures Keeps(w, log, t, i)
  {
    var own, last := w.reigns[t].log, log[|log| - 1].term;
    assert log[i - 1] == own[..i][i - 1] == own[i - 1];
    assert log[..|log|] <= w.reigns[last].log && log[..|log|] == log;
    assert w.reigns[last].log[i - 1] == log[i - 1];
    assert ReignOk(w, last);
  }

  /** A log whose last entry is of a late enough term begins with every entry that can be chosen. */
  lemma LateEnough(w: World, log: seq<Entry>, h: int, bound: int, t: int, i: int)
    requires ReignsOk(w) && CompleteOk(w) && LogOk(w, log, h, bound) && Choosable(w, t, i)
    requires t < TermAt(log, |log|) || (t == TermAt(log, |log|) && i <= |log|)
    ensures w.reigns[t].log[..i] <= log
  {
    hide Choosable, CommitOk, ReignsOk, Matched, CompleteOk;
    assert 1 <= t by { TermPositive(w, t, i); }
    if Matched(w.reigns, log) {
      LateMatched(w, log, t, i);
    } else {
      LateStray(w, log, h, bound, t, i);
    }
  }

  lemma TermPositive(w: World, t: int, i: int)
    requires ReignsOk(w) && Choosable(w, t, i)
    ensures 1 <= t && 1 <= i <= |w.reigns[t].log| && w.reigns[t].log[i - 1].term == t
    ensures TermsUpTo(w.reigns[t].log, t)
  {
    assert ReignOk(w, t);
  }

  lemma LateMatched(w: World, log: seq<Entry>, t: int, i: int)
    requires ReignsOk(w) && CompleteOk(w) && Matched(w.reigns, log) && Choosable(w, t, i) && log != []
    requires t < TermAt(log, |log|) || (t == TermAt(log, |log|) && i <= |log|)
    ensures w.reigns[t].log[..i] <= log
  {
    var own, u := w.reigns[t].log, TermAt(log, |log|);
    TermPositive(w, t, i);
    assert log[..|log|] <= w.reigns[u].log && log[..|log|] == log;
    if u == t {
      PrefixesCompare(own[..i], log, own);
    } else {
      assert own[..i] <= w.reigns[u].log;
      LastTermLater(own, w.reigns[u].log, log, i, t, u);
      PrefixesCompare(own[..i], log, w.reigns[u].log);
    }
  }

  lemma LastTermLater(own: seq<Entry>, later: seq<Entry>, log: seq<Entry>, i: int, t: int, u: int)
    requires 1 <= i <= |own| && own[..i] <= later && log <= later && log != [] && t < u
    requires TermsUpTo(own, t) && log[|log| - 1].term == u
    ensures i <= |log|
  {
    assert forall k :: 0 <= k < i ==> later[k] == own[..i][k] == own[k];
  }

  /** A log that ends in a stray entry of term t or later was committed, as far as its snapshot
      goes, in a later term still, and that term's leader has the entry. */
  lemma LateStray(w: World, log: seq<Entry>, h: int, bound: int, t: int, i: int)
    requires ReignsOk(w) && CompleteOk(w) && CommitOk(w, log, h, bound) && AllStray(w.reigns, log, h) && Choosable(w, t, i)
    requires t <= TermAt(log, |log|)
    ensures w.reigns[t].log[..i] <= log
  {
    hide Committed, ReignsOk, CanAckAll;
    var own, u := w.reigns[t].log, TermAt(log, |log|);
    TermPositive(w, t, i);
    assert Stray(w.reigns, log, h, |log| - 1);
    assert h > 0 by { assert log[..0] <= w.reigns[u].log; }
    var a, j :| Committed(w, a, j) && CommitBy(w, log, h, bound, a, j);
    StrayBelow(w, log, h, |log| - 1, bound, a, j);
    assert own[..i] <= w.reigns[a].log && own[..i] <= w.reigns[u].log;
    BeginsOneOf(log[..h], own[..i], w.reigns[a].log, w.reigns[u].log);
    PrefixTrans(own[..i], log[..h], log);
  }

  lemma BeginsOneOf<T>(a: seq<T>, b: seq<T>, c: seq<T>, d: seq<T>)
    requires a <= c && b <= c && b <= d
    ensures b <= a || a <= d
  {
    if |a| <= |b| {
      PrefixesCompare(a, b, c);
      PrefixTrans(a, b, d);
    } else {
      PrefixesCompare(b, a, c);
    }
  }

  lemma MsgStays(w: World, w': World, m: Msg)
    requires Evolves(w, w') && MsgOk(w, m)
    ensures MsgOk(w', m)
  {
    match m
    case Append(dst, a) => AppendStays(w, w', dst, a);
    case AppendAck(src, a, r) =>
      AppendStays(w, w', src, a);
      if r.success { ReplicatedLater(w, w', src, a.term, a.prevLogIndex + |a.entries|); }
      if r.conflict && r.conflictTerm != 0 {
        assert SameReign(w.reigns[r.conflictTerm], w'.reigns[r.conflictTerm]);
      }
    case Vote(dst, a) =>
    case VoteAck(src, a, r) =>
    case Install(dst, a, data) => InstallStays(w, w', dst, a, data);
    case InstallAck(src, a, r) => CommitLater(w, w', a.term, a.lastIncludedIndex);
  }

  /** What is committed of a leader's log stays committed as the log grows. */
  lemma CommitLater(w: World, w': World, t: int, i: int)
    requires Evolves(w, w') && t in w.reigns && CommitOk(w, w.reigns[t].log, i, t)
    ensures t in w'.reigns && CommitOk(w', w'.reigns[t].log, i, t) && SameReign(w.reigns[t], w'.reigns[t])
  {
    var log, log' := w.reigns[t].log, w'.reigns[t].log;
    CommitOkBound(w, log, i, t);
    if i > 0 { assert log[..i] == log'[..i]; }
    CommitOkStays(w, w', log, log', i, t, t);
  }

  lemma ReplicatedLater(w: World, w': World, j: nat, t: int, i: int)
    requires Evolves(w, w') && t in w.reigns && Replicated(w, j, t, i)
    ensures t in w'.reigns && Replicated(w', j, t, i)
  {
    if i > Acked(w, j, t) { CommitLater(w, w', t, i); }
  }

  lemma InstallStays(w: World, w': World, dst: nat, a: InstallArgs, data: seq<Entry>)
    requires Evolves(w, w') && InstallOk(w, dst, a, data)
    ensures InstallOk(w', dst, a, data)
  {
    assert SameReign(w.reigns[a.term], w'.reigns[a.term]);
    PrefixTrans(data, w.reigns[a.term].log, w'.reigns[a.term].log);
    CommitOkStays(w, w', data, data, |data|, a.term, a.term);
  }

  lemma AppendStays(w: World, w': World, dst: nat, a: AppendArgs)
    requires Evolves(w, w') && AppendOk(w, dst, a)
    ensures AppendOk(w', dst, a)
  {
    assert SameReign(w.reigns[a.term], w'.reigns[a.term]);
    var log, log' := w.reigns[a.term].log, w'.reigns[a.term].log;
    assert log == log'[..|log|];
    assert log[a.prevLogIndex..a.prevLogIndex + |a.entries|] == log'[a.prevLogIndex..a.prevLogIndex + |a.entries|];
    CommitOkBound(w, log, a.leaderCommit, a.term);
    if a.leaderCommit > 0 {
      assert log[..a.leaderCommit] == log'[..a.leaderCommit];
    }
    CommitOkStays(w, w', log, log', a.leaderCommit, a.term, a.term);
  }

  lemma NetStays(w: World, w': World, more: set<Msg>)
    requires Evolves(w, w') && NetOk(w) && w'.net == w.net + more
    requires forall m :: m in more ==> MsgOk(w', m)
    ensures NetOk(w')
  {
    forall m | m in w'.net
      ensures MsgOk(w', m)
    {
      if m in w.net { MsgStays(w, w', m); }
    }
  }
}

/** Compaction against the uncompacted log: when AppendEntries cannot tell the difference, when an
    installed snapshot leaves a log that still matches, and when a commit index can fall. */
module RaftCompaction {
  import opened RaftPeer
  import opened RaftWorld
  import opened RaftInv
  import opened RaftFacts

  // ----- The stored log stays numbered ---------------------------------------------------

  lemma {:induction false} SpliceNumbered(log: seq<Entry>, base: int, at: int, entries: seq<Entry>)
    requires at <= |log| && Numbered(log, base) && Numbered(entries, base + at)
    ensures Numbered(Splice(log, at, entries), base)
    decreases |entries|
  {
    if entries != [] && (at < 0 || (at < |log| && SameSlot(log[at], entries[0]))) {
      SpliceNumbered(log, base, at + 1, entries[1..]);
    }
  }

  /** What a peer sends is numbered: a heartbeat carries nothing, a replication request the entries
      that follow its previous index. */
  lemma RequestsNumbered(p: Peer, server: nat)
    requires WellFormed(p) && NextInRange(p, server)
    ensures CanReplicate(p, server) ==> var a := ReplicateArgs(p, server); Numbered(a.entries, a.prevLogIndex)
    ensures HeartbeatArgs(p, server).entries == []
  {
    if CanReplicate(p, server) {
      assert ReplicateArgs(p, server).prevLogIndex == p.nextIndex[server] - 1;
      TailNumbered(p.log, p.snapIndex, p.nextIndex[server] - p.snapIndex - 1);
    }
  }

  lemma TailNumbered(log: seq<Entry>, base: int, d: nat)
    requires Numbered(log, base) && d <= |log|
    ensures Numbered(log[d..], base + d)
  {
  }

  /** A request of any peer, whatever snapshots it took or installed, leaves the receiver's log numbered:
      entry k of the stored log keeps index snapIndex + k + 1. */
  lemma AppendKeepsNumbering(p: Peer, leader: Peer, server: nat)
    requires WellFormed(p) && WellFormed(leader) && NextInRange(leader, server)
    ensures CanReplicate(leader, server) ==> WellFormed(AppendEntries(p, ReplicateArgs(leader, server)).0)
    ensures WellFormed(AppendEntries(p, HeartbeatArgs(leader, server)).0)
  {
    RequestsNumbered(leader, server);
    if CanReplicate(leader, server) { NumberedAppend(p, ReplicateArgs(leader, server)); }
    NumberedAppend(p, HeartbeatArgs(leader, server));
  }

  lemma NumberedAppend(p: Peer, a: AppendArgs)
    requires WellFormed(p) && Numbered(a.entries, a.prevLogIndex)
    ensures WellFormed(AppendEntries(p, a).0)
  {
    var q := HearLeader(p, a.term);
    if PrevMatches(q, a) {
      SpliceNumbered(q.log, q.snapIndex, a.prevLogIndex - q.snapIndex, a.entries);
    }
  }

  lemma OthersKeepNumbering(p: Peer, i: InstallArgs, pending: int, index: int, command: Command)
    requires WellFormed(p)
    ensures WellFormed(InstallSnapshot(p, pending, i).0)
    ensures WellFormed(Snapshot(p, index))
    ensures WellFormed(Start(p, command))
  {
  }

  // ----- AppendEntries on a compacted log ---------------------------------------------------

  /** The peer as if it had never been compacted; pre holds the entries behind the snapshot. */
  function Uncompacted(p: Peer, pre: seq<Entry>): Peer {
    p.(log := pre + p.log, snapIndex := 0, snapTerm := 0)
  }

  /** The request agrees with the entries behind the snapshot wherever it reaches them. */
  ghost predicate AgreesWithSnapshot(pre: seq<Entry>, a: AppendArgs) {
    && (0 < a.prevLogIndex <= |pre| ==> pre[a.prevLogIndex - 1].term == a.prevLogTerm)
    && (forall k :: 0 <= k < |a.entries| && 0 <= a.prevLogIndex + k < |pre| ==> SameSlot(pre[a.prevLogIndex + k], a.entries[k]))
  }

  lemma {:induction false} SpliceHidden(pre: seq<Entry>, log: seq<Entry>, prev: nat, entries: seq<Entry>)
    requires prev <= |pre + log|
    requires forall k :: 0 <= k < |entries| && prev + k < |pre| ==> SameSlot(pre[prev + k], entries[k])
    ensures Splice(pre + log, prev, entries) == pre + Splice(log, prev - |pre|, entries)
    decreases |entries|
  {
    var at := prev - |pre|;
    if entries != [] {
      if at < 0 {
        assert (pre + log)[prev] == pre[prev];
        SpliceHidden(pre, log, prev + 1, entries[1..]);
      } else if at < |log| {
        assert (pre + log)[prev] == log[at];
        if SameSlot(log[at], entries[0]) {
          SpliceHidden(pre, log, prev + 1, entries[1..]);
        } else {
          assert (pre + log)[..prev] + entries == pre + (log[..at] + entries);
        }
      } else {
        assert (pre + log)[..prev] + entries == pre + (log[..at] + entries);
      }
    }
  }

  /** A disagreement behind the snapshot would have cut the uncompacted log there. */
  lemma {:induction false} SpliceCuts(log: seq<Entry>, prev: nat, entries: seq<Entry>, k: nat)
    requires prev + k < |log| && k < |entries| && !SameSlot(log[prev + k], entries[k])
    ensures exists j :: 0 <= j <= k && j < |entries| && prev + j < |Splice(log, prev, entries)| && !SameSlot(log[prev + j], entries[j])
                        && Splice(log, prev, entries)[prev + j] == entries[j]
    decreases |entries|
  {
    if SameSlot(log[prev], entries[0]) {
      SpliceCuts(log, prev + 1, entries[1..], k - 1);
      var j :| 0 <= j <= k - 1 && j < |entries[1..]| && prev + 1 + j < |Splice(log, prev + 1, entries[1..])|
        && !SameSlot(log[prev + 1 + j], entries[1..][j]) && Splice(log, prev + 1, entries[1..])[prev + 1 + j] == entries[1..][j];
      assert !SameSlot(log[prev + (j + 1)], entries[j + 1]) && Splice(log, prev, entries)[prev + (j + 1)] == entries[j + 1];
    } else {
      assert Splice(log, prev, entries)[prev + 0] == entries[0] && !SameSlot(log[prev + 0], entries[0]);
    }
  }

  /** Compaction is invisible to an accepted request exactly when the request agrees with the
      entries behind the snapshot: same resulting full log, same commit index, same verdict. */
  lemma CompactionInvisible(p: Peer, pre: seq<Entry>, a: AppendArgs)
    requires WellFormed(p) && |pre| == p.snapIndex && 0 <= a.prevLogIndex
    requires a.term >= p.currentTerm && PrevMatches(p, a)
    ensures var (q, r) := AppendEntries(p, a);
      var (q', r') := AppendEntries(Uncompacted(p, pre), a);
      AgreesWithSnapshot(pre, a) <==> q' == Uncompacted(q, pre) && r'.success == r.success
  {
    hide Splice, ConflictStart, Numbered;
    var h := HearLeader(p, a.term);
    var u := HearLeader(Uncompacted(p, pre), a.term);
    assert u == Uncompacted(h, pre);
    if a.prevLogIndex > |pre| {
      assert u.log[a.prevLogIndex - 1] == h.log[a.prevLogIndex - |pre| - 1];
    } else if a.prevLogIndex > 0 {
      assert u.log[a.prevLogIndex - 1] == pre[a.prevLogIndex - 1];
    }
    if AgreesWithSnapshot(pre, a) {
      SpliceHidden(pre, h.log, a.prevLogIndex, a.entries);
    } else if PrevMatches(u, a) {
      var k :| 0 <= k < |a.entries| && a.prevLogIndex + k < |pre| && !SameSlot(pre[a.prevLogIndex + k], a.entries[k]);
      SpliceShows(pre, h.log, a.prevLogIndex, a.entries, k);
    }
  }

  lemma SpliceShows(pre: seq<Entry>, log: seq<Entry>, prev: nat, entries: seq<Entry>, k: nat)
    requires k < |entries| && prev + k < |pre| && !SameSlot(pre[prev + k], entries[k])
    ensures Splice(pre + log, prev, entries) != pre + Splice(log, prev - |pre|, entries)
  {
    var full := pre + log;
    assert full[prev + k] == pre[prev + k];
    SpliceCuts(full, prev, entries, k);
    var j :| 0 <= j <= k && j < |entries| && prev + j < |Splice(full, prev, entries)|
      && !SameSlot(full[prev + j], entries[j]) && Splice(full, prev, entries)[prev + j] == entries[j];
    assert (pre + Splice(log, prev - |pre|, entries))[prev + j] == full[prev + j];
  }

  // ----- InstallSnapshot ----------------------------------------------------------------------

  /** Installing a snapshot keeps exactly the stored entries past its last index, whatever their terms. */
  lemma InstallKeepsSuffix(p: Peer, pre: seq<Entry>, pending: int, a: InstallArgs)
    requires WellFormed(p) && |pre| == p.snapIndex && a.term >= p.currentTerm
    requires !OldSnapshot(p, pending, a)
    ensures var q, full := InstallSnapshot(p, pending, a).0, pre + p.log;
      q.log == if |full| <= a.lastIncludedIndex then [] else full[a.lastIncludedIndex..]
  {
    var h, li := HearLeader(p, a.term), a.lastIncludedIndex;
    if |pre + p.log| > li {
      assert Trim(h, li + 1).0 == p.log[li - p.snapIndex..] == (pre + p.log)[li..];
    }
  }

  /** Log matching survives an installed snapshot exactly when nothing is kept past it, or the
      stored entry at its last index has its term; the handler checks neither. */
  lemma InstallMatchesIff(reigns: map<int, Reign>, p: Peer, pre: seq<Entry>, leader: seq<Entry>, pending: int, a: InstallArgs)
    requires WellFormed(p) && |pre| == p.snapIndex && a.term >= p.currentTerm
    requires !OldSnapshot(p, pending, a) && a.lastIncludedIndex <= |leader|
    requires Matched(reigns, pre + p.log) && Matched(reigns, leader) && a.lastIncludedTerm == TermAt(leader, a.lastIncludedIndex)
    ensures var full, li := pre + p.log, a.lastIncludedIndex;
      Matched(reigns, leader[..li] + InstallSnapshot(p, pending, a).0.log) <==>
        |full| <= li || full[li - 1].term == a.lastIncludedTerm
  {
    hide InstallSnapshot, Matched, Numbered;
    var full, li := pre + p.log, a.lastIncludedIndex;
    InstallKeepsSuffix(p, pre, pending, a);
    if |full| <= li {
      assert leader[..li] + [] == leader[..li];
      MatchedPrefix(reigns, leader[..li], leader);
    } else {
      JoinMatches(reigns, full, leader, li);
    }
  }

  /** A log's tail behind another log's head matches exactly when they meet in the same term. */
  lemma JoinMatches(reigns: map<int, Reign>, full: seq<Entry>, leader: seq<Entry>, li: nat)
    requires Matched(reigns, full) && Matched(reigns, leader) && 1 <= li <= |leader| && li < |full|
    ensures Matched(reigns, leader[..li] + full[li..]) <==> full[li - 1].term == leader[li - 1].term
  {
    var after := leader[..li] + full[li..];
    if full[li - 1].term == leader[li - 1].term {
      LogMatching(reigns, full, leader, li - 1);
      assert after == full;
    } else {
      var u := full[li].term;
      assert after[li] == full[li];
      assert full[..li + 1] <= reigns[u].log;
      assert reigns[u].log[li - 1] == full[li - 1] && after[..li + 1][li - 1] == leader[li - 1];
    }
  }

  /** A follower that kept two entries of an old term under a snapshot of a newer term. */
  lemma InstallBreaksMatching(c: Command)
    ensures var old1, old2 := Entry(c, 1, 1), Entry(c, 1, 2);
      var new1 := Entry(c, 2, 1);
      var reigns := map[1 := Reign(0, {0, 2}, [old1, old2]), 2 := Reign(1, {1, 2}, [new1])];
      var p := NewPeer(0, 3).(currentTerm := 1, log := [old1, old2]);
      && Matched(reigns, p.log) && Matched(reigns, [new1])
      && !Matched(reigns, [new1] + InstallSnapshot(p, 0, InstallArgs(2, 1, 1, 2)).0.log)
  {
    var old1, old2, new1 := Entry(c, 1, 1), Entry(c, 1, 2), Entry(c, 2, 1);
    var reigns := map[1 := Reign(0, {0, 2}, [old1, old2]), 2 := Reign(1, {1, 2}, [new1])];
    var p := NewPeer(0, 3).(currentTerm := 1, log := [old1, old2]);
    assert [old1, old2][..1] == [old1] && [old1, old2][..2] == [old1, old2] && [new1][..1] == [new1];
    assert Matched(reigns, [] + p.log) by { assert [] + p.log == p.log; }
    InstallMatchesIff(reigns, p, [], [new1], 0, InstallArgs(2, 1, 1, 2));
    assert [new1][..1] == [new1];
  }

  /** After a snapshot, the service's own or a newer one from a leader, nothing up to its index counts
      as stored, uncommitted or unapplied, no index has fallen, and no entry past it is lost. */
  ghost predicate Covers(p: Peer, q: Peer, index: int) {
    && q.snapIndex == index <= q.commitIndex && index <= q.lastApplied
    && (q.commitIndex == p.commitIndex || q.commitIndex == index > p.commitIndex)
    && (q.lastApplied == p.lastApplied || q.lastApplied == index > p.lastApplied)
    && forall e :: e in q.log <==> e in p.log && e.index > index
  }

  lemma SnapshotsCover(p: Peer, index: int, pending: int, a: InstallArgs)
    requires WellFormed(p)
    ensures if index < p.snapIndex then Snapshot(p, index) == p else Covers(p, Snapshot(p, index), index)
    ensures a.term >= p.currentTerm && a.lastIncludedIndex > p.snapIndex && a.lastIncludedIndex >= pending ==>
      Covers(p, InstallSnapshot(p, pending, a).0, a.lastIncludedIndex)
  {
    hide Trim;
    TrimmedHolds(p, index);
    TrimmedHolds(HearLeader(p, a.term), a.lastIncludedIndex);
  }

  lemma TrimmedHolds(p: Peer, index: int)
    requires WellFormed(p)
    ensures index >= p.snapIndex ==> Trim(p, index + 1).1 == index && forall e :: e in Trim(p, index + 1).0 <==> e in p.log && e.index > index
  {
    if p.log != [] && index >= p.log[0].index {
      var k := Min(index + 1 - p.log[0].index, |p.log|);
      assert p.log == p.log[..k] + p.log[k..];
      assert forall i :: 0 <= i < k ==> p.log[i].index <= index;
      assert forall i :: k <= i < |p.log| ==> p.log[i].index > index;
    }
  }

  // ----- The commit index --------------------------------------------------------------------------

  /** AppendEntries lowers a commit index exactly when the leader's is higher and lastNewEntryIndex,
      after this request, is lower. */
  lemma AppendLowersCommitIff(p: Peer, a: AppendArgs)
    requires 0 <= p.snapIndex
    ensures AppendEntries(p, a).0.commitIndex < p.commitIndex <==>
      && a.term == p.currentTerm == p.leaderTerm && PrevMatches(p, a)
      && a.leaderCommit > p.commitIndex
      && p.lastNewEntryIndex < p.commitIndex && (a.entries == [] || a.prevLogIndex + |a.entries| < p.commitIndex)
  {
  }

  /** It happens: an installed snapshot raises the commit index and not lastNewEntryIndex, and the
      next heartbeat takes the commit index back. */
  lemma InstallThenHeartbeatLowersCommit()
    ensures var p := InstallSnapshot(NewPeer(0, 3).(currentTerm := 1, leaderTerm := 1), 0, InstallArgs(1, 1, 5, 1)).0;
      && p.commitIndex == 5
      && AppendEntries(p, AppendArgs(1, 1, 5, 1, [], 6)).0.commitIndex == 0
  {
  }
}

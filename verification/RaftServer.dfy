/** The Raft peer as the program runs it: fields changed in place, arrays for the indexes kept per
    peer, and scanning loops. Each method is one lock-held region and is proved to do what the
    function of the same name in RaftPeer says. */
module RaftServer {
  import opened RaftPeer

  /** What the replication loop sends. */
  datatype Request = NoRequest | Entries(args: AppendArgs) | SnapshotData(install: InstallArgs)

  class Raft {
    const me: nat
    const n: nat
    var currentTerm: int
    var votedFor: int
    var logs: seq<Entry>
    var commitIndex: int
    var lastApplied: int
    const nextIndex: array<int>
    const matchIndex: array<int>
    var role: Role
    var leaderTerm: int
    var lastNewEntryIndex: int
    var snapIndex: int
    var snapTerm: int
    var pending: int

    ghost predicate Valid()
      reads this
    {
      me < n == nextIndex.Length == matchIndex.Length && nextIndex != matchIndex && 0 <= snapIndex
    }

    function View(): Peer
      reads this, nextIndex, matchIndex
    {
      Peer(me, n, currentTerm, votedFor, logs, commitIndex, lastApplied, nextIndex[..], matchIndex[..], role,
           leaderTerm, lastNewEntryIndex, snapIndex, snapTerm)
    }

    constructor (me: nat, n: nat)
      requires me < n
      ensures Valid() && fresh(nextIndex) && fresh(matchIndex)
      ensures View() == NewPeer(me, n) && pending == 0
    {
      this.me, this.n := me, n;
      currentTerm, votedFor, logs, commitIndex, lastApplied := 0, -1, [], 0, 0;
      nextIndex, matchIndex := new int[n](_ => 0), new int[n](_ => 0);
      role, leaderTerm, lastNewEntryIndex, snapIndex, snapTerm, pending := Follower, -1, 0, 0, 0, 0;
    }

    // ----- AppendEntries ------------------------------------------------------------------

    method AppendEntries(args: AppendArgs) returns (reply: AppendReply)
      requires Valid()
      modifies this
      ensures Valid() && (View(), reply) == RaftPeer.AppendEntries(old(View()), args) && pending == old(pending)
    {
      reply := AppendReply(currentTerm, false, false, 0, 0);
      if args.term < currentTerm { return; }
      HearFrom(args.term);
      ghost var heard := View();
      if args.prevLogIndex <= snapIndex {
      } else if args.prevLogIndex > snapIndex + |logs| {
        reply := reply.(conflict := true, conflictIndex := snapIndex + |logs|);
        return;
      } else if logs[args.prevLogIndex - snapIndex - 1].term != args.prevLogTerm {
        var k := args.prevLogIndex - snapIndex - 1;
        var first := FindConflict(k);
        reply := reply.(conflict := true, conflictTerm := logs[k].term, conflictIndex := first);
        return;
      }
      reply := reply.(success := true);
      if |args.entries| != 0 {
        SpliceEntries(args.prevLogIndex - snapIndex, args.entries);
        lastNewEntryIndex := Max(lastNewEntryIndex, args.prevLogIndex + |args.entries|);
      }
      if args.leaderCommit > commitIndex {
        commitIndex := Min(args.leaderCommit, lastNewEntryIndex);
      }
      assert View() == Accept(heard, args);
    }

    method HearFrom(term: int)
      requires Valid() && term >= currentTerm
      modifies this
      ensures Valid() && View() == HearLeader(old(View()), term) && pending == old(pending)
    {
      role := Follower;
      if term != leaderTerm {
        leaderTerm, lastNewEntryIndex, votedFor := term, commitIndex, -1;
      }
      if term > currentTerm {
        currentTerm, votedFor, leaderTerm, lastNewEntryIndex := term, -1, term, commitIndex;
      }
    }

    /** Walk down to the entry where the run of the conflicting term starts. */
    method FindConflict(k: nat) returns (index: int)
      requires k < |logs|
      ensures index == ConflictStart(logs, k)
    {
      index := logs[k].index;
      var i: int := k;
      while i >= 0
        invariant -1 <= i <= k && index == logs[k].index
        invariant forall j :: i < j <= k ==> logs[j].term == logs[k].term
      {
        if logs[i].term != logs[k].term {
          index := logs[i + 1].index;
          RunStartUnique(logs, k, i + 1);
          return;
        }
        i := i - 1;
      }
      RunStartUnique(logs, k, 0);
    }

    method SpliceEntries(at: int, entries: seq<Entry>)
      requires Valid() && at <= |logs|
      modifies this`logs
      ensures logs == Splice(old(logs), at, entries)
    {
      var i, index := 0, at;
      while index < |logs| && i < |entries|
        invariant 0 <= i <= |entries| && index == at + i && index <= |logs|
        invariant Splice(logs, at, entries) == Splice(logs, index, entries[i..])
      {
        assert entries[i..][1..] == entries[i + 1..];
        if index < 0 {
          index, i := index + 1, i + 1;
          continue;
        }
        if logs[index].index != entries[i].index || logs[index].term != entries[i].term { break; }
        index, i := index + 1, i + 1;
      }
      if i < |entries| {
        logs := logs[0..index] + entries[i..];
      }
    }

    // ----- The leader's side of AppendEntries -----------------------------------------------

    method HandleAppendReply(server: nat, args: AppendArgs, reply: AppendReply)
      requires Valid() && server < n
      requires BacksUp(View(), server, args, reply) ==> BackupInRange(logs, reply)
      modifies this, nextIndex, matchIndex
      ensures Valid() && View() == RaftPeer.HandleAppendReply(old(View()), server, args, reply) && pending == old(pending)
    {
      if reply.term > currentTerm {
        BecomeFollower(reply.term);
        return;
      } else if reply.term < currentTerm {
        return;
      }
      if currentTerm == args.term {
        if reply.success {
          matchIndex[server] := Max(matchIndex[server], args.prevLogIndex + |args.entries|);
          nextIndex[server] := Max(nextIndex[server], args.prevLogIndex + |args.entries| + 1);
        } else if reply.conflict && nextIndex[server] == args.prevLogIndex + 1 {
          var next := BackupIndex(reply);
          nextIndex[server] := next;
        }
      }
    }

    method BackupIndex(reply: AppendReply) returns (next: int)
      requires BackupInRange(logs, reply)
      ensures next == Backup(logs, reply)
    {
      if reply.conflictTerm == 0 { return Max(reply.conflictIndex, 1); }
      var found, index := false, 0;
      while index < |logs|
        invariant 0 <= index <= |logs| && !found
        invariant forall j :: 0 <= j < index ==> logs[j].term != reply.conflictTerm
      {
        if logs[index].term == reply.conflictTerm {
          found := true;
          break;
        }
        index := index + 1;
      }
      if !found { return reply.conflictIndex; }
      while index < |logs| && logs[index].term == reply.conflictTerm
        invariant FirstOf(logs, reply.conflictTerm) <= index <= |logs|
        invariant forall j :: FirstOf(logs, reply.conflictTerm) <= j < index ==> logs[j].term == reply.conflictTerm
      {
        index := index + 1;
      }
      return logs[index].index;
    }

    method BecomeFollower(term: int)
      requires Valid()
      modifies this
      ensures Valid() && View() == StepDown(old(View()), term) && pending == old(pending)
    {
      role, currentTerm, votedFor, leaderTerm, lastNewEntryIndex := Follower, term, -1, term, commitIndex;
    }

    /** One round of the replication loop: the entries the follower lacks, or the snapshot if they are
        behind it, or nothing. */
    method ReplicateLog(server: nat) returns (request: Request)
      requires Valid() && server < n && NextInRange(View(), server)
      ensures match request
        case NoRequest => !CanReplicate(View(), server) && !CanSendSnapshot(View(), server)
        case Entries(args) => CanReplicate(View(), server) && args == ReplicateArgs(View(), server)
        case SnapshotData(args) => CanSendSnapshot(View(), server) && args == SnapshotArgs(View())
    {
      if nextIndex[server] == nextIndex[me] { return NoRequest; }
      if nextIndex[server] <= snapIndex {
        return SnapshotData(InstallArgs(currentTerm, me, snapIndex, snapTerm));
      }
      var args := AppendArgs(currentTerm, me, snapIndex, snapTerm, logs[nextIndex[server] - snapIndex - 1..], commitIndex);
      if nextIndex[server] != snapIndex + 1 {
        var e := logs[nextIndex[server] - snapIndex - 2];
        args := args.(prevLogIndex := e.index, prevLogTerm := e.term);
      }
      request := Entries(args);
    }

    method HandleInstallReply(server: nat, args: InstallArgs, reply: InstallReply)
      requires Valid() && server < n
      modifies this, nextIndex, matchIndex
      ensures Valid() && View() == RaftPeer.HandleInstallReply(old(View()), server, args, reply) && pending == old(pending)
    {
      if reply.term > currentTerm {
        BecomeFollower(reply.term);
      } else if reply.term == currentTerm && currentTerm == args.term && reply.success {
        matchIndex[server] := Max(matchIndex[server], args.lastIncludedIndex);
        nextIndex[server] := Max(nextIndex[server], args.lastIncludedIndex + 1);
      }
    }

    /** One heartbeat for every other peer. */
    method SendHeartBeat() returns (sent: seq<(nat, AppendArgs)>)
      requires Valid() && forall i :: 0 <= i < n ==> NextInRange(View(), i)
      ensures |sent| == n - 1
      ensures forall i: nat :: i < n && i != me ==> (i, HeartbeatArgs(View(), i)) in sent
    {
      sent := [];
      var i := 0;
      while i < n
        invariant 0 <= i <= n && |sent| == if i <= me then i else i - 1
        invariant forall k: nat :: k < i && k != me ==> (k, HeartbeatArgs(View(), k)) in sent
      {
        assert NextInRange(View(), i);
        if i != me {
          var args := AppendArgs(currentTerm, me, snapIndex, snapTerm, [], commitIndex);
          if |logs| != 0 && nextIndex[i] > snapIndex + 1 {
            var e := logs[nextIndex[i] - snapIndex - 2];
            args := args.(prevLogIndex := e.index, prevLogTerm := e.term);
          }
          sent := sent + [(i, args)];
        }
        i := i + 1;
      }
    }

    // ----- Elections ----------------------------------------------------------------------------

    method PrepareElection() returns (args: VoteArgs)
      requires Valid()
      modifies this
      ensures Valid() && (View(), args) == RaftPeer.PrepareElection(old(View())) && pending == old(pending)
    {
      currentTerm, votedFor, role := currentTerm + 1, me, Candidate;
      args := VoteArgs(currentTerm, me, snapIndex, snapTerm);
      if |logs| != 0 {
        args := args.(lastLogIndex := logs[|logs| - 1].index, lastLogTerm := logs[|logs| - 1].term);
      }
    }

    method RequestVote(args: VoteArgs) returns (reply: VoteReply)
      requires Valid()
      modifies this
      ensures Valid() && (View(), reply) == RaftPeer.RequestVote(old(View()), args) && pending == old(pending)
    {
      reply := VoteReply(currentTerm, false);
      if args.term < currentTerm { return; }
      if args.term > currentTerm { BecomeFollower(args.term); }
      if votedFor == -1 || votedFor == args.candidateId {
        var lastLogTerm, lastLogIndex := snapTerm, snapIndex;
        if |logs| != 0 {
          lastLogTerm, lastLogIndex := logs[|logs| - 1].term, logs[|logs| - 1].index;
        }
        if args.lastLogTerm < lastLogTerm { return; }
        if args.lastLogTerm == lastLogTerm && args.lastLogIndex < lastLogIndex { return; }
        votedFor := args.candidateId;
        reply := reply.(voteGranted := true);
      }
    }

    method HandleVoteReply(ballot: Ballot, args: VoteArgs, reply: VoteReply) returns (ballot': Ballot)
      requires Valid()
      modifies this, nextIndex, matchIndex
      ensures Valid() && (View(), ballot') == RaftPeer.HandleVoteReply(old(View()), ballot, args, reply)
      ensures pending == old(pending)
    {
      ballot' := ballot;
      if reply.voteGranted {
        ballot' := ballot'.(votes := ballot'.votes + 1);
        if ballot'.done || ballot'.votes <= Half(n) { return; }
        if currentTerm != args.term { return; }
        ballot' := ballot'.(done := true);
        BecomeLeader();
      } else if reply.term > currentTerm {
        BecomeFollower(reply.term);
      }
    }

    method BecomeLeader()
      requires Valid()
      modifies this, nextIndex, matchIndex
      ensures Valid() && View() == RaftPeer.BecomeLeader(old(View())) && pending == old(pending)
    {
      role := Leader;
      ghost var last := LastIndex(View());
      var i := 0;
      while i < n
        modifies nextIndex, matchIndex
        invariant 0 <= i <= n
        invariant forall k :: 0 <= k < i ==> matchIndex[k] == (if k == me then last else 0) && nextIndex[k] == last + 1
      {
        if i != me {
          matchIndex[i] := 0;
        } else if |logs| == 0 {
          matchIndex[i] := snapIndex;
        } else {
          matchIndex[i] := logs[|logs| - 1].index;
        }
        nextIndex[i] := if |logs| == 0 then snapIndex + 1 else logs[|logs| - 1].index + 1;
        i := i + 1;
      }
      assert View() == RaftPeer.BecomeLeader(old(View()));
    }

    // ----- Commands and commitment -----------------------------------------------------------------

    method Start(command: Command) returns (index: int, term: int, isLeader: bool)
      requires Valid()
      modifies this, nextIndex, matchIndex
      ensures Valid() && View() == RaftPeer.Start(old(View()), command) && pending == old(pending)
      ensures isLeader == (old(role) == Leader)
      ensures isLeader ==> |logs| > 0 && logs[|logs| - 1] == Entry(command, term, index)
    {
      if role != Leader { return -1, -1, false; }
      index := if |logs| != 0 then logs[|logs| - 1].index + 1 else snapIndex + 1;
      logs := logs + [Entry(command, currentTerm, index)];
      nextIndex[me] := index + 1;
      matchIndex[me] := index;
      return index, currentTerm, true;
    }

    method UpdateCommitIndex(leaderTerm: int)
      requires Valid()
      modifies this`commitIndex
      ensures Valid()
      ensures View() == if leaderTerm == currentTerm then UpdateCommit(old(View())) else old(View())
    {
      if currentTerm != leaderTerm { return; }
      var i := |logs| - 1;
      while i >= 0
        invariant -1 <= i < |logs| && View() == old(View())
        invariant ScanCommit(View(), |logs|) == ScanCommit(View(), i + 1)
      {
        if logs[i].term != leaderTerm { break; }
        var enough := MajorityMatches(logs[i].index);
        if enough {
          commitIndex := Max(commitIndex, logs[i].index);
          return;
        }
        i := i - 1;
      }
    }

    method MajorityMatches(index: int) returns (enough: bool)
      requires Valid()
      ensures enough == (Replicas(matchIndex[..], index) > Half(n))
    {
      var count, j := 0, 0;
      while j < n
        invariant 0 <= j <= n && count == Replicas(matchIndex[..j], index)
      {
        assert matchIndex[..j + 1][..j] == matchIndex[..j];
        if matchIndex[j] >= index { count := count + 1; }
        if count > Half(n) {
          ReplicasGrow(matchIndex[..], j + 1, index);
          return true;
        }
        j := j + 1;
      }
      assert matchIndex[..n] == matchIndex[..];
      return count > Half(n);
    }

    // ----- Snapshots ----------------------------------------------------------------------------------

    /** The log from index `upper` on, with the index and term of the last entry before it. */
    method MakeRaftState(upper: int) returns (kept: seq<Entry>, index: int, term: int)
      requires Valid()
      ensures (kept, index, term) == Trim(View(), upper)
    {
      kept, index, term := logs, snapIndex, snapTerm;
      if |logs| != 0 && upper > logs[0].index {
        var cut := Min(upper - logs[0].index, |logs|);
        index, term := logs[cut - 1].index, logs[cut - 1].term;
        kept := logs[cut..];
      }
      index := Max(index, upper - 1);
    }

    method Snapshot(index: int)
      requires Valid()
      modifies this
      ensures Valid() && View() == RaftPeer.Snapshot(old(View()), index) && pending == old(pending)
    {
      if snapIndex > index { return; }
      logs, snapIndex, snapTerm := MakeRaftState(index + 1);
      commitIndex, lastApplied := Max(commitIndex, index), Max(lastApplied, index);
      snapIndex := Max(snapIndex, index);
    }

    method InstallSnapshot(args: InstallArgs) returns (reply: InstallReply)
      requires Valid()
      modifies this
      ensures Valid() && (View(), pending, reply) == RaftPeer.InstallSnapshot(old(View()), old(pending), args)
    {
      reply := InstallReply(currentTerm, false);
      if args.term < currentTerm { return; }
      HearFrom(args.term);
      reply := reply.(success := true);
      if snapIndex >= args.lastIncludedIndex || pending > args.lastIncludedIndex { return; }
      pending := args.lastIncludedIndex;
      var kept, _, _ := MakeRaftState(args.lastIncludedIndex + 1);
      logs, snapIndex, snapTerm := kept, args.lastIncludedIndex, args.lastIncludedTerm;
      commitIndex := Max(commitIndex, args.lastIncludedIndex);
      lastApplied := Max(lastApplied, args.lastIncludedIndex);
    }

    // ----- The applier ----------------------------------------------------------------------------------

    /** The first lock-held region of the apply loop: the pending snapshot, then the entries it
        does not cover. */
    method TakeMessages() returns (snapshot: int, msgs: seq<Entry>, last: int)
      requires Valid() && (lastApplied < commitIndex ==> CanTake(View()))
      modifies this`pending
      ensures Valid() && View() == old(View()) && snapshot == old(pending) && pending == 0
      ensures var batch := if lastApplied < commitIndex then TakeBatch(View()) else [];
        msgs == Uncovered(batch, old(pending)) && last == if batch == [] then 0 else batch[|batch| - 1].index
    {
      var batch := [];
      if commitIndex > lastApplied {
        batch := logs[lastApplied - snapIndex..commitIndex - snapIndex];
      }
      snapshot, msgs := pending, [];
      var i := 0;
      while i < |batch|
        invariant 0 <= i <= |batch| && pending == old(pending) && msgs == Uncovered(batch[..i], pending)
      {
        assert batch[..i + 1][..i] == batch[..i];
        if pending == 0 || batch[i].index > pending {
          msgs := msgs + [batch[i]];
        }
        i := i + 1;
      }
      assert batch[..|batch|] == batch;
      last := if batch == [] then 0 else batch[|batch| - 1].index;
      pending := 0;
    }

    /** The second lock-held region, once every message of the batch was received. */
    method FinishBatch(last: int)
      requires Valid()
      modifies this`lastApplied
      ensures View() == Applied(old(View()), last)
    {
      if last != 0 {
        lastApplied := Max(lastApplied, last);
      }
    }
  }

  lemma RunStartUnique(log: seq<Entry>, k: nat, j: nat)
    requires j <= k < |log| && (forall i :: j <= i <= k ==> log[i].term == log[k].term)
    requires j > 0 ==> log[j - 1].term != log[k].term
    ensures RunStart(log, k) == j
  {
  }

  lemma {:induction false} ReplicasGrow(matchIndex: seq<int>, j: nat, index: int)
    requires j <= |matchIndex|
    ensures Replicas(matchIndex[..j], index) <= Replicas(matchIndex, index)
  {
    if j == |matchIndex| {
      assert matchIndex[..j] == matchIndex;
    } else {
      ReplicasGrow(matchIndex[..|matchIndex| - 1], j, index);
      assert matchIndex[..|matchIndex| - 1][..j] == matchIndex[..j];
    }
  }
}

/** Key/value services on top of a whole Raft cluster: whatever snapshots, batches and installed
    snapshots each of them went through, services that have come equally far hold the same state. */
module KvReplicas {
  import opened RaftPeer
  import opened RaftWorld
  import opened RaftInv
  import opened RaftSafety
  import opened KvApply
  import opened KvLaw
  import opened LastWrite

  function Commands(log: seq<Entry>): (r: seq<Command>)
    ensures |r| == |log| && forall i :: 0 <= i < |log| ==> r[i] == log[i].command
  {
    seq(|log|, i requires 0 <= i < |log| => log[i].command)
  }

  /** The state after these commands, which is also what a snapshot of them holds. */
  function StateOf(decode: Command -> Op, log: seq<Entry>): (kv: Kv)
    ensures kv.committedId == |log|
  {
    Replay(Setting(Commands(log), decode), |log|)
  }

  /** The message the applier of peer s hands over next. */
  function NextMsg(w: World, s: nat, decode: Command -> Op): KvApply.Msg
    requires Shape(w) && Enabled(w, RaftWorld.Deliver(s))
  {
    var q := w.appliers[s];
    if q.snapshot != [] then SnapshotMsg(|q.snapshot|, StateOf(decode, q.snapshot))
    else CommandMsg(q.queue[0].index, q.queue[0].command)
  }

  /** The states kvs[i][s] of the services during a run: each starts empty and changes only by the
      messages it receives. */
  ghost predicate Serves(ws: seq<World>, steps: seq<RaftWorld.Step>, n: nat, kvs: seq<seq<Kv>>, decode: Command -> Op)
    requires RaftSafety.Run(ws, steps, n)
  {
    && |kvs| == |ws| && (forall i :: 0 <= i < |kvs| ==> |kvs[i]| == n)
    && (forall s :: 0 <= s < n ==> kvs[0][s] == EmptyKv)
    && (forall i :: 0 <= i < |steps| ==> AllServe(ws[i], steps[i], n, kvs[i], kvs[i + 1], decode))
  }

  ghost predicate AllServe(w: World, step: RaftWorld.Step, n: nat, kvs: seq<Kv>, kvs': seq<Kv>, decode: Command -> Op)
    requires Shape(w) && Enabled(w, step) && |kvs| == |kvs'| == n
  {
    forall s :: 0 <= s < n ==> ServesStep(w, step, s, kvs[s], kvs'[s], decode)
  }

  ghost predicate ServesStep(w: World, step: RaftWorld.Step, s: nat, kv: Kv, kv': Kv, decode: Command -> Op)
    requires Shape(w) && Enabled(w, step)
  {
    kv' == if step == RaftWorld.Deliver(s) then ReceiveKv(kv, NextMsg(w, s, decode), decode) else kv
  }

  lemma {:induction false} ReplayBegins(a: Setting, b: Setting, n: nat)
    requires a.decode == b.decode && n <= |a.log| && n <= |b.log| && a.log[..n] == b.log[..n]
    ensures Replay(a, n) == Replay(b, n)
  {
    if n > 0 {
      assert a.log[..n - 1] == a.log[..n][..n - 1] == b.log[..n][..n - 1] == b.log[..n - 1];
      assert a.log[n - 1] == a.log[..n][n - 1] == b.log[..n][n - 1] == b.log[n - 1];
      ReplayBegins(a, b, n - 1);
    }
  }

  lemma OneMore(decode: Command -> Op, log: seq<Entry>, e: Entry)
    ensures StateOf(decode, log + [e]) == ApplyCommand(StateOf(decode, log), decode(e.command), |log| + 1)
  {
    var a, b := Setting(Commands(log + [e]), decode), Setting(Commands(log), decode);
    assert a.log[..|log|] == b.log[..|log|];
    ReplayBegins(a, b, |log|);
  }

  /** The command an applier hands over is the one after those the service has. */
  lemma NextIndex(w: World, s: nat)
    requires Shape(w) && Enabled(w, RaftWorld.Deliver(s)) && ApplierOk(w, s) && w.appliers[s].snapshot == []
    ensures w.appliers[s].queue[0].index == |w.delivered[s]| + 1
  {
    hide CommitOk;
    var q, d, full := w.appliers[s], w.delivered[s], Full(w, s);
    assert PeerShape(w.peers[s], w.pre[s], |w.peers|, s);
    assert q.queue[0] == full[|d|];
    assert full[|d|].index == |d| + 1;
  }

  lemma DeliverStep(w: World, s: nat, decode: Command -> Op)
    requires Shape(w) && Enabled(w, RaftWorld.Deliver(s)) && ApplierOk(w, s)
    ensures ReceiveKv(StateOf(decode, w.delivered[s]), NextMsg(w, s, decode), decode) == StateOf(decode, DoDeliver(w, s).delivered[s])
  {
    hide CommitOk, ApplierFits;
    var q, d := w.appliers[s], w.delivered[s];
    if q.snapshot == [] {
      NextIndex(w, s);
      OneMore(decode, d, q.queue[0]);
    }
  }

  lemma DeliveredUntouched(w: World, step: RaftWorld.Step, s: nat)
    requires Shape(w) && Enabled(w, step) && s < |w.peers| && step != RaftWorld.Deliver(s)
    ensures |Do(w, step).delivered| == |w.delivered| && Do(w, step).delivered[s] == w.delivered[s]
  {
    if s != Actor(step) { OthersUntouched(w, step, s); }
  }

  /** A service holds exactly the state after the commands that were delivered to it, by message or
      inside a snapshot. */
  lemma {:induction false} ServiceIsReplay(ws: seq<World>, steps: seq<RaftWorld.Step>, n: nat, kvs: seq<seq<Kv>>, decode: Command -> Op, i: nat, s: nat)
    requires RaftSafety.Run(ws, steps, n) && Serves(ws, steps, n, kvs, decode) && i < |ws| && s < n
    ensures |kvs| == |ws| && |kvs[i]| == n && s < |ws[i].delivered| && kvs[i][s] == StateOf(decode, ws[i].delivered[s])
  {
    hide RaftSafety.Run, Serves, StateOf;
    RunLength(ws, steps, n);
    ServesLength(ws, steps, n, kvs, decode);
    if i == 0 {
      ServiceStart(ws, steps, n, kvs, decode, s);
    } else {
      ServiceIsReplay(ws, steps, n, kvs, decode, i - 1, s);
      ServiceStep(ws, steps, n, kvs, decode, i - 1, s);
    }
  }

  lemma ServesLength(ws: seq<World>, steps: seq<RaftWorld.Step>, n: nat, kvs: seq<seq<Kv>>, decode: Command -> Op)
    requires RaftSafety.Run(ws, steps, n) && Serves(ws, steps, n, kvs, decode)
    ensures |kvs| == |ws| && forall i :: 0 <= i < |kvs| ==> |kvs[i]| == n
  {
    hide AllServe;
  }

  lemma ServiceStart(ws: seq<World>, steps: seq<RaftWorld.Step>, n: nat, kvs: seq<seq<Kv>>, decode: Command -> Op, s: nat)
    requires RaftSafety.Run(ws, steps, n) && Serves(ws, steps, n, kvs, decode) && s < n
    ensures s < |ws[0].delivered| && kvs[0][s] == StateOf(decode, ws[0].delivered[s])
  {
    hide AllServe, Shape, Enabled, Do;
    assert ws[0].delivered[s] == [];
  }

  lemma ServiceStep(ws: seq<World>, steps: seq<RaftWorld.Step>, n: nat, kvs: seq<seq<Kv>>, decode: Command -> Op, i: nat, s: nat)
    requires RaftSafety.Run(ws, steps, n) && Serves(ws, steps, n, kvs, decode) && i < |steps| && s < n
    requires s < |ws[i].delivered| && kvs[i][s] == StateOf(decode, ws[i].delivered[s])
    ensures s < |ws[i + 1].delivered| && kvs[i + 1][s] == StateOf(decode, ws[i + 1].delivered[s])
  {
    hide ReignsOk, LogsOk, ElectionsOk, GrantsOk, TermsHeard, LeadersOk, AcksOk, CompleteOk, HeldOk, VotedOk,
      CommitsOk, NewEntriesOk, NetOk, StateOf, NextMsg;
    var w, step := ws[i], steps[i];
    RaftSafety.RunKeeps(ws, steps, n, i, i);
    assert AllServe(w, step, n, kvs[i], kvs[i + 1], decode);
    assert ServesStep(w, step, s, kvs[i][s], kvs[i + 1][s], decode);
    if step == RaftWorld.Deliver(s) {
      assert ApplierOk(w, s);
      DeliverStep(w, s, decode);
    } else {
      DeliveredUntouched(w, step, s);
    }
  }

  /** In a run of the cluster any two services, at any two times, that have the same index hold the
      same map and the same duplicate table. */
  lemma ServicesAgree(ws: seq<World>, steps: seq<RaftWorld.Step>, n: nat, kvs: seq<seq<Kv>>, decode: Command -> Op,
                      i: nat, j: nat, s: nat, t: nat)
    requires RaftSafety.Run(ws, steps, n) && Serves(ws, steps, n, kvs, decode) && i < |ws| && j < |ws| && s < n && t < n
    requires kvs[i][s].committedId == kvs[j][t].committedId
    ensures kvs[i][s] == kvs[j][t]
  {
    hide RaftSafety.Run;
    ServiceIsReplay(ws, steps, n, kvs, decode, i, s);
    ServiceIsReplay(ws, steps, n, kvs, decode, j, t);
    var a, b := ws[i].delivered[s], ws[j].delivered[t];
    forall k: nat | k < |a| ensures a[k] == b[k] { StateMachineSafety(ws, steps, n, i, j, s, t, k); }
    assert a == b;
  }

  /** What the cluster stores when a service snapshots itself is that service's state. */
  lemma SnapshotIsState(ws: seq<World>, steps: seq<RaftWorld.Step>, n: nat, kvs: seq<seq<Kv>>, decode: Command -> Op, i: nat, s: nat)
    requires RaftSafety.Run(ws, steps, n) && Serves(ws, steps, n, kvs, decode) && i < |steps| && s < n
    requires kvs[i][s].committedId >= 0 && steps[i] == Compact(s, kvs[i][s].committedId) && ws[i].peers[s].snapIndex <= kvs[i][s].committedId
    ensures s < |ws[i + 1].pre| && StateOf(decode, ws[i + 1].pre[s]) == kvs[i][s]
  {
    hide StateOf;
    ServiceIsReplay(ws, steps, n, kvs, decode, i, s);
    assert ws[i + 1] == DoCompact(ws[i], s, kvs[i][s].committedId);
    assert ws[i].delivered[s][..|ws[i].delivered[s]|] == ws[i].delivered[s];
  }

  /** For every key a service of the cluster holds the last put on it that took effect among the
      commands delivered to it, and the appends since that took effect. */
  lemma ServiceValue(ws: seq<World>, steps: seq<RaftWorld.Step>, n: nat, kvs: seq<seq<Kv>>, decode: Command -> Op, i: nat, s: nat, key: string)
    requires RaftSafety.Run(ws, steps, n) && Serves(ws, steps, n, kvs, decode) && i < |ws| && s < n
    ensures |kvs| == |ws| && |kvs[i]| == n && s < |ws[i].delivered|
    ensures var d := ws[i].delivered[s]; Shows(kvs[i][s].kvMap, key, WritesOn(Setting(Commands(d), decode), |d|, key))
  {
    hide RaftSafety.Run, Serves, Shows;
    ServiceIsReplay(ws, steps, n, kvs, decode, i, s);
    var d := ws[i].delivered[s];
    ReplayValue(Setting(Commands(d), decode), |d|, key);
  }
}

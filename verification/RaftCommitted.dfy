/** One committed log for a whole run of Raft, which is what the service on top relies on. */
module RaftCommitted {
  import opened RaftPeer
  import opened RaftWorld
  import opened RaftInv
  import opened RaftFacts
  import opened RaftSafety
  import KvApply
  import opened KvReplicas

  /** What peer `s` has committed. */
  function Prefix(w: World, s: nat): seq<Entry>
    requires Shape(w) && s < |w.peers| && 0 <= w.peers[s].commitIndex <= |Full(w, s)|
  {
    Full(w, s)[..w.peers[s].commitIndex]
  }

  lemma CommitInLog(ws: seq<World>, steps: seq<Step>, n: nat, i: nat, s: nat)
    requires Run(ws, steps, n) && i < |ws| && s < n
    ensures Shape(ws[i]) && |ws[i].peers| == n && 0 <= ws[i].peers[s].commitIndex <= |Full(ws[i], s)|
  {
    hide Run, ReignsOk, LogsOk, ElectionsOk, GrantsOk, TermsHeard, LeadersOk, AcksOk, CompleteOk, HeldOk, VotedOk,
      NewEntriesOk, NetOk, AppliersOk;
    RunSize(ws, steps, n, i);
    RunKeeps(ws, steps, n, i, i);
    CommitOkBound(ws[i], Full(ws[i], s), ws[i].peers[s].commitIndex, ws[i].peers[s].currentTerm);
  }

  /** Of two committed prefixes, of any peers at any times, the shorter begins the longer. */
  lemma PrefixesAgree(ws: seq<World>, steps: seq<Step>, n: nat, i: nat, j: nat, s: nat, t: nat)
    requires Run(ws, steps, n) && i < |ws| && j < |ws| && s < n && t < n
    ensures Shape(ws[i]) && |ws[i].peers| == n && 0 <= ws[i].peers[s].commitIndex <= |Full(ws[i], s)|
    ensures Shape(ws[j]) && |ws[j].peers| == n && 0 <= ws[j].peers[t].commitIndex <= |Full(ws[j], t)|
    ensures ws[i].peers[s].commitIndex <= ws[j].peers[t].commitIndex ==> Prefix(ws[i], s) <= Prefix(ws[j], t)
  {
    hide Run, ReignsOk, LogsOk, ElectionsOk, GrantsOk, TermsHeard, LeadersOk, AcksOk, CompleteOk, HeldOk, VotedOk,
      NewEntriesOk, NetOk, AppliersOk, Evolves, CommitOk;
    CommitInLog(ws, steps, n, i, s);
    CommitInLog(ws, steps, n, j, t);
    BothKeep(ws, steps, n, i, j);
    var w, v, last := ws[i], ws[j], ws[|ws| - 1];
    var p, q := w.peers[s], v.peers[t];
    CommitOkStays(w, last, Full(w, s), Full(w, s), p.commitIndex, p.currentTerm, p.currentTerm);
    CommitOkStays(v, last, Full(v, t), Full(v, t), q.commitIndex, q.currentTerm, q.currentTerm);
    if p.commitIndex <= q.commitIndex {
      CommitsAgree(last, Full(w, s), p.commitIndex, p.currentTerm, Full(v, t), q.commitIndex, q.currentTerm);
      assert Prefix(v, t)[..p.commitIndex] == Full(v, t)[..p.commitIndex];
    }
  }

  ghost predicate Ranges(ws: seq<World>, n: nat, i: nat, s: nat) {
    i < |ws| && s < n && Shape(ws[i]) && |ws[i].peers| == n && 0 <= ws[i].peers[s].commitIndex <= |Full(ws[i], s)|
  }

  /** Peer `s` has committed nothing but entries of `log` in state `i`. */
  ghost predicate Within(ws: seq<World>, n: nat, log: seq<Entry>, i: nat, s: nat) {
    Ranges(ws, n, i, s) && Prefix(ws[i], s) <= log
  }

  lemma WithinLonger(ws: seq<World>, n: nat, a: seq<Entry>, b: seq<Entry>, i: nat, s: nat)
    requires Within(ws, n, a, i, s) && a <= b
    ensures Within(ws, n, b, i, s)
  {
    PrefixTrans(Prefix(ws[i], s), a, b);
  }

  /** The longest prefix committed in the states before `k`, and in state `k` by the peers up to `m`. */
  lemma {:induction false} Longest(ws: seq<World>, steps: seq<Step>, n: nat, k: nat, m: nat) returns (bi: nat, bs: nat, log: seq<Entry>)
    requires Run(ws, steps, n) && k < |ws| && m < n
    ensures Ranges(ws, n, bi, bs) && log == Prefix(ws[bi], bs)
    ensures forall i, s :: 0 <= s < n && (0 <= i < k || (i == k && s <= m)) ==> Within(ws, n, log, i, s)
    decreases k, m
  {
    hide Run, Shape, Within;
    CommitInLog(ws, steps, n, k, m);
    if k == 0 && m == 0 {
      bi, bs, log := 0, 0, Prefix(ws[0], 0);
      SelfWithin(ws, n, 0, 0);
    } else {
      var before;
      if m == 0 {
        bi, bs, before := Longest(ws, steps, n, k - 1, n - 1);
      } else {
        bi, bs, before := Longest(ws, steps, n, k, m - 1);
      }
      PrefixesAgree(ws, steps, n, bi, k, bs, m);
      PrefixesAgree(ws, steps, n, k, bi, m, bs);
      if ws[bi].peers[bs].commitIndex <= ws[k].peers[m].commitIndex {
        bi, bs := k, m;
      }
      log := Prefix(ws[bi], bs);
      forall i, s | 0 <= s < n && (0 <= i < k || (i == k && s <= m)) ensures Within(ws, n, log, i, s) {
        if i == k && s == m {
          WithinIs(ws, n, log, k, m);
        } else {
          WithinLonger(ws, n, before, log, i, s);
        }
      }
    }
  }

  lemma SelfWithin(ws: seq<World>, n: nat, i: nat, s: nat)
    requires Ranges(ws, n, i, s)
    ensures Within(ws, n, Prefix(ws[i], s), i, s)
  {
  }

  lemma WithinIs(ws: seq<World>, n: nat, log: seq<Entry>, i: nat, s: nat)
    requires Ranges(ws, n, i, s) && Prefix(ws[i], s) <= log
    ensures Within(ws, n, log, i, s)
  {
  }

  /** Every run has one log of which every peer, at every moment, has committed a prefix. */
  lemma OneCommittedLog(ws: seq<World>, steps: seq<Step>, n: nat) returns (log: seq<Entry>)
    requires Run(ws, steps, n)
    ensures forall i, s :: 0 <= i < |ws| && 0 <= s < n ==> Within(ws, n, log, i, s)
  {
    RunLength(ws, steps, n);
    hide Run, Within;
    log := [];
    if n > 0 {
      var _, _, l := Longest(ws, steps, n, |ws| - 1, n - 1);
      log := l;
    }
  }

  /** And so every peer of the run gives its service what the apply path asks of consensus. */
  lemma RunCommits(ws: seq<World>, steps: seq<Step>, n: nat, decode: Command -> KvApply.Op) returns (c: KvApply.Setting)
    requires Run(ws, steps, n)
    ensures c.decode == decode && forall i, s :: 0 <= i < |ws| && 0 <= s < n ==> Ranges(ws, n, i, s) && KvApply.Commits(c, ws[i].peers[s])
  {
    hide Run, Within;
    var log := OneCommittedLog(ws, steps, n);
    c := KvApply.Setting(Commands(log), decode);
    forall i, s | 0 <= i < |ws| && 0 <= s < n ensures Ranges(ws, n, i, s) && KvApply.Commits(c, ws[i].peers[s]) {
      PeerCommits(ws, n, log, i, s, c);
    }
  }

  lemma PeerCommits(ws: seq<World>, n: nat, log: seq<Entry>, i: nat, s: nat, c: KvApply.Setting)
    requires Within(ws, n, log, i, s) && c.log == Commands(log)
    ensures Ranges(ws, n, i, s) && KvApply.Commits(c, ws[i].peers[s])
  {
    var w, p := ws[i], ws[i].peers[s];
    assert PeerShape(p, w.pre[s], n, s);
    forall k | 0 <= k < |p.log| && p.snapIndex + k < p.commitIndex ensures p.log[k].command == c.log[p.snapIndex + k] {
      assert Full(w, s)[p.snapIndex + k] == p.log[k];
      assert Prefix(w, s)[p.snapIndex + k] == p.log[k] == log[p.snapIndex + k];
    }
  }
}

/** What the replicated commands mean for a reader: the map that a replay leaves holds, for every key,
    the last put that took effect and the appends since. */
module KvLaw {
  import opened RaftPeer
  import opened LastWrite
  import opened KvApply

  function OpAt(c: Setting, i: nat): Op
    requires 1 <= i <= |c.log|
  {
    c.decode(c.log[i - 1])
  }

  /** The request number is above every earlier one of its client; numbers start at 1. */
  ghost predicate TookEffect(c: Setting, i: nat)
    requires 1 <= i <= |c.log|
  {
    && OpAt(c, i).reqNo >= 1
    && forall j: nat :: 1 <= j < i && OpAt(c, j).client == OpAt(c, i).client ==> OpAt(c, j).reqNo < OpAt(c, i).reqNo
  }

  /** The writes on `key` that took effect among commands 1 to `n`, in order. */
  ghost function WritesOn(c: Setting, n: nat, key: string): seq<Write<char>>
    requires n <= |c.log|
  {
    if n == 0 then []
    else
      var before, op := WritesOn(c, n - 1, key), OpAt(c, n);
      if !TookEffect(c, n) || op.isGet || op.key != key then before
      else match op.kind
        case PutValue => before + [Put(op.value)]
        case AppendValue => before + [Append(op.value)]
        case OtherKind => before
  }

  /** The duplicate table holds the highest request number of each client so far. */
  lemma {:induction false} CompletedIs(c: Setting, n: nat, client: int)
    requires n <= |c.log|
    ensures 0 <= CompletedReq(Replay(c, n), client)
    ensures forall j: nat :: 1 <= j <= n && OpAt(c, j).client == client ==> OpAt(c, j).reqNo <= CompletedReq(Replay(c, n), client)
    ensures CompletedReq(Replay(c, n), client) == 0
      || exists j: nat :: 1 <= j <= n && OpAt(c, j).client == client && OpAt(c, j).reqNo == CompletedReq(Replay(c, n), client)
  {
    if n > 0 {
      CompletedIs(c, n - 1, client);
      var before, op := Replay(c, n - 1), OpAt(c, n);
      if client == op.client && op.reqNo > CompletedReq(before, client) {
        assert OpAt(c, n).reqNo == CompletedReq(Replay(c, n), client);
      } else {
        assert CompletedReq(Replay(c, n), client) == CompletedReq(before, client);
      }
    }
  }

  lemma EffectIff(c: Setting, n: nat)
    requires 1 <= n <= |c.log|
    ensures TookEffect(c, n) <==> OpAt(c, n).reqNo > CompletedReq(Replay(c, n - 1), OpAt(c, n).client)
  {
    CompletedIs(c, n - 1, OpAt(c, n).client);
  }

  /** For every key the replayed map holds the value of the last put on it that took effect, followed
      in order by the values of all later appends on it that took effect; a key nothing was written to
      is absent. */
  lemma {:induction false} ReplayValue(c: Setting, n: nat, key: string)
    requires n <= |c.log|
    ensures Shows(Replay(c, n).kvMap, key, WritesOn(c, n, key))
  {
    hide Shows, TookEffect;
    if n == 0 {
      ShowsNothing<string, char>(key);
    } else {
      ReplayValue(c, n - 1, key);
      EffectIff(c, n);
      var m, op := Replay(c, n - 1).kvMap, OpAt(c, n);
      if TookEffect(c, n) && !op.isGet { ChangeShows(m, op, key, WritesOn(c, n - 1, key)); }
    }
  }

  lemma ChangeShows(m: map<string, string>, op: Op, key: string, ws: seq<Write<char>>)
    requires Shows(m, key, ws) && !op.isGet
    ensures Shows(Changed(m, op), key,
              if op.key != key || op.kind.OtherKind? then ws
              else if op.kind.PutValue? then ws + [Put(op.value)]
              else ws + [Append(op.value)])
  {
    hide Standing;
    if op.key != key {
      match op.kind
      case PutValue => ShowsOther(m, op.key, op.value, key, ws);
      case AppendValue => ShowsOther(m, op.key, ValueAt(m, op.key) + op.value, key, ws);
      case OtherKind =>
    } else {
      ShowsPut(m, key, op.value, ws);
      ShowsAppend(m, key, op.value, ws);
    }
  }
}

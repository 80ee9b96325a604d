/** The key/value server as the program runs it: one lock-held region per message or snapshot. */
module KvServer {
  import opened RaftPeer
  import opened RaftServer
  import opened KvApply

  class KVServer {
    const rf: Raft
    var kvMap: map<string, string>
    var completedPool: map<int, int>
    var committedId: int

    function KvView(): Kv
      reads this
    {
      Kv(committedId, kvMap, completedPool)
    }

    /** The server with an idle applier beside it. */
    function View(): Server
      reads this, rf, rf.nextIndex, rf.matchIndex
    {
      Server(rf.View(), rf.pending, false, [], 0, KvView())
    }

    constructor (rf: Raft)
      ensures this.rf == rf && KvView() == EmptyKv
    {
      this.rf := rf;
      kvMap, completedPool, committedId := map[], map[], 0;
    }

    /** A message from the peer's applier. */
    method ApplyMessage(m: Msg, decode: Command -> Op)
      requires rf.Valid()
      modifies this, rf
      ensures rf.Valid() && View() == Receive(old(View()), m, decode)
    {
      match m
      case CommandMsg(index, command) =>
        var op := decode(command);
        var done := if op.client in completedPool then completedPool[op.client] else 0;
        if op.reqNo > done {
          if !op.isGet {
            match op.kind {
              case PutValue => kvMap := kvMap[op.key := op.value];
              case AppendValue => kvMap := kvMap[op.key := ValueAt(kvMap, op.key) + op.value];
              case OtherKind =>
            }
          }
          completedPool := completedPool[op.client := op.reqNo];
        }
        committedId := Max(committedId, index);
      case SnapshotMsg(index, data) =>
        if index > committedId {
          ReadSnapshot(data);
        }
    }

    method ReadSnapshot(data: Kv)
      requires rf.Valid()
      modifies this, rf
      ensures rf.Valid() && rf.pending == old(rf.pending) && KvView() == data
      ensures rf.View() == Snapshot(old(rf.View()), data.committedId)
    {
      committedId, kvMap, completedPool := data.committedId, data.kvMap, data.completed;
      rf.Snapshot(committedId);
    }

    /** The service snapshots itself and lets the peer drop what the snapshot covers. */
    method TakeSnapshot() returns (data: Kv)
      requires rf.Valid()
      modifies rf
      ensures rf.Valid() && data == KvView() && View() == old(View()).(peer := Snapshot(old(rf.View()), committedId))
    {
      data := Kv(committedId, kvMap, completedPool);
      rf.Snapshot(committedId);
    }
  }
}

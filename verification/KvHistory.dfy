/** Key/value histories: the model of a single key that the checker is given, and the whole map
    that the service is meant to be. */
module KvHistory {
  import opened Linearizability

  /** `op` 0 is get, 1 is put, anything else is append. */
  datatype KvInput = KvInput(op: int, key: string, value: string)

  datatype KvOutput = KvOutput(value: string)

  /** What an entry of a history may hold. */
  datatype Value = Input(i: KvInput) | Output(o: KvOutput)

  datatype Operation = Operation(input: KvInput, call: int, output: KvOutput, ret: int)

  /** One step of a single key. */
  function KvStep(st: string, i: KvInput, o: KvOutput): (bool, string) {
    if i.op == 0 then (o.value == st, st) else if i.op == 1 then (true, i.value) else (true, st + i.value)
  }

  function ValueStep(st: string, i: Value, o: Value): (bool, string) {
    if i.Input? && o.Output? then KvStep(st, i.i, o.o) else (false, st)
  }

  const KvModel: Model<string, Value> := Model("", ValueStep)

  function Lookup(st: map<string, string>, key: string): string {
    if key in st then st[key] else ""
  }

  /** One step of the whole map. */
  function MapStep(st: map<string, string>, i: Value, o: Value): (bool, map<string, string>) {
    if !(i.Input? && o.Output?) then (false, st)
    else if i.i.op == 0 then (o.o.value == Lookup(st, i.i.key), st)
    else if i.i.op == 1 then (true, st[i.i.key := i.i.value])
    else (true, st[i.i.key := Lookup(st, i.i.key) + i.i.value])
  }

  const MapModel: Model<map<string, string>, Value> := Model(map[], MapStep)

  /** The history of `ops`: an operation precedes another if it returned before the other's call. */
  function ProblemOfOps(ops: seq<Operation>): (p: Problem<Value>)
    ensures |p.ops| == |ops|
  {
    Problem(seq(|ops|, k requires 0 <= k < |ops| => (Input(ops[k].input), Output(ops[k].output))),
            set y, x | y in Below(|ops|) && x in Below(|ops|) && ops[y].ret < ops[x].call :: (y, x))
  }

  predicate Timed(ops: seq<Operation>) {
    forall k :: 0 <= k < |ops| ==> ops[k].call <= ops[k].ret
  }

  // ----- Partition by key -----------------------------------------------------------------

  /** The numbers of the operations on `key`, in order. */
  function IndexOf(ops: seq<Operation>, key: string): (r: seq<nat>)
    ensures forall j :: 0 <= j < |r| ==> r[j] < |ops| && ops[r[j]].input.key == key
    ensures forall k: nat :: k < |ops| && ops[k].input.key == key ==> k in r
    ensures Distinct(r)
  {
    if ops == [] then []
    else
      var n := |ops| - 1;
      var front := IndexOf(ops[..n], key);
      assert forall k: nat :: k < n ==> ops[..n][k] == ops[k];
      if ops[n].input.key == key then front + [n] else front
  }

  function Pick(ops: seq<Operation>, index: seq<nat>): (r: seq<Operation>)
    requires InRange(|ops|, index)
    ensures |r| == |index| && forall j :: 0 <= j < |r| ==> r[j] == ops[index[j]]
  {
    seq(|index|, j requires 0 <= j < |index| => ops[index[j]])
  }

  /** The sub-history of one key. */
  function OnKey(ops: seq<Operation>, key: string): seq<Operation> {
    Pick(ops, IndexOf(ops, key))
  }
}

/** Histories as lists of call and return entries, in the order the events happened. */
module Entries {
  import opened Linearizability

  datatype Entry<V> = Entry(isReturn: bool, value: V, id: nat, time: int)

  /** The place of the call or return of operation `id`, or the length if there is none. */
  function Find<V>(h: seq<Entry<V>>, isReturn: bool, id: nat): (k: nat)
    ensures k <= |h|
    ensures k < |h| ==> h[k].isReturn == isReturn && h[k].id == id
    ensures forall i :: 0 <= i < k ==> !(h[i].isReturn == isReturn && h[i].id == id)
  {
    if h == [] then 0 else if h[0].isReturn == isReturn && h[0].id == id then 0 else 1 + Find(h[1..], isReturn, id)
  }

  function CallPos<V>(h: seq<Entry<V>>, id: nat): nat {
    Find(h, false, id)
  }

  function RetPos<V>(h: seq<Entry<V>>, id: nat): nat {
    Find(h, true, id)
  }

  /** Every operation below `n` is called once and returns once, later. */
  predicate HistoryOk<V>(h: seq<Entry<V>>, n: nat) {
    && |h| == 2 * n
    && (forall i :: 0 <= i < |h| ==> h[i].id < n && i == Find(h, h[i].isReturn, h[i].id))
    && (forall id :: 0 <= id < n ==> CallPos(h, id) < RetPos(h, id) < |h|)
  }

  function ProblemOf<V>(h: seq<Entry<V>>, n: nat): (p: Problem<V>)
    requires HistoryOk(h, n)
    ensures |p.ops| == n
  {
    Problem(seq(n, id requires 0 <= id < n => (h[CallPos(h, id)].value, h[RetPos(h, id)].value)),
            set y, x | y in Below(n) && x in Below(n) && RetPos(h, y) < CallPos(h, x) :: (y, x))
  }
}

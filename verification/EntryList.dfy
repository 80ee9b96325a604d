/** The doubly linked list of entries that the search cuts operations out of and puts them back
    into. Positions are numbered once: the head is 0 and entry `i` of the history is `i + 1`. */
module EntryList {
  import opened Entries
  import opened Wrappers

  class Node<V> {
    const value: Option<V>
    const mate: Node?<V>
    const id: int
    var next: Node?<V>
    var prev: Node?<V>

    constructor (value: Option<V>, mate: Node?<V>, id: int)
      ensures this.value == value && this.mate == mate && this.id == id && next == null && prev == null
    {
      this.value, this.mate, this.id, this.next, this.prev := value, mate, id, null, null;
    }
  }

  // ----- The list as numbers --------------------------------------------------------------

  /** The first live position from `i` on, or `n`. */
  function NextIn(live: set<int>, n: nat, i: nat): (k: nat)
    requires i <= n
    ensures i <= k <= n
    decreases n - i
  {
    if i == n || i in live then i else NextIn(live, n, i + 1)
  }

  /** The last live position up to `i`, or -1. */
  function PrevIn(live: set<int>, i: int): (k: int)
    requires -1 <= i
    ensures -1 <= k <= i
    decreases i
  {
    if i == -1 || i in live then i else PrevIn(live, i - 1)
  }

  lemma {:induction false} NextSpec(live: set<int>, n: nat, i: nat)
    requires i <= n
    ensures var k := NextIn(live, n, i); (k < n ==> k in live) && forall j :: i <= j < k ==> j !in live
    decreases n - i
  {
    if i < n && i !in live { NextSpec(live, n, i + 1); }
  }

  lemma {:induction false} PrevSpec(live: set<int>, i: int)
    requires -1 <= i
    ensures var k := PrevIn(live, i); (0 <= k ==> k in live) && forall j :: k < j <= i ==> j !in live
    decreases i
  {
    if 0 <= i && i !in live { PrevSpec(live, i - 1); }
  }

  /** The links of position `i` name its neighbours among `live`. */
  predicate Fits(nx: seq<int>, pv: seq<int>, live: set<int>, i: int)
    requires |nx| == |pv| && 0 <= i < |nx|
  {
    nx[i] == NextIn(live, |nx|, i + 1) && pv[i] == PrevIn(live, i - 1)
  }

  /** The list is exactly the live positions, in order. */
  predicate Linked(nx: seq<int>, pv: seq<int>, live: set<int>) {
    && |nx| == |pv| && 0 in live
    && (forall i :: i in live ==> 0 <= i < |nx|)
    && (forall i :: i in live ==> Fits(nx, pv, live, i))
  }

  function WithNext(nx: seq<int>, at: int, to: int): (r: seq<int>)
    ensures |r| == |nx|
  {
    if 0 <= at < |nx| then nx[at := to] else nx
  }

  lemma NextIs(live: set<int>, n: nat, i: nat, k: nat)
    requires i <= k <= n && (k < n ==> k in live) && forall j :: i <= j < k ==> j !in live
    ensures NextIn(live, n, i) == k
  {
    NextSpec(live, n, i);
  }

  lemma PrevIs(live: set<int>, i: int, k: int)
    requires -1 <= k <= i && (0 <= k ==> k in live) && forall j :: k < j <= i ==> j !in live
    ensures PrevIn(live, i) == k
  {
    PrevSpec(live, i);
  }

  lemma NextWithout(live: set<int>, n: nat, r: int, i: nat)
    requires i <= n && 0 <= r < n && r in live
    ensures NextIn(live - {r}, n, i) == if NextIn(live, n, i) == r then NextIn(live, n, r + 1) else NextIn(live, n, i)
  {
    var k := NextIn(live, n, i);
    NextSpec(live, n, i);
    NextSpec(live, n, r + 1);
    NextIs(live - {r}, n, i, if k == r then NextIn(live, n, r + 1) else k);
  }

  lemma PrevWithout(live: set<int>, r: int, i: int)
    requires -1 <= i && 0 <= r && r in live
    ensures PrevIn(live - {r}, i) == if PrevIn(live, i) == r then PrevIn(live, r - 1) else PrevIn(live, i)
  {
    var k := PrevIn(live, i);
    PrevSpec(live, i);
    PrevSpec(live, r - 1);
    PrevIs(live - {r}, i, if k == r then PrevIn(live, r - 1) else k);
  }

  /** Neighbours name each other. */
  lemma Neighbours(live: set<int>, n: nat, i: int, j: int)
    requires i in live && j in live && 0 <= i < n && 0 <= j < n
    ensures NextIn(live, n, i + 1) == j <==> PrevIn(live, j - 1) == i
  {
    NextSpec(live, n, i + 1);
    PrevSpec(live, j - 1);
  }

  /** The neighbours of `k` once `r` is gone. */
  lemma Without(live: set<int>, n: nat, r: int, k: int)
    requires r in live && 0 <= r < n && k in live && 0 <= k < n
    ensures NextIn(live - {r}, n, k + 1) == if k == PrevIn(live, r - 1) then NextIn(live, n, r + 1) else NextIn(live, n, k + 1)
    ensures PrevIn(live - {r}, k - 1) == if k == NextIn(live, n, r + 1) then PrevIn(live, r - 1) else PrevIn(live, k - 1)
  {
    NextWithout(live, n, r, k + 1);
    PrevWithout(live, r, k - 1);
    Neighbours(live, n, k, r);
    Neighbours(live, n, r, k);
  }

  lemma InOrder(nx: seq<int>, pv: seq<int>, live: set<int>, r: int)
    requires |nx| == |pv| && 0 < r < |nx| && Fits(nx, pv, live, r) && 0 in live
    ensures 0 <= pv[r] < r < nx[r] <= |nx| && pv[r] in live && (nx[r] < |nx| ==> nx[r] in live)
  {
    PrevSpec(live, r - 1);
    NextSpec(live, |nx|, r + 1);
  }

  /** Cutting out position `r`: its neighbours name each other, and `r` keeps naming them. */
  lemma CutOut(nx: seq<int>, pv: seq<int>, live: set<int>, r: int)
    requires Linked(nx, pv, live) && r in live && 0 < r
    ensures 0 <= pv[r] < r < nx[r] <= |nx|
    ensures var nx', pv' := WithNext(nx, pv[r], nx[r]), WithNext(pv, nx[r], pv[r]);
      && Linked(nx', pv', live - {r}) && Fits(nx', pv', live - {r}, r)
      && (forall k :: 0 <= k < |nx| && k !in live ==> nx'[k] == nx[k] && pv'[k] == pv[k])
  {
    var nx', pv' := WithNext(nx, pv[r], nx[r]), WithNext(pv, nx[r], pv[r]);
    InOrder(nx, pv, live, r);
    forall k | k in live ensures Fits(nx', pv', live - {r}, k) {
      assert Fits(nx, pv, live, k) && Fits(nx, pv, live, r);
      Without(live, |nx|, r, k);
    }
  }

  /** Putting `r` back where it was cut out. */
  lemma PutBack(nx: seq<int>, pv: seq<int>, live: set<int>, r: int)
    requires Linked(nx, pv, live) && r !in live && 0 < r < |nx| && Fits(nx, pv, live, r)
    ensures 0 <= pv[r] < r < nx[r] <= |nx|
    ensures var nx', pv' := WithNext(nx, pv[r], r), WithNext(pv, nx[r], r);
      && Linked(nx', pv', live + {r})
      && (forall k :: 0 <= k < |nx| && k !in live ==> nx'[k] == nx[k] && pv'[k] == pv[k])
  {
    var nx', pv' := WithNext(nx, pv[r], r), WithNext(pv, nx[r], r);
    var more := live + {r};
    InOrder(nx, pv, live, r);
    assert more - {r} == live;
    Without(more, |nx|, r, r);
    forall k | k in more ensures Fits(nx', pv', more, k) {
      assert Fits(nx, pv, live, k);
      Without(more, |nx|, r, k);
      Neighbours(more, |nx|, k, r);
      Neighbours(more, |nx|, r, k);
    }
  }

  // ----- The list as nodes ----------------------------------------------------------------

  ghost function At<V>(nodes: seq<Node<V>>, i: int): Node?<V> {
    if 0 <= i < |nodes| then nodes[i] else null
  }

  ghost predicate AllDifferent<V>(nodes: seq<Node<V>>) {
    forall i, j :: 0 <= i < j < |nodes| ==> nodes[i] != nodes[j]
  }

  ghost predicate HoldsAt<V>(nodes: seq<Node<V>>, nx: seq<int>, pv: seq<int>, i: nat)
    requires |nx| == |pv| == |nodes| && i < |nodes|
    reads nodes
  {
    nodes[i].next == At(nodes, nx[i]) && nodes[i].prev == At(nodes, pv[i])
  }

  /** The nodes' pointers are the links `nx` and `pv`. */
  ghost predicate Holds<V>(nodes: seq<Node<V>>, nx: seq<int>, pv: seq<int>)
    reads nodes
  {
    && AllDifferent(nodes) && |nx| == |pv| == |nodes|
    && (forall i :: 0 <= i < |nodes| ==> HoldsAt(nodes, nx, pv, i))
  }

  /** The neighbours of `x` are made to name each other. */
  method Bypass<V>(x: Node<V>, ghost nodes: seq<Node<V>>, ghost nx: seq<int>, ghost pv: seq<int>, ghost i: int)
    requires Holds(nodes, nx, pv) && 0 <= i < |nodes| && x == nodes[i] && 0 <= pv[i] < i < nx[i] <= |nodes|
    modifies nodes
    ensures Holds(nodes, WithNext(nx, pv[i], nx[i]), WithNext(pv, nx[i], pv[i]))
  {
    assert HoldsAt(nodes, nx, pv, i);
    x.prev.next := x.next;
    if x.next != null { x.next.prev := x.prev; }
    ghost var nx', pv' := WithNext(nx, pv[i], nx[i]), WithNext(pv, nx[i], pv[i]);
    forall k | 0 <= k < |nodes| ensures HoldsAt(nodes, nx', pv', k) {
      assert old(HoldsAt(nodes, nx, pv, k));
    }
  }

  /** The neighbours that `x` names are made to name `x`. */
  method Restore<V>(x: Node<V>, ghost nodes: seq<Node<V>>, ghost nx: seq<int>, ghost pv: seq<int>, ghost i: int)
    requires Holds(nodes, nx, pv) && 0 <= i < |nodes| && x == nodes[i] && 0 <= pv[i] < i < nx[i] <= |nodes|
    modifies nodes
    ensures Holds(nodes, WithNext(nx, pv[i], i), WithNext(pv, nx[i], i))
  {
    assert HoldsAt(nodes, nx, pv, i);
    x.prev.next := x;
    if x.next != null { x.next.prev := x; }
    ghost var nx', pv' := WithNext(nx, pv[i], i), WithNext(pv, nx[i], i);
    forall k | 0 <= k < |nodes| ensures HoldsAt(nodes, nx', pv', k) {
      assert old(HoldsAt(nodes, nx, pv, k));
    }
  }

  /** Cuts the call `entry` and its return out of the list. */
  method Lift<V>(entry: Node<V>, ghost nodes: seq<Node<V>>, ghost nx: seq<int>, ghost pv: seq<int>,
                 ghost live: set<int>, ghost c: int, ghost r: int)
    returns (ghost nx': seq<int>, ghost pv': seq<int>)
    requires Holds(nodes, nx, pv) && Linked(nx, pv, live) && c in live && r in live && 0 < c < r
    requires entry == nodes[c] && entry.mate == nodes[r]
    modifies nodes
    ensures Holds(nodes, nx', pv') && Linked(nx', pv', live - {c} - {r})
    ensures Fits(nx', pv', live - {c}, c) && Fits(nx', pv', live - {c} - {r}, r)
    ensures forall k :: 0 <= k < |nx| && k !in live ==> nx'[k] == nx[k] && pv'[k] == pv[k]
  {
    CutOut(nx, pv, live, c);
    Bypass(entry, nodes, nx, pv, c);
    ghost var nx1, pv1 := WithNext(nx, pv[c], nx[c]), WithNext(pv, nx[c], pv[c]);
    CutOut(nx1, pv1, live - {c}, r);
    Bypass(entry.mate, nodes, nx1, pv1, r);
    nx', pv' := WithNext(nx1, pv1[r], nx1[r]), WithNext(pv1, nx1[r], pv1[r]);
  }

  /** Puts the return and the call back, in that order. */
  method Unlift<V>(entry: Node<V>, ghost nodes: seq<Node<V>>, ghost nx: seq<int>, ghost pv: seq<int>,
                   ghost live: set<int>, ghost c: int, ghost r: int)
    returns (ghost nx': seq<int>, ghost pv': seq<int>)
    requires Holds(nodes, nx, pv) && Linked(nx, pv, live) && c !in live && r !in live && 0 < c < r < |nodes|
    requires Fits(nx, pv, live + {r}, c) && Fits(nx, pv, live, r)
    requires entry == nodes[c] && entry.mate == nodes[r]
    modifies nodes
    ensures Holds(nodes, nx', pv') && Linked(nx', pv', live + {r} + {c})
    ensures forall k :: 0 <= k < |nx| && k !in live + {r} ==> nx'[k] == nx[k] && pv'[k] == pv[k]
  {
    PutBack(nx, pv, live, r);
    Restore(entry.mate, nodes, nx, pv, r);
    ghost var nx1, pv1 := WithNext(nx, pv[r], r), WithNext(pv, nx[r], r);
    PutBack(nx1, pv1, live + {r}, c);
    Restore(entry, nodes, nx1, pv1, c);
    nx', pv' := WithNext(nx1, pv1[c], c), WithNext(pv1, nx1[c], c);
  }

  /** The live positions and the links of the cut-out ones fix all links, so cutting a pair out
      and putting it back leaves the list as it was. */
  lemma LiftThenUnlift(nx: seq<int>, pv: seq<int>, live: set<int>, c: int, r: int)
    requires Linked(nx, pv, live) && c in live && r in live && 0 < c < r
    ensures
      var nx1, pv1 := WithNext(nx, pv[c], nx[c]), WithNext(pv, nx[c], pv[c]);
      var nx2, pv2 := WithNext(nx1, pv1[r], nx1[r]), WithNext(pv1, nx1[r], pv1[r]);
      var nx3, pv3 := WithNext(nx2, pv2[r], r), WithNext(pv2, nx2[r], r);
      WithNext(nx3, pv3[c], c) == nx && WithNext(pv3, nx3[c], c) == pv
  {
    CutAndPut(nx, pv, live, c);
    var nx1, pv1 := WithNext(nx, pv[c], nx[c]), WithNext(pv, nx[c], pv[c]);
    CutOut(nx, pv, live, c);
    CutAndPut(nx1, pv1, live - {c}, r);
  }

  lemma CutAndPut(nx: seq<int>, pv: seq<int>, live: set<int>, r: int)
    requires Linked(nx, pv, live) && r in live && 0 < r
    ensures var nx', pv' := WithNext(nx, pv[r], nx[r]), WithNext(pv, nx[r], pv[r]);
      WithNext(nx', pv'[r], r) == nx && WithNext(pv', nx'[r], r) == pv
  {
    NamedBack(nx, pv, live, r);
    hide Linked;
  }

  lemma NamedBack(nx: seq<int>, pv: seq<int>, live: set<int>, r: int)
    requires Linked(nx, pv, live) && r in live && 0 < r
    ensures 0 <= pv[r] < r < nx[r] <= |nx| && nx[pv[r]] == r && (nx[r] < |nx| ==> pv[nx[r]] == r)
  {
    hide NextIn, PrevIn;
    InOrder(nx, pv, live, r);
    assert Fits(nx, pv, live, pv[r]);
    Neighbours(live, |nx|, pv[r], r);
    if nx[r] < |nx| {
      assert Fits(nx, pv, live, nx[r]);
      Neighbours(live, |nx|, r, nx[r]);
    }
  }

  // ----- Building the list ----------------------------------------------------------------

  method InsertBefore<V>(n: Node<V>, mark: Node?<V>) returns (r: Node<V>)
    requires n != mark && (mark != null && mark.prev != null ==> mark.prev != n && mark.prev != mark)
    modifies n, mark, if mark != null then mark.prev else null
    ensures r == n
    ensures mark == null ==> n.next == old(n.next) && n.prev == old(n.prev)
    ensures mark != null ==> n.next == mark && mark.prev == n && mark.next == old(mark.next)
    ensures mark != null && old(mark.prev) == null ==> n.prev == old(n.prev)
    ensures mark != null && old(mark.prev) != null ==> n.prev == old(mark.prev) && old(mark.prev).next == n && old(mark.prev).prev == old(mark.prev.prev)
  {
    if mark != null {
      var beforeMark := mark.prev;
      mark.prev := n;
      n.next := mark;
      if beforeMark != null {
        n.prev := beforeMark;
        beforeMark.next := n;
      }
    }
    r := n;
  }

  /** The links of a whole list in order. */
  function Ups(n: nat): (r: seq<int>)
    ensures |r| == n && forall i :: 0 <= i < n ==> r[i] == i + 1
  {
    seq(n, i => i + 1)
  }

  function Downs(n: nat): (r: seq<int>)
    ensures |r| == n && forall i :: 0 <= i < n ==> r[i] == i - 1
  {
    seq(n, i => i - 1)
  }

  /** `nodes` is a whole list in order, the first node before the second and so on. */
  ghost predicate Chain<V>(nodes: seq<Node<V>>)
    reads nodes
  {
    Holds(nodes, Ups(|nodes|), Downs(|nodes|))
  }

  method Length<V>(n: Node?<V>, ghost nodes: seq<Node<V>>) returns (l: nat)
    requires Chain(nodes) && n == At(nodes, 0)
    ensures l == |nodes|
  {
    var k := n;
    l := 0;
    while k != null
      invariant l <= |nodes| && k == At(nodes, l)
      decreases |nodes| - l
    {
      assert HoldsAt(nodes, Ups(|nodes|), Downs(|nodes|), l);
      k := k.next;
      l := l + 1;
    }
  }

  method Prepend<V>(n: Node<V>, root: Node?<V>, ghost nodes: seq<Node<V>>)
    requires Chain(nodes) && root == At(nodes, 0) && n !in nodes && n.next == null && n.prev == null
    modifies n, nodes
    ensures Chain([n] + nodes)
  {
    assert nodes != [] ==> HoldsAt(nodes, Ups(|nodes|), Downs(|nodes|), 0);
    var _ := InsertBefore(n, root);
    ghost var more := [n] + nodes;
    forall i | 0 <= i < |more| ensures HoldsAt(more, Ups(|more|), Downs(|more|), i) {
      if i > 0 { assert old(HoldsAt(nodes, Ups(|nodes|), Downs(|nodes|), i - 1)); }
    }
  }

  /** Node `i` stands for entry `from + i` of the history. */
  ghost predicate Stands<V>(nodes: seq<Node<V>>, h: seq<Entry<V>>, n: nat, from: nat)
    requires HistoryOk(h, n) && from + |nodes| == |h|
  {
    forall i :: 0 <= i < |nodes| ==> StandsFor(nodes, h, n, from, i)
  }

  ghost predicate StandsFor<V>(nodes: seq<Node<V>>, h: seq<Entry<V>>, n: nat, from: nat, i: nat)
    requires HistoryOk(h, n) && from + |nodes| == |h| && i < |nodes|
  {
    var e := h[from + i];
    nodes[i].id == e.id && nodes[i].value == Some(e.value)
    && nodes[i].mate == if e.isReturn then null else At(nodes, RetPos(h, e.id) - from)
  }

  /** The returns met so far, by operation. */
  ghost predicate MatesOk<V>(mates: map<nat, Node<V>>, nodes: seq<Node<V>>, h: seq<Entry<V>>, n: nat, from: nat)
    requires HistoryOk(h, n) && from + |nodes| == |h|
  {
    forall id :: 0 <= id < n && from <= RetPos(h, id) ==> id in mates && mates[id] == nodes[RetPos(h, id) - from]
  }

  lemma MatesMore<V>(mates: map<nat, Node<V>>, node: Node<V>, rest: seq<Node<V>>, h: seq<Entry<V>>, n: nat, i: nat)
    requires HistoryOk(h, n) && i + 1 + |rest| == |h| && MatesOk(mates, rest, h, n, i + 1)
    ensures MatesOk(if h[i].isReturn then mates[h[i].id := node] else mates, [node] + rest, h, n, i)
  {
  }

  method MakeNode<V>(h: seq<Entry<V>>, i: nat, mates: map<nat, Node<V>>, ghost n: nat, ghost rest: seq<Node<V>>)
    returns (node: Node<V>, mates': map<nat, Node<V>>)
    requires HistoryOk(h, n) && i + 1 + |rest| == |h| && MatesOk(mates, rest, h, n, i + 1) && Stands(rest, h, n, i + 1)
    ensures fresh(node) && node.next == null && node.prev == null
    ensures MatesOk(mates', [node] + rest, h, n, i) && Stands([node] + rest, h, n, i)
  {
    var elem := h[i];
    mates' := mates;
    if elem.isReturn {
      node := new Node(Some(elem.value), null, elem.id);
      mates' := mates[elem.id := node];
    } else {
      assert i == CallPos(h, elem.id) < RetPos(h, elem.id);
      node := new Node(Some(elem.value), mates[elem.id], elem.id);
    }
    MatesMore(mates, node, rest, h, n, i);
    hide MatesOk;
    StandsMore(node, rest, h, n, i);
  }

  method MakeLinkedEntries<V>(h: seq<Entry<V>>, ghost n: nat) returns (root: Node?<V>, ghost nodes: seq<Node<V>>)
    requires HistoryOk(h, n)
    ensures |nodes| == |h| && root == At(nodes, 0) && Chain(nodes) && Stands(nodes, h, n, 0)
    ensures fresh(nodes)
  {
    root, nodes := null, [];
    var mates: map<nat, Node<V>> := map[];
    assert MatesOk(mates, nodes, h, n, |h|) && Chain(nodes) && Stands(nodes, h, n, |h|);
    hide MatesOk, Chain, Stands, HistoryOk;
    var i := |h|;
    while i > 0
      invariant 0 <= i <= |h| && i + |nodes| == |h| && root == At(nodes, 0)
      invariant Chain(nodes) && Stands(nodes, h, n, i) && MatesOk(mates, nodes, h, n, i)
      invariant fresh(nodes)
    {
      i := i - 1;
      var node;
      node, mates := MakeNode(h, i, mates, n, nodes);
      Prepend(node, root, nodes);
      nodes, root := [node] + nodes, node;
    }
  }

  /** A call's return comes later. */
  lemma ReturnLater<V>(h: seq<Entry<V>>, n: nat, pos: nat)
    requires HistoryOk(h, n) && pos < |h| && !h[pos].isReturn
    ensures pos < RetPos(h, h[pos].id) < |h|
  {
  }

  lemma StandsStill<V>(node: Node<V>, rest: seq<Node<V>>, h: seq<Entry<V>>, n: nat, i: nat, k: nat)
    requires HistoryOk(h, n) && i + 1 + |rest| == |h| && k < |rest| && StandsFor(rest, h, n, i + 1, k)
    ensures StandsFor([node] + rest, h, n, i, k + 1)
  {
    hide HistoryOk, RetPos;
    assert h[i + (k + 1)] == h[i + 1 + k] && ([node] + rest)[k + 1] == rest[k];
    if !h[i + 1 + k].isReturn { ReturnLater(h, n, i + 1 + k); }
  }

  lemma StandsMore<V>(node: Node<V>, rest: seq<Node<V>>, h: seq<Entry<V>>, n: nat, i: nat)
    requires HistoryOk(h, n) && i + 1 + |rest| == |h| && Stands(rest, h, n, i + 1)
    requires node.id == h[i].id && node.value == Some(h[i].value)
    requires node.mate == if h[i].isReturn then null else At(rest, RetPos(h, h[i].id) - (i + 1))
    ensures Stands([node] + rest, h, n, i)
  {
    hide HistoryOk, RetPos;
    var nodes := [node] + rest;
    if !h[i].isReturn { ReturnLater(h, n, i); }
    assert StandsFor(nodes, h, n, i, 0);
    forall k | 0 <= k < |nodes| ensures StandsFor(nodes, h, n, i, k) {
      if k > 0 {
        assert StandsFor(rest, h, n, i + 1, k - 1);
        StandsStill(node, rest, h, n, i, k - 1);
      }
    }
  }
}

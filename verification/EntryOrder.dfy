/** From timed operations to a list of entries: any list sorted by time, calls before returns at
    equal times, is a history in which an operation precedes another exactly when it returned
    before the other was called. */
module EntryOrder {
  import opened Linearizability
  import opened Entries
  import opened KvHistory

  predicate Less(a: Entry<Value>, b: Entry<Value>) {
    if a.time != b.time then a.time < b.time else !a.isReturn && b.isReturn
  }

  predicate SortedByTime(e: seq<Entry<Value>>) {
    forall i, j :: 0 <= i < j < |e| ==> !Less(e[j], e[i])
  }

  function CallOf(ops: seq<Operation>, id: nat): Entry<Value>
    requires id < |ops|
  {
    Entry(false, Input(ops[id].input), id, ops[id].call)
  }

  function ReturnOf(ops: seq<Operation>, id: nat): Entry<Value>
    requires id < |ops|
  {
    Entry(true, Output(ops[id].output), id, ops[id].ret)
  }

  /** Both entries of each operation, unsorted. */
  function Raw(ops: seq<Operation>, n: nat): (r: seq<Entry<Value>>)
    requires n <= |ops|
    ensures |r| == 2 * n
    ensures forall k :: 0 <= k < |r| ==> r[k].id < n && r[k] == if r[k].isReturn then ReturnOf(ops, r[k].id) else CallOf(ops, r[k].id)
    ensures forall id: nat :: id < n ==> CallOf(ops, id) in r && ReturnOf(ops, id) in r
    ensures forall i, j :: 0 <= i < j < |r| ==> r[i] != r[j]
  {
    if n == 0 then [] else Raw(ops, n - 1) + [CallOf(ops, n - 1), ReturnOf(ops, n - 1)]
  }

  /** What sorting the entries of `ops` may give. */
  predicate EntriesOf(ops: seq<Operation>, e: seq<Entry<Value>>) {
    multiset(e) == multiset(Raw(ops, |ops|)) && SortedByTime(e)
  }

  // ----- A permutation of different elements ----------------------------------------------

  lemma {:induction false} OnceEach<T>(s: seq<T>, x: T)
    requires forall i, j :: 0 <= i < j < |s| ==> s[i] != s[j]
    ensures multiset(s)[x] <= 1
  {
    if s != [] {
      var k := |s| - 1;
      OnceEach(s[..k], x);
      assert s == s[..k] + [s[k]];
      if x == s[k] { assert x !in s[..k]; }
    }
  }

  lemma TwiceAtLeast<T>(s: seq<T>, i: nat, j: nat)
    requires i < j < |s| && s[i] == s[j]
    ensures multiset(s)[s[i]] >= 2
  {
    var rest := s[..j] + s[j + 1..];
    assert s == s[..j] + [s[j]] + s[j + 1..];
    assert rest[i] == s[i];
    assert multiset(s) == multiset(rest) + multiset{s[j]};
  }

  lemma SameElements<T>(s: seq<T>, r: seq<T>)
    requires multiset(s) == multiset(r) && forall i, j :: 0 <= i < j < |r| ==> r[i] != r[j]
    ensures |s| == |r| && (forall x :: x in s <==> x in r)
    ensures forall i, j :: 0 <= i < j < |s| ==> s[i] != s[j]
  {
    assert |s| == |multiset(s)| == |multiset(r)| == |r|;
    forall x ensures x in s <==> x in r {
      assert x in s <==> x in multiset(s);
      assert x in r <==> x in multiset(r);
    }
    forall i, j | 0 <= i < j < |s| ensures s[i] != s[j] {
      OnceEach(r, s[i]);
      if s[i] == s[j] { TwiceAtLeast(s, i, j); }
    }
  }

  // ----- Sorted entries are a history -----------------------------------------------------

  ghost predicate Shuffled(ops: seq<Operation>, e: seq<Entry<Value>>) {
    && |e| == 2 * |ops|
    && (forall k :: 0 <= k < |e| ==> e[k].id < |ops| && e[k] == if e[k].isReturn then ReturnOf(ops, e[k].id) else CallOf(ops, e[k].id))
    && (forall id: nat :: id < |ops| ==> CallOf(ops, id) in e && ReturnOf(ops, id) in e)
    && (forall i, j :: 0 <= i < j < |e| ==> e[i] != e[j])
  }

  lemma EntriesShuffled(ops: seq<Operation>, e: seq<Entry<Value>>)
    requires EntriesOf(ops, e)
    ensures Shuffled(ops, e)
  {
    var r := Raw(ops, |ops|);
    SameElements(e, r);
    forall k | 0 <= k < |e| ensures e[k].id < |ops| && e[k] == if e[k].isReturn then ReturnOf(ops, e[k].id) else CallOf(ops, e[k].id) {
      assert e[k] in r;
    }
  }

  /** The entry of either kind stands where `Find` says, and nowhere else. */
  lemma Found(ops: seq<Operation>, e: seq<Entry<Value>>, id: nat)
    requires Shuffled(ops, e) && id < |ops|
    ensures CallPos(e, id) < |e| && e[CallPos(e, id)] == CallOf(ops, id)
    ensures RetPos(e, id) < |e| && e[RetPos(e, id)] == ReturnOf(ops, id)
  {
    assert CallOf(ops, id) in e && ReturnOf(ops, id) in e;
  }

  lemma SortedHistory(ops: seq<Operation>, e: seq<Entry<Value>>)
    requires Timed(ops) && Shuffled(ops, e) && SortedByTime(e)
    ensures HistoryOk(e, |ops|)
  {
    forall i | 0 <= i < |e| ensures i == Find(e, e[i].isReturn, e[i].id) {
      Found(ops, e, e[i].id);
    }
    forall id | 0 <= id < |ops| ensures CallPos(e, id) < RetPos(e, id) < |e| {
      Found(ops, e, id);
    }
  }

  lemma SortedPrec(ops: seq<Operation>, e: seq<Entry<Value>>, y: nat, x: nat)
    requires Shuffled(ops, e) && SortedByTime(e) && y < |ops| && x < |ops|
    ensures RetPos(e, y) < CallPos(e, x) <==> ops[y].ret < ops[x].call
  {
    Found(ops, e, y);
    Found(ops, e, x);
  }

  /** Sorting the entries keeps the meaning of the operations. */
  lemma EntriesProblem(ops: seq<Operation>, e: seq<Entry<Value>>)
    requires Timed(ops) && EntriesOf(ops, e)
    ensures HistoryOk(e, |ops|) && ProblemOf(e, |ops|) == ProblemOfOps(ops)
  {
    EntriesShuffled(ops, e);
    SortedHistory(ops, e);
    var p, q := ProblemOf(e, |ops|), ProblemOfOps(ops);
    hide HistoryOk, Shuffled, SortedByTime, EntriesOf;
    forall id | 0 <= id < |ops| ensures p.ops[id] == q.ops[id] {
      Found(ops, e, id);
    }
    assert p.ops == q.ops;
    forall y, x | y in Below(|ops|) && x in Below(|ops|) ensures RetPos(e, y) < CallPos(e, x) <==> ops[y].ret < ops[x].call {
      SortedPrec(ops, e, y, x);
    }
    assert p.prec == q.prec;
  }

  // ----- Making and sorting ---------------------------------------------------------------

  method Insert(e: seq<Entry<Value>>, x: Entry<Value>) returns (r: seq<Entry<Value>>)
    requires SortedByTime(e)
    ensures SortedByTime(r) && multiset(r) == multiset(e) + multiset{x}
  {
    var k := |e|;
    while k > 0 && Less(x, e[k - 1])
      invariant 0 <= k <= |e|
      invariant forall j :: k <= j < |e| ==> Less(x, e[j])
    {
      k := k - 1;
    }
    r := e[..k] + [x] + e[k..];
    assert e == e[..k] + e[k..];
    assert multiset(r) == multiset(e[..k]) + multiset{x} + multiset(e[k..]);
    InsertSorted(e, x, k);
  }

  lemma LessTrans(a: Entry<Value>, b: Entry<Value>, c: Entry<Value>)
    ensures !Less(b, a) && !Less(c, b) ==> !Less(c, a)
    ensures Less(a, b) ==> !Less(b, a)
  {
  }

  lemma InsertSorted(e: seq<Entry<Value>>, x: Entry<Value>, k: nat)
    requires SortedByTime(e) && k <= |e| && (k > 0 ==> !Less(x, e[k - 1])) && forall j :: k <= j < |e| ==> Less(x, e[j])
    ensures SortedByTime(e[..k] + [x] + e[k..])
  {
    var r := e[..k] + [x] + e[k..];
    forall i, j | 0 <= i < j < |r| ensures !Less(r[j], r[i]) {
      if j == k && i < k - 1 {
        assert !Less(e[k - 1], e[i]);
        LessTrans(e[i], e[k - 1], x);
      } else if i == k {
        LessTrans(x, r[j], x);
      }
    }
  }

  method SortByTime(raw: seq<Entry<Value>>) returns (e: seq<Entry<Value>>)
    ensures SortedByTime(e) && multiset(e) == multiset(raw)
  {
    e := [];
    for k := 0 to |raw|
      invariant SortedByTime(e) && multiset(e) == multiset(raw[..k])
    {
      e := Insert(e, raw[k]);
      assert raw[..k + 1] == raw[..k] + [raw[k]];
    }
    assert raw[..|raw|] == raw;
  }

  method MakeEntries(ops: seq<Operation>) returns (e: seq<Entry<Value>>)
    ensures EntriesOf(ops, e)
  {
    var raw: seq<Entry<Value>> := [];
    for id := 0 to |ops|
      invariant raw == Raw(ops, id)
    {
      raw := raw + [CallOf(ops, id)];
      raw := raw + [ReturnOf(ops, id)];
    }
    e := SortByTime(raw);
  }
}

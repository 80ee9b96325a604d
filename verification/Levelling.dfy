/** The two-pointer loop of the shard allocator, on lists of shards ranked from the fewest to the
    most. */
module Levelling {

  type Lists = seq<seq<nat>>

  function Min(a: int, b: int): int { if a < b then a else b }

  function Max(a: int, b: int): int { if a > b then a else b }

  /** One round: the list at `j` gives from its front what the list at `i` needs, as far as both
      allow. */
  function Part(ls: Lists, i: nat, j: nat, avg: nat): int
    requires i < |ls| && j < |ls|
  {
    Min(avg - |ls[i]|, |ls[j]| - avg)
  }

  function Given(ls: Lists, i: nat, j: nat, avg: nat): (r: Lists)
    requires i < j < |ls| && |ls[i]| < avg < |ls[j]|
    ensures |r| == |ls|
  {
    var part := Part(ls, i, j, avg);
    ls[i := ls[i] + ls[j][..part]][j := ls[j][part..]]
  }

  predicate Goes(ls: Lists, i: int, j: int, avg: nat) {
    0 <= i < j < |ls| && |ls[i]| < avg < |ls[j]|
  }

  function Spread(ls: Lists, i: int, j: int, avg: nat): (r: Lists)
    ensures |r| == |ls|
    decreases j - i
  {
    if !Goes(ls, i, j, avg) then ls
    else
      var need, extra := avg - |ls[i]|, |ls[j]| - avg;
      Spread(Given(ls, i, j, avg), if extra >= need then i + 1 else i, if extra <= need then j - 1 else j, avg)
  }

  // ----- What the loop keeps about the lengths --------------------------------------------

  predicate Ascending(ls: Lists) {
    forall a, b :: 0 <= a < b < |ls| ==> |ls[a]| <= |ls[b]|
  }

  /** List `k` has moved from `before` toward the average, not past it. */
  predicate Toward(before: Lists, ls: Lists, avg: nat, k: nat)
    requires |before| == |ls| && k < |ls|
  {
    if |before[k]| <= avg then |before[k]| <= |ls[k]| <= avg else avg <= |ls[k]| <= |before[k]|
  }

  /** Between the pointers nothing has changed; outside them every list is exactly average. */
  predicate Squeezed(before: Lists, ls: Lists, i: int, j: int, avg: nat) {
    && |before| == |ls| && 0 <= i <= |ls| && -1 <= j < |ls| && i <= j + 1
    && (forall k :: 0 <= k < |ls| ==> Toward(before, ls, avg, k))
    && (forall k :: 0 <= k < i ==> |before[k]| <= |ls[k]| == avg)
    && (forall k :: j < k < |ls| ==> |before[k]| >= |ls[k]| == avg)
    && (forall k :: i < k < j ==> ls[k] == before[k])
    && (i <= j ==> |ls[i]| == |before[i]| || |ls[i]| < avg || (i == j && |ls[i]| > avg))
    && (i <= j ==> |ls[j]| == |before[j]| || |ls[j]| > avg || (i == j && |ls[j]| < avg))
  }

  lemma GivenSqueezed(before: Lists, ls: Lists, i: int, j: int, avg: nat)
    requires Squeezed(before, ls, i, j, avg) && Goes(ls, i, j, avg)
    ensures var need, extra := avg - |ls[i]|, |ls[j]| - avg;
      Squeezed(before, Given(ls, i, j, avg), if extra >= need then i + 1 else i, if extra <= need then j - 1 else j, avg)
  {
    var r := Given(ls, i, j, avg);
    assert Toward(before, ls, avg, i) && Toward(before, ls, avg, j);
    forall k | 0 <= k < |r| ensures Toward(before, r, avg, k) {
      assert Toward(before, ls, avg, k);
    }
  }

  predicate Level(ls: Lists, avg: nat) {
    (forall k :: 0 <= k < |ls| ==> |ls[k]| >= avg) || (forall k :: 0 <= k < |ls| ==> |ls[k]| <= avg)
  }

  predicate AllToward(before: Lists, ls: Lists, avg: nat) {
    |before| == |ls| && forall k :: 0 <= k < |ls| ==> Toward(before, ls, avg, k)
  }

  /** In the end every list has moved toward the average, and either none is below it or none is
      above it. */
  lemma {:induction false} SpreadLevels(before: Lists, ls: Lists, i: int, j: int, avg: nat)
    requires Ascending(before) && Squeezed(before, ls, i, j, avg)
    ensures AllToward(before, Spread(ls, i, j, avg), avg) && Level(Spread(ls, i, j, avg), avg)
    decreases j - i
  {
    if Goes(ls, i, j, avg) {
      GivenSqueezed(before, ls, i, j, avg);
      var need, extra := avg - |ls[i]|, |ls[j]| - avg;
      var i', j' := if extra >= need then i + 1 else i, if extra <= need then j - 1 else j;
      SpreadLevels(before, Given(ls, i, j, avg), i', j', avg);
      assert Spread(ls, i, j, avg) == Spread(Given(ls, i, j, avg), i', j', avg);
    } else if i <= j {
      StopLevels(before, ls, i, j, avg);
    }
  }

  lemma StopLevels(before: Lists, ls: Lists, i: int, j: int, avg: nat)
    requires Ascending(before) && Squeezed(before, ls, i, j, avg) && i <= j && !Goes(ls, i, j, avg)
    ensures Level(ls, avg)
  {
    assert Toward(before, ls, avg, i) && Toward(before, ls, avg, j);
    if i < j && |ls[i]| >= avg {
      forall k | 0 <= k < |ls| ensures |ls[k]| >= avg { assert Toward(before, ls, avg, k); }
    } else if i < j {
      forall k | 0 <= k < |ls| ensures |ls[k]| <= avg { assert Toward(before, ls, avg, k); }
    }
  }

  // ----- Totals -----------------------------------------------------------------------------

  function Total(ls: Lists): nat {
    if ls == [] then 0 else Total(ls[..|ls| - 1]) + |ls[|ls| - 1]|
  }

  /** What the lists of `ls` have gained over those of `before`. */
  function Gain(before: Lists, ls: Lists): nat
    requires |before| == |ls|
  {
    if ls == [] then 0
    else Gain(before[..|ls| - 1], ls[..|ls| - 1]) + Max(0, |ls[|ls| - 1]| - |before[|ls| - 1]|)
  }

  function Deficit(ls: Lists, avg: nat): nat {
    if ls == [] then 0 else Deficit(ls[..|ls| - 1], avg) + Max(0, avg - |ls[|ls| - 1]|)
  }

  function Surplus(ls: Lists, avg: nat): nat {
    if ls == [] then 0 else Surplus(ls[..|ls| - 1], avg) + Max(0, |ls[|ls| - 1]| - avg)
  }

  /** Gain, loss and the totals: what one list gains another loses. */
  lemma {:induction false} GainBalance(before: Lists, ls: Lists)
    requires |before| == |ls|
    ensures Gain(before, ls) - Gain(ls, before) == Total(ls) - Total(before)
  {
    if ls != [] { GainBalance(before[..|ls| - 1], ls[..|ls| - 1]); }
  }

  lemma {:induction false} GainIsDeficit(before: Lists, ls: Lists, avg: nat)
    requires AllToward(before, ls, avg) && forall k :: 0 <= k < |ls| ==> |ls[k]| >= avg
    ensures Gain(before, ls) == Deficit(before, avg) && Gain(ls, before) <= Surplus(before, avg)
  {
    if ls != [] {
      var n := |ls| - 1;
      assert Toward(before, ls, avg, n);
      assert forall k :: 0 <= k < n ==> Toward(before, ls, avg, k) ==> Toward(before[..n], ls[..n], avg, k);
      GainIsDeficit(before[..n], ls[..n], avg);
    }
  }

  lemma {:induction false} LossIsSurplus(before: Lists, ls: Lists, avg: nat)
    requires AllToward(before, ls, avg) && forall k :: 0 <= k < |ls| ==> |ls[k]| <= avg
    ensures Gain(ls, before) == Surplus(before, avg) && Gain(before, ls) <= Deficit(before, avg)
  {
    if ls != [] {
      var n := |ls| - 1;
      assert Toward(before, ls, avg, n);
      assert forall k :: 0 <= k < n ==> Toward(before, ls, avg, k) ==> Toward(before[..n], ls[..n], avg, k);
      LossIsSurplus(before[..n], ls[..n], avg);
    }
  }

  /** Levelled lists of the same total have gained the smaller of deficit and surplus. */
  lemma GainIsSmaller(before: Lists, ls: Lists, avg: nat)
    requires AllToward(before, ls, avg) && Level(ls, avg) && Total(before) == Total(ls)
    ensures Gain(before, ls) == Min(Deficit(before, avg), Surplus(before, avg))
  {
    GainBalance(before, ls);
    if forall k :: 0 <= k < |ls| ==> |ls[k]| >= avg {
      GainIsDeficit(before, ls, avg);
    } else {
      LossIsSurplus(before, ls, avg);
    }
  }

  lemma {:induction false} TotalAtMost(ls: Lists, avg: nat, k: nat)
    requires (forall a :: 0 <= a < |ls| ==> |ls[a]| <= avg) && k < |ls| && |ls[k]| < avg
    ensures Total(ls) < |ls| * avg
  {
    var n := |ls| - 1;
    if k < n {
      TotalAtMost(ls[..n], avg, k);
    } else {
      TotalBound(ls[..n], avg);
    }
    assert |ls| * avg == n * avg + avg;
  }

  lemma {:induction false} TotalBound(ls: Lists, avg: nat)
    requires forall a :: 0 <= a < |ls| ==> |ls[a]| <= avg
    ensures Total(ls) <= |ls| * avg
  {
    if ls != [] {
      TotalBound(ls[..|ls| - 1], avg);
      assert |ls| * avg == (|ls| - 1) * avg + avg;
    }
  }

  lemma {:induction false} TotalUpdate(ls: Lists, k: nat, v: seq<nat>)
    requires k < |ls|
    ensures Total(ls[k := v]) == Total(ls) - |ls[k]| + |v|
  {
    var n := |ls| - 1;
    if k < n {
      TotalUpdate(ls[..n], k, v);
      assert ls[k := v][..n] == ls[..n][k := v];
    } else {
      assert ls[k := v][..n] == ls[..n];
    }
  }

  lemma {:induction false} SpreadTotal(ls: Lists, i: int, j: int, avg: nat)
    ensures Total(Spread(ls, i, j, avg)) == Total(ls)
    decreases j - i
  {
    if Goes(ls, i, j, avg) {
      var need, extra := avg - |ls[i]|, |ls[j]| - avg;
      var part := Part(ls, i, j, avg);
      TotalUpdate(ls, i, ls[i] + ls[j][..part]);
      TotalUpdate(ls[i := ls[i] + ls[j][..part]], j, ls[j][part..]);
      SpreadTotal(Given(ls, i, j, avg), if extra >= need then i + 1 else i, if extra <= need then j - 1 else j, avg);
    }
  }

  // ----- Which list holds a shard -----------------------------------------------------------

  predicate Distinct(l: seq<nat>) {
    forall a, b :: 0 <= a < b < |l| ==> l[a] != l[b]
  }

  /** Shard `s` is in list `own[s]`, once, and in no other. */
  ghost predicate Owns(ls: Lists, own: seq<nat>) {
    && (forall k :: 0 <= k < |ls| ==> Distinct(ls[k]))
    && (forall s :: 0 <= s < |own| ==> own[s] < |ls| && s in ls[own[s]])
    && (forall k, s: nat {:trigger s in ls[k]} :: 0 <= k < |ls| && s in ls[k] ==> s < |own| && own[s] == k)
  }

  /** A shard that changed lists came from one above the average and went to one below it. */
  ghost predicate Justified(before: Lists, own: seq<nat>, own': seq<nat>, avg: nat) {
    && |own| == |own'|
    && (forall s :: 0 <= s < |own| ==> own[s] < |before| && own'[s] < |before|)
    && (forall s :: 0 <= s < |own| && own'[s] != own[s] ==> |before[own[s]]| > avg > |before[own'[s]]|)
  }

  function Moved(own: seq<nat>, own': seq<nat>): set<nat>
    requires |own| == |own'|
  {
    set s: nat | s < |own| && own[s] != own'[s]
  }

  function Elements(l: seq<nat>): set<nat> {
    set s | s in l
  }

  lemma {:induction false} ElementCount(l: seq<nat>)
    requires Distinct(l)
    ensures |Elements(l)| == |l|
  {
    if l != [] {
      var n := |l| - 1;
      ElementCount(l[..n]);
      assert Elements(l) == Elements(l[..n]) + {l[n]};
    }
  }

  function Handed(own: seq<nat>, piece: seq<nat>, i: nat): (r: seq<nat>)
    ensures |r| == |own| && forall s :: 0 <= s < |own| ==> r[s] == if s in piece then i else own[s]
  {
    seq(|own|, s requires 0 <= s < |own| => if s in piece then i else own[s])
  }

  lemma GivenOwns(ls: Lists, own: seq<nat>, i: int, j: int, avg: nat)
    requires Owns(ls, own) && Goes(ls, i, j, avg)
    ensures Owns(Given(ls, i, j, avg), Handed(own, ls[j][..Part(ls, i, j, avg)], i))
  {
    var part := Part(ls, i, j, avg);
    var front, back := ls[j][..part], ls[j][part..];
    assert ls[j] == front + back;
    var r, own' := Given(ls, i, j, avg), Handed(own, front, i);
    forall s: nat | s in front ensures s in ls[j] && s !in back && s !in ls[i] {
      var a :| 0 <= a < part && front[a] == s;
      assert ls[j][a] == s;
      forall b | 0 <= b < |back| ensures back[b] != s { assert ls[j][part + b] == back[b]; }
    }
    assert r[i] == ls[i] + front && r[j] == back;
    forall k | 0 <= k < |r| ensures Distinct(r[k]) {
      assert Distinct(ls[k]) && Distinct(ls[j]);
      if k == i {
        forall a, b | 0 <= a < b < |r[i]| ensures r[i][a] != r[i][b] {
          if a < |ls[i]| <= b { assert r[i][a] in ls[i] && r[i][b] in front; }
        }
      }
    }
    forall s | 0 <= s < |own'| ensures own'[s] < |r| && s in r[own'[s]] {
      assert s in ls[own[s]];
      if own[s] == j && s !in front { assert s in back; }
    }
    forall k, s: nat {:trigger s in r[k]} | 0 <= k < |r| && s in r[k] ensures s < |own'| && own'[s] == k {
      if k == i && s !in ls[i] { assert s in front && s in ls[j]; }
      if k == j { assert s in ls[j]; }
    }
  }

  lemma {:induction false} GainUpdate(before: Lists, ls: Lists, k: nat, v: seq<nat>)
    requires |before| == |ls| && k < |ls|
    ensures Gain(before, ls[k := v]) == Gain(before, ls) - Max(0, |ls[k]| - |before[k]|) + Max(0, |v| - |before[k]|)
  {
    var n := |ls| - 1;
    if k < n {
      GainUpdate(before[..n], ls[..n], k, v);
      assert ls[k := v][..n] == ls[..n][k := v];
    } else {
      assert ls[k := v][..n] == ls[..n];
    }
  }

  lemma GivenGain(before: Lists, ls: Lists, i: int, j: int, avg: nat)
    requires |before| == |ls| && Goes(ls, i, j, avg) && Toward(before, ls, avg, i) && Toward(before, ls, avg, j)
    ensures Gain(before, Given(ls, i, j, avg)) == Gain(before, ls) + Part(ls, i, j, avg)
  {
    var part := Part(ls, i, j, avg);
    GainUpdate(before, ls, i, ls[i] + ls[j][..part]);
    GainUpdate(before, ls[i := ls[i] + ls[j][..part]], j, ls[j][part..]);
  }

  lemma GivenMoves(before: Lists, own0: seq<nat>, ls: Lists, own: seq<nat>, i: int, j: int, avg: nat)
    requires |before| == |ls| && Owns(ls, own) && Justified(before, own0, own, avg) && Goes(ls, i, j, avg)
    requires Toward(before, ls, avg, i) && Toward(before, ls, avg, j)
    ensures var piece := ls[j][..Part(ls, i, j, avg)]; var own' := Handed(own, piece, i);
      Justified(before, own0, own', avg) && |Moved(own0, own')| == |Moved(own0, own)| + |piece|
  {
    var piece := ls[j][..Part(ls, i, j, avg)];
    var own' := Handed(own, piece, i);
    forall s | s in piece ensures s < |own| && own[s] == j == own0[s] {
      assert s in ls[j];
    }
    assert Distinct(piece) by { assert Distinct(ls[j]); }
    ElementCount(piece);
    assert Moved(own0, own') == Moved(own0, own) + Elements(piece);
    assert Moved(own0, own) !! Elements(piece);
  }

  /** The whole loop: every shard stays in exactly one list, moves only from above to below the
      average, and the number of moved shards is what the lists have gained. */
  lemma {:induction false} SpreadMoves(before: Lists, own0: seq<nat>, ls: Lists, own: seq<nat>, i: int, j: int, avg: nat) returns (own': seq<nat>)
    requires Squeezed(before, ls, i, j, avg) && Owns(ls, own) && Justified(before, own0, own, avg)
    requires |Moved(own0, own)| == Gain(before, ls)
    ensures Owns(Spread(ls, i, j, avg), own') && Justified(before, own0, own', avg)
    ensures |Moved(own0, own')| == Gain(before, Spread(ls, i, j, avg))
    decreases j - i
  {
    if Goes(ls, i, j, avg) {
      var need, extra := avg - |ls[i]|, |ls[j]| - avg;
      var i', j' := if extra >= need then i + 1 else i, if extra <= need then j - 1 else j;
      GivenSqueezed(before, ls, i, j, avg);
      GivenOwns(ls, own, i, j, avg);
      GivenGain(before, ls, i, j, avg);
      GivenMoves(before, own0, ls, own, i, j, avg);
      hide Squeezed, Owns, Justified, Moved, Gain, Handed, Given;
      own' := SpreadMoves(before, own0, Given(ls, i, j, avg), Handed(own, ls[j][..Part(ls, i, j, avg)], i), i', j', avg);
      assert Spread(ls, i, j, avg) == Spread(Given(ls, i, j, avg), i', j', avg);
    } else {
      own' := own;
    }
  }

  lemma {:induction false} GainSelf(ls: Lists)
    ensures Gain(ls, ls) == 0
  {
    if ls != [] { GainSelf(ls[..|ls| - 1]); }
  }

  lemma Unmoved(ls: Lists, own: seq<nat>, avg: nat)
    requires Owns(ls, own)
    ensures Justified(ls, own, own, avg)
  {
  }

  /** What levelling does to ranked lists. */
  lemma SpreadAll(ls: Lists, own: seq<nat>, avg: nat) returns (own': seq<nat>)
    requires Ascending(ls) && Owns(ls, own)
    ensures Owns(Spread(ls, 0, |ls| - 1, avg), own') && Justified(ls, own, own', avg)
    ensures |Moved(own, own')| == Min(Deficit(ls, avg), Surplus(ls, avg))
    ensures AllToward(ls, Spread(ls, 0, |ls| - 1, avg), avg) && Level(Spread(ls, 0, |ls| - 1, avg), avg)
  {
    hide Spread, Gain, Deficit, Surplus, Total, Level, Owns, Justified;
    var r := Spread(ls, 0, |ls| - 1, avg);
    assert Squeezed(ls, ls, 0, |ls| - 1, avg);
    assert Justified(ls, own, own, avg) by { Unmoved(ls, own, avg); }
    GainSelf(ls);
    assert Moved(own, own) == {};
    own' := SpreadMoves(ls, own, ls, own, 0, |ls| - 1, avg);
    SpreadLevels(ls, ls, 0, |ls| - 1, avg);
    SpreadTotal(ls, 0, |ls| - 1, avg);
    GainIsSmaller(ls, r, avg);
  }

  // ----- How even the result is -------------------------------------------------------------

  lemma {:induction false} GainSplit(before: Lists, ls: Lists, a: nat)
    requires |before| == |ls| && a <= |ls|
    ensures Gain(before, ls) == Gain(before[..a], ls[..a]) + Gain(before[a..], ls[a..])
  {
    if a == |ls| {
      assert before[..a] == before && ls[..a] == ls;
    } else {
      var n := |ls| - 1;
      GainSplit(before[..n], ls[..n], a);
      assert before[..n][..a] == before[..a] && ls[..n][..a] == ls[..a];
      assert before[..n][a..] == before[a..][..n - a] && ls[..n][a..] == ls[a..][..n - a];
    }
  }

  lemma {:induction false} NoLoss(before: Lists, ls: Lists)
    requires |before| == |ls| && forall k :: 0 <= k < |ls| ==> |before[k]| <= |ls[k]|
    ensures Gain(ls, before) == 0
  {
    if ls != [] { NoLoss(before[..|ls| - 1], ls[..|ls| - 1]); }
  }

  lemma {:induction false} AllLost(before: Lists, ls: Lists, avg: nat)
    requires |before| == |ls| && forall k :: 0 <= k < |ls| ==> |before[k]| >= |ls[k]| == avg
    ensures Gain(ls, before) == Surplus(before, avg)
  {
    if ls != [] { AllLost(before[..|ls| - 1], ls[..|ls| - 1], avg); }
  }

  lemma {:induction false} LossAtMost(before: Lists, ls: Lists, avg: nat)
    requires |before| == |ls| && forall k :: 0 <= k < |ls| ==> |ls[k]| >= avg
    ensures Gain(ls, before) <= Surplus(before, avg)
  {
    if ls != [] { LossAtMost(before[..|ls| - 1], ls[..|ls| - 1], avg); }
  }

  /** What the lists above place `m` have too much, and what list `m` would still have to give to
      come within one of the average. */
  function Excess(before: Lists, m: nat, avg: nat): int
    requires m < |before|
  {
    Surplus(before[m + 1..], avg) + |before[m]| - avg - 1
  }

  /** The largest lists give first, so list `m` comes within one of the average exactly when all
      that was given covers its excess. */
  lemma DonorLeft(before: Lists, ls: Lists, i: int, j: int, avg: nat, m: nat)
    requires Squeezed(before, ls, i, j, avg) && (forall k :: 0 <= k < |ls| ==> |ls[k]| >= avg) && m < |ls| && |before[m]| >= avg + 2
    ensures |ls[m]| <= avg + 1 <==> Excess(before, m, avg) <= Gain(ls, before)
  {
    assert Toward(before, ls, avg, m);
    GainSplit(ls, before, m);
    GainSplit(ls, before, m + 1);
    var up, upBefore := ls[m + 1..], before[m + 1..];
    LossAtMost(upBefore, up, avg);
    if m >= j {
      AllLost(upBefore, up, avg);
      OneMore(before, ls, m);
      if m == j { LowKeeps(before, ls, i, j, avg, m); }
    } else {
      LowKeeps(before, ls, i, j, avg, m + 1);
      assert |ls[m]| == |before[m]|;
    }
  }

  lemma OneMore(before: Lists, ls: Lists, m: nat)
    requires |before| == |ls| && m < |ls|
    ensures Gain(ls[..m + 1], before[..m + 1]) == Gain(ls[..m], before[..m]) + Max(0, |before[m]| - |ls[m]|)
  {
    assert ls[..m + 1][..m] == ls[..m] && before[..m + 1][..m] == before[..m];
  }

  lemma LowKeeps(before: Lists, ls: Lists, i: int, j: int, avg: nat, a: nat)
    requires Squeezed(before, ls, i, j, avg) && a <= j && forall k :: 0 <= k < |ls| ==> |ls[k]| >= avg
    ensures Gain(ls[..a], before[..a]) == 0
  {
    forall k | 0 <= k < a ensures |before[..a][k]| <= |ls[..a][k]| {
      assert Toward(before, ls, avg, k);
    }
    NoLoss(before[..a], ls[..a]);
  }

  lemma {:induction false} SpreadEnds(before: Lists, ls: Lists, i: int, j: int, avg: nat) returns (i': int, j': int)
    requires Squeezed(before, ls, i, j, avg)
    ensures Squeezed(before, Spread(ls, i, j, avg), i', j', avg)
    decreases j - i
  {
    if Goes(ls, i, j, avg) {
      GivenSqueezed(before, ls, i, j, avg);
      var need, extra := avg - |ls[i]|, |ls[j]| - avg;
      var a, b := if extra >= need then i + 1 else i, if extra <= need then j - 1 else j;
      hide Squeezed, Given;
      i', j' := SpreadEnds(before, Given(ls, i, j, avg), a, b, avg);
      assert Spread(ls, i, j, avg) == Spread(Given(ls, i, j, avg), a, b, avg);
    } else {
      i', j' := i, j;
    }
  }

  predicate WithinOne(ls: Lists, avg: nat) {
    forall m :: 0 <= m < |ls| ==> |ls[m]| <= avg + 1
  }

  /** The total deficit covers the excess of every list that is two or more above the average. */
  predicate Coverable(before: Lists, avg: nat) {
    forall m :: 0 <= m < |before| && |before[m]| >= avg + 2 ==> Excess(before, m, avg) <= Deficit(before, avg)
  }

  predicate AllAtLeast(ls: Lists, avg: nat) {
    forall k :: 0 <= k < |ls| ==> |ls[k]| >= avg
  }

  lemma EvenWhenCovered(before: Lists, r: Lists, i: int, j: int, avg: nat)
    requires Squeezed(before, r, i, j, avg) && AllAtLeast(r, avg) && Gain(r, before) == Deficit(before, avg)
    ensures WithinOne(r, avg) <==> Coverable(before, avg)
  {
    hide Gain, Deficit, Surplus, Excess;
    forall m | 0 <= m < |r| ensures |r[m]| <= avg + 1 <==> (|before[m]| >= avg + 2 ==> Excess(before, m, avg) <= Deficit(before, avg)) {
      assert Toward(before, r, avg, m);
      if |before[m]| >= avg + 2 { DonorLeft(before, r, i, j, avg, m); }
    }
  }

  /** When no list ends below the average, all end within one of it exactly when the deficit covers
      every excess. */
  lemma SpreadEvenIff(ls: Lists, avg: nat)
    requires Ascending(ls) && AllAtLeast(Spread(ls, 0, |ls| - 1, avg), avg)
    ensures WithinOne(Spread(ls, 0, |ls| - 1, avg), avg) <==> Coverable(ls, avg)
  {
    hide Spread, Gain, Deficit, Surplus, Total, Level, WithinOne, Coverable, Ascending;
    var r := Spread(ls, 0, |ls| - 1, avg);
    assert Squeezed(ls, ls, 0, |ls| - 1, avg);
    var i, j := SpreadEnds(ls, ls, 0, |ls| - 1, avg);
    SpreadLevels(ls, ls, 0, |ls| - 1, avg);
    SpreadTotal(ls, 0, |ls| - 1, avg);
    GainIsDeficit(ls, r, avg);
    GainBalance(ls, r);
    EvenWhenCovered(ls, r, i, j, avg);
  }

  lemma {:induction false} TotalAtLeast(ls: Lists, a: nat)
    requires AllAtLeast(ls, a)
    ensures Total(ls) >= |ls| * a
  {
    if ls != [] {
      TotalAtLeast(ls[..|ls| - 1], a);
      assert |ls| * a == (|ls| - 1) * a + a;
    }
  }
}

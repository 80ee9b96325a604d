/** Words of 64 bits and their single bits. */
module Words {

  function And(w: bv64, v: bv64): bv64 { w & v }

  function Or(w: bv64, v: bv64): bv64 { w | v }

  function AndNot(w: bv64, v: bv64): bv64 { w & !v }

  /** The word with bit `k` alone. */
  function One(k: bv6): bv64 { (1 as bv64) << k }

  function BitAt(w: bv64, k: bv6): bool {
    And(w, One(k)) != 0
  }

  function Plus(w: bv64, k: bv6): bv64 {
    Or(w, One(k))
  }

  function Minus(w: bv64, k: bv6): bv64 {
    AndNot(w, One(k))
  }

  lemma OnesApart(j: bv6, k: bv6)
    ensures One(k) != 0 && (j != k ==> And(One(j), One(k)) == 0)
  {
  }

  lemma OrApart(w: bv64, x: bv64, y: bv64)
    requires And(x, y) == 0
    ensures And(Or(w, x), y) == And(w, y)
  {
  }

  lemma AndNotApart(w: bv64, x: bv64, y: bv64)
    requires And(x, y) == 0
    ensures And(AndNot(w, x), y) == And(w, y)
  {
  }

  lemma OnSelf(w: bv64, y: bv64)
    ensures And(Or(w, y), y) == y && And(AndNot(w, y), y) == 0
  {
  }

  /** Adding or taking away bit `j` decides bit `j` and no other. */
  lemma OnlyThatBit(w: bv64, j: bv6, k: bv6)
    ensures BitAt(Plus(w, j), k) <==> BitAt(w, k) || j == k
    ensures BitAt(Minus(w, j), k) <==> BitAt(w, k) && j != k
  {
    hide And, Or, AndNot, One;
    OnesApart(j, k);
    if j == k {
      OnSelf(w, One(k));
    } else {
      OrApart(w, One(j), One(k));
      AndNotApart(w, One(j), One(k));
    }
  }

  predicate SameAt(w: bv64, v: bv64, k: bv6) {
    BitAt(w, k) == BitAt(v, k)
  }

  /** Bits 8b to 8b + 7. */
  function Octet(w: bv64, b: bv6): bv64
    requires b < 8
  {
    (w >> (8 * b)) & 0xFF
  }

  lemma EightBits(w: bv64, v: bv64, b: bv6)
    requires b < 8
    requires SameAt(w, v, 8 * b) && SameAt(w, v, 8 * b + 1) && SameAt(w, v, 8 * b + 2) && SameAt(w, v, 8 * b + 3)
    requires SameAt(w, v, 8 * b + 4) && SameAt(w, v, 8 * b + 5) && SameAt(w, v, 8 * b + 6) && SameAt(w, v, 8 * b + 7)
    ensures Octet(w, b) == Octet(v, b)
  {
  }

  lemma SameOctet(w: bv64, v: bv64, b: bv6)
    requires b < 8 && forall k: bv6 :: SameAt(w, v, k)
    ensures Octet(w, b) == Octet(v, b)
  {
    hide SameAt, Octet;
    EightBits(w, v, b);
  }

  lemma SameWord(w: bv64, v: bv64)
    requires forall k: bv6 :: SameAt(w, v, k)
    ensures w == v
  {
    hide SameAt;
    SameOctet(w, v, 0);
    SameOctet(w, v, 1);
    SameOctet(w, v, 2);
    SameOctet(w, v, 3);
    SameOctet(w, v, 4);
    SameOctet(w, v, 5);
    SameOctet(w, v, 6);
    SameOctet(w, v, 7);
  }
}

/** Sets of operation numbers as words of 64 bits. */
module Bitset {
  import opened Words

  function Minor(pos: nat): bv6 {
    (pos % 64) as bv6
  }

  lemma MinorIs(i: nat, j: nat)
    ensures Minor(i) == Minor(j) <==> i % 64 == j % 64
  {
    SmallBit(i % 64);
    SmallBit(j % 64);
  }

  lemma SmallBit(a: nat)
    requires a < 64
    ensures (a as bv6) as int == a
  {
  }

  function Bit(w: bv64, k: nat): bool {
    BitAt(w, Minor(k))
  }

  // ----- Words as a set -------------------------------------------------------------------

  predicate Member(b: seq<bv64>, pos: nat) {
    pos / 64 < |b| && Bit(b[pos / 64], pos)
  }

  function Members(b: seq<bv64>): (r: set<nat>)
    ensures forall i: nat :: i in r <==> Member(b, i)
  {
    var r := set i: nat | i < 64 * |b| && Member(b, i);
    assert forall i: nat :: Member(b, i) ==> i < 64 * |b|;
    r
  }

  function SetAt(b: seq<bv64>, pos: nat): (r: seq<bv64>)
    requires pos / 64 < |b|
    ensures |r| == |b|
  {
    b[pos / 64 := Plus(b[pos / 64], Minor(pos))]
  }

  function ClearAt(b: seq<bv64>, pos: nat): (r: seq<bv64>)
    requires pos / 64 < |b|
    ensures |r| == |b|
  {
    b[pos / 64 := Minus(b[pos / 64], Minor(pos))]
  }

  /** Setting a bit adds the position to the set, clearing it takes the position out. */
  lemma SetMember(b: seq<bv64>, pos: nat)
    requires pos / 64 < |b|
    ensures Members(SetAt(b, pos)) == Members(b) + {pos} && Members(ClearAt(b, pos)) == Members(b) - {pos}
  {
    hide BitAt, Plus, Minus, Minor;
    forall i: nat
      ensures Member(SetAt(b, pos), i) <==> Member(b, i) || i == pos
      ensures Member(ClearAt(b, pos), i) <==> Member(b, i) && i != pos
    {
      MinorIs(i, pos);
      if i / 64 == pos / 64 {
        OnlyThatBit(b[pos / 64], Minor(pos), Minor(i));
      }
    }
  }

  /** Equally long words that stand for the same set are the same words. */
  lemma SameMembers(a: seq<bv64>, b: seq<bv64>)
    requires |a| == |b| && Members(a) == Members(b)
    ensures a == b
  {
    forall i | 0 <= i < |a| ensures a[i] == b[i] {
      forall k: bv6 ensures SameAt(a[i], b[i], k) {
        var pos: nat := 64 * i + k as int;
        assert pos / 64 == i && pos % 64 == k as int && Minor(pos) == k;
        assert Member(a, pos) == Member(b, pos);
      }
      SameWord(a[i], b[i]);
    }
  }

  // ----- The operations -------------------------------------------------------------------

  method NewBitset(bits: nat) returns (b: array<bv64>)
    ensures fresh(b) && Members(b[..]) == {} && bits <= 64 * b.Length < bits + 64
  {
    var extra := 0;
    if bits % 64 != 0 { extra := 1; }
    b := new bv64[bits / 64 + extra](_ => 0);
    assert forall i: nat :: !Member(b[..], i);
  }

  method Clone(b: array<bv64>) returns (c: array<bv64>)
    ensures fresh(c) && c[..] == b[..]
  {
    c := new bv64[b.Length](i requires 0 <= i < b.Length reads b => b[i]);
  }

  method Set(b: array<bv64>, pos: nat)
    requires pos / 64 < b.Length
    modifies b
    ensures b[..] == SetAt(old(b[..]), pos)
  {
    var major, minor := pos / 64, pos % 64;
    b[major] := Plus(b[major], minor as bv6);
    hide Plus;
  }

  method Clear(b: array<bv64>, pos: nat)
    requires pos / 64 < b.Length
    modifies b
    ensures b[..] == ClearAt(old(b[..]), pos)
  {
    var major, minor := pos / 64, pos % 64;
    b[major] := Minus(b[major], minor as bv6);
    hide Minus;
  }

  method Get(b: array<bv64>, pos: nat) returns (r: bool)
    requires pos / 64 < b.Length
    ensures r <==> pos in Members(b[..])
  {
    hide BitAt;
    r := BitAt(b[pos / 64], (pos % 64) as bv6);
    assert r == Member(b[..], pos);
  }

  method Equals(a: array<bv64>, b: seq<bv64>) returns (r: bool)
    ensures r <==> a[..] == b
    ensures a.Length == |b| ==> (r <==> Members(a[..]) == Members(b))
  {
    if a.Length != |b| { return false; }
    r := true;
    for i := 0 to a.Length
      invariant r && a[..i] == b[..i]
    {
      if a[i] != b[i] {
        if Members(a[..]) == Members(b) { SameMembers(a[..], b); }
        return false;
      }
    }
  }

  // ----- Population count and hash --------------------------------------------------------

  /** The set bits of `w` below `k`. */
  function OnesUpTo(w: bv64, k: nat): nat
    requires k <= 64
  {
    if k == 0 then 0 else OnesUpTo(w, k - 1) + if Bit(w, k - 1) then 1 else 0
  }

  function Popcount(b: seq<bv64>): nat {
    if b == [] then 0 else Popcount(b[..|b| - 1]) + OnesUpTo(b[|b| - 1], 64)
  }

  /** The members that word `w` adds behind `base` earlier positions, up to bit `k`. */
  function Ones(w: bv64, base: nat, k: nat): set<nat>
    requires k <= 64
  {
    if k == 0 then {} else Ones(w, base, k - 1) + if Bit(w, k - 1) then {base + k - 1} else {}
  }

  lemma {:induction false} OnesSize(w: bv64, base: nat, k: nat)
    requires k <= 64
    ensures |Ones(w, base, k)| == OnesUpTo(w, k)
    ensures forall i: nat :: i in Ones(w, base, k) <==> base <= i < base + k && Bit(w, i - base)
  {
    hide Bit;
    if k > 0 { OnesSize(w, base, k - 1); }
  }

  /** The last word holds the positions from `64 * |front|` on. */
  lemma LastWord(front: seq<bv64>, w: bv64)
    ensures Members(front + [w]) == Members(front) + Ones(w, 64 * |front|, 64)
    ensures Members(front) !! Ones(w, 64 * |front|, 64)
  {
    hide BitAt, Minor;
    OnesSize(w, 64 * |front|, 64);
    forall i: nat ensures Member(front + [w], i) <==> Member(front, i) || i in Ones(w, 64 * |front|, 64) {
      if i / 64 == |front| { MinorIs(i, i - 64 * |front|); }
    }
  }

  /** The population count is the size of the set. */
  lemma {:induction false} PopcountIsSize(b: seq<bv64>)
    ensures Popcount(b) == |Members(b)|
  {
    if b == [] {
      assert Members(b) == {};
    } else {
      var front, w := b[..|b| - 1], b[|b| - 1];
      PopcountIsSize(front);
      assert b == front + [w];
      LastWord(front, w);
      OnesSize(w, 64 * |front|, 64);
      hide Members, Ones;
    }
  }

  function Mix(start: bv64, b: seq<bv64>): bv64 {
    if b == [] then start else Mix(start, b[..|b| - 1]) ^ b[|b| - 1]
  }

  /** The population count and the words, mixed, as an unsigned number. */
  function Hash(b: seq<bv64>): nat {
    Mix((Popcount(b) % 0x1_0000_0000_0000_0000) as bv64, b) as int
  }

  method ComputePopcount(b: array<bv64>) returns (total: nat)
    ensures total == Popcount(b[..]) == |Members(b[..])|
  {
    total := 0;
    for i := 0 to b.Length
      invariant total == Popcount(b[..i])
    {
      total := total + OnesUpTo(b[i], 64);
      assert b[..i + 1][..i] == b[..i];
    }
    assert b[..b.Length] == b[..];
    PopcountIsSize(b[..]);
  }

  method ComputeHash(b: array<bv64>) returns (r: nat)
    ensures r == Hash(b[..])
  {
    var count := ComputePopcount(b);
    var hash := MixWords((count % 0x1_0000_0000_0000_0000) as bv64, b);
    r := hash as int;
  }

  method MixWords(start: bv64, b: array<bv64>) returns (hash: bv64)
    ensures hash == Mix(start, b[..])
  {
    hash := start;
    for i := 0 to b.Length
      invariant hash == Mix(start, b[..i])
    {
      hash := hash ^ b[i];
      assert b[..i + 1][..i] == b[..i];
    }
    assert b[..b.Length] == b[..];
  }
}

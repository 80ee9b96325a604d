/** What a key holds after a sequence of writes: the value of the last put on it, followed in order
    by the values of the appends since. No step-by-step map is involved. */
module LastWrite {

  datatype Write<T> = Put(value: seq<T>) | Append(value: seq<T>)

  /** The values one behind the other. */
  function Joined<T>(ws: seq<Write<T>>): seq<T> {
    if ws == [] then [] else ws[0].value + Joined(ws[1..])
  }

  /** Where what counts begins: at the last put, or at the start if there is none. */
  ghost predicate Since<T>(ws: seq<Write<T>>, p: nat) {
    && p <= |ws|
    && (forall i :: p < i < |ws| ==> ws[i].Append?)
    && (p == 0 || (p < |ws| && ws[p].Put?))
  }

  ghost function LastPut<T>(ws: seq<Write<T>>): (p: nat)
    ensures Since(ws, p)
  {
    if |ws| <= 1 then 0
    else if ws[|ws| - 1].Put? then |ws| - 1
    else LastPut(ws[..|ws| - 1])
  }

  ghost function Standing<T>(ws: seq<Write<T>>): seq<T> {
    Joined(ws[LastPut(ws)..])
  }

  /** There is only one place to begin. */
  lemma SinceUnique<T>(ws: seq<Write<T>>, p: nat, q: nat)
    requires Since(ws, p) && Since(ws, q)
    ensures p == q
  {
  }

  lemma {:induction false} JoinedSnoc<T>(ws: seq<Write<T>>, w: Write<T>)
    ensures Joined(ws + [w]) == Joined(ws) + w.value
  {
    if ws == [] {
      assert (ws + [w])[1..] == [];
    } else {
      assert (ws + [w])[1..] == ws[1..] + [w];
      JoinedSnoc(ws[1..], w);
    }
  }

  lemma StandingPut<T>(ws: seq<Write<T>>, v: seq<T>)
    ensures Standing(ws + [Put(v)]) == v
  {
    var more := ws + [Put(v)];
    SinceUnique(more, LastPut(more), |ws|);
    assert more[|ws|..] == [Put(v)];
    JoinedSnoc([], Put(v));
    assert [] + [Put(v)] == [Put(v)];
  }

  lemma StandingAppend<T>(ws: seq<Write<T>>, v: seq<T>)
    ensures Standing(ws + [Append(v)]) == Standing(ws) + v
  {
    var more, p := ws + [Append(v)], LastPut(ws);
    SinceUnique(more, LastPut(more), p);
    assert more[p..] == ws[p..] + [Append(v)];
    JoinedSnoc(ws[p..], Append(v));
  }

  /** The map shows, for this key, what the writes on it leave; a key never written to is absent. */
  ghost predicate Shows<K, T>(m: map<K, seq<T>>, key: K, ws: seq<Write<T>>) {
    if ws == [] then key !in m else key in m && m[key] == Standing(ws)
  }

  lemma ShowsNothing<K, T>(key: K)
    ensures Shows<K, T>(map[], key, [])
  {
  }

  lemma ShowsPut<K, T>(m: map<K, seq<T>>, key: K, v: seq<T>, ws: seq<Write<T>>)
    ensures Shows(m[key := v], key, ws + [Put(v)])
  {
    StandingPut(ws, v);
  }

  lemma ShowsAppend<K, T>(m: map<K, seq<T>>, key: K, v: seq<T>, ws: seq<Write<T>>)
    requires Shows(m, key, ws)
    ensures Shows(m[key := (if key in m then m[key] else []) + v], key, ws + [Append(v)])
  {
    StandingAppend(ws, v);
    assert [] + v == v;
  }

  lemma ShowsOther<K, T>(m: map<K, seq<T>>, other: K, v: seq<T>, key: K, ws: seq<Write<T>>)
    requires Shows(m, key, ws) && key != other
    ensures Shows(m[other := v], key, ws)
  {
  }
}

/** Lists kept as numbered storage slots: list `a` occupies slots `(a, 0)`, `(a, 1)`, ... and ends at
    the first empty one. */
module Slots {
  ghost predicate EndsAt<K(!new), V>(m: map<(K, nat), V>, a: K, n: nat) {
    (a, n) !in m && forall j: nat {:trigger (a, j) in m} :: j < n ==> (a, j) in m
  }

  ghost function Beyond<K(!new), V>(m: map<(K, nat), V>, a: K, i: nat): set<(K, nat)> {
    set x | x in m && x.0 == a && i <= x.1
  }

  /** A scan of list `a` that has got to slot `i` ends. */
  lemma {:induction false} ScanEnds<K(!new), V>(m: map<(K, nat), V>, a: K, i: nat) returns (n: nat)
    requires forall j: nat :: j < i ==> (a, j) in m
    ensures EndsAt(m, a, n)
    decreases |Beyond(m, a, i)|
  {
    if (a, i) in m {
      assert Beyond(m, a, i + 1) == Beyond(m, a, i) - {(a, i)};
      n := ScanEnds(m, a, i + 1);
    } else {
      n := i;
    }
  }

  lemma SomeEnd<K(!new), V>(m: map<(K, nat), V>, a: K)
    ensures exists n: nat :: EndsAt(m, a, n)
  {
    var n := ScanEnds(m, a, 0);
  }

  /** The number of slots a scan of list `a` reads before the first empty one. */
  ghost function Count<K(!new), V>(m: map<(K, nat), V>, a: K): (n: nat)
    ensures EndsAt(m, a, n)
  {
    SomeEnd(m, a);
    var n: nat :| EndsAt(m, a, n);
    n
  }

  /** Every occupied slot is below its list's first empty slot. */
  ghost predicate NoGaps<K(!new), V>(m: map<(K, nat), V>) {
    forall x {:trigger x in m} :: x in m ==> x.1 < Count(m, x.0)
  }

  /** The first empty slot is the only one with everything below it occupied. */
  lemma CountIs<K(!new), V>(m: map<(K, nat), V>, a: K, n: nat)
    requires EndsAt(m, a, n)
    ensures Count(m, a) == n
  {
    assert !(n < Count(m, a)) && !(Count(m, a) < n);
  }

  /** Filling the first empty slot of one list extends that list by one and no other. */
  lemma AppendCounts<K(!new), V>(m: map<(K, nat), V>, a: K, v: V)
    requires NoGaps(m)
    ensures var m' := m[(a, Count(m, a)) := v];
            && NoGaps(m')
            && Count(m', a) == Count(m, a) + 1
            && forall b :: b != a ==> Count(m', b) == Count(m, b)
  {
    var n := Count(m, a);
    var m' := m[(a, n) := v];
    assert (a, n + 1) !in m;
    CountIs(m', a, n + 1);
    forall b | b != a
      ensures Count(m', b) == Count(m, b)
    {
      CountIs(m', b, Count(m, b));
    }
    forall x | x in m'
      ensures x.1 < Count(m', x.0)
    {
      if x != (a, n) {
        assert x in m && x.1 < Count(m, x.0);
      }
    }
  }

  lemma AppendNoGaps<K(!new), V>(m: map<(K, nat), V>, a: K, v: V)
    requires NoGaps(m)
    ensures NoGaps(m[(a, Count(m, a)) := v])
  {
    AppendCounts(m, a, v);
  }
}

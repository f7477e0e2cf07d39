/** The greedy cover: largest first, as few notes as possible, nothing lost. */
module Covering {
  import opened Field
  import opened Errors
  import opened Lists
  import opened Discovery
  import opened Planner

  // ---- sorting ----

  predicate Descending(xs: seq<Note>) {
    forall i, j :: 0 <= i < j < |xs| ==> xs[i].amount >= xs[j].amount
  }

  lemma {:induction false} InsertPerm(x: Note, ys: seq<Note>)
    ensures multiset(InsertDesc(x, ys)) == multiset(ys) + multiset{x}
  {
    if ys != [] {
      var n := |ys| - 1;
      InsertPerm(x, ys[..n]);
      assert ys == ys[..n] + [ys[n]];
    }
  }

  /** Everything in the list is at least `a`. */
  predicate AtLeast(xs: seq<Note>, a: nat) {
    forall i :: 0 <= i < |xs| ==> xs[i].amount >= a
  }

  lemma {:induction false} InsertDescending(x: Note, ys: seq<Note>, a: nat)
    requires Descending(ys) && AtLeast(ys, a) && x.amount >= a
    ensures Descending(InsertDesc(x, ys)) && AtLeast(InsertDesc(x, ys), a)
  {
    if ys != [] {
      var n := |ys| - 1;
      if ys[n].amount < x.amount {
        InsertDescending(x, ys[..n], ys[n].amount);
      }
    }
  }

  lemma {:induction false} SortSorted(xs: seq<Note>)
    ensures Descending(SortDesc(xs)) && multiset(SortDesc(xs)) == multiset(xs)
  {
    if xs != [] {
      var n := |xs| - 1;
      SortSorted(xs[..n]);
      InsertPerm(xs[n], SortDesc(xs[..n]));
      InsertDescending(xs[n], SortDesc(xs[..n]), 0);
      assert xs == xs[..n] + [xs[n]];
    }
  }

  function OfAmount(a: nat): Note -> bool {
    (n: Note) => n.amount == a
  }

  lemma {:induction false} InsertStable(x: Note, ys: seq<Note>, a: nat)
    ensures Filter(OfAmount(a), InsertDesc(x, ys)) == Filter(OfAmount(a), ys) + (if x.amount == a then [x] else [])
    decreases |ys|
  {
    if ys == [] {
      FilterSnoc(OfAmount(a), [], x);
      assert [] + [x] == [x];
    } else {
      var n := |ys| - 1;
      if ys[n].amount >= x.amount {
        FilterSnoc(OfAmount(a), ys, x);
      } else {
        InsertStable(x, ys[..n], a);
        FilterSnoc(OfAmount(a), InsertDesc(x, ys[..n]), ys[n]);
        FilterSnoc(OfAmount(a), ys[..n], ys[n]);
        assert ys == ys[..n] + [ys[n]];
        InsertBefore(Filter(OfAmount(a), ys[..n]), x, ys[n], a);
      }
    }
  }

  lemma InsertBefore(zs: seq<Note>, x: Note, y: Note, a: nat)
    requires y.amount < x.amount
    ensures zs + (if x.amount == a then [x] else []) + (if y.amount == a then [y] else [])
         == zs + (if y.amount == a then [y] else []) + (if x.amount == a then [x] else [])
  {
  }

  /** The sort is stable: notes of the same amount keep their order. */
  lemma {:induction false} SortStable(xs: seq<Note>, a: nat)
    ensures Filter(OfAmount(a), SortDesc(xs)) == Filter(OfAmount(a), xs)
    decreases |xs|
  {
    if xs != [] {
      var n := |xs| - 1;
      SortStable(xs[..n], a);
      InsertStable(xs[n], SortDesc(xs[..n]), a);
    }
  }

  lemma CandidatesAre(notes: seq<Note>, token: Felt)
    ensures Descending(Candidates(notes, token))
    ensures multiset(Candidates(notes, token)) == multiset(Filter(Spendable(token), notes))
    ensures forall n :: n in Candidates(notes, token) <==> n in notes && Spendable(token)(n)
    ensures NoDup(notes) ==> NoDup(Candidates(notes, token))
  {
    var some := Filter(Spendable(token), notes);
    SortSorted(some);
    assert forall n :: n in Candidates(notes, token) <==> n in multiset(Candidates(notes, token));
    FilterCounts(Spendable(token), notes);
    if NoDup(notes) {
      NoDupPerm(notes, Candidates(notes, token));
    }
  }

  // ---- sums ----

  function Sum(xs: seq<Note>): nat {
    if xs == [] then 0 else xs[0].amount + Sum(xs[1..])
  }

  lemma {:induction false} SumConcat(a: seq<Note>, b: seq<Note>)
    ensures Sum(a + b) == Sum(a) + Sum(b)
  {
    if a == [] {
      assert a + b == b;
    } else {
      SumConcat(a[1..], b);
      assert (a + b)[1..] == a[1..] + b;
    }
  }

  lemma SumWithout(xs: seq<Note>, i: nat)
    requires i < |xs|
    ensures Sum(xs) == xs[i].amount + Sum(xs[..i] + xs[i + 1..])
    ensures multiset(xs[..i] + xs[i + 1..]) == multiset(xs) - multiset{xs[i]}
  {
    SumMiddle(xs[..i], xs[i], xs[i + 1..]);
    Around(xs, i);
  }

  lemma Around(xs: seq<Note>, i: nat)
    requires i < |xs|
    ensures xs == xs[..i] + ([xs[i]] + xs[i + 1..])
  {
  }

  lemma SumMiddle(a: seq<Note>, x: Note, b: seq<Note>)
    ensures Sum(a + ([x] + b)) == x.amount + Sum(a + b)
    ensures multiset(a + b) == multiset(a + ([x] + b)) - multiset{x}
  {
    SumConcat(a, [x] + b);
    SumConcat(a, b);
    assert ([x] + b)[1..] == b;
  }

  /** No choice of at most `k` notes is worth more than the `k` largest. */
  lemma {:induction false} LargestSumMost(cs: seq<Note>, sub: seq<Note>, k: nat)
    requires Descending(cs) && multiset(sub) <= multiset(cs) && |sub| <= k <= |cs|
    ensures Sum(sub) <= Sum(cs[..k])
    decreases k
  {
    if sub != [] {
      assert cs[..k][1..] == cs[1..][..k - 1];
      var smaller := DropOne(cs, sub);
      LargestSumMost(cs[1..], smaller, k - 1);
    }
  }

  /** Some note of the choice can be given up for the largest of all. */
  lemma DropOne(cs: seq<Note>, sub: seq<Note>) returns (smaller: seq<Note>)
    requires Descending(cs) && multiset(sub) <= multiset(cs) && sub != []
    ensures |cs| > 0 && |smaller| == |sub| - 1 && multiset(smaller) <= multiset(cs[1..])
    ensures Sum(sub) <= cs[0].amount + Sum(smaller)
  {
    var x := sub[0];
    assert x in multiset(cs);
    var j :| 0 <= j < |cs| && cs[j] == x;
    var i: nat := 0;
    if cs[0] in sub {
      i :| 0 <= i < |sub| && sub[i] == cs[0];
    }
    SumWithout(sub, i);
    smaller := sub[..i] + sub[i + 1..];
    SubWithoutHead(cs, sub, sub[i], smaller);
  }

  lemma SubWithoutHead(cs: seq<Note>, sub: seq<Note>, x: Note, smaller: seq<Note>)
    requires cs != [] && multiset(sub) <= multiset(cs) && multiset(smaller) == multiset(sub) - multiset{x}
    requires cs[0] in sub ==> x == cs[0]
    ensures multiset(smaller) <= multiset(cs[1..])
  {
    assert cs == [cs[0]] + cs[1..];
    assert multiset(cs) == multiset{cs[0]} + multiset(cs[1..]);
    forall y
      ensures multiset(smaller)[y] <= multiset(cs[1..])[y]
    {
      assert multiset(sub)[y] <= multiset(cs)[y];
      if cs[0] !in sub {
        assert multiset(sub)[cs[0]] == 0;
      }
    }
  }

  // ---- the spending loop ----

  lemma {:induction false} SpendFromSpends(cs: seq<Note>, i: nat, bal: I128)
    requires i <= |cs| && SpendFrom(cs, i, bal).Ok?
    ensures var (k, left) := SpendFrom(cs, i, bal).value;
            && left == bal + Sum(cs[i..k])
            && (left < 0 ==> k == |cs|)
            && (forall j :: i <= j < k ==> bal + Sum(cs[i..j]) < 0)
    decreases |cs| - i
  {
    var (k, left) := SpendFrom(cs, i, bal).value;
    if i == |cs| || bal >= 0 {
      assert cs[i..i] == [];
    } else {
      SpendFromSpends(cs, i + 1, bal + cs[i].amount);
      forall j | i <= j < k
        ensures bal + Sum(cs[i..j]) < 0
      {
        if i < j {
          assert cs[i..j][1..] == cs[i + 1..j];
        }
      }
      assert cs[i..k][1..] == cs[i + 1..k];
    }
  }

  /** The loop fails only on a note too large for i128, and the largest comes first. */
  lemma {:induction false} SpendFromFails(cs: seq<Note>, i: nat, bal: I128)
    requires i <= |cs| && Descending(cs)
    ensures SpendFrom(cs, i, bal).Err? ==> SpendFrom(cs, i, bal) == Err(Read) && i < |cs| && bal < 0
    ensures i < |cs| && bal < 0 ==> (SpendFrom(cs, i, bal).Err? <==> cs[i].amount >= TWO_127)
    decreases |cs| - i
  {
    if i < |cs| && bal < 0 && cs[i].amount < TWO_127 {
      SpendFromFails(cs, i + 1, bal + cs[i].amount);
    }
  }

  /** What was spent is the front of the candidate list, and the loop stopped as soon as it could. */
  lemma SpentIsFront(notes: seq<Note>, token: Felt, bal: I128, spent: seq<Note>, left: I128)
    requires bal < 0 && CoverToken(notes, token, bal) == Ok((spent, left))
    ensures var cs := Candidates(notes, token);
            && 0 < |spent| <= |cs| && spent == cs[..|spent|]
            && left == bal + Sum(spent) && left >= 0
            && bal + Sum(cs[0..|spent| - 1]) < 0
  {
    var cs := Candidates(notes, token);
    SpendFromSpends(cs, 0, bal);
    assert cs[..|spent|] == cs[0..|spent|];
  }

  /** Of a token's spendable notes, those spent are the largest. */
  lemma SpentAreLargest(notes: seq<Note>, token: Felt, bal: I128, spent: seq<Note>, left: I128)
    requires bal < 0 && CoverToken(notes, token, bal) == Ok((spent, left))
    ensures multiset(spent) <= multiset(Filter(Spendable(token), notes))
    ensures forall x, y :: x in spent && y in multiset(Filter(Spendable(token), notes)) - multiset(spent) ==>
              x.amount >= y.amount
  {
    CandidatesAre(notes, token);
    SpentIsFront(notes, token, bal, spent, left);
    FrontIsLargest(Candidates(notes, token), |spent|);
  }

  lemma FrontIsLargest(cs: seq<Note>, k: nat)
    requires Descending(cs) && k <= |cs|
    ensures multiset(cs[..k]) <= multiset(cs)
    ensures forall x, y :: x in cs[..k] && y in multiset(cs) - multiset(cs[..k]) ==> x.amount >= y.amount
  {
    assert cs == cs[..k] + cs[k..];
    assert multiset(cs) - multiset(cs[..k]) == multiset(cs[k..]);
    forall x, y | x in cs[..k] && y in multiset(cs[k..])
      ensures x.amount >= y.amount
    {
      var i :| 0 <= i < k && cs[..k][i] == x;
      var j :| 0 <= j < |cs| - k && cs[k..][j] == y;
      assert cs[i] == x && cs[k + j] == y;
    }
  }

  /** Spending is as small as it can be: the change is less than any note spent, and no fewer of the
      token's spendable notes, however chosen, would cover the deficit. */
  lemma SpendingIsMinimal(notes: seq<Note>, token: Felt, bal: I128, spent: seq<Note>, left: I128, sub: seq<Note>)
    requires bal < 0 && CoverToken(notes, token, bal) == Ok((spent, left))
    requires multiset(sub) <= multiset(Filter(Spendable(token), notes)) && Sum(sub) >= -(bal as int)
    ensures left == bal + Sum(spent) && forall x :: x in spent ==> left < x.amount
    ensures |sub| >= |spent|
  {
    var cs := Candidates(notes, token);
    CandidatesAre(notes, token);
    SpentIsFront(notes, token, bal, spent, left);
    LastIsNeeded(cs, bal, |spent|);
    FewerFallShort(cs, bal, |spent|, sub);
  }

  lemma FewerFallShort(cs: seq<Note>, bal: int, k: nat, sub: seq<Note>)
    requires Descending(cs) && 0 < k <= |cs| && Sum(cs[..k - 1]) < -bal
    requires multiset(sub) <= multiset(cs) && Sum(sub) >= -bal
    ensures |sub| >= k
  {
    if |sub| < k {
      LargestSumMost(cs, sub, k - 1);
    }
  }

  lemma LastIsNeeded(cs: seq<Note>, bal: int, k: nat)
    requires Descending(cs) && 0 < k <= |cs| && bal + Sum(cs[0..k - 1]) < 0
    ensures forall x :: x in cs[..k] ==> bal + Sum(cs[..k]) < x.amount
    ensures Sum(cs[..k - 1]) < -bal
  {
    SumConcat(cs[..k - 1], [cs[k - 1]]);
    assert cs[..k] == cs[..k - 1] + [cs[k - 1]];
    assert cs[0..k - 1] == cs[..k - 1];
  }

  lemma SpendFromTop(cs: seq<Note>, bal: I128)
    requires bal < 0 && Descending(cs)
    ensures SpendFrom(cs, 0, bal).Err? <==> |cs| > 0 && cs[0].amount >= TWO_127
    ensures SpendFrom(cs, 0, bal).Err? ==> SpendFrom(cs, 0, bal) == Err(Read)
    ensures SpendFrom(cs, 0, bal).Ok? ==>
              var left := SpendFrom(cs, 0, bal).value.1;
              if Sum(cs) < -(bal as int) then left == bal + Sum(cs) && left < 0 else left >= 0
  {
    SpendFromFails(cs, 0, bal);
    if SpendFrom(cs, 0, bal).Ok? {
      SpendFromSpends(cs, 0, bal);
      var (k, left) := SpendFrom(cs, 0, bal).value;
      assert cs[0..|cs|] == cs;
      SumConcat(cs[0..k], cs[k..]);
      assert cs == cs[0..k] + cs[k..];
    }
  }

  predicate Oversize(notes: seq<Note>, token: Felt) {
    exists n :: n in notes && Spendable(token)(n) && n.amount >= TWO_127
  }

  /** A deficit is refused exactly when all spendable notes together fall short of it (or one of them
      is too large to count), and the reported shortfall is exactly the gap. */
  lemma RefusedExactlyWhenShort(notes: seq<Note>, token: Felt, bal: I128)
    requires bal < 0
    ensures var held := Sum(Filter(Spendable(token), notes));
            var r := CoverToken(notes, token, bal);
            if Oversize(notes, token) then r == Err(Read)
            else if held < -(bal as int) then
              r == Err(InsufficientBalance(token, -(bal as int) - held, Available(notes, token)))
            else r.Ok?
  {
    var cs := Candidates(notes, token);
    OversizeOnTop(notes, token, cs);
    SpendFromTop(cs, bal);
  }

  lemma OversizeOnTop(notes: seq<Note>, token: Felt, cs: seq<Note>)
    requires cs == Candidates(notes, token)
    ensures Descending(cs) && Sum(cs) == Sum(Filter(Spendable(token), notes))
    ensures Oversize(notes, token) <==> |cs| > 0 && cs[0].amount >= TWO_127
  {
    CandidatesAre(notes, token);
    SumPerm(Filter(Spendable(token), notes), cs);
    if Oversize(notes, token) {
      var n :| n in notes && Spendable(token)(n) && n.amount >= TWO_127;
      assert n in cs;
    }
    if |cs| > 0 {
      assert cs[0] in cs;
    }
  }

  lemma {:induction false} SumPerm(xs: seq<Note>, ys: seq<Note>)
    requires multiset(xs) == multiset(ys)
    ensures Sum(xs) == Sum(ys)
    decreases |xs|
  {
    if xs == [] {
      assert |multiset(ys)| == 0;
    } else {
      assert xs == [xs[0]] + xs[1..];
      assert xs[0] in multiset(ys);
      var i :| 0 <= i < |ys| && ys[i] == xs[0];
      SumWithout(ys, i);
      SumPerm(xs[1..], ys[..i] + ys[i + 1..]);
    }
  }
}

/** Sequence facts shared by the encoders and the planner. */
module Lists {
  import opened Field

  /** The given sequences one after another. */
  function Concat<T>(xs: seq<seq<T>>): seq<T> {
    if xs == [] then [] else Concat(xs[..|xs| - 1]) + xs[|xs| - 1]
  }

  function MapSeq<T, R>(f: T -> R, xs: seq<T>): (ys: seq<R>)
    ensures |ys| == |xs| && forall i :: 0 <= i < |xs| ==> ys[i] == f(xs[i])
  {
    seq(|xs|, i requires 0 <= i < |xs| => f(xs[i]))
  }

  lemma ConcatSnoc<T>(xs: seq<seq<T>>, x: seq<T>)
    ensures Concat(xs + [x]) == Concat(xs) + x
  {
    assert (xs + [x])[..|xs|] == xs;
  }

  lemma {:induction false} ConcatCons<T>(x: seq<T>, xs: seq<seq<T>>)
    ensures Concat([x] + xs) == x + Concat(xs)
  {
    if xs == [] {
      assert ([x] + xs)[..0] == [];
    } else {
      var n := |xs| - 1;
      assert ([x] + xs)[..n + 1] == [x] + xs[..n];
      ConcatCons(x, xs[..n]);
    }
  }

  // ---- lists of items that are read off the front one at a time ----

  function ReadMany<S, T>(one: seq<S> -> Option<(T, seq<S>)>, n: nat, s: seq<S>): (r: Option<(seq<T>, seq<S>)>)
    ensures r.Some? ==> |r.value.0| == n
  {
    if n == 0 then Some(([], s))
    else
      match one(s)
      case None => None
      case Some((x, rest)) =>
        match ReadMany(one, n - 1, rest)
        case None => None
        case Some((more, tail)) => Some(([x] + more, tail))
  }

  /** `one` reads back exactly what `enc` writes, and nothing else. */
  ghost predicate Inverse<S(!new), T(!new)>(one: seq<S> -> Option<(T, seq<S>)>, enc: T -> seq<S>) {
    && (forall x, rest :: one(enc(x) + rest) == Some((x, rest)))
    && (forall s :: one(s).Some? ==> s == enc(one(s).value.0) + one(s).value.1)
  }

  lemma EncodedCons<S(!new), T(!new)>(enc: T -> seq<S>, x: T, more: seq<T>, tail: seq<S>)
    ensures Concat(MapSeq(enc, [x] + more)) + tail == enc(x) + (Concat(MapSeq(enc, more)) + tail)
  {
    assert MapSeq(enc, [x] + more) == [enc(x)] + MapSeq(enc, more);
    ConcatCons(enc(x), MapSeq(enc, more));
  }

  lemma MapSnoc<T, R>(f: T -> R, xs: seq<T>)
    requires xs != []
    ensures MapSeq(f, xs) == MapSeq(f, xs[..|xs| - 1]) + [f(xs[|xs| - 1])]
  {
  }

  lemma MapPlus<T, R>(f: T -> R, xs: seq<T>, x: T)
    ensures MapSeq(f, xs + [x]) == MapSeq(f, xs) + [f(x)]
  {
  }

  lemma {:induction false} ReadManyEncoded<S(!new), T(!new)>(
      one: seq<S> -> Option<(T, seq<S>)>, enc: T -> seq<S>, xs: seq<T>, rest: seq<S>)
    requires Inverse(one, enc)
    ensures ReadMany(one, |xs|, Concat(MapSeq(enc, xs)) + rest) == Some((xs, rest))
  {
    if xs == [] {
      assert Concat(MapSeq(enc, xs)) + rest == rest;
    } else {
      var x, more := xs[0], xs[1..];
      assert xs == [x] + more;
      EncodedCons(enc, x, more, rest);
      ReadManyEncoded(one, enc, more, rest);
    }
  }

  lemma {:induction false} ReadManyCanonical<S(!new), T(!new)>(
      one: seq<S> -> Option<(T, seq<S>)>, enc: T -> seq<S>, n: nat, s: seq<S>)
    requires Inverse(one, enc)
    requires ReadMany(one, n, s).Some?
    ensures var (xs, rest) := ReadMany(one, n, s).value; |xs| == n && s == Concat(MapSeq(enc, xs)) + rest
  {
    if n > 0 {
      var (x, rest) := one(s).value;
      ReadManyCanonical(one, enc, n - 1, rest);
      var (more, tail) := ReadMany(one, n - 1, rest).value;
      EncodedCons(enc, x, more, tail);
    }
  }

  // ---- selections and repetitions ----

  /** No element occurs twice. */
  predicate NoDup<T(==)>(xs: seq<T>) {
    xs == [] || (xs[|xs| - 1] !in xs[..|xs| - 1] && NoDup(xs[..|xs| - 1]))
  }

  lemma {:induction false} NoDupCounts<T>(xs: seq<T>, x: T)
    requires NoDup(xs)
    ensures multiset(xs)[x] == if x in xs then 1 else 0
  {
    if xs != [] {
      var last := xs[|xs| - 1];
      NoDupCounts(xs[..|xs| - 1], x);
      assert xs == xs[..|xs| - 1] + [last];
    }
  }

  lemma {:induction false} NoDupConcat<T(!new)>(xs: seq<T>, ys: seq<T>)
    requires NoDup(xs) && NoDup(ys) && forall x :: x in xs ==> x !in ys
    ensures NoDup(xs + ys)
  {
    if ys == [] {
      assert xs + ys == xs;
    } else {
      var n := |ys| - 1;
      NoDupConcat(xs, ys[..n]);
      assert (xs + ys)[..|xs| + n] == xs + ys[..n];
      assert ys[n] in ys;
    }
  }

  lemma {:induction false} CountsNoDup<T(!new)>(xs: seq<T>)
    requires forall x :: multiset(xs)[x] <= 1
    ensures NoDup(xs)
  {
    if xs != [] {
      var init, last := xs[..|xs| - 1], xs[|xs| - 1];
      assert xs == init + [last];
      assert forall x :: multiset(init)[x] <= multiset(xs)[x];
      assert multiset(xs)[last] == multiset(init)[last] + 1;
      CountsNoDup(init);
    }
  }

  /** A rearrangement of a list without repetitions has none. */
  lemma NoDupPerm<T(!new)>(xs: seq<T>, ys: seq<T>)
    requires NoDup(xs) && multiset(ys) <= multiset(xs)
    ensures NoDup(ys)
  {
    forall x
      ensures multiset(ys)[x] <= 1
    {
      NoDupCounts(xs, x);
    }
    CountsNoDup(ys);
  }

  function Filter<T(!new)>(keep: T -> bool, xs: seq<T>): (ys: seq<T>)
    ensures forall x :: x in ys <==> x in xs && keep(x)
  {
    if xs == [] then []
    else Filter(keep, xs[..|xs| - 1]) + (if keep(xs[|xs| - 1]) then [xs[|xs| - 1]] else [])
  }

  lemma {:induction false} FilterCounts<T(!new)>(keep: T -> bool, xs: seq<T>)
    ensures multiset(Filter(keep, xs)) <= multiset(xs)
  {
    if xs != [] {
      FilterCounts(keep, xs[..|xs| - 1]);
      assert xs == xs[..|xs| - 1] + [xs[|xs| - 1]];
    }
  }

  lemma {:induction false} FilterConcat<T(!new)>(keep: T -> bool, xs: seq<T>, ys: seq<T>)
    ensures Filter(keep, xs + ys) == Filter(keep, xs) + Filter(keep, ys)
  {
    if ys == [] {
      assert xs + ys == xs;
    } else {
      var n := |ys| - 1;
      var last := if keep(ys[n]) then [ys[n]] else [];
      FilterConcat(keep, xs, ys[..n]);
      assert (xs + ys)[..|xs| + n] == xs + ys[..n];
      assert Filter(keep, xs + ys) == Filter(keep, xs + ys[..n]) + last;
    }
  }

  lemma {:induction false} FilterAll<T(!new)>(keep: T -> bool, xs: seq<T>)
    requires forall i :: 0 <= i < |xs| ==> keep(xs[i])
    ensures Filter(keep, xs) == xs
    decreases |xs|, 1
  {
    if xs != [] {
      var n := |xs| - 1;
      assert xs == xs[..n] + [xs[n]];
      FilterAllSnoc(keep, xs[..n], xs[n]);
    }
  }

  lemma {:induction false} FilterAllSnoc<T(!new)>(keep: T -> bool, init: seq<T>, x: T)
    requires keep(x) && forall i :: 0 <= i < |init| ==> keep(init[i])
    ensures Filter(keep, init + [x]) == init + [x]
    decreases |init + [x]|, 0
  {
    FilterAll(keep, init);
    FilterSnoc(keep, init, x);
  }

  lemma FilterNone<T(!new)>(keep: T -> bool, xs: seq<T>)
    requires forall x :: x in xs ==> !keep(x)
    ensures Filter(keep, xs) == []
  {
    assert forall x :: x !in Filter(keep, xs);
  }

  /** Filtering by the stricter test alone is the same as filtering twice. */
  lemma {:induction false} FilterTwice<T(!new)>(keep: T -> bool, strict: T -> bool, xs: seq<T>)
    requires forall x :: x in xs && strict(x) ==> keep(x)
    ensures Filter(strict, Filter(keep, xs)) == Filter(strict, xs)
  {
    if xs != [] {
      var n := |xs| - 1;
      FilterTwice(keep, strict, xs[..n]);
      FilterConcat(strict, Filter(keep, xs[..n]), if keep(xs[n]) then [xs[n]] else []);
      FilterOne(strict, xs[n]);
    }
  }

  lemma FilterSnoc<T(!new)>(keep: T -> bool, xs: seq<T>, x: T)
    ensures Filter(keep, xs + [x]) == Filter(keep, xs) + (if keep(x) then [x] else [])
  {
    assert (xs + [x])[..|xs|] == xs;
  }

  lemma FilterOne<T(!new)>(keep: T -> bool, x: T)
    ensures Filter(keep, [x]) == if keep(x) then [x] else []
  {
    assert [x][..0] == [];
  }

  // ---- lists made of blocks ----

  lemma ConcatTake<T>(xss: seq<seq<T>>, i: nat)
    requires i < |xss|
    ensures Concat(xss[..i + 1]) == Concat(xss[..i]) + xss[i]
  {
    assert xss[..i + 1][..i] == xss[..i];
  }

  lemma {:induction false} ConcatHas<T>(xss: seq<seq<T>>, i: nat, x: T)
    requires i < |xss| && x in xss[i]
    ensures x in Concat(xss)
  {
    if i < |xss| - 1 {
      ConcatHas(xss[..|xss| - 1], i, x);
    }
  }

  lemma {:induction false} ConcatFrom<T>(xss: seq<seq<T>>, x: T) returns (i: nat)
    requires x in Concat(xss)
    ensures i < |xss| && x in xss[i]
  {
    var n := |xss| - 1;
    if x in xss[n] {
      i := n;
    } else {
      i := ConcatFrom(xss[..n], x);
    }
  }

  /** Blocks without repetitions whose elements tell which block they are in. */
  ghost predicate Ranked<T(!new)>(xss: seq<seq<T>>, rank: T -> nat) {
    forall i :: 0 <= i < |xss| ==> NoDup(xss[i]) && forall x :: x in xss[i] ==> rank(x) == i
  }

  lemma {:induction false} ConcatNoDup<T(!new)>(xss: seq<seq<T>>, rank: T -> nat)
    requires Ranked(xss, rank)
    ensures NoDup(Concat(xss)) && forall x :: x in Concat(xss) ==> rank(x) < |xss|
  {
    if xss != [] {
      var n := |xss| - 1;
      ConcatNoDup(xss[..n], rank);
      NoDupConcat(Concat(xss[..n]), xss[n]);
    }
  }

  lemma {:induction false} ConcatFilter<T(!new)>(keep: T -> bool, xss: seq<seq<T>>, yss: seq<seq<T>>)
    requires |xss| == |yss| && forall i :: 0 <= i < |xss| ==> yss[i] == Filter(keep, xss[i])
    ensures Concat(yss) == Filter(keep, Concat(xss))
  {
    if xss != [] {
      var n := |xss| - 1;
      ConcatFilter(keep, xss[..n], yss[..n]);
      FilterConcat(keep, Concat(xss[..n]), xss[n]);
    }
  }
}

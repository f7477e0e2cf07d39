/** Amounts moving in and out, per token. */
module Ledger {
  import opened Field
  import opened Lists

  datatype Flow = Flow(token: Felt, amount: int)

  /** The sum of the flows in one token. */
  function Total(flows: seq<Flow>, token: Felt): int {
    if flows == [] then 0
    else
      var f := flows[|flows| - 1];
      Total(flows[..|flows| - 1], token) + (if f.token == token then f.amount else 0)
  }

  function NetOf(net: map<Felt, int>, token: Felt): int {
    if token in net then net[token] else 0
  }

  function Credit(net: map<Felt, int>, token: Felt, amount: int): map<Felt, int> {
    net[token := NetOf(net, token) + amount]
  }

  function CreditAll(net: map<Felt, int>, flows: seq<Flow>): map<Felt, int> {
    if flows == [] then net
    else
      var f := flows[|flows| - 1];
      Credit(CreditAll(net, flows[..|flows| - 1]), f.token, f.amount)
  }

  /** Crediting one flow after another ends at the sums. */
  lemma {:induction false} CreditAllTotals(net: map<Felt, int>, flows: seq<Flow>, token: Felt)
    ensures NetOf(CreditAll(net, flows), token) == NetOf(net, token) + Total(flows, token)
    ensures token in CreditAll(net, flows) <==> token in net || exists f :: f in flows && f.token == token
  {
    if flows != [] {
      var n := |flows| - 1;
      CreditAllTotals(net, flows[..n], token);
      assert flows == flows[..n] + [flows[n]];
    }
  }

  lemma {:induction false} TotalConcat(a: seq<Flow>, b: seq<Flow>, token: Felt)
    ensures Total(a + b, token) == Total(a, token) + Total(b, token)
  {
    if b == [] {
      assert a + b == a;
    } else {
      var n := |b| - 1;
      TotalConcat(a, b[..n], token);
      assert (a + b)[..|a| + n] == a + b[..n];
    }
  }

  /** What a list of things moves in one token, given what each of them moves. */
  function Moved<A(!new)>(flow: A -> Flow, xs: seq<A>, token: Felt): int {
    Total(MapSeq(flow, xs), token)
  }

  function In(f: Flow, token: Felt): int {
    if f.token == token then f.amount else 0
  }

  lemma MovedConcat<A(!new)>(flow: A -> Flow, xs: seq<A>, ys: seq<A>, token: Felt)
    ensures Moved(flow, xs + ys, token) == Moved(flow, xs, token) + Moved(flow, ys, token)
  {
    TotalConcat(MapSeq(flow, xs), MapSeq(flow, ys), token);
    assert MapSeq(flow, xs + ys) == MapSeq(flow, xs) + MapSeq(flow, ys);
  }

  lemma MovedOne<A(!new)>(flow: A -> Flow, x: A, token: Felt)
    ensures Moved(flow, [x], token) == In(flow(x), token)
  {
    assert MapSeq(flow, [x]) == [flow(x)];
    assert Total([flow(x)], token) == Total([flow(x)][..0], token) + In(flow(x), token);
  }

  lemma MovedSnoc<A(!new)>(flow: A -> Flow, xs: seq<A>, x: A, token: Felt)
    ensures Moved(flow, xs + [x], token) == Moved(flow, xs, token) + In(flow(x), token)
  {
    MovedConcat(flow, xs, [x], token);
    MovedOne(flow, x, token);
  }

  lemma MovedNone<A(!new)>(flow: A -> Flow, token: Felt)
    ensures Moved(flow, [], token) == 0
  {
    assert MapSeq(flow, []) == [];
  }

  /** Lists whose elements move the same, one by one, move the same in all. */
  lemma MovedSame<A(!new), B(!new)>(f: A -> Flow, xs: seq<A>, g: B -> Flow, ys: seq<B>, token: Felt)
    requires |xs| == |ys| && forall i :: 0 <= i < |xs| ==> f(xs[i]) == g(ys[i])
    ensures Moved(f, xs, token) == Moved(g, ys, token)
  {
    assert MapSeq(f, xs) == MapSeq(g, ys);
  }

  lemma {:induction false} MovedNothing<A(!new)>(flow: A -> Flow, xs: seq<A>, token: Felt)
    requires forall x :: x in xs ==> In(flow(x), token) == 0
    ensures Moved(flow, xs, token) == 0
  {
    if xs == [] {
      MovedNone(flow, token);
    } else {
      var k := |xs| - 1;
      MovedNothing(flow, xs[..k], token);
      MovedSnoc(flow, xs[..k], xs[k], token);
      assert xs == xs[..k] + [xs[k]];
    }
  }
}

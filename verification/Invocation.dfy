/** The two outer layers: the SNIP-6 multicall, and the pool's own `compile_actions` call inside it. */
module Invocation {
  import opened Field
  import opened Lists
  import opened Actions

  datatype RawCall = Call(to: Felt, selector: Felt, calldata: seq<Felt>)

  /** A call; its calldata length fits the 64-bit length prefix. */
  type Call = c: RawCall | |c.calldata| < TWO_64 witness Call(0, 0, [])

  function EncodeCall(c: Call): seq<Felt> {
    [c.to, c.selector, |c.calldata| as Felt] + c.calldata
  }

  function CallsBody(calls: seq<Call>): seq<Felt> {
    Concat(MapSeq(EncodeCall, calls))
  }

  function MultiCall(calls: seq<Call>): seq<Felt>
    requires |calls| < TWO_64
  {
    [|calls| as Felt] + CallsBody(calls)
  }

  method EncodeCalls(calls: seq<Call>) returns (out: seq<Felt>)
    requires |calls| < TWO_64
    ensures out == MultiCall(calls)
  {
    out := [|calls|];
    for i := 0 to |calls|
      invariant out == [|calls| as Felt] + CallsBody(calls[..i])
    {
      var call := calls[i];
      ConcatSnoc(MapSeq(EncodeCall, calls[..i]), EncodeCall(call));
      assert MapSeq(EncodeCall, calls[..i + 1]) == MapSeq(EncodeCall, calls[..i]) + [EncodeCall(call)];
      out := out + [call.to];
      out := out + [call.selector];
      var len: Felt := |call.calldata|;
      out := out + [len];
      out := out + call.calldata;
    }
    assert calls[..|calls|] == calls;
  }

  // ---- the receiving side ----

  function DecodeCall(s: seq<Felt>): Option<(Call, seq<Felt>)> {
    if |s| < 3 || |s| - 3 < s[2] || s[2] >= TWO_64 then None
    else
      var end: nat := 3 + s[2] as int;
      Some((Call(s[0], s[1], s[3..end]), s[end..]))
  }

  function DecodeMultiCall(s: seq<Felt>): (r: Option<seq<Call>>)
    ensures r.Some? ==> |r.value| < TWO_64
  {
    if s == [] || s[0] >= TWO_64 then None
    else
      match ReadMany(DecodeCall, s[0], s[1..])
      case None => None
      case Some((calls, rest)) => if rest == [] then Some(calls) else None
  }

  lemma DecodeCallEncoded(c: Call, rest: seq<Felt>)
    ensures DecodeCall(EncodeCall(c) + rest) == Some((c, rest))
  {
    var s := EncodeCall(c) + rest;
    var k := |c.calldata|;
    assert s[2] == k && s[3..3 + k] == c.calldata && s[3 + k..] == rest;
  }

  lemma CallsInverse()
    ensures Inverse(DecodeCall, EncodeCall)
  {
    forall c, rest
      ensures DecodeCall(EncodeCall(c) + rest) == Some((c, rest))
    {
      DecodeCallEncoded(c, rest);
    }
  }

  lemma MultiCallRoundTrip(calls: seq<Call>, s: seq<Felt>)
    requires |calls| < TWO_64
    ensures DecodeMultiCall(s) == Some(calls) <==> s == MultiCall(calls)
  {
    CallsInverse();
    if s == MultiCall(calls) {
      assert s[1..] == CallsBody(calls) + [];
      ReadManyEncoded(DecodeCall, EncodeCall, calls, []);
    }
    if DecodeMultiCall(s) == Some(calls) {
      ReadManyCanonical(DecodeCall, EncodeCall, s[0], s[1..]);
      assert s == [s[0]] + s[1..];
    }
  }

  // ---- the proof invocation ----

  datatype ProofInvocation = ProofInvocation(pool: Felt, nonce: Felt, calldata: seq<Felt>) {
    /** The call the signed hash is computed from. */
    function InnerCall(): Call
      requires 4 <= |calldata| < TWO_64
    {
      Call(calldata[1], calldata[2], calldata[4..])
    }
  }

  /** `compile_actions(user, viewing key, actions)`; the action list is what `SerializeActions` returns. */
  method NewInvocation(pool: Felt, selector: Felt, nonce: Felt, user: Felt, sk: Felt, actions: seq<ClientAction>)
    returns (inv: ProofInvocation)
    requires |Body(actions)| + 7 < TWO_64 && |actions| < TWO_64
    ensures inv.pool == pool && inv.nonce == nonce
    ensures DecodeInvocation(inv.calldata) == Some((pool, selector, user, sk, actions))
    ensures 4 <= |inv.calldata| < TWO_64 && inv.InnerCall().to == pool && inv.InnerCall().selector == selector
    ensures MultiCall([inv.InnerCall()]) == inv.calldata
    ensures |EncodedList(actions)| + 2 < TWO_64
    ensures inv.calldata == [1, pool, selector, (|EncodedList(actions)| + 2) as Felt, user, sk] + EncodedList(actions)
  {
    var inner := [user, sk];
    var list := SerializeActions(actions);
    inner := inner + list;
    var call := Call(pool, selector, inner);
    var calldata := EncodeCalls([call]);
    inv := ProofInvocation(pool, nonce, calldata);
    OneCall(call);
    MultiCallRoundTrip([call], calldata);
    ListRoundTrip(actions, list);
    assert inner[2..] == list;
  }

  lemma OneCall(call: Call)
    ensures MultiCall([call]) == [1, call.to, call.selector, |call.calldata| as Felt] + call.calldata
    ensures MultiCall([call])[4..] == call.calldata
  {
    var calls: seq<Call> := [call];
    ConcatSnoc([], EncodeCall(call));
    assert MapSeq(EncodeCall, calls) == [] + [EncodeCall(call)];
  }

  /** All three layers read back: one call, its first two arguments, then the action list. */
  function DecodeInvocation(s: seq<Felt>): Option<(Felt, Felt, Felt, Felt, seq<ClientAction>)> {
    match DecodeMultiCall(s)
    case None => None
    case Some(calls) =>
      if |calls| != 1 || |calls[0].calldata| < 2 then None
      else
        match DecodeList(calls[0].calldata[2..])
        case None => None
        case Some(actions) =>
          Some((calls[0].to, calls[0].selector, calls[0].calldata[0], calls[0].calldata[1], actions))
  }

  /** No two batches share calldata: whatever decodes to a batch is that batch's own encoding, so a
      signature over the calldata covers pool, user, viewing key and every action. */
  lemma InvocationInjective(s: seq<Felt>, t: seq<Felt>)
    requires DecodeInvocation(s).Some? && DecodeInvocation(s) == DecodeInvocation(t)
    ensures s == t
  {
    var a, b := DecodeMultiCall(s).value, DecodeMultiCall(t).value;
    var x, y := a[0].calldata, b[0].calldata;
    var actions := DecodeList(x[2..]).value;
    ListRoundTrip(actions, x[2..]);
    ListRoundTrip(actions, y[2..]);
    assert x == [x[0], x[1]] + x[2..] && y == [y[0], y[1]] + y[2..];
    assert a == [a[0]] && b == [b[0]];
    MultiCallRoundTrip(a, s);
    MultiCallRoundTrip(b, t);
  }
}

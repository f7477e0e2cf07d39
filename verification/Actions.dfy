/** Client actions and their Cairo encoding: `[variant, fields...]`, a list prefixed by its length. */
module Actions {
  import opened Field
  import opened Lists

  datatype ClientAction =
    | SetViewingKey(random: Felt)
    | OpenChannel(recipient: Felt, index: U32, random: Felt, salt: Felt)
    | OpenSubchannel(recipient: Felt, recipientPk: Felt, key: Felt, index: U32, token: Felt, salt: Felt)
    | CreateEncNote(recipient: Felt, recipientPk: Felt, token: Felt, amount: U128, index: U32, noteSalt: U128)
    | Deposit(token: Felt, amount: U128)
    | UseNote(key: Felt, token: Felt, index: U32)
    | Withdraw(to: Felt, token: Felt, amount: U128, random: Felt)
  {
    /** Index of the variant in the pool's enum; 4, 8 and 9 are variants the client never sends. */
    function Variant(): Felt {
      match this
      case SetViewingKey(_) => 0
      case OpenChannel(_, _, _, _) => 1
      case OpenSubchannel(_, _, _, _, _, _) => 2
      case CreateEncNote(_, _, _, _, _, _) => 3
      case Deposit(_, _) => 5
      case UseNote(_, _, _) => 6
      case Withdraw(_, _, _, _) => 7
    }

    /** The pool's execution phase: account 0, channel 1, subchannel 2, deposit 3, spend 4, create 5, withdraw 6. */
    function Phase(): nat {
      match this
      case SetViewingKey(_) => 0
      case OpenChannel(_, _, _, _) => 1
      case OpenSubchannel(_, _, _, _, _, _) => 2
      case Deposit(_, _) => 3
      case UseNote(_, _, _) => 4
      case CreateEncNote(_, _, _, _, _, _) => 5
      case Withdraw(_, _, _, _) => 6
    }

    function Fields(): seq<Felt> {
      match this
      case SetViewingKey(r) => [r]
      case OpenChannel(to, i, r, s) => [to, i, r, s]
      case OpenSubchannel(to, pk, k, i, t, s) => [to, pk, k, i, t, s]
      case CreateEncNote(to, pk, t, a, i, s) => [to, pk, t, a, i, s]
      case Deposit(t, a) => [t, a]
      case UseNote(k, t, i) => [k, t, i]
      case Withdraw(to, t, a, r) => [to, t, a, r]
    }

    function Encoded(): seq<Felt> {
      [Variant()] + Fields()
    }
  }

  /** The actions come in the order the pool runs its phases. */
  ghost predicate PhaseOrdered(actions: seq<ClientAction>) {
    forall i, j :: 0 <= i < j < |actions| ==> actions[i].Phase() <= actions[j].Phase()
  }

  function Encode(a: ClientAction): seq<Felt> {
    a.Encoded()
  }

  /** The actions' encodings one after another. */
  function Body(actions: seq<ClientAction>): seq<Felt> {
    Concat(MapSeq(Encode, actions))
  }

  lemma BodySnoc(actions: seq<ClientAction>, a: ClientAction)
    ensures Body(actions + [a]) == Body(actions) + Encode(a)
  {
    ConcatSnoc(MapSeq(Encode, actions), Encode(a));
    assert MapSeq(Encode, actions + [a]) == MapSeq(Encode, actions) + [Encode(a)];
  }

  lemma BodyTake(actions: seq<ClientAction>, i: nat)
    requires i < |actions|
    ensures Body(actions[..i + 1]) == Body(actions[..i]) + actions[i].Encoded()
  {
    BodySnoc(actions[..i], actions[i]);
    assert actions[..i + 1] == actions[..i] + [actions[i]];
  }

  lemma OneMore(actions: seq<ClientAction>, i: nat, out: seq<Felt>, code: seq<Felt>)
    requires i < |actions| < TWO_64 && code == actions[i].Encoded()
    requires out == [|actions| as Felt] + Body(actions[..i])
    ensures out + code == [|actions| as Felt] + Body(actions[..i + 1])
  {
    BodyTake(actions, i);
  }

  function EncodedList(actions: seq<ClientAction>): seq<Felt>
    requires |actions| < TWO_64
  {
    [|actions| as Felt] + Body(actions)
  }

  /** The wire layout: variant number, then the fields in the order the pool's enum has them. */
  lemma WireLayout(to: Felt, pk: Felt, key: Felt, token: Felt, random: Felt, salt: Felt, i: U32, amount: U128,
                   noteSalt: U128)
    ensures SetViewingKey(random).Encoded() == [0, random]
    ensures OpenChannel(to, i, random, salt).Encoded() == [1, to, i, random, salt]
    ensures OpenSubchannel(to, pk, key, i, token, salt).Encoded() == [2, to, pk, key, i, token, salt]
    ensures CreateEncNote(to, pk, token, amount, i, noteSalt).Encoded() == [3, to, pk, token, amount, i, noteSalt]
    ensures Deposit(token, amount).Encoded() == [5, token, amount]
    ensures UseNote(key, token, i).Encoded() == [6, key, token, i]
    ensures Withdraw(to, token, amount, random).Encoded() == [7, to, token, amount, random]
  {
  }

  /** A viewing key and a deposit of 10^18, as the repository's own example has them. */
  lemma TwoActions()
    ensures EncodedList([SetViewingKey(9), Deposit(0x4718, 1_000_000_000_000_000_000)])
         == [2, 0, 9, 5, 0x4718, 1_000_000_000_000_000_000]
  {
    var a, b := SetViewingKey(9), Deposit(0x4718, 1_000_000_000_000_000_000);
    var none: seq<ClientAction> := [];
    BodySnoc(none, a);
    BodySnoc([a], b);
    assert none + [a] == [a] && [a] + [b] == [a, b];
  }

  /** Append one action to `out`. */
  method Serialize(a: ClientAction, out: seq<Felt>) returns (out': seq<Felt>)
    ensures out' == out + a.Encoded()
  {
    out' := out + [a.Variant()];
    match a {
      case SetViewingKey(r) => out' := out' + [r];
      case OpenChannel(to, i, r, s) => out' := out' + [to, i, r, s];
      case OpenSubchannel(to, pk, k, i, t, s) => out' := out' + [to, pk, k, i, t, s];
      case CreateEncNote(to, pk, t, am, i, s) => out' := out' + [to, pk, t, am, i, s];
      case Deposit(t, am) => out' := out' + [t, am];
      case UseNote(k, t, i) => out' := out' + [k, t, i];
      case Withdraw(to, t, am, r) => out' := out' + [to, t, am, r];
    }
  }

  method SerializeActions(actions: seq<ClientAction>) returns (out: seq<Felt>)
    requires |actions| < TWO_64
    ensures out == EncodedList(actions)
  {
    out := [|actions|];
    for i := 0 to |actions|
      invariant out == [|actions| as Felt] + Body(actions[..i])
    {
      ghost var before := out;
      out := Serialize(actions[i], out);
      OneMore(actions, i, before, actions[i].Encoded());
    }
    assert actions[..|actions|] == actions;
  }

  // ---- the receiving side: the reference the encoding is measured against ----

  /** Reads one action off the front: a variant number, then that variant's fields, each in range. */
  function DecodeOne(s: seq<Felt>): Option<(ClientAction, seq<Felt>)> {
    if s == [] then None
    else
      var f := s[1..];
      match s[0]
      case 0 => if |f| < 1 then None else Some((SetViewingKey(f[0]), f[1..]))
      case 1 =>
        if |f| < 4 || f[1] >= TWO_32 then None
        else Some((OpenChannel(f[0], f[1], f[2], f[3]), f[4..]))
      case 2 =>
        if |f| < 6 || f[3] >= TWO_32 then None
        else Some((OpenSubchannel(f[0], f[1], f[2], f[3], f[4], f[5]), f[6..]))
      case 3 =>
        if |f| < 6 || f[3] >= TWO_128 || f[4] >= TWO_32 || f[5] >= TWO_128 then None
        else Some((CreateEncNote(f[0], f[1], f[2], f[3], f[4], f[5]), f[6..]))
      case 5 => if |f| < 2 || f[1] >= TWO_128 then None else Some((Deposit(f[0], f[1]), f[2..]))
      case 6 => if |f| < 3 || f[2] >= TWO_32 then None else Some((UseNote(f[0], f[1], f[2]), f[3..]))
      case 7 =>
        if |f| < 4 || f[2] >= TWO_128 then None
        else Some((Withdraw(f[0], f[1], f[2], f[3]), f[4..]))
      case _ => None
  }

  /** Reads a length-prefixed list that must use up the whole input. */
  function DecodeList(s: seq<Felt>): (r: Option<seq<ClientAction>>)
    ensures r.Some? ==> |r.value| < TWO_64
  {
    if s == [] || s[0] >= TWO_64 then None
    else
      match ReadMany(DecodeOne, s[0], s[1..])
      case None => None
      case Some((actions, rest)) => if rest == [] then Some(actions) else None
  }

  lemma DecodeOneEncoded(a: ClientAction, rest: seq<Felt>)
    ensures DecodeOne(a.Encoded() + rest) == Some((a, rest))
  {
    var s := a.Encoded() + rest;
    assert s[1..] == a.Fields() + rest;
    assert (a.Fields() + rest)[|a.Fields()|..] == rest;
  }

  lemma DecodeOneCanonical(s: seq<Felt>)
    requires DecodeOne(s).Some?
    ensures var (a, rest) := DecodeOne(s).value; s == a.Encoded() + rest
  {
    var (a, rest) := DecodeOne(s).value;
    assert s[1..] == a.Fields() + rest;
  }

  lemma ActionsInverse()
    ensures Inverse(DecodeOne, Encode)
  {
    forall a, rest
      ensures DecodeOne(Encode(a) + rest) == Some((a, rest))
    {
      DecodeOneEncoded(a, rest);
    }
    forall s | DecodeOne(s).Some?
      ensures s == Encode(DecodeOne(s).value.0) + DecodeOne(s).value.1
    {
      DecodeOneCanonical(s);
    }
  }

  /** The receiver recovers exactly the list that was sent, and accepts no other spelling of it. */
  lemma ListRoundTrip(actions: seq<ClientAction>, s: seq<Felt>)
    requires |actions| < TWO_64
    ensures DecodeList(s) == Some(actions) <==> s == EncodedList(actions)
  {
    ActionsInverse();
    if s == EncodedList(actions) {
      assert s[1..] == Body(actions) + [];
      ReadManyEncoded(DecodeOne, Encode, actions, []);
    }
    if DecodeList(s) == Some(actions) {
      ReadManyCanonical(DecodeOne, Encode, s[0], s[1..]);
      assert s == [s[0]] + s[1..];
    }
  }
}

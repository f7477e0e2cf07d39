/** Everything the client and the pool hash, pads included: no two uses have the same input. */
module HashUses {
  import opened Field
  import opened ShortStrings
  import opened Hashes

  /** What is hashed for what: channel keys, the pads of each encrypted field, and the addresses of slots. */
  datatype Use =
    | KeyUse(sender: Account, recipient: Identity)
    | ChannelKeyPad(shared: Felt)
    | SenderPad(shared: Felt)
    | TokenPad(key: Felt, index: U32, salt: Felt)
    | RecipientPad(owner: Account, index: U32, salt: Felt)
    | AmountPad(key: Felt, token: Felt, index: U32, salt: Felt)
    | SlotUse(slot: Slot)

  function UseInput(u: Use): (Tag, seq<Felt>) {
    match u
    case KeyUse(s, r) => (ChannelKeyTag, [s.addr, s.sk, r.addr, r.pk])
    case ChannelKeyPad(x) => (EncChannelKeyTag, [x])
    case SenderPad(x) => (EncSenderAddrTag, [x])
    case TokenPad(k, i, s) => (EncTokenTag, [k, i, 0, s])
    case RecipientPad(o, i, s) => (EncRecipientAddrTag, [o.addr, o.sk, i, 0, s])
    case AmountPad(k, t, i, s) => (EncAmountTag, [k, t, i, 0, s])
    case SlotUse(slot) => SlotInput(slot)
  }

  function HashFor(env: Env, u: Use): Felt {
    env.hash(UseInput(u).0, UseInput(u).1)
  }

  lemma UseInputInjective(a: Use, b: Use)
    requires UseInput(a) == UseInput(b)
    ensures a == b
  {
    var x, y := UseInput(a).1, UseInput(b).1;
    assert forall i :: 0 <= i < |x| ==> x[i] == y[i];
    if a.SlotUse? && b.SlotUse? {
      SlotInputInjective(a.slot, b.slot);
    }
  }

  /** The hashes the client computes are these uses. */
  lemma HashesAreUses(env: Env, s: Account, r: Identity, key: Felt, token: Felt, i: U32, salt: Felt, shared: Felt)
    ensures ChannelKey(env, s, r) == HashFor(env, KeyUse(s, r))
    ensures EncChannelKeyHash(env, shared) == HashFor(env, ChannelKeyPad(shared))
    ensures EncSenderAddrHash(env, shared) == HashFor(env, SenderPad(shared))
    ensures EncTokenHash(env, key, i, salt) == HashFor(env, TokenPad(key, i, salt))
    ensures EncRecipientAddrHash(env, s, i, salt) == HashFor(env, RecipientPad(s, i, salt))
    ensures EncAmountHash(env, key, token, i, salt) == HashFor(env, AmountPad(key, token, i, salt))
  {
  }

  /** And so are the addresses, each with its own tag and arguments. */
  lemma AddressesAre(env: Env, o: Account, r: Identity, key: Felt, sender: Felt, token: Felt, i: U32, sk: Felt)
    ensures Address(env, OutgoingSlot(o, i)) == env.hash(OutgoingChannelIdTag, [o.addr, o.sk, i, 0])
    ensures Address(env, MarkerSlot(key, sender, r)) == env.hash(ChannelMarkerTag, [key, sender, r.addr, r.pk])
    ensures Address(env, SubchannelSlot(key, i)) == env.hash(SubchannelIdTag, [key, i, 0])
    ensures Address(env, SubchannelMarkerSlot(key, r, token))
         == env.hash(SubchannelMarkerTag, [key, r.addr, r.pk, token])
    ensures Address(env, NoteSlot(key, token, i)) == env.hash(NoteIdTag, [key, token, i, 0])
    ensures Address(env, NullifierSlot(key, token, i, sk)) == env.hash(NullifierTag, [key, token, i, 0, sk])
  {
  }

  /** Where the hash does not collide on the uses in play, no pad is another field's pad, a channel key or an address,
      and the same field is never padded alike at two places or under two salts. */
  lemma UsesApart(env: Env, used: set<Use>, a: Use, b: Use)
    requires Uncollided(env, set u | u in used :: UseInput(u)) && a in used && b in used
    ensures HashFor(env, a) == HashFor(env, b) <==> a == b
  {
    var inputs := set u | u in used :: UseInput(u);
    assert UseInput(a) in inputs && UseInput(b) in inputs;
    if HashFor(env, a) == HashFor(env, b) {
      UseInputInjective(a, b);
    }
  }
}

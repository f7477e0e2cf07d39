/** The pool's domain-separated hashes and the setting they are used in. */
module Hashes {
  import opened Field
  import opened ShortStrings

  /** A pool user: its address and its viewing key. */
  datatype Account = Account(addr: Felt, sk: Felt)

  /** How others know a user: its address and its registered public key. */
  datatype Identity = Identity(addr: Felt, pk: Felt)

  /** Library code the client calls (the tagged Poseidon hash and the Stark curve), and the accounts and
      tokens that ever take part. `sharedX(k, x)` is `None` when `x` is not on the curve. */
  datatype Env = Env(
    hash: (Tag, seq<Felt>) -> Felt,
    publicKey: Felt -> Felt,
    sharedX: (Felt, Felt) -> Option<Felt>,
    order: Felt,
    accounts: set<Account>,
    tokens: set<Felt>
  ) {
    predicate Scalar(k: Felt) {
      0 < k < order
    }

    function IdentityOf(a: Account): Identity {
      Identity(a.addr, publicKey(a.sk))
    }

    function Identities(): set<Identity> {
      set a | a in accounts :: IdentityOf(a)
    }
  }

  // ---- the hashes the client and the pool use ----

  function KeyInput(s: Account, r: Identity): (Tag, seq<Felt>) {
    (ChannelKeyTag, [s.addr, s.sk, r.addr, r.pk])
  }

  function ChannelKey(env: Env, s: Account, r: Identity): Felt {
    env.hash(ChannelKeyTag, [s.addr, s.sk, r.addr, r.pk])
  }

  function EncTokenHash(env: Env, key: Felt, index: U32, salt: Felt): Felt {
    env.hash(EncTokenTag, [key, index, 0, salt])
  }

  function EncChannelKeyHash(env: Env, shared: Felt): Felt {
    env.hash(EncChannelKeyTag, [shared])
  }

  function EncSenderAddrHash(env: Env, shared: Felt): Felt {
    env.hash(EncSenderAddrTag, [shared])
  }

  function EncRecipientAddrHash(env: Env, s: Account, index: U32, salt: Felt): Felt {
    env.hash(EncRecipientAddrTag, [s.addr, s.sk, index, 0, salt])
  }

  function EncAmountHash(env: Env, key: Felt, token: Felt, index: U32, salt: Felt): Felt {
    env.hash(EncAmountTag, [key, token, index, 0, salt])
  }

  // ---- where things live ----

  /** A storage slot of the pool, by what it is for. */
  datatype Slot =
    | OutgoingSlot(owner: Account, index: U32)
    | MarkerSlot(key: Felt, sender: Felt, recipient: Identity)
    | SubchannelSlot(key: Felt, index: U32)
    | SubchannelMarkerSlot(key: Felt, recipient: Identity, token: Felt)
    | NoteSlot(key: Felt, token: Felt, index: U32)
    | NullifierSlot(key: Felt, token: Felt, index: U32, ownerSk: Felt)

  /** The tag and arguments that are hashed for a slot's address. */
  function SlotInput(s: Slot): (Tag, seq<Felt>) {
    match s
    case OutgoingSlot(o, i) => (OutgoingChannelIdTag, [o.addr, o.sk, i, 0])
    case MarkerSlot(k, f, r) => (ChannelMarkerTag, [k, f, r.addr, r.pk])
    case SubchannelSlot(k, i) => (SubchannelIdTag, [k, i, 0])
    case SubchannelMarkerSlot(k, r, t) => (SubchannelMarkerTag, [k, r.addr, r.pk, t])
    case NoteSlot(k, t, i) => (NoteIdTag, [k, t, i, 0])
    case NullifierSlot(k, t, i, sk) => (NullifierTag, [k, t, i, 0, sk])
  }

  function Address(env: Env, s: Slot): Felt {
    env.hash(SlotInput(s).0, SlotInput(s).1)
  }

  /** Slots for different purposes, or with different arguments, hash different inputs; so their
      addresses can only meet where the hash itself collides. */
  lemma SlotInputInjective(a: Slot, b: Slot)
    requires SlotInput(a) == SlotInput(b)
    ensures a == b
  {
    var x, y := SlotInput(a).1, SlotInput(b).1;
    assert forall i :: 0 <= i < |x| ==> x[i] == y[i];
  }

  // ---- what the model assumes of the library code ----

  /** The hash has no collision among the finitely many inputs in `used`. */
  ghost predicate Uncollided(env: Env, used: set<(Tag, seq<Felt>)>) {
    forall x, y {:trigger x in used, y in used} ::
      x in used && y in used && env.hash(x.0, x.1) == env.hash(y.0, y.1) ==> x == y
  }

  function KeyInputs(env: Env): set<(Tag, seq<Felt>)> {
    set s, r | s in env.accounts && r in env.Identities() :: KeyInput(s, r)
  }

  function Keys(env: Env): set<Felt> {
    set s, r | s in env.accounts && r in env.Identities() :: ChannelKey(env, s, r)
  }

  /** ECDH agrees both ways, public keys are non-zero, viewing keys are valid scalars, and the channel
      keys between the accounts taking part do not collide. */
  ghost predicate Sound(env: Env) {
    && (forall a: Felt, b: Felt {:trigger env.sharedX(a, env.publicKey(b))} :: env.Scalar(a) && env.Scalar(b) ==>
          && env.sharedX(a, env.publicKey(b)).Some?
          && env.sharedX(a, env.publicKey(b)) == env.sharedX(b, env.publicKey(a)))
    && (forall a: Felt {:trigger env.publicKey(a)} :: env.Scalar(a) ==> env.publicKey(a) != 0)
    && (forall a :: a in env.accounts ==> env.Scalar(a.sk))
    && Uncollided(env, KeyInputs(env))
  }

  /** A channel key determines its sender (viewing key included) and its recipient. */
  lemma KeyInjective(env: Env, s: Account, r: Identity, s': Account, r': Identity)
    requires Sound(env)
    requires s in env.accounts && s' in env.accounts
    requires r in env.Identities() && r' in env.Identities()
    requires ChannelKey(env, s, r) == ChannelKey(env, s', r')
    ensures s == s' && r == r'
  {
    assert KeyInput(s, r) in KeyInputs(env) && KeyInput(s', r') in KeyInputs(env);
    assert KeyInput(s, r) == KeyInput(s', r');
    var x, y := [s.addr, s.sk, r.addr, r.pk], [s'.addr, s'.sk, r'.addr, r'.pk];
    assert x[0] == y[0] && x[1] == y[1] && x[2] == y[2] && x[3] == y[3];
  }
}

/** The assumptions can be met together: two accounts, and a hash that does not collide on any slot they can
    ever use. */
module Example {
  import opened Field
  import opened ShortStrings
  import opened Hashes
  import opened Slots
  import opened Pool
  import opened Discovery
  import opened Storage
  import opened RawStorage
  import opened RawReader

  const BASE: nat := 0x2_0000_0000

  function TagNumber(t: Tag): nat {
    match t
    case OutgoingChannelIdTag => 1
    case ChannelMarkerTag => 2
    case SubchannelIdTag => 3
    case SubchannelMarkerTag => 4
    case NoteIdTag => 5
    case NullifierTag => 6
    case _ => 0
  }

  /** The digits of a number in base `BASE`. */
  function Digits(xs: seq<Felt>): nat {
    if xs == [] then 0 else xs[0] + BASE * Digits(xs[1..])
  }

  predicate Small(xs: seq<Felt>) {
    forall i :: 0 <= i < |xs| ==> xs[i] < BASE
  }

  lemma {:induction false} DigitsInjective(xs: seq<Felt>, ys: seq<Felt>)
    requires |xs| == |ys| && Small(xs) && Small(ys) && Digits(xs) == Digits(ys)
    ensures xs == ys
    decreases |xs|
  {
    if xs != [] {
      LowDigit(xs[0], Digits(xs[1..]), ys[0], Digits(ys[1..]));
      DigitsInjective(xs[1..], ys[1..]);
      assert xs == [xs[0]] + xs[1..] && ys == [ys[0]] + ys[1..];
    }
  }

  lemma LowDigit(a: nat, x: nat, b: nat, y: nat)
    requires a < BASE && b < BASE && a + BASE * x == b + BASE * y
    ensures a == b && x == y
  {
  }

  function Mix(t: Tag, xs: seq<Felt>): Felt {
    if t == ChannelKeyTag && |xs| == 4 then (xs[0] + 16 * xs[2]) % P else (TagNumber(t) + 16 * Digits(xs)) % P
  }

  const ALICE: Account := Account(1, 2)
  const BOB: Account := Account(3, 4)

  const SETTING: Env :=
    Env(Mix, (k: Felt) => k, (k: Felt, x: Felt) => Some(0), 9, {ALICE, BOB}, {7})

  function Arity(t: Tag): nat {
    match t
    case SubchannelIdTag => 3
    case NullifierTag => 5
    case _ => 4
  }

  lemma DigitsBound(xs: seq<Felt>)
    requires Small(xs) && |xs| <= 5
    ensures 16 * Digits(xs) + 15 < P
  {
    if |xs| > 0 { assert Digits(xs) == xs[0] + BASE * Digits(xs[1..]); }
    if |xs| > 1 { assert Digits(xs[1..]) == xs[1] + BASE * Digits(xs[2..]) by { assert xs[1..][1..] == xs[2..]; } }
    if |xs| > 2 { assert Digits(xs[2..]) == xs[2] + BASE * Digits(xs[3..]) by { assert xs[2..][1..] == xs[3..]; } }
    if |xs| > 3 { assert Digits(xs[3..]) == xs[3] + BASE * Digits(xs[4..]) by { assert xs[3..][1..] == xs[4..]; } }
    if |xs| > 4 { assert Digits(xs[4..]) == xs[4] + BASE * Digits(xs[5..]) by { assert xs[4..][1..] == xs[5..]; } }
  }

  predicate Addresses(t: Tag) {
    t == OutgoingChannelIdTag || t == ChannelMarkerTag || t == SubchannelIdTag || t == SubchannelMarkerTag
    || t == NoteIdTag || t == NullifierTag
  }

  /** On small arguments of the right number the hash can be read back. */
  lemma MixInjective(t: Tag, xs: seq<Felt>, u: Tag, ys: seq<Felt>)
    requires Addresses(t) && |xs| == Arity(t) && Small(xs)
    requires Addresses(u) && |ys| == Arity(u) && Small(ys)
    requires Mix(t, xs) == Mix(u, ys)
    ensures t == u && xs == ys
  {
    MixIs(t, xs);
    MixIs(u, ys);
    LowTag(TagNumber(t), Digits(xs), TagNumber(u), Digits(ys));
    DigitsInjective(xs, ys);
  }

  lemma MixIs(t: Tag, xs: seq<Felt>)
    requires Addresses(t) && |xs| <= 5 && Small(xs)
    ensures Mix(t, xs) == TagNumber(t) + 16 * Digits(xs)
  {
    DigitsBound(xs);
    NoWrap(TagNumber(t) + 16 * Digits(xs));
  }

  lemma NoWrap(n: nat)
    requires n < P
    ensures n % P == n
  {
  }

  lemma LowTag(a: nat, x: nat, b: nat, y: nat)
    requires a < 16 && b < 16 && a + 16 * x == b + 16 * y
    ensures a == b && x == y
  {
  }

  lemma KeysAreSmall(key: Felt)
    requires key in Keys(SETTING)
    ensures key < 64
  {
    var s, r :| s in SETTING.accounts && r in SETTING.Identities() && key == ChannelKey(SETTING, s, r);
    IdentitiesAre(r);
  }

  lemma IdentitiesAre(r: Identity)
    requires r in SETTING.Identities()
    ensures r == Identity(1, 2) || r == Identity(3, 4)
  {
    var a :| a in SETTING.accounts && r == SETTING.IdentityOf(a);
  }

  lemma KeysDoNotCollide()
    ensures Uncollided(SETTING, KeyInputs(SETTING))
  {
    forall x, y | x in KeyInputs(SETTING) && y in KeyInputs(SETTING) && SETTING.hash(x.0, x.1) == SETTING.hash(y.0, y.1)
      ensures x == y
    {
      var s, r :| s in SETTING.accounts && r in SETTING.Identities() && x == KeyInput(s, r);
      var u, q :| u in SETTING.accounts && q in SETTING.Identities() && y == KeyInput(u, q);
      KeyHash(s, r);
      KeyHash(u, q);
    }
  }

  lemma KeyHash(s: Account, r: Identity)
    requires s in SETTING.accounts && r in SETTING.Identities()
    ensures s == (if s.addr == 1 then ALICE else BOB) && s.addr in {1, 3}
    ensures r == Identity(r.addr, r.addr + 1) && r.addr in {1, 3}
    ensures SETTING.hash(ChannelKeyTag, KeyInput(s, r).1) == s.addr + 16 * r.addr
  {
    IdentitiesAre(r);
  }

  lemma SettingIsSound()
    ensures Sound(SETTING)
  {
    KeysDoNotCollide();
  }

  predicate Fits(x: (Tag, seq<Felt>)) {
    Addresses(x.0) && |x.1| == Arity(x.0) && Small(x.1)
  }

  lemma OutgoingFits(s: Slot)
    requires s in OutgoingSlots(SETTING)
    ensures Fits(SlotInput(s))
  {
  }

  lemma MarkerFits(s: Slot)
    requires s in MarkerSlots(SETTING)
    ensures Fits(SlotInput(s))
  {
    var a, id :| && a in SETTING.accounts && id in SETTING.Identities()
                 && s == MarkerSlot(ChannelKey(SETTING, a, id), a.addr, id);
    IdentitiesAre(id);
    KeysAreSmall(ChannelKey(SETTING, a, id));
  }

  lemma SubchannelFits(s: Slot)
    requires s in SubchannelSlots(SETTING)
    ensures Fits(SlotInput(s))
  {
    KeysAreSmall(s.key);
  }

  lemma SubchannelMarkerFits(s: Slot)
    requires s in SubchannelMarkerSlots(SETTING)
    ensures Fits(SlotInput(s))
  {
    KeysAreSmall(s.key);
    IdentitiesAre(s.recipient);
  }

  lemma NoteFits(s: Slot)
    requires s in NoteSlots(SETTING)
    ensures Fits(SlotInput(s))
  {
    KeysAreSmall(s.key);
  }

  lemma NullifierFits(s: Slot)
    requires s in NullifierSlots(SETTING)
    ensures Fits(SlotInput(s))
  {
    KeysAreSmall(s.key);
  }

  lemma SlotFits(s: Slot)
    requires s in UsedSlots(SETTING)
    ensures Fits(SlotInput(s))
  {
    if s in OutgoingSlots(SETTING) {
      OutgoingFits(s);
    } else if s in MarkerSlots(SETTING) {
      MarkerFits(s);
    } else if s in SubchannelSlots(SETTING) {
      SubchannelFits(s);
    } else if s in SubchannelMarkerSlots(SETTING) {
      SubchannelMarkerFits(s);
    } else if s in NoteSlots(SETTING) {
      NoteFits(s);
    } else {
      NullifierFits(s);
    }
  }

  lemma SlotsDoNotCollide()
    ensures Uncollided(SETTING, Inputs(UsedSlots(SETTING)))
  {
    var used := Inputs(UsedSlots(SETTING));
    forall x | x in used
      ensures Fits(x)
    {
      var s :| s in UsedSlots(SETTING) && x == SlotInput(s);
      SlotFits(s);
    }
    forall x, y | x in used && y in used && SETTING.hash(x.0, x.1) == SETTING.hash(y.0, y.1)
      ensures x == y
    {
      MixInjective(x.0, x.1, y.0, y.1);
    }
  }

  /** A sound setting with two accounts in which no two slots collide; its empty pool can be read. */
  lemma AReadableSetting()
    ensures Sound(SETTING) && Uncollided(SETTING, Inputs(UsedSlots(SETTING)))
    ensures Reads(SETTING, ReaderOf(SETTING, map[], EMPTY), EMPTY)
  {
    SettingIsSound();
    SlotsDoNotCollide();
    forall a: Account
      ensures Count(EMPTY.outgoing, a) == 0
    {
      CountIs(EMPTY.outgoing, a, 0);
    }
    forall k: Felt
      ensures Count(EMPTY.subs, k) == 0 && Count(EMPTY.incoming, k) == 0
    {
      CountIs(EMPTY.subs, k, 0);
      CountIs(EMPTY.incoming, k, 0);
    }
    forall place: (Felt, Felt)
      ensures Count(EMPTY.notes, place) == 0
    {
      CountIs(EMPTY.notes, place, 0);
    }
    DiscoveryReadsRawStorage(SETTING, []);
  }
}

/** The pool's storage as it is: cells at hashed addresses. Reading it is what discovery assumes, as long as
    the hash does not collide on the slots in use. */
module RawStorage {
  import opened Field
  import opened Hashes
  import opened Crypto
  import opened Slots
  import opened Actions
  import opened Pool
  import opened History
  import opened Discovery
  import opened Storage
  import Balance

  // ---- the slots in use, and what they hold ----

  function OutgoingSlots(env: Env): set<Slot> {
    set a, i: nat | a in env.accounts && i < TWO_32 :: OutgoingSlot(a, i)
  }

  function MarkerSlots(env: Env): set<Slot> {
    set a, id | a in env.accounts && id in env.Identities() :: MarkerSlot(ChannelKey(env, a, id), a.addr, id)
  }

  function SubchannelSlots(env: Env): set<Slot> {
    set key, k: nat | key in Keys(env) && k < TWO_32 :: SubchannelSlot(key, k)
  }

  function SubchannelMarkerSlots(env: Env): set<Slot> {
    set key, id, t | key in Keys(env) && id in env.Identities() && t in env.tokens :: SubchannelMarkerSlot(key, id, t)
  }

  function NoteSlots(env: Env): set<Slot> {
    set key, t, i: nat | key in Keys(env) && t in env.tokens && i < TWO_32 :: NoteSlot(key, t, i)
  }

  function NullifierSlots(env: Env): set<Slot> {
    set key, t, i: nat, a | key in Keys(env) && t in env.tokens && i < TWO_32 && a in env.accounts ::
      NullifierSlot(key, t, i, a.sk)
  }

  /** Every slot the accounts and tokens taking part can ever use. */
  function UsedSlots(env: Env): set<Slot> {
    OutgoingSlots(env) + MarkerSlots(env) + SubchannelSlots(env) + SubchannelMarkerSlots(env) + NoteSlots(env)
    + NullifierSlots(env)
  }

  type Cell = seq<Felt>

  /** What the contract keeps in a slot, if anything. */
  ghost function CellOf(env: Env, p: State, s: Slot): Option<Cell> {
    match s
    case OutgoingSlot(a, i) =>
      if (a, i as nat) in p.outgoing
      then Some([OutgoingView(env, p, a, i).salt, OutgoingView(env, p, a, i).encRecipient])
      else None
    case MarkerSlot(key, sender, id) => if ChannelExists(p, key, sender, id) then Some([1]) else None
    case SubchannelSlot(key, k) =>
      if (key, k as nat) in p.subs
      then Some([SubchannelView(env, p, key, k).salt, SubchannelView(env, p, key, k).encToken])
      else None
    case SubchannelMarkerSlot(key, id, t) =>
      if (key, t) in p.subIndex && key in p.channels && p.channels[key].recipient == id then Some([1]) else None
    case NoteSlot(key, t, i) =>
      if ((key, t), i as nat) in p.notes then Some([NoteView(env, p, key, t, i), t]) else None
    case NullifierSlot(key, t, i, sk) => if Nullifier(key, t, i, sk) in p.nullifiers then Some([1]) else None
  }

  /** The pool's slots by name. */
  ghost function Named(env: Env, used: set<Slot>, p: State): (m: map<Slot, Cell>)
    ensures forall s {:trigger s in m} :: s in m <==> s in used && CellOf(env, p, s).Some?
    ensures forall s {:trigger m[s]} :: s in m ==> Some(m[s]) == CellOf(env, p, s)
  {
    map s | s in used && CellOf(env, p, s).Some? :: CellOf(env, p, s).value
  }

  /** The raw store holds what the pool's slots hold. */
  ghost predicate Stores(env: Env, used: set<Slot>, raw: map<Felt, Cell>, p: State) {
    Holds(env, used, raw, Named(env, used, p))
  }

  // ---- writes ----

  /** What a sequence of writes makes of a slot's cell. */
  function Written(writes: seq<(Slot, Cell)>, s: Slot, before: Option<Cell>): Option<Cell> {
    if writes == [] then before
    else
      var w := writes[|writes| - 1];
      if w.0 == s then Some(w.1) else Written(writes[..|writes| - 1], s, before)
  }

  ghost function WriteAll(env: Env, raw: map<Felt, Cell>, writes: seq<(Slot, Cell)>): map<Felt, Cell> {
    if writes == [] then raw
    else WriteAll(env, raw, writes[..|writes| - 1])[Address(env, writes[|writes| - 1].0) := writes[|writes| - 1].1]
  }

  function NameAll(named: map<Slot, Cell>, writes: seq<(Slot, Cell)>): map<Slot, Cell> {
    if writes == [] then named
    else NameAll(named, writes[..|writes| - 1])[writes[|writes| - 1].0 := writes[|writes| - 1].1]
  }

  lemma {:induction false} NamedWritten(named: map<Slot, Cell>, writes: seq<(Slot, Cell)>, s: Slot)
    ensures (if s in NameAll(named, writes) then Some(NameAll(named, writes)[s]) else None)
         == Written(writes, s, if s in named then Some(named[s]) else None)
    decreases |writes|
  {
    if writes != [] {
      NamedWritten(named, writes[..|writes| - 1], s);
    }
  }

  /** Any run of writes, at addresses or at slots, keeps the stores in agreement. */
  lemma {:induction false} WritesKeepHolding(env: Env, used: set<Slot>, raw: map<Felt, Cell>, named: map<Slot, Cell>,
                                             writes: seq<(Slot, Cell)>)
    requires Uncollided(env, Inputs(used)) && Holds(env, used, raw, named) && forall w :: w in writes ==> w.0 in used
    ensures Holds(env, used, WriteAll(env, raw, writes), NameAll(named, writes))
    decreases |writes|
  {
    if writes != [] {
      var k := |writes| - 1;
      WritesKeepHolding(env, used, raw, named, writes[..k]);
      assert writes[k] in writes;
      WriteHolds(env, used, WriteAll(env, raw, writes[..k]), NameAll(named, writes[..k]), writes[k].0, writes[k].1);
    }
  }

  /** `q` is `p` after these writes, slot by slot. */
  ghost predicate Becomes(env: Env, used: set<Slot>, p: State, q: State, writes: seq<(Slot, Cell)>) {
    && (forall w :: w in writes ==> w.0 in used)
    && (forall x {:trigger CellOf(env, q, x)} :: x in used ==>
        CellOf(env, q, x) == Written(writes, x, CellOf(env, p, x)))
  }

  lemma NamesBecome(env: Env, used: set<Slot>, p: State, q: State, writes: seq<(Slot, Cell)>, x: Slot)
    requires Becomes(env, used, p, q, writes) && x in used
    ensures x in Named(env, used, q) <==> x in NameAll(Named(env, used, p), writes)
    ensures x in Named(env, used, q) ==> Named(env, used, q)[x] == NameAll(Named(env, used, p), writes)[x]
  {
    NamedWritten(Named(env, used, p), writes, x);
    assert x in Named(env, used, q) <==> CellOf(env, q, x).Some?;
    assert x in Named(env, used, p) <==> CellOf(env, p, x).Some?;
  }

  /** Writing at the addresses what the pool writes in its slots keeps the raw store in step. */
  lemma RawFollows(env: Env, used: set<Slot>, raw: map<Felt, Cell>, p: State, q: State, writes: seq<(Slot, Cell)>)
    requires Uncollided(env, Inputs(used)) && Stores(env, used, raw, p) && Becomes(env, used, p, q, writes)
    ensures Stores(env, used, WriteAll(env, raw, writes), q)
  {
    var named := NameAll(Named(env, used, p), writes);
    WritesKeepHolding(env, used, raw, Named(env, used, p), writes);
    forall x {:trigger x in used} | x in used
      ensures x in Named(env, used, q) <==> x in named
      ensures x in Named(env, used, q) ==> Named(env, used, q)[x] == named[x]
    {
      NamesBecome(env, used, p, q, writes, x);
    }
    HoldsSame(env, used, WriteAll(env, raw, writes), named, Named(env, used, q));
  }

  lemma HoldsSame<V(!new)>(env: Env, used: set<Slot>, raw: map<Felt, V>, a: map<Slot, V>, b: map<Slot, V>)
    requires Holds(env, used, raw, a)
    requires forall x {:trigger x in used} :: x in used ==> (x in b <==> x in a) && (x in b ==> b[x] == a[x])
    ensures Holds(env, used, raw, b)
  {
  }

  // ---- what each action writes ----

  function OutgoingCell(env: Env, o: Outgoing, who: Account, i: U32): Cell {
    var e := EncryptOutgoingRecipient(env, o.recipient, who, i, o.salt);
    [e.salt, e.encRecipient]
  }

  function SubchannelCell(env: Env, sub: Sub, key: Felt, k: U32): Cell {
    var e := EncryptSubchannelToken(env, sub.token, key, k, sub.salt);
    [e.salt, e.encToken]
  }

  function NoteCell(env: Env, note: StoredNote, key: Felt, token: Felt, i: U32): Cell {
    match note
    case Encrypted(amount, salt) => [EncryptNoteValue(env, amount, salt, key, token, i), token]
    case Open(amount) => [Pack(OPEN_NOTE_SALT, amount), token]
  }

  /** The cells an accepted action of this client writes; users and incoming channels are not kept under
      hashed addresses. */
  function SentWrites(env: Env, p: State, who: Account, a: ClientAction): seq<(Slot, Cell)> {
    match a
    case OpenChannel(r, i, _, salt) =>
      if r !in p.pk then []
      else
        var id := Identity(r, p.pk[r]);
        [(OutgoingSlot(who, i), OutgoingCell(env, Outgoing(r, salt), who, i)),
         (MarkerSlot(ChannelKey(env, who, id), who.addr, id), [1])]
    case OpenSubchannel(r, pk, key, k, token, salt) =>
      [(SubchannelSlot(key, k), SubchannelCell(env, Sub(token, salt), key, k)),
       (SubchannelMarkerSlot(key, Identity(r, pk), token), [1])]
    case CreateEncNote(r, pk, token, amount, i, salt) =>
      var key := ChannelKey(env, who, Identity(r, pk));
      [(NoteSlot(key, token, i), NoteCell(env, Encrypted(amount, salt), key, token, i))]
    case UseNote(key, token, i) => [(NullifierSlot(key, token, i, who.sk), [1])]
    case _ => []
  }

  /** The cells a deed writes; a refused one writes none. */
  ghost function WritesOf(env: Env, p: State, d: Deed): seq<(Slot, Cell)> {
    match d.action
    case Sent(a) => if Step(env, d.who, Machine(p, map[]), a).Some? then SentWrites(env, p, d.who, a) else []
    case CreateOpen(r, pk, token, amount, i) =>
      var key := ChannelKey(env, d.who, Identity(r, pk));
      if CanCreateOpen(env, p, d.who, Identity(r, pk), token, i)
      then [(NoteSlot(key, token, i), NoteCell(env, Open(amount), key, token, i))] else []
    case FillOpen(key, token, i, amount) =>
      if CanFill(p, key, token, i) then [(NoteSlot(key, token, i), NoteCell(env, Open(amount), key, token, i))] else []
  }

  lemma WrittenNone(x: Slot, before: Option<Cell>)
    ensures Written([], x, before) == before
  {
  }

  lemma WrittenOne(s: Slot, c: Cell, x: Slot, before: Option<Cell>)
    ensures Written([(s, c)], x, before) == if x == s then Some(c) else before
  {
    assert [(s, c)][..0] == [];
  }

  lemma WrittenTwo(s: Slot, c: Cell, t: Slot, d: Cell, x: Slot, before: Option<Cell>)
    ensures Written([(s, c), (t, d)], x, before) == if x == t then Some(d) else if x == s then Some(c) else before
  {
    assert [(s, c), (t, d)][..1] == [(s, c)];
    WrittenOne(s, c, x, before);
  }

  // ---- slot by slot ----

  /** Keys of channels that do not exist have no subchannels. */
  ghost predicate NoStraySubs(p: State) {
    forall x {:trigger x in p.subIndex} :: x in p.subIndex ==> x.0 in p.channels
  }

  lemma WfHasNoStraySubs(env: Env, p: State)
    requires Wf(env, p)
    ensures NoStraySubs(p)
  {
    OpenWf(env, p);
    forall x {:trigger x in p.subIndex} | x in p.subIndex
      ensures x.0 in p.channels
    {
      assert (x.0, p.subIndex[x]) in p.subs;
    }
  }

  lemma OpenCell(env: Env, p: State, who: Account, id: Identity, random: Felt, salt: Felt, i: U32, x: Slot)
    requires NoStraySubs(p) && ChannelKey(env, who, id) !in p.channels && i == Count(p.outgoing, who)
    ensures CellOf(env, AfterOpen(env, p, who, id, random, salt), x)
         == if x == MarkerSlot(ChannelKey(env, who, id), who.addr, id) then Some([1])
            else if x == OutgoingSlot(who, i) then Some(OutgoingCell(env, Outgoing(id.addr, salt), who, i))
            else CellOf(env, p, x)
  {
  }

  lemma OpenSubCell(env: Env, p: State, who: Account, id: Identity, key: Felt, k: U32, token: Felt, salt: Felt, x: Slot)
    requires CanOpenSub(env, p, who, id, key, k, token, salt)
    ensures CellOf(env, AfterOpenSub(p, key, token, salt), x)
         == if x == SubchannelMarkerSlot(key, id, token) then Some([1])
            else if x == SubchannelSlot(key, k) then Some(SubchannelCell(env, Sub(token, salt), key, k))
            else CellOf(env, p, x)
  {
  }

  lemma NewNoteCell(env: Env, p: State, key: Felt, token: Felt, note: StoredNote, i: U32, x: Slot)
    requires i == Count(p.notes, (key, token))
    ensures CellOf(env, AfterNote(p, key, token, note), x)
         == if x == NoteSlot(key, token, i) then Some(NoteCell(env, note, key, token, i)) else CellOf(env, p, x)
  {
  }

  lemma UseCell(env: Env, p: State, who: Account, key: Felt, token: Felt, i: U32, x: Slot)
    ensures CellOf(env, AfterUse(p, who, key, token, i), x)
         == if x == NullifierSlot(key, token, i, who.sk) then Some([1]) else CellOf(env, p, x)
  {
  }

  lemma FillCell(env: Env, p: State, key: Felt, token: Felt, i: U32, amount: U128, x: Slot)
    ensures CellOf(env, AfterFill(p, key, token, i, amount), x)
         == if x == NoteSlot(key, token, i) then Some(NoteCell(env, Open(amount), key, token, i)) else CellOf(env, p, x)
  {
  }

  lemma RegisterCell(env: Env, p: State, who: Account, x: Slot)
    ensures CellOf(env, AfterRegister(env, p, who), x) == CellOf(env, p, x)
  {
  }

  /** One cell of the pool after a deed is what the deed's writes make of it. */
  lemma SentCell(env: Env, p: State, who: Account, a: ClientAction, x: Slot)
    requires Sound(env) && Wf(env, p) && who in env.accounts && Step(env, who, Machine(p, map[]), a).Some?
    ensures CellOf(env, Step(env, who, Machine(p, map[]), a).value.pool, x)
         == Written(SentWrites(env, p, who, a), x, CellOf(env, p, x))
  {
    var before := CellOf(env, p, x);
    match a {
      case SetViewingKey(_) =>
        RegisterCell(env, p, who, x);
        WrittenNone(x, before);
      case OpenChannel(r, i, random, salt) =>
        var id := Identity(r, p.pk[r]);
        Balance.NewKey(env, p, who, r);
        WfHasNoStraySubs(env, p);
        OpenCell(env, p, who, id, random, salt, i, x);
        WrittenTwo(OutgoingSlot(who, i), OutgoingCell(env, Outgoing(r, salt), who, i),
                   MarkerSlot(ChannelKey(env, who, id), who.addr, id), [1], x, before);
      case OpenSubchannel(r, pk, key, k, token, salt) =>
        OpenSubCell(env, p, who, Identity(r, pk), key, k, token, salt, x);
        WrittenTwo(SubchannelSlot(key, k), SubchannelCell(env, Sub(token, salt), key, k),
                   SubchannelMarkerSlot(key, Identity(r, pk), token), [1], x, before);
      case CreateEncNote(r, pk, token, amount, i, salt) =>
        var key, note := ChannelKey(env, who, Identity(r, pk)), Encrypted(amount, salt);
        NewNoteCell(env, p, key, token, note, i, x);
        WrittenOne(NoteSlot(key, token, i), NoteCell(env, note, key, token, i), x, before);
      case Deposit(_, _) => WrittenNone(x, before);
      case UseNote(key, token, i) =>
        UseCell(env, p, who, key, token, i, x);
        WrittenOne(NullifierSlot(key, token, i, who.sk), [1], x, before);
      case Withdraw(_, _, _, _) => WrittenNone(x, before);
    }
  }

  lemma DeedCell(env: Env, p: State, d: Deed, x: Slot)
    requires Sound(env) && Wf(env, p) && d.who in env.accounts
    ensures CellOf(env, Perform(env, p, d), x) == Written(WritesOf(env, p, d), x, CellOf(env, p, x))
  {
    var before := CellOf(env, p, x);
    WrittenNone(x, before);
    match d.action {
      case Sent(a) =>
        if Step(env, d.who, Machine(p, map[]), a).Some? {
          SentCell(env, p, d.who, a, x);
        }
      case CreateOpen(r, pk, token, amount, i) =>
        var key := ChannelKey(env, d.who, Identity(r, pk));
        if CanCreateOpen(env, p, d.who, Identity(r, pk), token, i) {
          OpenNoteCell(env, p, key, token, amount, i, x);
        }
      case FillOpen(key, token, i, amount) =>
        if CanFill(p, key, token, i) {
          FilledCell(env, p, key, token, i, amount, x);
        }
    }
  }

  lemma OpenNoteCell(env: Env, p: State, key: Felt, token: Felt, amount: U128, i: U32, x: Slot)
    requires i == Count(p.notes, (key, token))
    ensures CellOf(env, AfterNote(p, key, token, Open(amount)), x)
         == Written([(NoteSlot(key, token, i), NoteCell(env, Open(amount), key, token, i))], x, CellOf(env, p, x))
  {
    NewNoteCell(env, p, key, token, Open(amount), i, x);
    WrittenOne(NoteSlot(key, token, i), NoteCell(env, Open(amount), key, token, i), x, CellOf(env, p, x));
  }

  lemma FilledCell(env: Env, p: State, key: Felt, token: Felt, i: U32, amount: U128, x: Slot)
    ensures CellOf(env, AfterFill(p, key, token, i, amount), x)
         == Written([(NoteSlot(key, token, i), NoteCell(env, Open(amount), key, token, i))], x, CellOf(env, p, x))
  {
    FillCell(env, p, key, token, i, amount, x);
    WrittenOne(NoteSlot(key, token, i), NoteCell(env, Open(amount), key, token, i), x, CellOf(env, p, x));
  }

  // ---- everything written is in use ----

  lemma ChannelUsed(env: Env, p: State, key: Felt, sender: Felt, id: Identity)
    requires Wf(env, p) && ChannelExists(p, key, sender, id)
    ensures key in Keys(env) && id in env.Identities()
  {
    KeyInPlay(env, p, key);
    OpenWf(env, p);
    assert WfOpening(env, p.pk, key, p.channels[key]);
    assert Identity(id.addr, p.pk[id.addr]) == id;
  }

  lemma NoteUsed(env: Env, p: State, key: Felt, token: Felt, i: nat)
    requires Wf(env, p) && ((key, token), i) in p.notes
    ensures key in Keys(env) && token in env.tokens && i < TWO_32
  {
    SubUsed(env, p, key, token);
    OpenWf(env, p);
  }

  lemma SubUsed(env: Env, p: State, key: Felt, token: Felt)
    requires Wf(env, p) && ((key, token) in p.subIndex || exists i: nat :: ((key, token), i) in p.notes)
    ensures key in Keys(env) && token in env.tokens
  {
    OpenWf(env, p);
    assert (key, token) in p.subIndex;
    assert (key, p.subIndex[(key, token)]) in p.subs;
    KeyInPlay(env, p, key);
  }

  lemma SentWritesUsed(env: Env, p: State, who: Account, a: ClientAction)
    requires Wf(env, p) && who in env.accounts && TokenInPlay(env, a) && Step(env, who, Machine(p, map[]), a).Some?
    ensures forall w :: w in SentWrites(env, p, who, a) ==> w.0 in UsedSlots(env)
  {
    match a {
      case OpenChannel(r, i, random, salt) =>
        OpenWf(env, p);
        assert Identity(r, p.pk[r]) in env.Identities();
      case OpenSubchannel(r, pk, key, k, token, salt) => ChannelUsed(env, p, key, who.addr, Identity(r, pk));
      case CreateEncNote(r, pk, token, amount, i, salt) =>
        SubUsed(env, p, ChannelKey(env, who, Identity(r, pk)), token);
      case UseNote(key, token, i) => NoteUsed(env, p, key, token, i);
      case _ =>
    }
  }

  lemma WritesUsed(env: Env, p: State, d: Deed)
    requires Wf(env, p) && InPlay(env, d)
    ensures forall w :: w in WritesOf(env, p, d) ==> w.0 in UsedSlots(env)
  {
    match d.action {
      case Sent(a) =>
        if Step(env, d.who, Machine(p, map[]), a).Some? {
          SentWritesUsed(env, p, d.who, a);
        }
      case CreateOpen(r, pk, token, amount, i) =>
        if CanCreateOpen(env, p, d.who, Identity(r, pk), token, i) {
          SubUsed(env, p, ChannelKey(env, d.who, Identity(r, pk)), token);
        }
      case FillOpen(key, token, i, amount) =>
        if CanFill(p, key, token, i) {
          NoteUsed(env, p, key, token, i);
        }
    }
  }

  // ---- the raw store over a whole history ----

  ghost function RawLater(env: Env, deeds: seq<Deed>): map<Felt, Cell> {
    if deeds == [] then map[]
    else
      var k := |deeds| - 1;
      WriteAll(env, RawLater(env, deeds[..k]), WritesOf(env, Later(env, EMPTY, deeds[..k]), deeds[k]))
  }

  lemma EmptyStores(env: Env, used: set<Slot>)
    ensures Stores(env, used, map[], EMPTY)
  {
    forall s | s in used
      ensures s !in Named(env, used, EMPTY)
    {
      assert CellOf(env, EMPTY, s).None?;
    }
  }

  /** If the hash does not collide on the slots in use, the raw store, written at hashed addresses, holds in
      every slot exactly what the pool holds there, after any history. */
  lemma {:induction false} RawStoreFollows(env: Env, deeds: seq<Deed>)
    requires Sound(env) && Uncollided(env, Inputs(UsedSlots(env))) && forall d :: d in deeds ==> InPlay(env, d)
    ensures Stores(env, UsedSlots(env), RawLater(env, deeds), Later(env, EMPTY, deeds))
    decreases |deeds|
  {
    if deeds == [] {
      EmptyStores(env, UsedSlots(env));
    } else {
      var k := |deeds| - 1;
      RawStoreFollows(env, deeds[..k]);
      EveryHistoryIsWf(env, deeds[..k]);
      RawStoreStep(env, UsedSlots(env), RawLater(env, deeds[..k]), Later(env, EMPTY, deeds[..k]), deeds[k]);
    }
  }

  lemma RawStoreStep(env: Env, used: set<Slot>, raw: map<Felt, Cell>, p: State, d: Deed)
    requires Sound(env) && used == UsedSlots(env) && Uncollided(env, Inputs(used)) && Wf(env, p) && InPlay(env, d)
    requires Stores(env, used, raw, p)
    ensures Stores(env, used, WriteAll(env, raw, WritesOf(env, p, d)), Perform(env, p, d))
  {
    WritesUsed(env, p, d);
    forall x | x in used
      ensures CellOf(env, Perform(env, p, d), x) == Written(WritesOf(env, p, d), x, CellOf(env, p, x))
    {
      DeedCell(env, p, d, x);
    }
    RawFollows(env, used, raw, p, Perform(env, p, d), WritesOf(env, p, d));
  }
}

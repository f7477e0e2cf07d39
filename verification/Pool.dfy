/** The privacy pool as the client's comments describe it: an abstract state machine over client
    actions. It keeps the plaintext behind every slot; its views return what the contract stores. */
module Pool {
  import opened Field
  import opened Sealing
  import opened Hashes
  import opened Crypto
  import opened Slots
  import opened Ledger
  import opened Actions

  /** An open channel; `at` is its place in the recipient's list. */
  datatype Opening = Opening(sender: Account, recipient: Identity, random: Felt, at: nat)

  datatype Outgoing = Outgoing(recipient: Felt, salt: Felt)

  datatype Sub = Sub(token: Felt, salt: Felt)

  datatype StoredNote = Encrypted(amount: U128, noteSalt: U128) | Open(amount: U128)

  datatype Nullifier = Nullifier(key: Felt, token: Felt, index: nat, sk: Felt)

  /** `channels` is the channel markers by key and `subIndex` the subchannel markers by (key, token),
      each with the place of the list entry it guards. The four numbered lists are `incoming` (by
      recipient), `outgoing` (by sender), `subs` (by key) and `notes` (by key and token). */
  datatype State = State(
    pk: map<Felt, Felt>,
    channels: map<Felt, Opening>,
    incoming: map<(Felt, nat), Felt>,
    outgoing: map<(Account, nat), Outgoing>,
    subs: map<(Felt, nat), Sub>,
    subIndex: map<(Felt, Felt), nat>,
    notes: map<((Felt, Felt), nat), StoredNote>,
    nullifiers: set<Nullifier>
  )

  const EMPTY: State := State(map[], map[], map[], map[], map[], map[], map[], {})

  // ---- one action ----

  predicate Registered(env: Env, p: State, who: Account) {
    Owns(env, p.pk, who)
  }

  /** Whether the pool holds the marker of (key, sender, recipient). */
  predicate ChannelExists(p: State, key: Felt, sender: Felt, recipient: Identity) {
    key in p.channels && p.channels[key].sender.addr == sender && p.channels[key].recipient == recipient
  }

  predicate CanRegister(p: State, who: Account) {
    who.addr !in p.pk
  }

  function AfterRegister(env: Env, p: State, who: Account): State {
    p.(pk := p.pk[who.addr := env.publicKey(who.sk)])
  }

  ghost predicate CanOpen(env: Env, p: State, who: Account, recipient: Felt, index: U32, random: Felt, salt: Felt) {
    && recipient in p.pk
    && var id := Identity(recipient, p.pk[recipient]);
       && !ChannelExists(p, ChannelKey(env, who, id), who.addr, id)
       && index == Count(p.outgoing, who)
       && env.Scalar(random) && salt != 0
  }

  ghost function AfterOpen(env: Env, p: State, who: Account, id: Identity, random: Felt, salt: Felt): State {
    var key := ChannelKey(env, who, id);
    var at := Count(p.incoming, id.addr);
    p.(channels := p.channels[key := Opening(who, id, random, at)],
       incoming := p.incoming[(id.addr, at) := key],
       outgoing := p.outgoing[(who, Count(p.outgoing, who)) := Outgoing(id.addr, salt)])
  }

  ghost predicate CanOpenSub(env: Env, p: State, who: Account, id: Identity, key: Felt, index: U32, token: Felt,
                             salt: Felt)
  {
    && key == ChannelKey(env, who, id)
    && ChannelExists(p, key, who.addr, id)
    && (key, token) !in p.subIndex
    && index == Count(p.subs, key)
    && salt != 0
  }

  ghost function AfterOpenSub(p: State, key: Felt, token: Felt, salt: Felt): State {
    var k := Count(p.subs, key);
    p.(subs := p.subs[(key, k) := Sub(token, salt)], subIndex := p.subIndex[(key, token) := k])
  }

  ghost predicate CanCreate(env: Env, p: State, who: Account, id: Identity, token: Felt, index: U32, salt: U128) {
    var key := ChannelKey(env, who, id);
    && ChannelExists(p, key, who.addr, id)
    && (key, token) in p.subIndex
    && index == Count(p.notes, (key, token))
    && NoteSalt(salt)
  }

  /** One more note at the end of a subchannel. */
  ghost function AfterNote(p: State, key: Felt, token: Felt, note: StoredNote): State {
    var place := (key, token);
    p.(notes := p.notes[(place, Count(p.notes, place)) := note])
  }

  ghost function AfterCreate(p: State, key: Felt, token: Felt, amount: U128, salt: U128): State {
    AfterNote(p, key, token, Encrypted(amount, salt))
  }

  predicate CanUse(env: Env, p: State, who: Account, key: Felt, token: Felt, index: nat) {
    && ((key, token), index) in p.notes
    && key in p.channels && p.channels[key].recipient == env.IdentityOf(who)
    && Nullifier(key, token, index, who.sk) !in p.nullifiers
  }

  function AfterUse(p: State, who: Account, key: Felt, token: Felt, index: nat): State {
    p.(nullifiers := p.nullifiers + {Nullifier(key, token, index, who.sk)})
  }

  // ---- a batch ----

  /** The pool while a batch runs, with each token's balance inside the batch. */
  datatype Machine = Machine(pool: State, net: map<Felt, int>)

  /** One action by `who`; `None` is a revert. */
  ghost function Step(env: Env, who: Account, s: Machine, a: ClientAction): Option<Machine> {
    var p := s.pool;
    if a.SetViewingKey? then
      if CanRegister(p, who) then Some(s.(pool := AfterRegister(env, p, who))) else None
    else if !Registered(env, p, who) then None
    else
      match a
      case OpenChannel(r, index, random, salt) =>
        if CanOpen(env, p, who, r, index, random, salt)
        then Some(s.(pool := AfterOpen(env, p, who, Identity(r, p.pk[r]), random, salt))) else None
      case OpenSubchannel(r, pk, key, index, token, salt) =>
        if CanOpenSub(env, p, who, Identity(r, pk), key, index, token, salt)
        then Some(s.(pool := AfterOpenSub(p, key, token, salt))) else None
      case CreateEncNote(r, pk, token, amount, index, salt) =>
        if CanCreate(env, p, who, Identity(r, pk), token, index, salt)
        then Some(Machine(AfterCreate(p, ChannelKey(env, who, Identity(r, pk)), token, amount, salt),
                          Credit(s.net, token, -(amount as int)))) else None
      case Deposit(token, amount) => Some(s.(net := Credit(s.net, token, amount)))
      case UseNote(key, token, index) =>
        if CanUse(env, p, who, key, token, index)
        then Some(Machine(AfterUse(p, who, key, token, index),
                          Credit(s.net, token, p.notes[((key, token), index as nat)].amount))) else None
      case Withdraw(_, token, amount, _) => Some(s.(net := Credit(s.net, token, -(amount as int))))
  }

  ghost function Exec(env: Env, who: Account, s: Machine, actions: seq<ClientAction>): Option<Machine> {
    if actions == [] then Some(s)
    else
      match Exec(env, who, s, actions[..|actions| - 1])
      case None => None
      case Some(t) => Step(env, who, t, actions[|actions| - 1])
  }

  /** A whole batch: actions in phase order, none reverting, every token netting to zero. */
  ghost function RunBatch(env: Env, who: Account, p: State, actions: seq<ClientAction>): Option<State> {
    if !PhaseOrdered(actions) then None
    else
      match Exec(env, who, Machine(p, map[]), actions)
      case None => None
      case Some(s) => if forall t :: t in s.net ==> s.net[t] == 0 then Some(s.pool) else None
  }

  lemma ExecLast(env: Env, who: Account, s: Machine, actions: seq<ClientAction>, a: ClientAction)
    ensures Exec(env, who, s, actions + [a])
         == (match Exec(env, who, s, actions) case None => None case Some(t) => Step(env, who, t, a))
  {
    assert (actions + [a])[..|actions|] == actions;
  }

  lemma ExecSnoc(env: Env, who: Account, s: Machine, actions: seq<ClientAction>, a: ClientAction)
    requires Exec(env, who, s, actions).Some?
    ensures Exec(env, who, s, actions + [a]) == Step(env, who, Exec(env, who, s, actions).value, a)
  {
    assert (actions + [a])[..|actions|] == actions;
  }

  lemma {:induction false} ExecConcat(env: Env, who: Account, s: Machine, a: seq<ClientAction>, b: seq<ClientAction>)
    ensures Exec(env, who, s, a + b)
         == (match Exec(env, who, s, a) case None => None case Some(t) => Exec(env, who, t, b))
  {
    if b == [] {
      assert a + b == a;
    } else {
      var n := |b| - 1;
      ExecConcat(env, who, s, a, b[..n]);
      assert a + b == (a + b[..n]) + [b[n]] && b == b[..n] + [b[n]];
      ExecLast(env, who, s, a + b[..n], b[n]);
      if Exec(env, who, s, a).Some? {
        ExecLast(env, who, Exec(env, who, s, a).value, b[..n], b[n]);
      }
    }
  }

  // ---- what the contract's views return ----

  function PublicKeyView(p: State, user: Felt): Felt {
    if user in p.pk then p.pk[user] else 0
  }

  function ChannelInfoView(env: Env, p: State, user: Felt, c: nat): EncChannelInfo {
    if (user, c) in p.incoming && p.incoming[(user, c)] in p.channels then
      var key := p.incoming[(user, c)];
      var o := p.channels[key];
      EncryptChannelInfo(env, ChannelInfo(key, o.sender.addr), o.recipient.pk, o.random)
    else EncChannelInfo(0, 0, 0)
  }

  function SubchannelView(env: Env, p: State, key: Felt, k: U32): EncSubchannelInfo {
    if (key, k as nat) in p.subs then
      var sub := p.subs[(key, k as nat)];
      EncryptSubchannelToken(env, sub.token, key, k, sub.salt)
    else EncSubchannelInfo(0, 0)
  }

  function NoteView(env: Env, p: State, key: Felt, token: Felt, i: U32): Felt {
    if ((key, token), i as nat) in p.notes then
      match p.notes[((key, token), i as nat)]
      case Encrypted(amount, salt) => EncryptNoteValue(env, amount, salt, key, token, i)
      case Open(amount) => Pack(OPEN_NOTE_SALT, amount)
    else 0
  }

  function OutgoingView(env: Env, p: State, who: Account, i: U32): EncOutgoingInfo {
    if (who, i as nat) in p.outgoing then
      var o := p.outgoing[(who, i as nat)];
      EncryptOutgoingRecipient(env, o.recipient, who, i, o.salt)
    else EncOutgoingInfo(0, 0)
  }

  // ---- well-formedness: what every run of the pool keeps ----

  ghost predicate WfUsers(env: Env, pk: map<Felt, Felt>) {
    forall v {:trigger v in pk} :: v in pk ==> Identity(v, pk[v]) in env.Identities()
  }

  predicate Owns(env: Env, pk: map<Felt, Felt>, a: Account) {
    a.addr in pk && pk[a.addr] == env.publicKey(a.sk)
  }

  ghost predicate WfOpening(env: Env, pk: map<Felt, Felt>, key: Felt, o: Opening) {
    && o.sender in env.accounts && Owns(env, pk, o.sender)
    && o.recipient.addr in pk && pk[o.recipient.addr] == o.recipient.pk
    && key == ChannelKey(env, o.sender, o.recipient)
    && env.Scalar(o.random)
  }

  ghost predicate WfOpenings(env: Env, pk: map<Felt, Felt>, channels: map<Felt, Opening>) {
    forall key {:trigger key in channels} :: key in channels ==> WfOpening(env, pk, key, channels[key])
  }

  /** The markers and the recipients' lists hold the same channels. */
  ghost predicate WfIncoming(channels: map<Felt, Opening>, incoming: map<(Felt, nat), Felt>) {
    && NoGaps(incoming)
    && (forall key {:trigger key in channels} :: key in channels ==>
          var place := (channels[key].recipient.addr, channels[key].at);
          place in incoming && incoming[place] == key)
    && (forall x {:trigger x in incoming} :: x in incoming ==>
          var key := incoming[x];
          key in channels && channels[key].recipient.addr == x.0 && channels[key].at == x.1)
  }

  ghost predicate WfOutgoing(env: Env, pk: map<Felt, Felt>, outgoing: map<(Account, nat), Outgoing>) {
    && NoGaps(outgoing)
    && (forall x {:trigger x in outgoing} :: x in outgoing ==>
        x.1 < TWO_32 && Owns(env, pk, x.0) && outgoing[x].salt != 0)
  }

  ghost predicate SubsMarked(tokens: set<Felt>, keys: set<Felt>, subs: map<(Felt, nat), Sub>,
                             subIndex: map<(Felt, Felt), nat>)
  {
    forall x {:trigger x in subs} :: x in subs ==>
      var sub := subs[x];
      && x.1 < TWO_32 && x.0 in keys && sub.token in tokens && sub.salt != 0
      && (x.0, sub.token) in subIndex && subIndex[(x.0, sub.token)] == x.1
  }

  ghost predicate MarkersBacked(subs: map<(Felt, nat), Sub>, subIndex: map<(Felt, Felt), nat>) {
    forall x {:trigger x in subIndex} :: x in subIndex ==>
      var k := subIndex[x];
      (x.0, k) in subs && subs[(x.0, k)].token == x.1
  }

  /** The markers and the channels' subchannel lists hold the same subchannels. */
  ghost predicate WfSubs(tokens: set<Felt>, keys: set<Felt>, subs: map<(Felt, nat), Sub>,
                         subIndex: map<(Felt, Felt), nat>)
  {
    NoGaps(subs) && SubsMarked(tokens, keys, subs, subIndex) && MarkersBacked(subs, subIndex)
  }

  ghost predicate WfNotes(places: set<(Felt, Felt)>, notes: map<((Felt, Felt), nat), StoredNote>,
                          nullifiers: set<Nullifier>)
  {
    && NoGaps(notes)
    && (forall x {:trigger x in notes} :: x in notes ==>
          x.1 < TWO_32 && x.0 in places && (notes[x].Encrypted? ==> NoteSalt(notes[x].noteSalt)))
    && (forall n {:trigger n in nullifiers} :: n in nullifiers ==> ((n.key, n.token), n.index) in notes)
  }

  /** The pool's lists and markers agree with one another. */
  ghost predicate Consistent(env: Env, p: State) {
    && WfUsers(env, p.pk)
    && WfOpenings(env, p.pk, p.channels)
    && WfIncoming(p.channels, p.incoming)
    && WfOutgoing(env, p.pk, p.outgoing)
    && WfSubs(env.tokens, p.channels.Keys, p.subs, p.subIndex)
    && WfNotes(p.subIndex.Keys, p.notes, p.nullifiers)
  }

  /** `Consistent`, sealed; `OpenWf` opens it. */
  ghost predicate Wf(env: Env, p: State) {
    forall k: nat {:trigger Unsealed(k)} :: Unsealed(k) ==> Consistent(env, p)
  }

  lemma OpenWf(env: Env, p: State)
    requires Wf(env, p)
    ensures Consistent(env, p)
  {
    assert Unsealed(0);
  }

  lemma SealWf(env: Env, p: State)
    requires Consistent(env, p)
    ensures Wf(env, p)
  {
  }

  lemma EmptyIsWf(env: Env)
    ensures Wf(env, EMPTY)
  {
    SealWf(env, EMPTY);
  }

  predicate TokenInPlay(env: Env, a: ClientAction) {
    a.OpenSubchannel? ==> a.token in env.tokens
  }

  lemma UsersGrow(env: Env, pk: map<Felt, Felt>, who: Account)
    requires WfUsers(env, pk) && who in env.accounts
    ensures WfUsers(env, pk[who.addr := env.publicKey(who.sk)])
  {
    assert env.IdentityOf(who) in env.Identities();
  }

  lemma OpeningsOutliveRegister(env: Env, pk: map<Felt, Felt>, channels: map<Felt, Opening>, who: Account)
    requires WfOpenings(env, pk, channels) && who.addr !in pk
    ensures WfOpenings(env, pk[who.addr := env.publicKey(who.sk)], channels)
  {
  }

  lemma OutgoingOutlivesRegister(env: Env, pk: map<Felt, Felt>, outgoing: map<(Account, nat), Outgoing>, who: Account)
    requires WfOutgoing(env, pk, outgoing) && who.addr !in pk
    ensures WfOutgoing(env, pk[who.addr := env.publicKey(who.sk)], outgoing)
  {
  }

  /** Nobody else's channel can be at the key of a channel that does not exist yet. */
  lemma AbsentKey(env: Env, p: State, who: Account, id: Identity)
    requires Sound(env) && WfUsers(env, p.pk) && who in env.accounts && id in env.Identities()
    requires WfOpenings(env, p.pk, p.channels)
    requires !ChannelExists(p, ChannelKey(env, who, id), who.addr, id)
    ensures ChannelKey(env, who, id) !in p.channels
  {
    var key := ChannelKey(env, who, id);
    if key in p.channels {
      var o := p.channels[key];
      assert o.recipient == Identity(o.recipient.addr, p.pk[o.recipient.addr]);
      KeyInjective(env, who, id, o.sender, o.recipient);
      assert false;
    }
  }

  lemma IncomingGrows(channels: map<Felt, Opening>, incoming: map<(Felt, nat), Felt>, key: Felt, who: Account,
                      id: Identity, random: Felt)
    requires WfIncoming(channels, incoming) && key !in channels
    ensures var at := Count(incoming, id.addr);
            WfIncoming(channels[key := Opening(who, id, random, at)], incoming[(id.addr, at) := key])
  {
    AppendNoGaps(incoming, id.addr, key);
  }

  lemma OpeningsGrow(env: Env, pk: map<Felt, Felt>, channels: map<Felt, Opening>, key: Felt, o: Opening)
    requires WfOpenings(env, pk, channels) && WfOpening(env, pk, key, o)
    ensures WfOpenings(env, pk, channels[key := o])
  {
  }

  lemma OutgoingGrows(env: Env, pk: map<Felt, Felt>, outgoing: map<(Account, nat), Outgoing>, who: Account, o: Outgoing)
    requires WfOutgoing(env, pk, outgoing) && Owns(env, pk, who) && o.salt != 0 && Count(outgoing, who) < TWO_32
    ensures WfOutgoing(env, pk, outgoing[(who, Count(outgoing, who)) := o])
  {
    AppendNoGaps(outgoing, who, o);
  }

  lemma SubsStayMarked(tokens: set<Felt>, keys: set<Felt>, subs: map<(Felt, nat), Sub>,
                       subIndex: map<(Felt, Felt), nat>, key: Felt, sub: Sub, k: nat)
    requires SubsMarked(tokens, keys, subs, subIndex)
    requires key in keys && sub.token in tokens && sub.salt != 0 && k < TWO_32
    requires (key, sub.token) !in subIndex
    ensures SubsMarked(tokens, keys, subs[(key, k) := sub], subIndex[(key, sub.token) := k])
  {
  }

  lemma MarkersStayBacked(subs: map<(Felt, nat), Sub>, subIndex: map<(Felt, Felt), nat>, key: Felt, sub: Sub, k: nat)
    requires MarkersBacked(subs, subIndex) && (key, k) !in subs
    ensures MarkersBacked(subs[(key, k) := sub], subIndex[(key, sub.token) := k])
  {
  }

  lemma SubsGrow(tokens: set<Felt>, keys: set<Felt>, subs: map<(Felt, nat), Sub>, subIndex: map<(Felt, Felt), nat>,
                 key: Felt, sub: Sub)
    requires WfSubs(tokens, keys, subs, subIndex)
    requires key in keys && sub.token in tokens && sub.salt != 0 && (key, sub.token) !in subIndex
    requires Count(subs, key) < TWO_32
    ensures var k := Count(subs, key);
            WfSubs(tokens, keys, subs[(key, k) := sub], subIndex[(key, sub.token) := k])
  {
    var k := Count(subs, key);
    AppendNoGaps(subs, key, sub);
    SubsStayMarked(tokens, keys, subs, subIndex, key, sub, k);
    MarkersStayBacked(subs, subIndex, key, sub, k);
  }

  lemma NotesGrow(places: set<(Felt, Felt)>, notes: map<((Felt, Felt), nat), StoredNote>, nullifiers: set<Nullifier>,
                  place: (Felt, Felt), note: StoredNote)
    requires WfNotes(places, notes, nullifiers)
    requires place in places && Count(notes, place) < TWO_32 && (note.Encrypted? ==> NoteSalt(note.noteSalt))
    ensures WfNotes(places, notes[(place, Count(notes, place)) := note], nullifiers)
  {
    AppendNoGaps(notes, place, note);
  }

  lemma NullifiersGrow(places: set<(Felt, Felt)>, notes: map<((Felt, Felt), nat), StoredNote>,
                       nullifiers: set<Nullifier>, n: Nullifier)
    requires WfNotes(places, notes, nullifiers) && ((n.key, n.token), n.index) in notes
    ensures WfNotes(places, notes, nullifiers + {n})
  {
  }

  lemma RegisterKeepsWf(env: Env, p: State, who: Account)
    requires Wf(env, p) && who in env.accounts && CanRegister(p, who)
    ensures Wf(env, AfterRegister(env, p, who))
  {
    OpenWf(env, p);
    UsersGrow(env, p.pk, who);
    OpeningsOutliveRegister(env, p.pk, p.channels, who);
    OutgoingOutlivesRegister(env, p.pk, p.outgoing, who);
    SealWf(env, AfterRegister(env, p, who));
  }

  lemma OpenKeepsWf(env: Env, p: State, who: Account, recipient: Felt, index: U32, random: Felt, salt: Felt)
    requires Sound(env) && Wf(env, p) && who in env.accounts && Registered(env, p, who)
    requires CanOpen(env, p, who, recipient, index, random, salt)
    ensures Wf(env, AfterOpen(env, p, who, Identity(recipient, p.pk[recipient]), random, salt))
  {
    OpenWf(env, p);
    var id := Identity(recipient, p.pk[recipient]);
    AbsentKey(env, p, who, id);
    OpeningsGrow(env, p.pk, p.channels, ChannelKey(env, who, id),
                 Opening(who, id, random, Count(p.incoming, recipient)));
    IncomingGrows(p.channels, p.incoming, ChannelKey(env, who, id), who, id, random);
    OutgoingGrows(env, p.pk, p.outgoing, who, Outgoing(recipient, salt));
    SealWf(env, AfterOpen(env, p, who, id, random, salt));
  }

  lemma OpenSubKeepsWf(env: Env, p: State, who: Account, id: Identity, key: Felt, index: U32, token: Felt, salt: Felt)
    requires Wf(env, p) && token in env.tokens
    requires CanOpenSub(env, p, who, id, key, index, token, salt)
    ensures Wf(env, AfterOpenSub(p, key, token, salt))
  {
    OpenWf(env, p);
    SubsGrow(env.tokens, p.channels.Keys, p.subs, p.subIndex, key, Sub(token, salt));
    SealWf(env, AfterOpenSub(p, key, token, salt));
  }

  lemma CreateKeepsWf(env: Env, p: State, who: Account, id: Identity, token: Felt, amount: U128, index: U32, salt: U128)
    requires Wf(env, p) && CanCreate(env, p, who, id, token, index, salt)
    ensures Wf(env, AfterCreate(p, ChannelKey(env, who, id), token, amount, salt))
  {
    OpenWf(env, p);
    var key := ChannelKey(env, who, id);
    NotesGrow(p.subIndex.Keys, p.notes, p.nullifiers, (key, token), Encrypted(amount, salt));
    SealWf(env, AfterCreate(p, key, token, amount, salt));
  }

  lemma UseKeepsWf(env: Env, p: State, who: Account, key: Felt, token: Felt, index: nat)
    requires Wf(env, p) && CanUse(env, p, who, key, token, index)
    ensures Wf(env, AfterUse(p, who, key, token, index))
  {
    OpenWf(env, p);
    NullifiersGrow(p.subIndex.Keys, p.notes, p.nullifiers, Nullifier(key, token, index, who.sk));
    SealWf(env, AfterUse(p, who, key, token, index));
  }

  /** Every action by every account keeps the pool well formed. */
  lemma StepKeepsWf(env: Env, who: Account, s: Machine, a: ClientAction)
    requires Sound(env) && Wf(env, s.pool) && who in env.accounts && TokenInPlay(env, a)
    requires Step(env, who, s, a).Some?
    ensures Wf(env, Step(env, who, s, a).value.pool)
  {
    var p := s.pool;
    match a {
      case SetViewingKey(_) => RegisterKeepsWf(env, p, who);
      case OpenChannel(r, index, random, salt) => OpenKeepsWf(env, p, who, r, index, random, salt);
      case OpenSubchannel(r, pk, key, index, token, salt) =>
        OpenSubKeepsWf(env, p, who, Identity(r, pk), key, index, token, salt);
      case CreateEncNote(r, pk, token, amount, index, salt) =>
        CreateKeepsWf(env, p, who, Identity(r, pk), token, amount, index, salt);
      case Deposit(_, _) =>
      case UseNote(key, token, index) => UseKeepsWf(env, p, who, key, token, index);
      case Withdraw(_, _, _, _) =>
    }
  }

  lemma {:induction false} ExecKeepsWf(env: Env, who: Account, s: Machine, actions: seq<ClientAction>)
    requires Sound(env) && Wf(env, s.pool) && who in env.accounts
    requires forall a :: a in actions ==> TokenInPlay(env, a)
    requires Exec(env, who, s, actions).Some?
    ensures Wf(env, Exec(env, who, s, actions).value.pool)
  {
    if actions != [] {
      var init := actions[..|actions| - 1];
      ExecKeepsWf(env, who, s, init);
      StepKeepsWf(env, who, Exec(env, who, s, init).value, actions[|actions| - 1]);
    }
  }
}

/** Reading a user's channels, subchannels and notes from the pool's storage. */
module Discovery {
  import opened Field
  import opened Errors
  import opened Hashes
  import opened Crypto
  import opened Slots
  import opened Pool

  datatype Note = Note(id: Felt, token: Felt, amount: U128, key: Felt, index: U32, sender: Felt, open: bool)

  datatype Subchannel = Subchannel(index: nat, nextNote: nat)

  datatype OutgoingChannel = OutgoingChannel(
    recipient: Felt, recipientPk: Felt, key: Felt, open: bool, subchannels: map<Felt, Subchannel>)

  /** A `starknet_call` on the pool pinned to one block: view name and arguments to felts. */
  datatype Reader = Reader(call: (string, seq<Felt>) -> Result<seq<Felt>, Error>)

  function View(r: Reader, name: string, args: seq<Felt>, n: nat): (res: Result<seq<Felt>, Error>)
    ensures res.Ok? ==> |res.value| >= n
  {
    match r.call(name, args)
    case Err(e) => Err(e)
    case Ok(out) => if |out| < n then Err(Read) else Ok(out)
  }

  function PublicKey(r: Reader, user: Felt): Result<Option<Felt>, Error> {
    match View(r, "get_public_key", [user], 1)
    case Err(e) => Err(e)
    case Ok(out) => Ok(if out[0] != 0 then Some(out[0]) else None)
  }

  function Flag(r: Reader, name: string, arg: Felt): Result<bool, Error> {
    match View(r, name, [arg], 1)
    case Err(e) => Err(e)
    case Ok(out) => Ok(out[0] != 0)
  }

  function NotePackedValue(r: Reader, id: Felt): Result<Felt, Error> {
    match View(r, "get_note", [id], 1)
    case Err(e) => Err(e)
    case Ok(out) => Ok(out[0])
  }

  function SubchannelInfo(r: Reader, id: Felt): Result<EncSubchannelInfo, Error> {
    match View(r, "get_subchannel_info", [id], 2)
    case Err(e) => Err(e)
    case Ok(out) => Ok(EncSubchannelInfo(out[0], out[1]))
  }

  /** The number of incoming channels, which must fit a u64. */
  function ChannelCount(r: Reader, user: Felt): (res: Result<nat, Error>)
    ensures res.Ok? ==> res.value < TWO_64
  {
    match View(r, "get_num_of_channels", [user], 1)
    case Err(e) => Err(e)
    case Ok(out) => if out[0] < TWO_64 then Ok(out[0]) else Err(Read)
  }

  function ChannelInfoAt(r: Reader, user: Felt, c: Felt): Result<EncChannelInfo, Error> {
    match View(r, "get_channel_info", [user, c], 3)
    case Err(e) => Err(e)
    case Ok(out) => Ok(EncChannelInfo(out[0], out[1], out[2]))
  }

  function OutgoingInfo(r: Reader, id: Felt): Result<EncOutgoingInfo, Error> {
    match View(r, "get_outgoing_channel_info", [id], 2)
    case Err(e) => Err(e)
    case Ok(out) => Ok(EncOutgoingInfo(out[0], out[1]))
  }

  function IndexU32(i: nat): Result<U32, Error> {
    if i < TWO_32 then Ok(i) else Err(Read)
  }

  // ---- what a reader has to answer to be reading pool state `p` ----

  function NoteId(env: Env, key: Felt, token: Felt, i: U32): Felt {
    Address(env, NoteSlot(key, token, i))
  }

  function SubchannelId(env: Env, key: Felt, k: U32): Felt {
    Address(env, SubchannelSlot(key, k))
  }

  function NullifierId(env: Env, key: Felt, token: Felt, i: U32, sk: Felt): Felt {
    Address(env, NullifierSlot(key, token, i, sk))
  }

  function MarkerId(env: Env, who: Account, id: Identity): Felt {
    Address(env, MarkerSlot(ChannelKey(env, who, id), who.addr, id))
  }

  function OutgoingId(env: Env, who: Account, i: U32): Felt {
    Address(env, OutgoingSlot(who, i))
  }

  ghost predicate ReadsUsers(env: Env, r: Reader, p: State) {
    && (forall u: Felt :: PublicKey(r, u) == Ok(if u in p.pk then Some(p.pk[u]) else None))
    && (forall u: Felt :: ChannelCount(r, u) == Ok(Count(p.incoming, u)))
    && (forall u: Felt, c: Felt :: ChannelInfoAt(r, u, c) == Ok(ChannelInfoView(env, p, u, c)))
  }

  ghost predicate ReadsSlots(env: Env, r: Reader, p: State) {
    && (forall key, k: U32 :: key in Keys(env) ==>
          SubchannelInfo(r, SubchannelId(env, key, k)) == Ok(SubchannelView(env, p, key, k)))
    && (forall key, token, i: U32 :: key in Keys(env) && token in env.tokens ==>
          NotePackedValue(r, NoteId(env, key, token, i)) == Ok(NoteView(env, p, key, token, i)))
    && (forall key, token, i: U32, a :: key in Keys(env) && token in env.tokens && a in env.accounts ==>
          Flag(r, "nullifier_exists", NullifierId(env, key, token, i, a.sk))
          == Ok(Nullifier(key, token, i, a.sk) in p.nullifiers))
    && (forall a, id :: a in env.accounts && id in env.Identities() ==>
          Flag(r, "channel_exists", MarkerId(env, a, id))
          == Ok(ChannelExists(p, ChannelKey(env, a, id), a.addr, id)))
    && (forall a, i: U32 :: a in env.accounts ==>
          OutgoingInfo(r, OutgoingId(env, a, i)) == Ok(OutgoingView(env, p, a, i)))
  }

  /** Fewer than 2^32 entries in every list a scan numbers with a u32. */
  ghost predicate Bounded(p: State) {
    && (forall key: Felt :: Count(p.subs, key) < TWO_32)
    && (forall place: (Felt, Felt) :: Count(p.notes, place) < TWO_32)
    && (forall a: Account :: Count(p.outgoing, a) < TWO_32)
  }

  ghost predicate Reads(env: Env, r: Reader, p: State) {
    Sound(env) && Wf(env, p) && Bounded(p) && ReadsUsers(env, r, p) && ReadsSlots(env, r, p)
  }

  /** The account's viewing key is the one it registered, if it has registered. */
  ghost predicate OwnKey(env: Env, p: State, who: Account) {
    who in env.accounts && (who.addr in p.pk ==> Registered(env, p, who))
  }

  // ---- the user's channel to a recipient ----

  /** The subchannels of `key` at indices below `k`, as a scan collects them. */
  ghost function SubchannelsBelow(subs: map<(Felt, nat), Sub>, notes: map<((Felt, Felt), nat), StoredNote>,
                                  key: Felt, k: nat): map<Felt, Subchannel>
    requires k <= Count(subs, key)
    decreases k
  {
    if k == 0 then map[]
    else
      var token := subs[(key, k - 1)].token;
      SubchannelsBelow(subs, notes, key, k - 1)[token := Subchannel(k - 1, Count(notes, (key, token)))]
  }

  ghost function SubchannelsOf(p: State, key: Felt): map<Felt, Subchannel> {
    SubchannelsBelow(p.subs, p.notes, key, Count(p.subs, key))
  }

  /** The channel the user would send to `recipient` on, as the pool holds it. */
  ghost function ChannelOf(env: Env, p: State, who: Account, recipient: Felt): OutgoingChannel
    requires recipient in p.pk
  {
    var id := Identity(recipient, p.pk[recipient]);
    var key := ChannelKey(env, who, id);
    var open := ChannelExists(p, key, who.addr, id);
    OutgoingChannel(recipient, p.pk[recipient], key, open, if open then SubchannelsOf(p, key) else map[])
  }

  ghost function ChannelResult(env: Env, p: State, who: Account, recipient: Felt): Result<OutgoingChannel, Error> {
    if recipient in p.pk then Ok(ChannelOf(env, p, who, recipient)) else Err(NotRegistered(recipient))
  }

  lemma KeyInPlay(env: Env, p: State, key: Felt)
    requires Wf(env, p) && key in p.channels
    ensures key in Keys(env)
  {
    OpenWf(env, p);
    var o := p.channels[key];
    assert WfOpening(env, p.pk, key, o);
    assert Identity(o.recipient.addr, p.pk[o.recipient.addr]) == o.recipient;
  }

  lemma SubchannelRead(env: Env, p: State, key: Felt, k: U32)
    requires Wf(env, p)
    ensures SubchannelView(env, p, key, k).salt == 0 <==> (key, k as nat) !in p.subs
    ensures (key, k as nat) in p.subs ==>
              DecryptSubchannelToken(env, SubchannelView(env, p, key, k), key, k) == p.subs[(key, k as nat)].token
  {
    OpenWf(env, p);
    if (key, k as nat) in p.subs {
      var sub := p.subs[(key, k as nat)];
      SubchannelTokenRoundTrip(env, sub.token, key, k, sub.salt);
    }
  }

  lemma NoteRead(env: Env, p: State, key: Felt, token: Felt, i: U32)
    requires Wf(env, p)
    ensures var v := DecryptNoteValue(env, NoteView(env, p, key, token, i), key, token, i);
            var at := ((key, token), i as nat);
            && (v.None? <==> at !in p.notes)
            && (at in p.notes ==> v.value.amount == p.notes[at].amount && v.value.open == p.notes[at].Open?)
    ensures NoteView(env, p, key, token, i) == 0 <==> ((key, token), i as nat) !in p.notes
  {
    OpenWf(env, p);
    var at := ((key, token), i as nat);
    if at in p.notes {
      match p.notes[at] {
        case Encrypted(amount, salt) => NoteValueRoundTrip(env, amount, salt, key, token, i);
        case Open(amount) => OpenNoteIsPlain(env, amount, key, token, i);
      }
    }
  }

  // ---- what one list's scan sees: occupied slots up to the count, then an empty one ----

  ghost predicate NotesRead(env: Env, r: Reader, p: State, key: Felt, token: Felt) {
    var n := Count(p.notes, (key, token));
    n < TWO_32 && forall i: U32 :: i <= n ==>
      var got := NotePackedValue(r, NoteId(env, key, token, i));
      got.Ok? && (got.value == 0 <==> i == n)
  }

  ghost predicate SubchannelReads(env: Env, r: Reader, p: State, key: Felt, k: U32) {
    var n := Count(p.subs, key);
    var got := SubchannelInfo(r, SubchannelId(env, key, k));
    && got.Ok?
    && (got.value.salt == 0 <==> k == n)
    && (k < n ==>
          && (key, k as nat) in p.subs
          && DecryptSubchannelToken(env, got.value, key, k) == p.subs[(key, k as nat)].token
          && NotesRead(env, r, p, key, p.subs[(key, k as nat)].token))
  }

  ghost predicate SubchannelsRead(env: Env, r: Reader, p: State, key: Felt) {
    Count(p.subs, key) < TWO_32 && forall k: U32 :: k <= Count(p.subs, key) ==> SubchannelReads(env, r, p, key, k)
  }

  ghost predicate OutgoingReads(env: Env, r: Reader, p: State, who: Account) {
    var n := Count(p.outgoing, who);
    n < TWO_32 && forall i: U32 :: i <= n ==>
      var got := OutgoingInfo(r, OutgoingId(env, who, i));
      got.Ok? && (got.value.salt == 0 <==> i == n)
  }

  lemma NotesScan(env: Env, r: Reader, p: State, key: Felt, token: Felt)
    requires Reads(env, r, p) && key in Keys(env) && token in env.tokens
    ensures NotesRead(env, r, p, key, token)
  {
    OpenWf(env, p);
    forall i: U32 | i <= Count(p.notes, (key, token))
      ensures var got := NotePackedValue(r, NoteId(env, key, token, i));
              got.Ok? && (got.value == 0 <==> i == Count(p.notes, (key, token)))
    {
      NoteRead(env, p, key, token, i);
    }
  }

  lemma SubchannelScan(env: Env, r: Reader, p: State, key: Felt, k: U32)
    requires Reads(env, r, p) && key in Keys(env) && k <= Count(p.subs, key)
    ensures SubchannelReads(env, r, p, key, k)
  {
    OpenWf(env, p);
    SubchannelRead(env, p, key, k);
    if k < Count(p.subs, key) {
      assert (key, k as nat) in p.subs;
      NotesScan(env, r, p, key, p.subs[(key, k as nat)].token);
    }
  }

  lemma SubchannelsScan(env: Env, r: Reader, p: State, key: Felt)
    requires Reads(env, r, p) && key in Keys(env)
    ensures SubchannelsRead(env, r, p, key)
  {
    forall k: U32 | k <= Count(p.subs, key)
      ensures SubchannelReads(env, r, p, key, k)
    {
      SubchannelScan(env, r, p, key, k);
    }
  }

  lemma OutgoingScan(env: Env, r: Reader, p: State, who: Account)
    requires Reads(env, r, p) && who in env.accounts
    ensures OutgoingReads(env, r, p, who)
  {
    OpenWf(env, p);
    forall i: U32 | i <= Count(p.outgoing, who)
      ensures var got := OutgoingInfo(r, OutgoingId(env, who, i));
              got.Ok? && (got.value.salt == 0 <==> i == Count(p.outgoing, who))
    {
      assert i < Count(p.outgoing, who) ==> (who, i as nat) in p.outgoing;
    }
  }

  method DiscoverChannel(env: Env, r: Reader, ghost p: State, who: Account, recipient: Felt)
    returns (res: Result<OutgoingChannel, Error>)
    requires Reads(env, r, p) && who in env.accounts
    ensures res == ChannelResult(env, p, who, recipient)
  {
    OpenWf(env, p);
    var pk, open;
    match PublicKey(r, recipient) {
      case Err(e) => return Err(e);
      case Ok(None) => return Err(NotRegistered(recipient));
      case Ok(Some(x)) => pk := x;
    }
    var id := Identity(recipient, pk);
    var key := ChannelKey(env, who, id);
    assert id in env.Identities() && key in Keys(env);
    match Flag(r, "channel_exists", MarkerId(env, who, id)) {
      case Err(e) => return Err(e);
      case Ok(b) => open := b;
    }
    var subchannels: map<Felt, Subchannel> := map[];
    if open {
      SubchannelsScan(env, r, p, key);
      var found := ScanSubchannels(env, r, p, key);
      match found {
        case Err(e) => return Err(e);
        case Ok(m) => subchannels := m;
      }
    }
    res := Ok(OutgoingChannel(recipient, pk, key, open, subchannels));
  }

  /** The middle loop of `DiscoverChannel`. */
  method ScanSubchannels(env: Env, r: Reader, ghost p: State, key: Felt)
    returns (res: Result<map<Felt, Subchannel>, Error>)
    requires SubchannelsRead(env, r, p, key)
    ensures res == Ok(SubchannelsOf(p, key))
  {
    var subchannels: map<Felt, Subchannel> := map[];
    var i := 0;
    while true
      invariant i <= Count(p.subs, key)
      invariant subchannels == SubchannelsBelow(p.subs, p.notes, key, i)
      decreases Count(p.subs, key) - i
    {
      var k, sub;
      match IndexU32(i) {
        case Err(e) => return Err(e);
        case Ok(x) => k := x;
      }
      assert SubchannelReads(env, r, p, key, k);
      match SubchannelInfo(r, SubchannelId(env, key, k)) {
        case Err(e) => return Err(e);
        case Ok(x) => sub := x;
      }
      if sub.salt == 0 { break; }
      var token := DecryptSubchannelToken(env, sub, key, k);
      var next := CountNotes(env, r, p, key, token);
      match next {
        case Err(e) => return Err(e);
        case Ok(n) => subchannels := subchannels[token := Subchannel(k, n)];
      }
      i := i + 1;
    }
    res := Ok(subchannels);
  }

  /** The inner loop of `DiscoverChannel`: the first note slot of one subchannel that reads zero. */
  method CountNotes(env: Env, r: Reader, ghost p: State, key: Felt, token: Felt) returns (res: Result<U32, Error>)
    requires NotesRead(env, r, p, key, token)
    ensures res == Ok(Count(p.notes, (key, token)))
  {
    var next: U32 := 0;
    while true
      invariant next <= Count(p.notes, (key, token))
      decreases Count(p.notes, (key, token)) - next
    {
      match NotePackedValue(r, NoteId(env, key, token, next)) {
        case Err(e) => return Err(e);
        case Ok(value) => if value == 0 { break; }
      }
      next := next + 1;
    }
    res := Ok(next);
  }

  method OutgoingChannelCount(env: Env, r: Reader, ghost p: State, who: Account) returns (res: Result<U32, Error>)
    requires OutgoingReads(env, r, p, who)
    ensures res == Ok(Count(p.outgoing, who))
  {
    var i := 0;
    while true
      invariant i <= Count(p.outgoing, who)
      decreases Count(p.outgoing, who) - i
    {
      var s;
      match IndexU32(i) {
        case Err(e) => return Err(e);
        case Ok(x) => s := x;
      }
      match OutgoingInfo(r, OutgoingId(env, who, s)) {
        case Err(e) => return Err(e);
        case Ok(info) => if info.salt == 0 { return Ok(s); }
      }
      i := i + 1;
    }
  }
}

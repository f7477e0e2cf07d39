/** A reader over the pool's raw storage is what discovery takes it to be. */
module RawReader {
  import opened Field
  import opened Errors
  import opened Hashes
  import opened Crypto
  import opened Slots
  import opened Pool
  import opened History
  import opened Discovery
  import opened Storage
  import opened RawStorage

  datatype ViewName =
    UserKey | UserChannels | UserChannel | NoteCellOf | SubchannelCellOf | OutgoingCellOf | Spent | Marked | Other

  function Called(name: string): ViewName {
    if name == "get_public_key" then UserKey
    else if name == "get_num_of_channels" then UserChannels
    else if name == "get_channel_info" then UserChannel
    else if name == "get_note" then NoteCellOf
    else if name == "get_subchannel_info" then SubchannelCellOf
    else if name == "get_outgoing_channel_info" then OutgoingCellOf
    else if name == "nullifier_exists" then Spent
    else if name == "channel_exists" then Marked
    else Other
  }

  lemma UserNames()
    ensures Called("get_public_key") == UserKey
    ensures Called("get_num_of_channels") == UserChannels
    ensures Called("get_channel_info") == UserChannel
  {
    assert |"get_public_key"| == 14 && |"get_num_of_channels"| == 19 && |"get_channel_info"| == 16;
  }

  lemma NoteName()
    ensures Called("get_note") == NoteCellOf
  {
    assert |"get_note"| == 8 && |"get_public_key"| == 14 && |"get_num_of_channels"| == 19 && |"get_channel_info"| == 16;
  }

  lemma SubchannelName()
    ensures Called("get_subchannel_info") == SubchannelCellOf
  {
    var name := "get_subchannel_info";
    assert |name| == 19 && name[4] == 's' && "get_num_of_channels"[4] == 'n';
    assert |"get_note"| == 8 && |"get_public_key"| == 14 && |"get_channel_info"| == 16;
  }

  lemma OutgoingName()
    ensures Called("get_outgoing_channel_info") == OutgoingCellOf
  {
    assert |"get_outgoing_channel_info"| == 25 && |"get_subchannel_info"| == 19 && |"get_note"| == 8;
    assert |"get_public_key"| == 14 && |"get_num_of_channels"| == 19 && |"get_channel_info"| == 16;
  }

  lemma SpentName()
    ensures Called("nullifier_exists") == Spent
  {
    var name := "nullifier_exists";
    assert name[0] == 'n' && "get_channel_info"[0] == 'g' && |name| == 16;
    assert |"get_outgoing_channel_info"| == 25 && |"get_subchannel_info"| == 19 && |"get_note"| == 8;
    assert |"get_public_key"| == 14 && |"get_num_of_channels"| == 19;
  }

  lemma MarkedName()
    ensures Called("channel_exists") == Marked
  {
    var name := "channel_exists";
    assert name[0] == 'c' && "get_public_key"[0] == 'g' && |name| == 14;
    assert |"get_outgoing_channel_info"| == 25 && |"get_subchannel_info"| == 19 && |"get_note"| == 8;
    assert |"get_num_of_channels"| == 19 && |"get_channel_info"| == 16 && |"nullifier_exists"| == 16;
  }

  /** A cell as a view returns it: zeros when it was never written. */
  function Look(raw: map<Felt, Cell>, at: Felt): Cell {
    if at in raw then raw[at] else [0, 0]
  }

  /** The contract's answer to a view call: the users and their channel lists, and the raw store. */
  ghost function Answer(env: Env, raw: map<Felt, Cell>, p: State, name: string, args: seq<Felt>):
    Result<seq<Felt>, Error>
  {
    if args == [] then Err(Read)
    else
      match Called(name)
      case UserKey => Ok([PublicKeyView(p, args[0])])
      case UserChannels => if Count(p.incoming, args[0]) < P then Ok([Count(p.incoming, args[0])]) else Err(Read)
      case UserChannel =>
        if |args| < 2 then Err(Read)
        else
          var e := ChannelInfoView(env, p, args[0], args[1]);
          Ok([e.ephemeral, e.encKey, e.encSender])
      case Other => Err(Read)
      case _ => Ok(Look(raw, args[0]))
  }

  ghost function ReaderOf(env: Env, raw: map<Felt, Cell>, p: State): Reader {
    Reader((name: string, args: seq<Felt>) => Answer(env, raw, p, name, args))
  }

  /** Fewer incoming channels than a u64 counts. */
  ghost predicate CountableChannels(p: State) {
    forall u: Felt :: Count(p.incoming, u) < TWO_64
  }

  lemma KeyIsNotZero(env: Env, p: State, u: Felt)
    requires Sound(env) && Wf(env, p) && u in p.pk
    ensures p.pk[u] != 0
  {
    OpenWf(env, p);
    assert Identity(u, p.pk[u]) in env.Identities();
    var a :| a in env.accounts && env.IdentityOf(a) == Identity(u, p.pk[u]);
  }

  lemma UsersAreRead(env: Env, raw: map<Felt, Cell>, p: State)
    requires Sound(env) && Wf(env, p) && CountableChannels(p)
    ensures ReadsUsers(env, ReaderOf(env, raw, p), p)
  {
    UserNames();
    var r := ReaderOf(env, raw, p);
    forall u: Felt
      ensures PublicKey(r, u) == Ok(if u in p.pk then Some(p.pk[u]) else None)
      ensures ChannelCount(r, u) == Ok(Count(p.incoming, u))
    {
      if u in p.pk {
        KeyIsNotZero(env, p, u);
      }
    }
    forall u: Felt, c: Felt
      ensures ChannelInfoAt(r, u, c) == Ok(ChannelInfoView(env, p, u, c))
    {
    }
  }

  // ---- the hashed part ----

  lemma CellIsRead(env: Env, used: set<Slot>, raw: map<Felt, Cell>, p: State, s: Slot)
    requires Stores(env, used, raw, p) && s in used
    ensures Look(raw, Address(env, s)) == match CellOf(env, p, s) case Some(c) => c case None => [0, 0]
  {
    assert s in Named(env, used, p) <==> CellOf(env, p, s).Some?;
  }

  lemma SubchannelAnswer(env: Env, raw: map<Felt, Cell>, p: State, at: Felt, c: Cell)
    requires c == Look(raw, at) && |c| == 2
    ensures SubchannelInfo(ReaderOf(env, raw, p), at) == Ok(EncSubchannelInfo(c[0], c[1]))
  {
    SubchannelName();
  }

  lemma OutgoingAnswer(env: Env, raw: map<Felt, Cell>, p: State, at: Felt, c: Cell)
    requires c == Look(raw, at) && |c| == 2
    ensures OutgoingInfo(ReaderOf(env, raw, p), at) == Ok(EncOutgoingInfo(c[0], c[1]))
  {
    OutgoingName();
  }

  lemma NoteAnswer(env: Env, raw: map<Felt, Cell>, p: State, at: Felt, c: Cell)
    requires c == Look(raw, at) && |c| == 2
    ensures NotePackedValue(ReaderOf(env, raw, p), at) == Ok(c[0])
  {
    NoteName();
  }

  lemma FlagAnswer(env: Env, raw: map<Felt, Cell>, p: State, at: Felt, c: Cell)
    requires c == Look(raw, at) && |c| >= 1
    ensures Flag(ReaderOf(env, raw, p), "nullifier_exists", at) == Ok(c[0] != 0)
    ensures Flag(ReaderOf(env, raw, p), "channel_exists", at) == Ok(c[0] != 0)
  {
    SpentName();
    MarkedName();
  }

  lemma SubchannelIsRead(env: Env, used: set<Slot>, raw: map<Felt, Cell>, p: State, key: Felt, k: U32)
    requires Stores(env, used, raw, p) && SubchannelSlot(key, k) in used
    ensures SubchannelInfo(ReaderOf(env, raw, p), SubchannelId(env, key, k)) == Ok(SubchannelView(env, p, key, k))
  {
    var at := Address(env, SubchannelSlot(key, k));
    CellIsRead(env, used, raw, p, SubchannelSlot(key, k));
    SubchannelAnswer(env, raw, p, at, Look(raw, at));
  }

  lemma NoteIsRead(env: Env, used: set<Slot>, raw: map<Felt, Cell>, p: State, key: Felt, token: Felt, i: U32)
    requires Stores(env, used, raw, p) && NoteSlot(key, token, i) in used
    ensures NotePackedValue(ReaderOf(env, raw, p), NoteId(env, key, token, i)) == Ok(NoteView(env, p, key, token, i))
  {
    var at := Address(env, NoteSlot(key, token, i));
    CellIsRead(env, used, raw, p, NoteSlot(key, token, i));
    NoteAnswer(env, raw, p, at, Look(raw, at));
  }

  lemma NullifierIsRead(env: Env, used: set<Slot>, raw: map<Felt, Cell>, p: State, key: Felt, token: Felt, i: U32,
                        a: Account)
    requires Stores(env, used, raw, p) && NullifierSlot(key, token, i, a.sk) in used
    ensures Flag(ReaderOf(env, raw, p), "nullifier_exists", NullifierId(env, key, token, i, a.sk))
         == Ok(Nullifier(key, token, i, a.sk) in p.nullifiers)
  {
    var at := Address(env, NullifierSlot(key, token, i, a.sk));
    CellIsRead(env, used, raw, p, NullifierSlot(key, token, i, a.sk));
    FlagAnswer(env, raw, p, at, Look(raw, at));
  }

  lemma MarkerIsRead(env: Env, used: set<Slot>, raw: map<Felt, Cell>, p: State, a: Account, id: Identity)
    requires Stores(env, used, raw, p) && MarkerSlot(ChannelKey(env, a, id), a.addr, id) in used
    ensures Flag(ReaderOf(env, raw, p), "channel_exists", MarkerId(env, a, id))
         == Ok(ChannelExists(p, ChannelKey(env, a, id), a.addr, id))
  {
    var at := Address(env, MarkerSlot(ChannelKey(env, a, id), a.addr, id));
    CellIsRead(env, used, raw, p, MarkerSlot(ChannelKey(env, a, id), a.addr, id));
    FlagAnswer(env, raw, p, at, Look(raw, at));
  }

  lemma OutgoingIsRead(env: Env, used: set<Slot>, raw: map<Felt, Cell>, p: State, a: Account, i: U32)
    requires Stores(env, used, raw, p) && OutgoingSlot(a, i) in used
    ensures OutgoingInfo(ReaderOf(env, raw, p), OutgoingId(env, a, i)) == Ok(OutgoingView(env, p, a, i))
  {
    var at := Address(env, OutgoingSlot(a, i));
    CellIsRead(env, used, raw, p, OutgoingSlot(a, i));
    OutgoingAnswer(env, raw, p, at, Look(raw, at));
  }

  /** The slots of everybody taking part are in `used`. */
  ghost predicate AllInUse(env: Env, used: set<Slot>) {
    && (forall key, k: U32 {:trigger SubchannelSlot(key, k)} :: key in Keys(env) ==> SubchannelSlot(key, k) in used)
    && (forall key, t, i: U32 {:trigger NoteSlot(key, t, i)} ::
          key in Keys(env) && t in env.tokens ==> NoteSlot(key, t, i) in used)
    && (forall key, t, i: U32, a {:trigger NullifierSlot(key, t, i, a.sk)} ::
          key in Keys(env) && t in env.tokens && a in env.accounts ==> NullifierSlot(key, t, i, a.sk) in used)
    && (forall a, id {:trigger MarkerSlot(ChannelKey(env, a, id), a.addr, id)} ::
          a in env.accounts && id in env.Identities() ==> MarkerSlot(ChannelKey(env, a, id), a.addr, id) in used)
    && (forall a, i: U32 {:trigger OutgoingSlot(a, i)} :: a in env.accounts ==> OutgoingSlot(a, i) in used)
  }

  lemma UsedAreInUse(env: Env)
    ensures AllInUse(env, UsedSlots(env))
  {
  }

  lemma SlotsAreRead(env: Env, used: set<Slot>, raw: map<Felt, Cell>, p: State, r: Reader)
    requires Stores(env, used, raw, p) && AllInUse(env, used) && r == ReaderOf(env, raw, p)
    ensures ReadsSlots(env, r, p)
  {
    forall key, k: U32 | key in Keys(env)
      ensures SubchannelInfo(r, SubchannelId(env, key, k)) == Ok(SubchannelView(env, p, key, k))
    {
      SubchannelIsRead(env, used, raw, p, key, k);
    }
    forall key, token, i: U32 | key in Keys(env) && token in env.tokens
      ensures NotePackedValue(r, NoteId(env, key, token, i)) == Ok(NoteView(env, p, key, token, i))
    {
      NoteIsRead(env, used, raw, p, key, token, i);
    }
    forall key, token, i: U32, a | key in Keys(env) && token in env.tokens && a in env.accounts
      ensures Flag(r, "nullifier_exists", NullifierId(env, key, token, i, a.sk))
           == Ok(Nullifier(key, token, i, a.sk) in p.nullifiers)
    {
      NullifierIsRead(env, used, raw, p, key, token, i, a);
    }
    forall a, id | a in env.accounts && id in env.Identities()
      ensures Flag(r, "channel_exists", MarkerId(env, a, id))
           == Ok(ChannelExists(p, ChannelKey(env, a, id), a.addr, id))
    {
      MarkerIsRead(env, used, raw, p, a, id);
    }
    forall a, i: U32 | a in env.accounts
      ensures OutgoingInfo(r, OutgoingId(env, a, i)) == Ok(OutgoingView(env, p, a, i))
    {
      OutgoingIsRead(env, used, raw, p, a, i);
    }
  }

  /** If the hash does not collide on the slots in use, then after any history a reader over the raw store
      answers every call of discovery from the pool's state: all that discovery assumes of its reader. */
  lemma DiscoveryReadsRawStorage(env: Env, deeds: seq<Deed>)
    requires Sound(env) && Uncollided(env, Inputs(UsedSlots(env))) && forall d :: d in deeds ==> InPlay(env, d)
    requires var p := Later(env, EMPTY, deeds); Bounded(p) && CountableChannels(p)
    ensures var p := Later(env, EMPTY, deeds); Reads(env, ReaderOf(env, RawLater(env, deeds), p), p)
  {
    var p := Later(env, EMPTY, deeds);
    EveryHistoryIsWf(env, deeds);
    RawStoreFollows(env, deeds);
    UsersAreRead(env, RawLater(env, deeds), p);
    UsedAreInUse(env);
    SlotsAreRead(env, UsedSlots(env), RawLater(env, deeds), p, ReaderOf(env, RawLater(env, deeds), p));
  }
}

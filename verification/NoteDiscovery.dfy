/** Reading every unspent note addressed to a user. */
module NoteDiscovery {
  import opened Field
  import opened Lists
  import opened Errors
  import opened Hashes
  import opened Crypto
  import opened Slots
  import opened Pool
  import opened Discovery

  // ---- the notes pool state `p` holds for an account, in scan order ----

  ghost function NoteAt(env: Env, p: State, key: Felt, sender: Felt, token: Felt, i: U32): Note
    requires ((key, token), i as nat) in p.notes
  {
    var stored := p.notes[((key, token), i as nat)];
    Note(NoteId(env, key, token, i), token, stored.amount, key, i, sender, stored.Open?)
  }

  /** What the `i`-th note of a subchannel contributes: nothing if it is spent. */
  ghost function NoteBlock(env: Env, p: State, sk: Felt, info: ChannelInfo, token: Felt, i: nat): seq<Note>
    requires i < Count(p.notes, (info.key, token)) <= TWO_32
  {
    if Nullifier(info.key, token, i, sk) in p.nullifiers then [] else [NoteAt(env, p, info.key, info.sender, token, i)]
  }

  ghost function NoteBlocks(env: Env, p: State, sk: Felt, info: ChannelInfo, token: Felt): (blocks: seq<seq<Note>>)
    requires Count(p.notes, (info.key, token)) <= TWO_32
    ensures |blocks| == Count(p.notes, (info.key, token))
    ensures forall i :: 0 <= i < |blocks| ==> blocks[i] == NoteBlock(env, p, sk, info, token, i)
  {
    var n := Count(p.notes, (info.key, token));
    seq(n, i requires 0 <= i < n => NoteBlock(env, p, sk, info, token, i))
  }

  /** The unspent notes of one subchannel, in order. */
  ghost function NotesOn(env: Env, p: State, sk: Felt, info: ChannelInfo, token: Felt): seq<Note>
    requires Count(p.notes, (info.key, token)) <= TWO_32
  {
    Concat(NoteBlocks(env, p, sk, info, token))
  }

  predicate Wanted(tokens: seq<Felt>, token: Felt) {
    tokens == [] || token in tokens
  }

  ghost predicate NoteRoom(p: State) {
    forall place :: Count(p.notes, place) <= TWO_32
  }

  /** What the `k`-th subchannel of a channel contributes. */
  ghost function SubBlock(env: Env, p: State, sk: Felt, tokens: seq<Felt>, info: ChannelInfo, k: nat): seq<Note>
    requires k < Count(p.subs, info.key) && NoteRoom(p)
  {
    var token := p.subs[(info.key, k)].token;
    if Wanted(tokens, token) then NotesOn(env, p, sk, info, token) else []
  }

  ghost function SubBlocks(env: Env, p: State, sk: Felt, tokens: seq<Felt>, info: ChannelInfo): (blocks: seq<seq<Note>>)
    requires NoteRoom(p)
    ensures |blocks| == Count(p.subs, info.key)
    ensures forall k :: 0 <= k < |blocks| ==> blocks[k] == SubBlock(env, p, sk, tokens, info, k)
  {
    var n := Count(p.subs, info.key);
    seq(n, k requires 0 <= k < n => SubBlock(env, p, sk, tokens, info, k))
  }

  ghost function NotesIn(env: Env, p: State, sk: Felt, tokens: seq<Felt>, info: ChannelInfo): seq<Note>
    requires NoteRoom(p)
  {
    Concat(SubBlocks(env, p, sk, tokens, info))
  }

  /** Who opened the `c`-th incoming channel, and its key. */
  ghost function InfoAt(p: State, user: Felt, c: nat): ChannelInfo
    requires (user, c) in p.incoming && p.incoming[(user, c)] in p.channels
  {
    var key := p.incoming[(user, c)];
    ChannelInfo(key, p.channels[key].sender.addr)
  }

  ghost predicate Scannable(p: State) {
    NoteRoom(p) && forall x {:trigger x in p.incoming} :: x in p.incoming ==> p.incoming[x] in p.channels
  }

  /** What the `c`-th incoming channel contributes. */
  ghost function ChannelBlock(env: Env, p: State, who: Account, tokens: seq<Felt>, c: nat): seq<Note>
    requires Scannable(p) && c < Count(p.incoming, who.addr)
  {
    NotesIn(env, p, who.sk, tokens, InfoAt(p, who.addr, c))
  }

  ghost function ChannelBlocks(env: Env, p: State, who: Account, tokens: seq<Felt>): (blocks: seq<seq<Note>>)
    requires Scannable(p)
    ensures |blocks| == Count(p.incoming, who.addr)
    ensures forall c :: 0 <= c < |blocks| ==> blocks[c] == ChannelBlock(env, p, who, tokens, c)
  {
    var n := Count(p.incoming, who.addr);
    seq(n, c requires 0 <= c < n => ChannelBlock(env, p, who, tokens, c))
  }

  ghost function NotesOf(env: Env, p: State, who: Account, tokens: seq<Felt>): seq<Note>
    requires Scannable(p)
  {
    Concat(ChannelBlocks(env, p, who, tokens))
  }

  lemma WfIsScannable(env: Env, p: State)
    requires Wf(env, p)
    ensures Scannable(p)
  {
    OpenWf(env, p);
    forall place
      ensures Count(p.notes, place) <= TWO_32
    {
      assert Count(p.notes, place) > 0 ==> (place, Count(p.notes, place) - 1) in p.notes;
    }
  }

  // ---- what each scan sees ----

  ghost predicate NoteReads(env: Env, r: Reader, p: State, sk: Felt, key: Felt, token: Felt, i: U32) {
    var n := Count(p.notes, (key, token));
    var got := NotePackedValue(r, NoteId(env, key, token, i));
    && got.Ok?
    && var v := DecryptNoteValue(env, got.value, key, token, i);
       && (v.None? <==> i == n)
       && (i < n ==>
             && ((key, token), i as nat) in p.notes
             && v.value.amount == p.notes[((key, token), i as nat)].amount
             && v.value.open == p.notes[((key, token), i as nat)].Open?
             && Flag(r, "nullifier_exists", NullifierId(env, key, token, i, sk))
                == Ok(Nullifier(key, token, i, sk) in p.nullifiers))
  }

  ghost predicate NoteListReads(env: Env, r: Reader, p: State, sk: Felt, key: Felt, token: Felt) {
    && Count(p.notes, (key, token)) < TWO_32
    && forall i: U32 :: i <= Count(p.notes, (key, token)) ==> NoteReads(env, r, p, sk, key, token, i)
  }

  ghost predicate SubReads(env: Env, r: Reader, p: State, sk: Felt, key: Felt, k: U32) {
    SubchannelReads(env, r, p, key, k)
    && (k < Count(p.subs, key) ==> NoteListReads(env, r, p, sk, key, p.subs[(key, k as nat)].token))
  }

  ghost predicate SubListReads(env: Env, r: Reader, p: State, sk: Felt, key: Felt) {
    && Count(p.subs, key) < TWO_32
    && forall k: U32 :: k <= Count(p.subs, key) ==> SubReads(env, r, p, sk, key, k)
  }

  ghost predicate ChannelReads(env: Env, r: Reader, p: State, who: Account, c: nat)
    requires Scannable(p) && c < Count(p.incoming, who.addr) < P
  {
    var info := InfoAt(p, who.addr, c);
    var got := ChannelInfoAt(r, who.addr, c);
    && got.Ok? && DecryptChannelInfo(env, got.value, who.sk) == Ok(info)
    && SubListReads(env, r, p, who.sk, info.key)
  }

  lemma NoteListScan(env: Env, r: Reader, p: State, who: Account, key: Felt, token: Felt)
    requires Reads(env, r, p) && who in env.accounts && key in Keys(env) && token in env.tokens
    ensures NoteListReads(env, r, p, who.sk, key, token)
  {
    OpenWf(env, p);
    forall i: U32 | i <= Count(p.notes, (key, token))
      ensures NoteReads(env, r, p, who.sk, key, token, i)
    {
      NoteRead(env, p, key, token, i);
    }
  }

  lemma SubListScan(env: Env, r: Reader, p: State, who: Account, key: Felt)
    requires Reads(env, r, p) && who in env.accounts && key in Keys(env)
    ensures SubListReads(env, r, p, who.sk, key)
  {
    OpenWf(env, p);
    forall k: U32 | k <= Count(p.subs, key)
      ensures SubReads(env, r, p, who.sk, key, k)
    {
      SubchannelScan(env, r, p, key, k);
      if k < Count(p.subs, key) {
        assert (key, k as nat) in p.subs;
        NoteListScan(env, r, p, who, key, p.subs[(key, k as nat)].token);
      }
    }
  }

  /** The owner decrypts each of its incoming channels to the key and sender the pool recorded. */
  lemma OwnerDecrypts(env: Env, p: State, who: Account, c: nat)
    requires Sound(env) && WfOpenings(env, p.pk, p.channels) && WfIncoming(p.channels, p.incoming)
    requires OwnKey(env, p, who) && (who.addr, c) in p.incoming
    ensures p.incoming[(who.addr, c)] in p.channels
    ensures DecryptChannelInfo(env, ChannelInfoView(env, p, who.addr, c), who.sk) == Ok(InfoAt(p, who.addr, c))
  {
    var key := p.incoming[(who.addr, c)];
    var o := p.channels[key];
    assert WfOpening(env, p.pk, key, o);
    ChannelInfoRoundTrip(env, ChannelInfo(key, o.sender.addr), who.sk, o.random);
  }

  lemma ChannelScan(env: Env, r: Reader, p: State, who: Account, c: nat)
    requires Reads(env, r, p) && OwnKey(env, p, who) && Scannable(p)
    requires c < Count(p.incoming, who.addr) < P
    ensures ChannelReads(env, r, p, who, c)
  {
    OpenWf(env, p);
    OwnerDecrypts(env, p, who, c);
    var key := p.incoming[(who.addr, c)];
    KeyInPlay(env, p, key);
    SubListScan(env, r, p, who, key);
  }

  // ---- the scans ----

  method DiscoverNotes(env: Env, r: Reader, ghost p: State, who: Account, tokens: seq<Felt>)
    returns (res: Result<seq<Note>, Error>)
    requires Reads(env, r, p) && OwnKey(env, p, who) && Scannable(p)
    ensures res == Ok(NotesOf(env, p, who, tokens))
  {
    var count: nat;
    match ChannelCount(r, who.addr) {
      case Err(e) => return Err(e);
      case Ok(n) => count := n;
    }
    forall c: nat | c < count
      ensures ChannelReads(env, r, p, who, c)
    {
      ChannelScan(env, r, p, who, c);
    }
    res := ScanChannels(env, r, p, who, tokens, count);
  }

  /** The outer loop of `DiscoverNotes`. */
  method ScanChannels(env: Env, r: Reader, ghost p: State, who: Account, tokens: seq<Felt>, count: nat)
    returns (res: Result<seq<Note>, Error>)
    requires Scannable(p) && count == Count(p.incoming, who.addr) < P
    requires forall c: nat :: c < count ==> ChannelReads(env, r, p, who, c)
    ensures res == Ok(NotesOf(env, p, who, tokens))
  {
    var notes := [];
    ghost var blocks := ChannelBlocks(env, p, who, tokens);
    for c := 0 to count
      invariant notes == Concat(blocks[..c])
    {
      ConcatTake(blocks, c);
      assert ChannelReads(env, r, p, who, c);
      var enc, channel;
      match ChannelInfoAt(r, who.addr, c) {
        case Err(e) => return Err(e);
        case Ok(x) => enc := x;
      }
      match DecryptChannelInfo(env, enc, who.sk) {
        case Err(e) => return Err(e);
        case Ok(x) => channel := x;
      }
      var more := ScanSubchannelNotes(env, r, p, who.sk, tokens, channel);
      match more {
        case Err(e) => return Err(e);
        case Ok(found) => notes := notes + found;
      }
    }
    assert blocks[..count] == blocks;
    res := Ok(notes);
  }

  /** The middle loop. */
  method ScanSubchannelNotes(env: Env, r: Reader, ghost p: State, sk: Felt, tokens: seq<Felt>, channel: ChannelInfo)
    returns (res: Result<seq<Note>, Error>)
    requires NoteRoom(p)
    requires SubListReads(env, r, p, sk, channel.key)
    ensures res == Ok(NotesIn(env, p, sk, tokens, channel))
  {
    var notes := [];
    ghost var blocks := SubBlocks(env, p, sk, tokens, channel);
    var i := 0;
    while true
      invariant i <= Count(p.subs, channel.key)
      invariant notes == Concat(blocks[..i])
      decreases Count(p.subs, channel.key) - i
    {
      var k, sub;
      match IndexU32(i) {
        case Err(e) => return Err(e);
        case Ok(x) => k := x;
      }
      assert SubReads(env, r, p, sk, channel.key, k);
      match SubchannelInfo(r, SubchannelId(env, channel.key, k)) {
        case Err(e) => return Err(e);
        case Ok(x) => sub := x;
      }
      if sub.salt == 0 { break; }
      ConcatTake(blocks, i);
      var token := DecryptSubchannelToken(env, sub, channel.key, k);
      i := i + 1;
      if tokens != [] && token !in tokens { continue; }
      var more := ScanNotes(env, r, p, sk, channel, token);
      match more {
        case Err(e) => return Err(e);
        case Ok(found) => notes := notes + found;
      }
    }
    assert blocks[..i] == blocks;
    res := Ok(notes);
  }

  /** The inner loop. */
  method ScanNotes(env: Env, r: Reader, ghost p: State, sk: Felt, channel: ChannelInfo, token: Felt)
    returns (res: Result<seq<Note>, Error>)
    requires NoteListReads(env, r, p, sk, channel.key, token)
    ensures res == Ok(NotesOn(env, p, sk, channel, token))
  {
    var notes := [];
    ghost var blocks := NoteBlocks(env, p, sk, channel, token);
    var n := 0;
    while true
      invariant n <= Count(p.notes, (channel.key, token))
      invariant notes == Concat(blocks[..n])
      decreases Count(p.notes, (channel.key, token)) - n
    {
      var i, packed, spent;
      match IndexU32(n) {
        case Err(e) => return Err(e);
        case Ok(x) => i := x;
      }
      assert NoteReads(env, r, p, sk, channel.key, token, i);
      var id := NoteId(env, channel.key, token, i);
      match NotePackedValue(r, id) {
        case Err(e) => return Err(e);
        case Ok(x) => packed := x;
      }
      var value := DecryptNoteValue(env, packed, channel.key, token, i);
      if value.None? { break; }
      ConcatTake(blocks, n);
      match Flag(r, "nullifier_exists", NullifierId(env, channel.key, token, i, sk)) {
        case Err(e) => return Err(e);
        case Ok(b) => spent := b;
      }
      n := n + 1;
      if spent { continue; }
      notes := notes + [Note(id, token, value.value.amount, channel.key, i, channel.sender, value.value.open)];
    }
    assert blocks[..n] == blocks;
    res := Ok(notes);
  }
}

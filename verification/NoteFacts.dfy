/** What discovery returns, said without scanning: exactly the unspent notes, each once. */
module NoteFacts {
  import opened Field
  import opened Lists
  import opened Hashes
  import opened Crypto
  import opened Slots
  import opened Pool
  import opened Discovery
  import opened NoteDiscovery

  /** `n` is a note the pool holds on a channel to `who` and no nullifier of `who`'s cancels it. */
  ghost predicate Unspent(env: Env, p: State, who: Account, n: Note) {
    && n.key in p.channels && p.channels[n.key].recipient.addr == who.addr
    && UnspentOn(env, p, who.sk, ChannelInfo(n.key, p.channels[n.key].sender.addr), n)
  }

  ghost predicate UnspentOn(env: Env, p: State, sk: Felt, info: ChannelInfo, n: Note) {
    && n.key == info.key
    && ((n.key, n.token), n.index as nat) in p.notes
    && Nullifier(n.key, n.token, n.index, sk) !in p.nullifiers
    && n == NoteAt(env, p, n.key, info.sender, n.token, n.index)
  }

  lemma NotesOnMember(env: Env, p: State, sk: Felt, info: ChannelInfo, token: Felt, n: Note)
    requires Count(p.notes, (info.key, token)) <= TWO_32 && NoGaps(p.notes)
    ensures n in NotesOn(env, p, sk, info, token) <==> UnspentOn(env, p, sk, info, n) && n.token == token
  {
    var blocks := NoteBlocks(env, p, sk, info, token);
    if n in Concat(blocks) {
      var i := ConcatFrom(blocks, n);
    }
    if UnspentOn(env, p, sk, info, n) && n.token == token {
      assert ((info.key, token), n.index as nat) in p.notes;
      ConcatHas(blocks, n.index, n);
    }
  }

  lemma NotesOnOnce(env: Env, p: State, sk: Felt, info: ChannelInfo, token: Felt)
    requires Count(p.notes, (info.key, token)) <= TWO_32
    ensures NoDup(NotesOn(env, p, sk, info, token))
  {
    var blocks := NoteBlocks(env, p, sk, info, token);
    ConcatNoDup(blocks, (x: Note) => x.index as nat);
  }

  /** What the subchannel facts need of the pool. */
  ghost predicate SubsOk(env: Env, p: State) {
    && SubsMarked(env.tokens, p.channels.Keys, p.subs, p.subIndex) && MarkersBacked(p.subs, p.subIndex)
    && NoGaps(p.subs) && NoGaps(p.notes) && (forall x {:trigger x in p.notes} :: x in p.notes ==> x.0 in p.subIndex)
    && NoteRoom(p)
  }

  lemma NotesInMember(env: Env, p: State, sk: Felt, tokens: seq<Felt>, info: ChannelInfo, n: Note)
    requires SubsOk(env, p)
    ensures n in NotesIn(env, p, sk, tokens, info) <==> UnspentOn(env, p, sk, info, n) && Wanted(tokens, n.token)
  {
    var blocks := SubBlocks(env, p, sk, tokens, info);
    if n in Concat(blocks) {
      var k := ConcatFrom(blocks, n);
      NotesOnMember(env, p, sk, info, p.subs[(info.key, k)].token, n);
    }
    if UnspentOn(env, p, sk, info, n) && Wanted(tokens, n.token) {
      var k := p.subIndex[(info.key, n.token)];
      assert (info.key, k) in p.subs && p.subs[(info.key, k)].token == n.token;
      NotesOnMember(env, p, sk, info, n.token, n);
      ConcatHas(blocks, k, n);
    }
  }

  /** The index of the subchannel a note is on, by its token. */
  function SubRank(p: State, key: Felt): Note -> nat {
    (x: Note) => if (key, x.token) in p.subIndex then p.subIndex[(key, x.token)] else 0
  }

  lemma SubBlockRank(env: Env, p: State, sk: Felt, info: ChannelInfo, k: nat, notes: seq<Note>)
    requires SubsOk(env, p) && (info.key, k) in p.subs
    requires notes == NotesOn(env, p, sk, info, p.subs[(info.key, k)].token)
    ensures NoDup(notes) && forall x :: x in notes ==> SubRank(p, info.key)(x) == k
  {
    var token := p.subs[(info.key, k)].token;
    NotesOnOnce(env, p, sk, info, token);
    forall x | x in notes
      ensures SubRank(p, info.key)(x) == k
    {
      NotesOnMember(env, p, sk, info, token, x);
    }
  }

  lemma NotesInOnce(env: Env, p: State, sk: Felt, tokens: seq<Felt>, info: ChannelInfo)
    requires SubsOk(env, p)
    ensures NoDup(NotesIn(env, p, sk, tokens, info))
  {
    var blocks := SubBlocks(env, p, sk, tokens, info);
    forall k | 0 <= k < |blocks|
      ensures NoDup(blocks[k]) && forall x :: x in blocks[k] ==> SubRank(p, info.key)(x) == k
    {
      var token := p.subs[(info.key, k)].token;
      SubBlockRank(env, p, sk, info, k, NotesOn(env, p, sk, info, token));
    }
    ConcatNoDup(blocks, SubRank(p, info.key));
  }

  lemma UnspentIsFound(env: Env, p: State, who: Account, tokens: seq<Felt>, n: Note)
    requires SubsOk(env, p) && Scannable(p) && WfIncoming(p.channels, p.incoming)
    requires Unspent(env, p, who, n) && Wanted(tokens, n.token)
    ensures n in NotesOf(env, p, who, tokens)
  {
    var c := p.channels[n.key].at;
    assert (who.addr, c) in p.incoming && p.incoming[(who.addr, c)] == n.key;
    NotesInMember(env, p, who.sk, tokens, InfoAt(p, who.addr, c), n);
    ConcatHas(ChannelBlocks(env, p, who, tokens), c, n);
  }

  lemma FoundIsUnspent(env: Env, p: State, who: Account, tokens: seq<Felt>, n: Note)
    requires SubsOk(env, p) && Scannable(p) && WfIncoming(p.channels, p.incoming)
    requires n in NotesOf(env, p, who, tokens)
    ensures Unspent(env, p, who, n) && Wanted(tokens, n.token)
  {
    var c := ConcatFrom(ChannelBlocks(env, p, who, tokens), n);
    NotesInMember(env, p, who.sk, tokens, InfoAt(p, who.addr, c), n);
    assert (who.addr, c) in p.incoming;
  }

  /** Discovery returns every unspent note of a wanted token and nothing else. */
  lemma NotesMember(env: Env, p: State, who: Account, tokens: seq<Felt>, n: Note)
    requires Wf(env, p) && Scannable(p)
    ensures n in NotesOf(env, p, who, tokens) <==> Unspent(env, p, who, n) && Wanted(tokens, n.token)
  {
    OpenWf(env, p);
    assert SubsOk(env, p);
    if n in NotesOf(env, p, who, tokens) {
      FoundIsUnspent(env, p, who, tokens, n);
    } else if Unspent(env, p, who, n) && Wanted(tokens, n.token) {
      UnspentIsFound(env, p, who, tokens, n);
    }
  }

  /** The place of a note's channel in the recipient's list. */
  function ChannelRank(p: State): Note -> nat {
    (x: Note) => if x.key in p.channels then p.channels[x.key].at else 0
  }

  lemma ChannelBlockRank(env: Env, p: State, who: Account, tokens: seq<Felt>, c: nat, notes: seq<Note>)
    requires Wf(env, p) && Scannable(p) && (who.addr, c) in p.incoming
    requires notes == NotesIn(env, p, who.sk, tokens, InfoAt(p, who.addr, c))
    ensures NoDup(notes) && forall x :: x in notes ==> ChannelRank(p)(x) == c
  {
    OpenWf(env, p);
    var info := InfoAt(p, who.addr, c);
    assert SubsOk(env, p);
    NotesInOnce(env, p, who.sk, tokens, info);
    forall x | x in notes
      ensures ChannelRank(p)(x) == c
    {
      NotesInMember(env, p, who.sk, tokens, info, x);
    }
  }

  /** Discovery returns no note twice. */
  lemma NotesOnce(env: Env, p: State, who: Account, tokens: seq<Felt>)
    requires Wf(env, p) && Scannable(p)
    ensures NoDup(NotesOf(env, p, who, tokens))
  {
    OpenWf(env, p);
    var blocks := ChannelBlocks(env, p, who, tokens);
    forall c | 0 <= c < |blocks|
      ensures NoDup(blocks[c]) && forall x :: x in blocks[c] ==> ChannelRank(p)(x) == c
    {
      ChannelBlockRank(env, p, who, tokens, c, blocks[c]);
    }
    ConcatNoDup(blocks, ChannelRank(p));
  }

  // ---- the token filter ----

  function Keep(tokens: seq<Felt>): Note -> bool {
    (n: Note) => n.token in tokens
  }

  lemma NotesOnFiltered(env: Env, p: State, sk: Felt, tokens: seq<Felt>, info: ChannelInfo, token: Felt)
    requires Count(p.notes, (info.key, token)) <= TWO_32 && NoGaps(p.notes)
    ensures Filter(Keep(tokens), NotesOn(env, p, sk, info, token))
         == if token in tokens then NotesOn(env, p, sk, info, token) else []
  {
    var notes := NotesOn(env, p, sk, info, token);
    forall n | n in notes
      ensures n.token == token
    {
      NotesOnMember(env, p, sk, info, token, n);
    }
    if token in tokens { FilterAll(Keep(tokens), notes); } else { FilterNone(Keep(tokens), notes); }
  }

  lemma NotesInFiltered(env: Env, p: State, sk: Felt, tokens: seq<Felt>, info: ChannelInfo)
    requires tokens != [] && NoGaps(p.notes) && NoteRoom(p)
    ensures NotesIn(env, p, sk, tokens, info) == Filter(Keep(tokens), NotesIn(env, p, sk, [], info))
  {
    var all, some := SubBlocks(env, p, sk, [], info), SubBlocks(env, p, sk, tokens, info);
    forall k | 0 <= k < |all|
      ensures some[k] == Filter(Keep(tokens), all[k])
    {
      NotesOnFiltered(env, p, sk, tokens, info, p.subs[(info.key, k)].token);
    }
    ConcatFilter(Keep(tokens), all, some);
  }

  /** Skipping unwanted subchannels while scanning is the same as scanning everything and then
      filtering, order included. */
  lemma FilterWhileScanning(env: Env, p: State, who: Account, tokens: seq<Felt>)
    requires tokens != [] && Scannable(p) && NoGaps(p.notes)
    ensures NotesOf(env, p, who, tokens) == Filter(Keep(tokens), NotesOf(env, p, who, []))
  {
    var all, some := ChannelBlocks(env, p, who, []), ChannelBlocks(env, p, who, tokens);
    forall c | 0 <= c < |all|
      ensures some[c] == Filter(Keep(tokens), all[c])
    {
      NotesInFiltered(env, p, who.sk, tokens, InfoAt(p, who.addr, c));
    }
    ConcatFilter(Keep(tokens), all, some);
  }
}

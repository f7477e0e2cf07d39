/** What discovery returns, field by field and in which order. */
module NoteOrder {
  import opened Field
  import opened Lists
  import opened ShortStrings
  import opened Hashes
  import opened Crypto
  import opened Slots
  import opened Pool
  import opened Discovery
  import opened NoteDiscovery
  import opened NoteFacts

  /** Every field of a note that is returned, in terms of the pool alone: it sits on a channel to the user, under the
      hash of its place; the pool holds its amount there, open or not; its sender opened the channel; and no nullifier
      of the user's cancels it. */
  lemma NotesExactly(env: Env, p: State, who: Account, tokens: seq<Felt>, n: Note)
    requires Wf(env, p) && Scannable(p)
    ensures n in NotesOf(env, p, who, tokens)
       <==> && n.key in p.channels && ((n.key, n.token), n.index as nat) in p.notes
            && p.channels[n.key].recipient.addr == who.addr && p.channels[n.key].sender.addr == n.sender
            && n.id == env.hash(NoteIdTag, [n.key, n.token, n.index, 0])
            && n.amount == p.notes[((n.key, n.token), n.index as nat)].amount
            && n.open == p.notes[((n.key, n.token), n.index as nat)].Open?
            && Nullifier(n.key, n.token, n.index, who.sk) !in p.nullifiers
            && (tokens == [] || n.token in tokens)
  {
    NotesMember(env, p, who, tokens, n);
  }

  // ---- the order ----

  /** By channel, then by subchannel, then by note index. */
  predicate Before(p: State, a: Note, b: Note) {
    var i, j := ChannelRank(p)(a), ChannelRank(p)(b);
    var k, l := SubRank(p, a.key)(a), SubRank(p, b.key)(b);
    i < j || (i == j && (k < l || (k == l && a.index < b.index)))
  }

  ghost predicate InOrder(p: State, notes: seq<Note>) {
    forall i, j :: 0 <= i < j < |notes| ==> Before(p, notes[i], notes[j])
  }

  lemma OrderJoins(p: State, a: seq<Note>, b: seq<Note>)
    requires InOrder(p, a) && InOrder(p, b) && forall x, y :: x in a && y in b ==> Before(p, x, y)
    ensures InOrder(p, a + b)
  {
  }

  lemma {:induction false} BlocksInOrder(p: State, blocks: seq<seq<Note>>)
    requires forall i :: 0 <= i < |blocks| ==> InOrder(p, blocks[i])
    requires forall i, j :: 0 <= i < j < |blocks| ==>
               forall x, y :: x in blocks[i] && y in blocks[j] ==> Before(p, x, y)
    ensures InOrder(p, Concat(blocks))
    decreases |blocks|
  {
    if blocks != [] {
      var n := |blocks| - 1;
      BlocksInOrder(p, blocks[..n]);
      forall x, y | x in Concat(blocks[..n]) && y in blocks[n]
        ensures Before(p, x, y)
      {
        var i := ConcatFrom(blocks[..n], x);
      }
      OrderJoins(p, Concat(blocks[..n]), blocks[n]);
    }
  }

  lemma NotesOnInOrder(env: Env, p: State, sk: Felt, info: ChannelInfo, token: Felt)
    requires Count(p.notes, (info.key, token)) <= TWO_32
    ensures InOrder(p, NotesOn(env, p, sk, info, token))
  {
    BlocksInOrder(p, NoteBlocks(env, p, sk, info, token));
  }

  lemma NotesInInOrder(env: Env, p: State, sk: Felt, tokens: seq<Felt>, info: ChannelInfo)
    requires SubsOk(env, p)
    ensures InOrder(p, NotesIn(env, p, sk, tokens, info))
  {
    var blocks := SubBlocks(env, p, sk, tokens, info);
    forall k | 0 <= k < |blocks|
      ensures InOrder(p, blocks[k])
      ensures forall x: Note :: x in blocks[k] ==> x.key == info.key && SubRank(p, info.key)(x) == k
    {
      SubBlockInOrder(env, p, sk, tokens, info, k);
    }
    BlocksInOrder(p, blocks);
  }

  lemma SubBlockInOrder(env: Env, p: State, sk: Felt, tokens: seq<Felt>, info: ChannelInfo, k: nat)
    requires SubsOk(env, p) && k < Count(p.subs, info.key)
    ensures InOrder(p, SubBlock(env, p, sk, tokens, info, k))
    ensures forall x: Note :: x in SubBlock(env, p, sk, tokens, info, k) ==>
              x.key == info.key && SubRank(p, info.key)(x) == k
  {
    var token := p.subs[(info.key, k)].token;
    NotesOnInOrder(env, p, sk, info, token);
    SubBlockRank(env, p, sk, info, k, NotesOn(env, p, sk, info, token));
    forall x | x in NotesOn(env, p, sk, info, token)
      ensures x.key == info.key
    {
      NotesOnMember(env, p, sk, info, token, x);
    }
  }

  /** Discovery returns notes channel by channel, within a channel subchannel by subchannel, and by index. */
  lemma NotesInScanOrder(env: Env, p: State, who: Account, tokens: seq<Felt>)
    requires Wf(env, p) && Scannable(p)
    ensures InOrder(p, NotesOf(env, p, who, tokens))
  {
    OpenWf(env, p);
    assert SubsOk(env, p);
    var blocks := ChannelBlocks(env, p, who, tokens);
    forall c | 0 <= c < |blocks|
      ensures InOrder(p, blocks[c]) && forall x: Note :: x in blocks[c] ==> ChannelRank(p)(x) == c
    {
      NotesInInOrder(env, p, who.sk, tokens, InfoAt(p, who.addr, c));
      ChannelBlockRank(env, p, who, tokens, c, blocks[c]);
    }
    BlocksInOrder(p, blocks);
  }
}

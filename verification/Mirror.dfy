/** The planner's working copy stays what discovery would return, one pool action at a time. */
module Mirror {
  import opened Field
  import opened ShortStrings
  import opened Hashes
  import opened Crypto
  import opened Slots
  import opened Pool
  import opened Discovery

  /** The copy holds, for each of its recipients, exactly what the pool holds, and the user's own
      outgoing count. */
  ghost predicate Mirrors(env: Env, q: State, who: Account, channels: map<Felt, OutgoingChannel>, next: nat) {
    && next == Count(q.outgoing, who)
    && (forall r {:trigger r in channels} :: r in channels ==> r in q.pk && channels[r] == ChannelOf(env, q, who, r))
  }

  ghost predicate SubsSound(subs: map<(Felt, nat), Sub>, subIndex: map<(Felt, Felt), nat>, key: Felt) {
    && (forall k: nat {:trigger (key, k) in subs} :: (key, k) in subs ==>
          (key, subs[(key, k)].token) in subIndex && subIndex[(key, subs[(key, k)].token)] == k)
    && (forall t: Felt {:trigger (key, t) in subIndex} :: (key, t) in subIndex ==>
          (key, subIndex[(key, t)]) in subs && subs[(key, subIndex[(key, t)])].token == t)
  }

  /** A scan's map holds exactly the tokens with a marker below where it has got to. */
  lemma {:induction false} SubchannelMember(subs: map<(Felt, nat), Sub>, subIndex: map<(Felt, Felt), nat>,
                                            notes: map<((Felt, Felt), nat), StoredNote>, key: Felt, k: nat, t: Felt)
    requires SubsSound(subs, subIndex, key) && k <= Count(subs, key)
    ensures t in SubchannelsBelow(subs, notes, key, k) <==> (key, t) in subIndex && subIndex[(key, t)] < k
    decreases k
  {
    if k > 0 {
      var j: nat := k - 1;
      SubchannelMember(subs, subIndex, notes, key, j, t);
      assert (key, j) in subs;
      if (key, t) in subIndex && subIndex[(key, t)] == j {
        assert subs[(key, j)].token == t;
      }
    }
  }

  lemma {:induction false} SubchannelsSize(subs: map<(Felt, nat), Sub>, subIndex: map<(Felt, Felt), nat>,
                                           notes: map<((Felt, Felt), nat), StoredNote>, key: Felt, k: nat)
    requires SubsSound(subs, subIndex, key) && k <= Count(subs, key)
    ensures |SubchannelsBelow(subs, notes, key, k)| == k
    decreases k
  {
    if k > 0 {
      var j: nat := k - 1;
      SubchannelsSize(subs, subIndex, notes, key, j);
      assert (key, j) in subs;
      SubchannelMember(subs, subIndex, notes, key, j, subs[(key, j)].token);
    }
  }

  lemma {:induction false} SubchannelEntry(subs: map<(Felt, nat), Sub>, subIndex: map<(Felt, Felt), nat>,
                                           notes: map<((Felt, Felt), nat), StoredNote>, key: Felt, k: nat, t: Felt)
    requires SubsSound(subs, subIndex, key) && k <= Count(subs, key)
    requires t in SubchannelsBelow(subs, notes, key, k)
    ensures (key, t) in subIndex
    ensures SubchannelsBelow(subs, notes, key, k)[t] == Subchannel(subIndex[(key, t)], Count(notes, (key, t)))
    decreases k
  {
    var j: nat := k - 1;
    assert (key, j) in subs;
    if t != subs[(key, j)].token {
      SubchannelEntry(subs, subIndex, notes, key, j, t);
    }
  }

  /** Only the channel's own subchannels and their notes matter. */
  lemma {:induction false} SubchannelsFrame(
      subs: map<(Felt, nat), Sub>, notes: map<((Felt, Felt), nat), StoredNote>,
      subs': map<(Felt, nat), Sub>, notes': map<((Felt, Felt), nat), StoredNote>, key: Felt, k: nat)
    requires k <= Count(subs, key) && k <= Count(subs', key)
    requires forall j: nat {:trigger (key, j) in subs} :: j < k ==>
               (key, j) in subs && (key, j) in subs' && subs'[(key, j)].token == subs[(key, j)].token
    requires forall t: Felt {:trigger Count(notes', (key, t))} :: Count(notes', (key, t)) == Count(notes, (key, t))
    ensures SubchannelsBelow(subs', notes', key, k) == SubchannelsBelow(subs, notes, key, k)
    decreases k
  {
    if k > 0 {
      var j: nat := k - 1;
      SubchannelsFrame(subs, notes, subs', notes', key, j);
      assert (key, j) in subs;
    }
  }

  lemma SubsAreSound(tokens: set<Felt>, keys: set<Felt>, subs: map<(Felt, nat), Sub>,
                     subIndex: map<(Felt, Felt), nat>, key: Felt)
    requires SubsMarked(tokens, keys, subs, subIndex) && MarkersBacked(subs, subIndex)
    ensures SubsSound(subs, subIndex, key)
  {
  }

  /** Different recipients' channels have different keys. */
  lemma KeysApart(env: Env, who: Account, a: Identity, b: Identity)
    requires Sound(env) && who in env.accounts && a in env.Identities() && b in env.Identities() && a != b
    ensures ChannelKey(env, who, a) != ChannelKey(env, who, b)
  {
    if ChannelKey(env, who, a) == ChannelKey(env, who, b) {
      KeyInjective(env, who, a, who, b);
    }
  }

  /** The recipient as the user's channels know it. */
  function IdOf(q: State, r: Felt): Identity
    requires r in q.pk
  {
    Identity(r, q.pk[r])
  }

  function KeyTo(env: Env, q: State, who: Account, r: Felt): Felt
    requires r in q.pk
  {
    ChannelKey(env, who, IdOf(q, r))
  }

  /** Every field of a discovered channel, in terms of the pool alone. */
  lemma ChannelExactly(env: Env, q: State, who: Account, r: Felt, t: Felt)
    requires Wf(env, q) && r in q.pk
    ensures var ch, key := ChannelOf(env, q, who, r), env.hash(ChannelKeyTag, [who.addr, who.sk, r, q.pk[r]]);
            && ch.recipient == r && ch.recipientPk == q.pk[r] && ch.key == key
            && (ch.open <==> key in q.channels && q.channels[key].sender.addr == who.addr
                             && q.channels[key].recipient == Identity(r, q.pk[r]))
            && (t in ch.subchannels <==> ch.open && (key, t) in q.subIndex)
            && (t in ch.subchannels ==>
                  ch.subchannels[t] == Subchannel(q.subIndex[(key, t)], Count(q.notes, (key, t))))
  {
    OpenWf(env, q);
    var key := KeyTo(env, q, who, r);
    SubsAreSound(env.tokens, q.channels.Keys, q.subs, q.subIndex, key);
    SubchannelMember(q.subs, q.subIndex, q.notes, key, Count(q.subs, key), t);
    if t in SubchannelsOf(q, key) {
      SubchannelEntry(q.subs, q.subIndex, q.notes, key, Count(q.subs, key), t);
    }
    if (key, t) in q.subIndex {
      assert (key, q.subIndex[(key, t)]) in q.subs;
    }
  }

  /** A change that leaves every other recipient's channel alone is mirrored by updating one entry. */
  lemma UpdateMirrors(env: Env, q: State, q': State, who: Account, channels: map<Felt, OutgoingChannel>, next: nat,
                      r: Felt, ch: OutgoingChannel, next': nat)
    requires Mirrors(env, q, who, channels, next) && q'.pk == q.pk && next' == Count(q'.outgoing, who)
    requires r in q.pk && ChannelOf(env, q', who, r) == ch
    requires forall other {:trigger other in channels} :: other in channels && other != r ==>
               other in q.pk && ChannelOf(env, q', who, other) == ChannelOf(env, q, who, other)
    ensures Mirrors(env, q', who, channels[r := ch], next')
  {
  }

  // ---- opening a channel ----

  lemma OpenedChannel(env: Env, q: State, who: Account, r: Felt, random: Felt, salt: Felt)
    requires Sound(env) && Wf(env, q) && who in env.accounts && r in q.pk
    requires !ChannelOf(env, q, who, r).open
    ensures ChannelOf(env, AfterOpen(env, q, who, IdOf(q, r), random, salt), who, r)
         == ChannelOf(env, q, who, r).(open := true)
  {
    OpenWf(env, q);
    var key := KeyTo(env, q, who, r);
    AbsentKey(env, q, who, IdOf(q, r));
    assert (key, 0) !in q.subs;
    CountIs(q.subs, key, 0);
  }

  lemma OpenLeavesOthers(env: Env, q: State, who: Account, r: Felt, random: Felt, salt: Felt, other: Felt)
    requires Sound(env) && WfUsers(env, q.pk) && who in env.accounts && r in q.pk && other in q.pk && other != r
    ensures ChannelOf(env, AfterOpen(env, q, who, IdOf(q, r), random, salt), who, other)
         == ChannelOf(env, q, who, other)
  {
    KeysApart(env, who, IdOf(q, r), IdOf(q, other));
  }

  lemma OpenMirrors(env: Env, q: State, who: Account, channels: map<Felt, OutgoingChannel>, next: nat,
                    r: Felt, random: Felt, salt: Felt)
    requires Sound(env) && Wf(env, q) && who in env.accounts && Mirrors(env, q, who, channels, next)
    requires r in channels && !channels[r].open && next < TWO_32 && env.Scalar(random) && salt != 0
    ensures CanOpen(env, q, who, r, next, random, salt)
    ensures Mirrors(env, AfterOpen(env, q, who, IdOf(q, r), random, salt), who,
                    channels[r := channels[r].(open := true)], next + 1)
  {
    OpenWf(env, q);
    var q' := AfterOpen(env, q, who, IdOf(q, r), random, salt);
    AppendCounts(q.outgoing, who, Outgoing(r, salt));
    OpenedChannel(env, q, who, r, random, salt);
    forall other | other in channels && other != r
      ensures other in q.pk && ChannelOf(env, q', who, other) == ChannelOf(env, q, who, other)
    {
      OpenLeavesOthers(env, q, who, r, random, salt, other);
    }
    UpdateMirrors(env, q, q', who, channels, next, r, channels[r].(open := true), next + 1);
  }

  // ---- opening a subchannel ----

  lemma SubOpenedChannel(env: Env, q: State, who: Account, r: Felt, token: Felt, salt: Felt)
    requires Wf(env, q) && r in q.pk && ChannelOf(env, q, who, r).open
    requires token !in ChannelOf(env, q, who, r).subchannels
    ensures var ch := ChannelOf(env, q, who, r);
            && (KeyTo(env, q, who, r), token) !in q.subIndex
            && |ch.subchannels| == Count(q.subs, KeyTo(env, q, who, r))
            && ChannelOf(env, AfterOpenSub(q, KeyTo(env, q, who, r), token, salt), who, r)
               == ch.(subchannels := ch.subchannels[token := Subchannel(|ch.subchannels|, 0)])
  {
    OpenWf(env, q);
    var key := KeyTo(env, q, who, r);
    SubsAreSound(env.tokens, q.channels.Keys, q.subs, q.subIndex, key);
    SubOpened(q.subs, q.subIndex, q.notes, key, token, salt);
    assert ((key, token), 0) !in q.notes;
    CountIs(q.notes, (key, token), 0);
  }

  lemma IndexBelowCount(subs: map<(Felt, nat), Sub>, subIndex: map<(Felt, Felt), nat>, key: Felt, t: Felt)
    requires SubsSound(subs, subIndex, key) && NoGaps(subs) && (key, t) in subIndex
    ensures subIndex[(key, t)] < Count(subs, key)
  {
    assert (key, subIndex[(key, t)]) in subs;
  }

  lemma SubOpened(subs: map<(Felt, nat), Sub>, subIndex: map<(Felt, Felt), nat>,
                  notes: map<((Felt, Felt), nat), StoredNote>, key: Felt, token: Felt, salt: Felt)
    requires SubsSound(subs, subIndex, key) && NoGaps(subs)
    requires token !in SubchannelsBelow(subs, notes, key, Count(subs, key))
    ensures var n := Count(subs, key);
            var subs' := subs[(key, n) := Sub(token, salt)];
            && (key, token) !in subIndex
            && |SubchannelsBelow(subs, notes, key, n)| == n && Count(subs', key) == n + 1
            && SubchannelsBelow(subs', notes, key, n + 1)
               == SubchannelsBelow(subs, notes, key, n)[token := Subchannel(n, Count(notes, (key, token)))]
  {
    var n := Count(subs, key);
    var subs' := subs[(key, n) := Sub(token, salt)];
    SubchannelMember(subs, subIndex, notes, key, n, token);
    SubchannelsSize(subs, subIndex, notes, key, n);
    AppendCounts(subs, key, Sub(token, salt));
    SubchannelsFrame(subs, notes, subs', notes, key, n);
    if (key, token) in subIndex {
      IndexBelowCount(subs, subIndex, key, token);
    }
  }

  lemma SubLeavesOthers(env: Env, q: State, who: Account, r: Felt, token: Felt, salt: Felt, other: Felt)
    requires Sound(env) && WfUsers(env, q.pk) && who in env.accounts && NoGaps(q.subs)
    requires r in q.pk && other in q.pk && other != r
    ensures ChannelOf(env, AfterOpenSub(q, KeyTo(env, q, who, r), token, salt), who, other)
         == ChannelOf(env, q, who, other)
  {
    var key, k := KeyTo(env, q, who, r), KeyTo(env, q, who, other);
    KeysApart(env, who, IdOf(q, r), IdOf(q, other));
    var q' := AfterOpenSub(q, key, token, salt);
    AppendCounts(q.subs, key, Sub(token, salt));
    SubchannelsFrame(q.subs, q.notes, q'.subs, q.notes, k, Count(q.subs, k));
  }

  lemma SubMirrors(env: Env, q: State, who: Account, channels: map<Felt, OutgoingChannel>, next: nat,
                   r: Felt, token: Felt, salt: Felt, ch: OutgoingChannel)
    requires Sound(env) && Wf(env, q) && who in env.accounts && Mirrors(env, q, who, channels, next)
    requires r in channels && ch == channels[r] && ch.open && token !in ch.subchannels && salt != 0
    requires |ch.subchannels| < TWO_32
    ensures CanOpenSub(env, q, who, Identity(r, ch.recipientPk), ch.key, |ch.subchannels|, token, salt)
    ensures Mirrors(env, AfterOpenSub(q, ch.key, token, salt), who,
                    channels[r := ch.(subchannels := ch.subchannels[token := Subchannel(|ch.subchannels|, 0)])], next)
  {
    OpenWf(env, q);
    SubOpenedChannel(env, q, who, r, token, salt);
    var q' := AfterOpenSub(q, ch.key, token, salt);
    forall other | other in channels && other != r
      ensures other in q.pk && ChannelOf(env, q', who, other) == ChannelOf(env, q, who, other)
    {
      SubLeavesOthers(env, q, who, r, token, salt, other);
    }
    UpdateMirrors(env, q, q', who, channels, next, r,
                  ch.(subchannels := ch.subchannels[token := Subchannel(|ch.subchannels|, 0)]), next);
  }

  // ---- creating a note ----

  lemma {:induction false} NoteAdded(subs: map<(Felt, nat), Sub>, notes: map<((Felt, Felt), nat), StoredNote>,
                                     key: Felt, k: nat, token: Felt, note: StoredNote)
    requires k <= Count(subs, key) && NoGaps(notes)
    requires forall i: nat, j: nat {:trigger (key, i) in subs, (key, j) in subs} ::
               (key, i) in subs && (key, j) in subs && subs[(key, i)].token == subs[(key, j)].token ==> i == j
    ensures var n := Count(notes, (key, token));
            var m := SubchannelsBelow(subs, notes, key, k);
            SubchannelsBelow(subs, notes[((key, token), n) := note], key, k)
            == if token in m then m[token := Subchannel(m[token].index, n + 1)] else m
    ensures token in SubchannelsBelow(subs, notes, key, k) ==>
              SubchannelsBelow(subs, notes, key, k)[token].nextNote == Count(notes, (key, token))
    decreases k
  {
    AppendCounts(notes, (key, token), note);
    if k > 0 {
      var j: nat := k - 1;
      NoteAdded(subs, notes, key, j, token, note);
      assert (key, j) in subs;
    }
  }

  /** The channel with one more note on a subchannel. */
  function WithNote(ch: OutgoingChannel, token: Felt): OutgoingChannel
    requires token in ch.subchannels
  {
    var sub := ch.subchannels[token];
    ch.(subchannels := ch.subchannels[token := sub.(nextNote := sub.nextNote + 1)])
  }

  lemma NotedChannel(env: Env, q: State, who: Account, r: Felt, token: Felt, amount: U128, salt: U128,
                     ch: OutgoingChannel)
    requires NoGaps(q.notes) && SubsMarked(env.tokens, q.channels.Keys, q.subs, q.subIndex)
    requires MarkersBacked(q.subs, q.subIndex)
    requires r in q.pk && ch == ChannelOf(env, q, who, r) && ch.open && token in ch.subchannels
    ensures (ch.key, token) in q.subIndex && ch.subchannels[token].nextNote == Count(q.notes, (ch.key, token))
    ensures ChannelOf(env, AfterCreate(q, ch.key, token, amount, salt), who, r) == WithNote(ch, token)
  {
    var key := KeyTo(env, q, who, r);
    SubsAreSound(env.tokens, q.channels.Keys, q.subs, q.subIndex, key);
    SubchannelMember(q.subs, q.subIndex, q.notes, key, Count(q.subs, key), token);
    NoteAdded(q.subs, q.notes, key, Count(q.subs, key), token, Encrypted(amount, salt));
  }

  lemma NoteLeavesOthers(env: Env, q: State, who: Account, r: Felt, token: Felt, amount: U128, salt: U128, other: Felt)
    requires Sound(env) && WfUsers(env, q.pk) && who in env.accounts && NoGaps(q.notes)
    requires r in q.pk && other in q.pk && other != r
    ensures ChannelOf(env, AfterCreate(q, KeyTo(env, q, who, r), token, amount, salt), who, other)
         == ChannelOf(env, q, who, other)
  {
    var place, k := (KeyTo(env, q, who, r), token), KeyTo(env, q, who, other);
    var note := Encrypted(amount, salt);
    KeysApart(env, who, IdOf(q, r), IdOf(q, other));
    AppendCounts(q.notes, place, note);
    SubchannelsFrame(q.subs, q.notes, q.subs, q.notes[(place, Count(q.notes, place)) := note], k, Count(q.subs, k));
  }

  lemma NoteMirrors(env: Env, q: State, who: Account, channels: map<Felt, OutgoingChannel>, next: nat,
                    r: Felt, token: Felt, amount: U128, salt: U128, ch: OutgoingChannel)
    requires Sound(env) && Wf(env, q) && who in env.accounts && Mirrors(env, q, who, channels, next)
    requires r in channels && ch == channels[r] && ch.open && token in ch.subchannels && NoteSalt(salt)
    requires ch.subchannels[token].nextNote < TWO_32
    ensures CanCreate(env, q, who, Identity(r, ch.recipientPk), token, ch.subchannels[token].nextNote, salt)
    ensures Mirrors(env, AfterCreate(q, ch.key, token, amount, salt), who, channels[r := WithNote(ch, token)], next)
  {
    OpenWf(env, q);
    NotedChannel(env, q, who, r, token, amount, salt, ch);
    NoteMirrored(env, q, AfterCreate(q, ch.key, token, amount, salt), who, channels, next, r, token, amount, salt, ch);
  }

  lemma NoteMirrored(env: Env, q: State, q': State, who: Account, channels: map<Felt, OutgoingChannel>, next: nat,
                     r: Felt, token: Felt, amount: U128, salt: U128, ch: OutgoingChannel)
    requires Sound(env) && WfUsers(env, q.pk) && who in env.accounts && NoGaps(q.notes)
    requires Mirrors(env, q, who, channels, next)
    requires r in channels && ch == channels[r] && token in ch.subchannels
    requires q' == AfterCreate(q, KeyTo(env, q, who, r), token, amount, salt)
    requires ChannelOf(env, q', who, r) == WithNote(ch, token)
    ensures Mirrors(env, q', who, channels[r := WithNote(ch, token)], next)
  {
    forall other | other in channels && other != r
      ensures other in q.pk && ChannelOf(env, q', who, other) == ChannelOf(env, q, who, other)
    {
      NoteLeavesOthers(env, q, who, r, token, amount, salt, other);
    }
    UpdateMirrors(env, q, q', who, channels, next, r, WithNote(ch, token), next);
  }
}

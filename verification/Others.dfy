/** Other users' actions never invalidate what a user has discovered: its plan still runs after them. */
module Others {
  import opened Field
  import opened Hashes
  import opened Slots
  import opened Actions
  import opened Pool
  import opened History
  import opened Discovery
  import opened NoteDiscovery
  import opened NoteFacts
  import opened Planner
  import opened Mirror
  import opened Placing
  import opened Batch
  import opened Balance

  // ---- one action by somebody else ----

  /** Two senders never share a channel key. */
  lemma SendersApart(env: Env, a: Account, r: Identity, b: Account, q: Identity)
    requires Sound(env) && a in env.accounts && b in env.accounts && a.addr != b.addr
    requires r in env.Identities() && q in env.Identities()
    ensures ChannelKey(env, a, r) != ChannelKey(env, b, q)
  {
    if ChannelKey(env, a, r) == ChannelKey(env, b, q) {
      KeyInjective(env, a, r, b, q);
    }
  }

  /** An existing channel's key belongs to its sender. */
  lemma UsedKeyApart(env: Env, p: State, other: Account, id: Identity, who: Account, r: Felt)
    requires Sound(env) && Wf(env, p) && other in env.accounts && who in env.accounts && other.addr != who.addr
    requires ChannelExists(p, ChannelKey(env, other, id), other.addr, id) && r in p.pk
    ensures KeyTo(env, p, who, r) != ChannelKey(env, other, id)
  {
    OpenWf(env, p);
    var o := p.channels[ChannelKey(env, other, id)];
    assert WfOpening(env, p.pk, ChannelKey(env, other, id), o);
    assert Identity(o.recipient.addr, p.pk[o.recipient.addr]) == id;
    SendersApart(env, who, IdOf(p, r), other, id);
  }

  lemma OpenKeepsChannel(env: Env, p: State, other: Account, to: Felt, random: Felt, salt: Felt, who: Account, r: Felt)
    requires Sound(env) && Wf(env, p) && other in env.accounts && who in env.accounts && other.addr != who.addr
    requires r in p.pk && to in p.pk
    ensures ChannelOf(env, AfterOpen(env, p, other, IdOf(p, to), random, salt), who, r) == ChannelOf(env, p, who, r)
  {
    OpenWf(env, p);
    SendersApart(env, who, IdOf(p, r), other, IdOf(p, to));
  }

  lemma OpenSubKeepsChannel(env: Env, p: State, other: Account, id: Identity, token: Felt, salt: Felt, who: Account,
                            r: Felt)
    requires Sound(env) && Wf(env, p) && other in env.accounts && who in env.accounts && other.addr != who.addr
    requires ChannelExists(p, ChannelKey(env, other, id), other.addr, id) && r in p.pk
    ensures ChannelOf(env, AfterOpenSub(p, ChannelKey(env, other, id), token, salt), who, r)
         == ChannelOf(env, p, who, r)
  {
    UsedKeyApart(env, p, other, id, who, r);
    OpenWf(env, p);
    ForeignSub(env, p, ChannelKey(env, other, id), Sub(token, salt), who, r);
  }

  lemma ForeignSub(env: Env, p: State, key: Felt, sub: Sub, who: Account, r: Felt)
    requires r in p.pk && KeyTo(env, p, who, r) != key && NoGaps(p.subs)
    ensures ChannelOf(env, AfterOpenSub(p, key, sub.token, sub.salt), who, r) == ChannelOf(env, p, who, r)
  {
    var k := KeyTo(env, p, who, r);
    AppendCounts(p.subs, key, sub);
    SubchannelsFrame(p.subs, p.notes, p.subs[(key, Count(p.subs, key)) := sub], p.notes, k, Count(p.subs, k));
  }

  lemma NoteKeepsChannel(env: Env, p: State, other: Account, id: Identity, token: Felt, note: StoredNote,
                         who: Account, r: Felt)
    requires Sound(env) && Wf(env, p) && other in env.accounts && who in env.accounts && other.addr != who.addr
    requires ChannelExists(p, ChannelKey(env, other, id), other.addr, id) && r in p.pk
    ensures ChannelOf(env, AfterNote(p, ChannelKey(env, other, id), token, note), who, r) == ChannelOf(env, p, who, r)
  {
    UsedKeyApart(env, p, other, id, who, r);
    OpenWf(env, p);
    ForeignNote(env, p, ChannelKey(env, other, id), token, note, who, r);
  }

  lemma ForeignNote(env: Env, p: State, key: Felt, token: Felt, note: StoredNote, who: Account, r: Felt)
    requires r in p.pk && KeyTo(env, p, who, r) != key && NoGaps(p.notes)
    ensures ChannelOf(env, AfterNote(p, key, token, note), who, r) == ChannelOf(env, p, who, r)
  {
    var place, k := (key, token), KeyTo(env, p, who, r);
    AppendCounts(p.notes, place, note);
    SubchannelsFrame(p.subs, p.notes, p.subs, p.notes[(place, Count(p.notes, place)) := note], k, Count(p.subs, k));
  }

  /** The user's channel to anybody looks the same after another user's action. */
  lemma StepKeepsChannel(env: Env, other: Account, s: Machine, a: ClientAction, s': Machine, who: Account, r: Felt)
    requires Sound(env) && Wf(env, s.pool) && other in env.accounts && who in env.accounts && other.addr != who.addr
    requires Step(env, other, s, a) == Some(s') && r in s.pool.pk
    ensures r in s'.pool.pk && ChannelOf(env, s'.pool, who, r) == ChannelOf(env, s.pool, who, r)
  {
    var p := s.pool;
    match a {
      case SetViewingKey(_) =>
      case OpenChannel(to, index, random, salt) => OpenKeepsChannel(env, p, other, to, random, salt, who, r);
      case OpenSubchannel(to, pk, key, index, token, salt) =>
        OpenSubKeepsChannel(env, p, other, Identity(to, pk), token, salt, who, r);
      case CreateEncNote(to, pk, token, amount, index, salt) =>
        NoteKeepsChannel(env, p, other, Identity(to, pk), token, Encrypted(amount, salt), who, r);
      case Deposit(_, _) =>
      case UseNote(_, _, _) =>
      case Withdraw(_, _, _, _) =>
    }
  }

  lemma StepKeepsOutgoing(env: Env, other: Account, s: Machine, a: ClientAction, s': Machine, who: Account)
    requires Wf(env, s.pool) && other.addr != who.addr && Step(env, other, s, a) == Some(s')
    ensures Count(s'.pool.outgoing, who) == Count(s.pool.outgoing, who)
    ensures who.addr in s'.pool.pk <==> who.addr in s.pool.pk
    ensures who.addr in s.pool.pk ==> s'.pool.pk[who.addr] == s.pool.pk[who.addr]
  {
    OpenWf(env, s.pool);
    if a.OpenChannel? {
      AppendCounts(s.pool.outgoing, other, Outgoing(a.recipient, a.salt));
    }
  }

  lemma StepKeepsMirrors(env: Env, other: Account, s: Machine, a: ClientAction, s': Machine, who: Account,
                         channels: map<Felt, OutgoingChannel>, next: nat)
    requires Sound(env) && Wf(env, s.pool) && other in env.accounts && who in env.accounts && other.addr != who.addr
    requires Step(env, other, s, a) == Some(s') && Mirrors(env, s.pool, who, channels, next)
    ensures Mirrors(env, s'.pool, who, channels, next)
  {
    StepKeepsOutgoing(env, other, s, a, s', who);
    forall r {:trigger r in channels} | r in channels
      ensures r in s'.pool.pk && channels[r] == ChannelOf(env, s'.pool, who, r)
    {
      StepKeepsChannel(env, other, s, a, s', who, r);
    }
  }

  /** Whatever this client's actions by another user do, the discovered state still describes the pool. */
  lemma StepKeepsDescribed(env: Env, other: Account, s: Machine, a: ClientAction, s': Machine, who: Account,
                           st: UserState)
    requires Sound(env) && Wf(env, s.pool) && other in env.accounts && who in env.accounts && other.addr != who.addr
    requires Step(env, other, s, a) == Some(s') && Describes(env, s.pool, who, st)
    ensures Describes(env, s'.pool, who, st)
  {
    StepKeepsOutgoing(env, other, s, a, s', who);
    if st.registered {
      StepKeepsMirrors(env, other, s, a, s', who, st.channels, st.outgoing);
    }
    forall n | n in st.notes && !n.open
      ensures Unspent(env, s'.pool, who, n)
    {
      StepUnspent(env, other, s, a, who, n);
    }
  }

  // ---- open notes ----

  /** A change to the notes alone that leaves the user's channels and spendable notes as they were. */
  lemma NotesChange(env: Env, p: State, q: State, who: Account, st: UserState)
    requires Describes(env, p, who, st) && q == p.(notes := q.notes)
    requires forall r {:trigger r in st.channels} :: r in st.channels && r in p.pk ==>
               ChannelOf(env, q, who, r) == ChannelOf(env, p, who, r)
    requires forall n :: n in st.notes && !n.open ==> Unspent(env, q, who, n)
    ensures Describes(env, q, who, st)
  {
  }

  lemma OpenNoteKeepsDescribed(env: Env, p: State, other: Account, id: Identity, token: Felt, amount: U128, index: U32,
                               who: Account, st: UserState)
    requires Sound(env) && Wf(env, p) && other in env.accounts && who in env.accounts && other.addr != who.addr
    requires CanCreateOpen(env, p, other, id, token, index) && Describes(env, p, who, st)
    ensures Describes(env, AfterNote(p, ChannelKey(env, other, id), token, Open(amount)), who, st)
  {
    var q := AfterNote(p, ChannelKey(env, other, id), token, Open(amount));
    forall r | r in st.channels && r in p.pk
      ensures ChannelOf(env, q, who, r) == ChannelOf(env, p, who, r)
    {
      NoteKeepsChannel(env, p, other, id, token, Open(amount), who, r);
    }
    forall n | n in st.notes && !n.open
      ensures Unspent(env, q, who, n)
    {
      NewNoteKeepsUnspent(env, p, ChannelKey(env, other, id), token, Open(amount), who, n);
    }
    NotesChange(env, p, q, who, st);
  }

  lemma NewNoteKeepsUnspent(env: Env, p: State, key: Felt, token: Felt, note: StoredNote, who: Account, n: Note)
    requires Unspent(env, p, who, n)
    ensures Unspent(env, AfterNote(p, key, token, note), who, n)
  {
    assert ((key, token), Count(p.notes, (key, token))) !in p.notes;
  }

  lemma FillKeepsChannel(env: Env, p: State, key: Felt, token: Felt, index: nat, amount: U128, who: Account, r: Felt)
    requires CanFill(p, key, token, index) && r in p.pk
    ensures ChannelOf(env, AfterFill(p, key, token, index, amount), who, r) == ChannelOf(env, p, who, r)
  {
    var k, notes := KeyTo(env, p, who, r), p.notes[((key, token), index) := Open(amount)];
    assert notes.Keys == p.notes.Keys;
    forall t: Felt
      ensures Count(notes, (k, t)) == Count(p.notes, (k, t))
    {
      SameSlotsSameCounts(p.notes, notes, (k, t));
    }
    SubchannelsFrame(p.subs, p.notes, p.subs, notes, k, Count(p.subs, k));
  }

  /** Filling an open note touches nothing that can be spent. */
  lemma FillKeepsDescribed(env: Env, p: State, key: Felt, token: Felt, index: nat, amount: U128, who: Account,
                           st: UserState)
    requires CanFill(p, key, token, index) && Describes(env, p, who, st)
    ensures Describes(env, AfterFill(p, key, token, index, amount), who, st)
  {
    var q := AfterFill(p, key, token, index, amount);
    forall r | r in st.channels && r in p.pk
      ensures ChannelOf(env, q, who, r) == ChannelOf(env, p, who, r)
    {
      FillKeepsChannel(env, p, key, token, index, amount, who, r);
    }
    forall n | n in st.notes && !n.open
      ensures Unspent(env, q, who, n)
    {
      assert Unspent(env, p, who, n);
    }
    NotesChange(env, p, q, who, st);
  }

  // ---- anything, any number of times, by others ----

  predicate ByOthers(env: Env, who: Account, deeds: seq<Deed>) {
    forall d :: d in deeds ==> InPlay(env, d) && d.who.addr != who.addr
  }

  lemma PerformKeepsDescribed(env: Env, p: State, d: Deed, who: Account, st: UserState)
    requires Sound(env) && Wf(env, p) && InPlay(env, d) && who in env.accounts && d.who.addr != who.addr
    requires Describes(env, p, who, st)
    ensures Describes(env, Perform(env, p, d), who, st)
  {
    match d.action {
      case Sent(a) =>
        var m := Step(env, d.who, Machine(p, map[]), a);
        if m.Some? {
          StepKeepsDescribed(env, d.who, Machine(p, map[]), a, m.value, who, st);
        }
      case CreateOpen(r, pk, token, amount, index) =>
        if CanCreateOpen(env, p, d.who, Identity(r, pk), token, index) {
          OpenNoteKeepsDescribed(env, p, d.who, Identity(r, pk), token, amount, index, who, st);
        }
      case FillOpen(key, token, index, amount) =>
        if CanFill(p, key, token, index) {
          FillKeepsDescribed(env, p, key, token, index, amount, who, st);
        }
    }
  }

  lemma PerformKeepsUser(env: Env, p: State, d: Deed, who: Account)
    requires Wf(env, p) && d.who.addr != who.addr
    ensures who.addr in Perform(env, p, d).pk <==> who.addr in p.pk
    ensures who.addr in p.pk ==> Perform(env, p, d).pk[who.addr] == p.pk[who.addr]
  {
    if d.action.Sent? {
      var m := Step(env, d.who, Machine(p, map[]), d.action.action);
      if m.Some? {
        StepKeepsOutgoing(env, d.who, Machine(p, map[]), d.action.action, m.value, who);
      }
    }
  }

  lemma {:induction false} OthersKeepInformed(env: Env, p: State, who: Account, intent: Intent, st: UserState,
                                              deeds: seq<Deed>)
    requires Informed(env, p, who, intent, st) && ByOthers(env, who, deeds)
    ensures Informed(env, Later(env, p, deeds), who, intent, st)
    decreases |deeds|
  {
    if deeds != [] {
      var k := |deeds| - 1;
      OthersKeepInformed(env, p, who, intent, st, deeds[..k]);
      OneKeepsInformed(env, Later(env, p, deeds[..k]), who, intent, st, deeds[k]);
    }
  }

  lemma OneKeepsInformed(env: Env, p: State, who: Account, intent: Intent, st: UserState, d: Deed)
    requires Informed(env, p, who, intent, st) && InPlay(env, d) && d.who.addr != who.addr
    ensures Informed(env, Perform(env, p, d), who, intent, st)
  {
    PerformKeepsDescribed(env, p, d, who, st);
    PerformKeepsUser(env, p, d, who);
    PerformKeepsWf(env, p, d);
    WfIsScannable(env, Perform(env, p, d));
  }

  /** Whatever other users do between discovery and execution, open notes included, a plan made from what was
      discovered is accepted exactly when its draws are good. So only the account's own activity can make a
      proved plan stale. */
  lemma PlanSurvivesOthers(env: Env, p: State, who: Account, intent: Intent, st: UserState, rng: Rng, d: Draft,
                           deeds: seq<Deed>)
    requires Discovered(env, p, who, intent, st) && SafeSums(intent) && MakeDraft(env, intent, st, rng) == Ok(d)
    requires ByOthers(env, who, deeds) && ListsHaveRoom(Later(env, p, deeds), |d.work.creates| + 1)
    ensures var actions := Assembled(intent, d).actions;
            && (RunBatch(env, who, Later(env, p, deeds), actions).Some? <==> GoodDraws(env, actions))
            && (GoodDraws(env, actions) ==>
                  var q := RunBatch(env, who, Later(env, p, deeds), actions).value;
                  Mirrors(env, q, who, d.work.channels, d.work.next))
  {
    DiscoveryDescribes(env, p, who, intent, st);
    OthersKeepInformed(env, p, who, intent, st, deeds);
    InformedPlanRuns(env, Later(env, p, deeds), who, intent, st, rng, d);
  }
}

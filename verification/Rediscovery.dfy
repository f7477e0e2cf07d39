/** After an accepted plan a second discovery, over the raw storage the batch left, returns the planner's final
    working copy. */
module Rediscovery {
  import opened Field
  import opened Lists
  import opened Hashes
  import opened Slots
  import opened Actions
  import opened Pool
  import opened History
  import opened Discovery
  import opened NoteDiscovery
  import opened NoteFacts
  import opened Planner
  import opened Mirror
  import opened Placing
  import opened StateDiscovery
  import opened Batch
  import opened Outcome
  import opened Storage
  import opened RawStorage
  import opened RawReader

  // ---- how far a batch can fill the lists ----

  /** No list of `q` has more than `n` entries more than in `p`. */
  ghost predicate Grown(p: State, q: State, n: nat) {
    && (forall a: Account :: Count(q.outgoing, a) <= Count(p.outgoing, a) + n)
    && (forall u: Felt :: Count(q.incoming, u) <= Count(p.incoming, u) + n)
    && (forall key: Felt :: Count(q.subs, key) <= Count(p.subs, key) + n)
    && (forall place: (Felt, Felt) :: Count(q.notes, place) <= Count(p.notes, place) + n)
  }

  lemma OpenGrows(env: Env, p: State, who: Account, id: Identity, random: Felt, salt: Felt)
    requires Wf(env, p)
    ensures Grown(p, AfterOpen(env, p, who, id, random, salt), 1)
  {
    OpenWf(env, p);
    AppendCounts(p.incoming, id.addr, ChannelKey(env, who, id));
    AppendCounts(p.outgoing, who, Outgoing(id.addr, salt));
  }

  lemma OpenSubGrows(env: Env, p: State, key: Felt, token: Felt, salt: Felt)
    requires Wf(env, p)
    ensures Grown(p, AfterOpenSub(p, key, token, salt), 1)
  {
    OpenWf(env, p);
    AppendCounts(p.subs, key, Sub(token, salt));
  }

  lemma NoteGrows(env: Env, p: State, key: Felt, token: Felt, note: StoredNote)
    requires Wf(env, p)
    ensures Grown(p, AfterNote(p, key, token, note), 1)
  {
    OpenWf(env, p);
    AppendCounts(p.notes, (key, token), note);
  }

  lemma StepGrows(env: Env, who: Account, s: Machine, a: ClientAction, s': Machine)
    requires Wf(env, s.pool) && Step(env, who, s, a) == Some(s')
    ensures Grown(s.pool, s'.pool, 1)
  {
    var p := s.pool;
    match a {
      case OpenChannel(r, index, random, salt) => OpenGrows(env, p, who, Identity(r, p.pk[r]), random, salt);
      case OpenSubchannel(r, pk, key, index, token, salt) => OpenSubGrows(env, p, key, token, salt);
      case CreateEncNote(r, pk, token, amount, index, salt) =>
        NoteGrows(env, p, ChannelKey(env, who, Identity(r, pk)), token, Encrypted(amount, salt));
      case _ =>
    }
  }

  lemma FillGrows(p: State, key: Felt, token: Felt, index: nat, amount: U128)
    requires CanFill(p, key, token, index)
    ensures Grown(p, AfterFill(p, key, token, index, amount), 1)
  {
    var notes := p.notes[((key, token), index) := Open(amount)];
    assert notes.Keys == p.notes.Keys;
    forall place: (Felt, Felt)
      ensures Count(notes, place) == Count(p.notes, place)
    {
      SameSlotsSameCounts(p.notes, notes, place);
    }
  }

  lemma PerformGrows(env: Env, p: State, d: Deed)
    requires Wf(env, p)
    ensures Grown(p, Perform(env, p, d), 1)
  {
    match d.action {
      case Sent(a) =>
        var m := Step(env, d.who, Machine(p, map[]), a);
        if m.Some? {
          StepGrows(env, d.who, Machine(p, map[]), a, m.value);
        }
      case CreateOpen(r, pk, token, amount, index) =>
        NoteGrows(env, p, ChannelKey(env, d.who, Identity(r, pk)), token, Open(amount));
      case FillOpen(key, token, index, amount) =>
        if CanFill(p, key, token, index) {
          FillGrows(p, key, token, index, amount);
        }
    }
  }

  lemma GrownTwice(p: State, m: State, q: State, n: nat)
    requires Grown(p, m, n) && Grown(m, q, 1)
    ensures Grown(p, q, n + 1)
  {
  }

  /** No action, by whomever, lengthens a list by more than one entry. */
  lemma {:induction false} LaterGrows(env: Env, p: State, deeds: seq<Deed>)
    requires Sound(env) && Wf(env, p) && forall d :: d in deeds ==> InPlay(env, d)
    ensures Grown(p, Later(env, p, deeds), |deeds|)
    decreases |deeds|
  {
    if deeds != [] {
      var k := |deeds| - 1;
      LaterGrows(env, p, deeds[..k]);
      LaterIsWf(env, p, deeds[..k]);
      PerformGrows(env, Later(env, p, deeds[..k]), deeds[k]);
      GrownTwice(p, Later(env, p, deeds[..k]), Later(env, p, deeds), k);
    }
  }

  // ---- what stays of the user ----

  lemma {:induction false} ExecKeepsOwnKey(env: Env, who: Account, s: Machine, actions: seq<ClientAction>, s': Machine)
    requires OwnKey(env, s.pool, who) && Exec(env, who, s, actions) == Some(s')
    ensures OwnKey(env, s'.pool, who)
    decreases |actions|
  {
    if actions != [] {
      var k := |actions| - 1;
      var m := Exec(env, who, s, actions[..k]).value;
      ExecKeepsOwnKey(env, who, s, actions[..k], m);
      StepKeepsOwnKey(env, who, m, actions[k], s');
    }
  }

  lemma StepKeepsOwnKey(env: Env, who: Account, s: Machine, a: ClientAction, s': Machine)
    requires OwnKey(env, s.pool, who) && Step(env, who, s, a) == Some(s')
    ensures OwnKey(env, s'.pool, who)
  {
  }

  // ---- whom the working copy covers ----

  lemma PlaceNoteCovers(w: Work, m: Move, w': Work)
    requires PlaceNote(w, m) == Ok(w')
    ensures w'.channels.Keys == w.channels.Keys && m.to in w.channels
  {
  }

  lemma {:induction false} PlaceAllCovers(w: Work, ms: seq<Move>, w': Work)
    requires PlaceAll(w, ms) == Ok(w')
    ensures w'.channels.Keys == w.channels.Keys && forall m :: m in ms ==> m.to in w.channels
    decreases |ms|
  {
    if ms != [] {
      var k := |ms| - 1;
      var mid := PlaceAll(w, ms[..k]).value;
      PlaceAllCovers(w, ms[..k], mid);
      PlaceNoteCovers(mid, ms[k], w');
      assert forall m :: m in ms <==> m in ms[..k] || m == ms[k];
    }
  }

  /** The working copy starts with the channels that were read, or with the user's own on registering. */
  lemma StartCovers(env: Env, p: State, who: Account, intent: Intent, st: UserState, rng: Rng,
                    account: seq<ClientAction>, w: Work)
    requires Discovered(env, p, who, intent, st) && StartWork(env, intent, st, rng) == Ok((account, w))
    requires intent.register || st.registered
    ensures forall r :: r in w.channels <==> if st.registered then r in Recipients(intent, who.addr) else r == who.addr
  {
    StateIs(env, p, who, intent, st);
  }

  /** At the end it has a channel for each recipient and for the user. */
  lemma WorkCovers(env: Env, p: State, who: Account, intent: Intent, st: UserState, rng: Rng, d: Draft)
    requires Discovered(env, p, who, intent, st) && SafeSums(intent) && MakeDraft(env, intent, st, rng) == Ok(d)
    ensures forall r :: r in d.work.channels <==> r in Recipients(intent, who.addr)
  {
    var w := DraftSteps(env, intent, st, rng, d);
    StartCovers(env, p, who, intent, st, rng, d.account, w);
    PlaceAllCovers(w, NewNotes(intent, st.user.addr, d.cover.change), d.work);
    if !st.registered {
      OnlyTo(intent.transfers, who.addr, NewNotes(intent, st.user.addr, d.cover.change));
    }
  }

  lemma OnlyTo(transfers: seq<Move>, user: Felt, ms: seq<Move>)
    requires transfers <= ms && forall m :: m in ms ==> m.to == user
    ensures forall r :: r in MapSeq(RecipientOf, transfers) + [user] <==> r == user
  {
    forall i | 0 <= i < |transfers|
      ensures MapSeq(RecipientOf, transfers)[i] == user
    {
      assert transfers[i] == ms[i];
    }
    assert (MapSeq(RecipientOf, transfers) + [user])[|transfers|] == user;
  }

  // ---- the second discovery ----

  lemma SameChannels(env: Env, q: State, who: Account, next: nat, rs: seq<Felt>, channels: map<Felt, OutgoingChannel>)
    requires Mirrors(env, q, who, channels, next) && forall r :: r in channels <==> r in rs
    ensures ChannelsTo(env, q, who, rs) == Ok(channels)
  {
    ChannelsToAre(env, q, who, rs);
    var found := ChannelsTo(env, q, who, rs).value;
    assert found.Keys == channels.Keys;
    assert found == channels;
  }

  lemma ChannelsRediscovered(env: Env, p: State, who: Account, intent: Intent, st: UserState, rng: Rng, d: Draft,
                             q: State)
    requires Accepted(env, p, who, intent, st, rng, d, q) && Scannable(q)
    requires Mirrors(env, q, who, d.work.channels, d.work.next)
    ensures StateOf(env, q, who, intent).Ok?
    ensures var now := StateOf(env, q, who, intent).value;
            now == UserState(who, true, d.work.next, d.work.channels, now.notes)
  {
    WorkCovers(env, p, who, intent, st, rng, d);
    SameChannels(env, q, who, d.work.next, Recipients(intent, who.addr), d.work.channels);
    assert Recipients(intent, who.addr)[|intent.transfers|] == who.addr;
  }

  /** The state the planner leaves: its working copy of the channels and the outgoing count, and of the tokens that
      leave the old notes less those spent plus those created for the user, each once. */
  ghost predicate Predicted(env: Env, p: State, who: Account, intent: Intent, d: Draft, now: UserState)
    requires Scannable(p)
  {
    && now == UserState(who, true, d.work.next, d.work.channels, now.notes)
    && NoDup(now.notes)
    && forall n :: n in now.notes <==>
         && n.token in TokensOut(intent)
         && ((n in NotesOf(env, p, who, []) && n !in d.cover.spends) || SelfCreated(env, who, d.work.creates, n))
  }

  /** Discovering again for the same intent returns exactly what the planner predicted. */
  lemma Rediscovered(env: Env, p: State, who: Account, intent: Intent, st: UserState, rng: Rng, d: Draft, q: State)
    requires Accepted(env, p, who, intent, st, rng, d, q) && ListsHaveRoom(p, |d.work.creates| + 1)
    ensures Wf(env, q) && Scannable(q)
    ensures StateOf(env, q, who, intent).Ok? && Predicted(env, p, who, intent, d, StateOf(env, q, who, intent).value)
  {
    PlanRuns(env, p, who, intent, st, rng, d);
    WfIsScannable(env, q);
    ChannelsRediscovered(env, p, who, intent, st, rng, d, q);
    var now := StateOf(env, q, who, intent).value;
    StateIs(env, q, who, intent, now);
    forall n
      ensures n in now.notes <==>
                && n.token in TokensOut(intent)
                && ((n in NotesOf(env, p, who, []) && n !in d.cover.spends) || SelfCreated(env, who, d.work.creates, n))
    {
      NotesAfterPlan(env, p, who, intent, st, rng, d, q, n);
      NotesMember(env, q, who, [], n);
    }
  }

  lemma StillBounded(p: State, q: State, n: nat)
    requires ListsHaveRoom(p, n + 1) && (forall u: Felt :: Count(p.incoming, u) + n < TWO_64) && Grown(p, q, n)
    ensures Bounded(q) && CountableChannels(q)
  {
  }

  /** The batch as deeds in the history. */
  lemma AcceptedIsHistory(env: Env, deeds: seq<Deed>, who: Account, actions: seq<ClientAction>, q: State)
    requires RunBatch(env, who, Later(env, EMPTY, deeds), actions) == Some(q)
    ensures q == Later(env, EMPTY, deeds + DeedsOf(who, actions))
    ensures q == Later(env, Later(env, EMPTY, deeds), DeedsOf(who, actions))
  {
    var p := Later(env, EMPTY, deeds);
    BatchIsHistory(env, who, Machine(p, map[]), actions, Exec(env, who, Machine(p, map[]), actions).value);
    LaterConcat(env, EMPTY, deeds, DeedsOf(who, actions));
  }

  lemma StillInPlay(env: Env, deeds: seq<Deed>, who: Account, actions: seq<ClientAction>)
    requires (forall x :: x in deeds ==> InPlay(env, x)) && who in env.accounts
    requires forall a :: a in actions ==> TokenInPlay(env, a)
    ensures forall x :: x in deeds + DeedsOf(who, actions) ==> InPlay(env, x)
  {
  }

  lemma ReadableAfterPlan(env: Env, deeds: seq<Deed>, who: Account, intent: Intent, st: UserState, rng: Rng, d: Draft,
                          q: State)
    requires Sound(env) && Uncollided(env, Inputs(UsedSlots(env))) && forall x :: x in deeds ==> InPlay(env, x)
    requires Accepted(env, Later(env, EMPTY, deeds), who, intent, st, rng, d, q)
    requires HistoryHasRoom(env, deeds, |Assembled(intent, d).actions|)
    ensures var after := deeds + DeedsOf(who, Assembled(intent, d).actions);
            && q == Later(env, EMPTY, after)
            && Reads(env, ReaderOf(env, RawLater(env, after), q), q) && OwnKey(env, q, who)
  {
    var p, actions := Later(env, EMPTY, deeds), Assembled(intent, d).actions;
    var s := Machine(p, map[]);
    AcceptedIsHistory(env, deeds, who, actions, q);
    AcceptedFacts(env, p, who, intent, st, rng, d, q);
    StillInPlay(env, deeds, who, actions);
    LaterGrows(env, p, DeedsOf(who, actions));
    ExecKeepsOwnKey(env, who, s, actions, Exec(env, who, s, actions).value);
    StillBounded(p, q, |actions|);
    DiscoveryReadsRawStorage(env, deeds + DeedsOf(who, actions));
  }

  /** Room in every list for `n` more entries after these deeds. */
  ghost predicate HistoryHasRoom(env: Env, deeds: seq<Deed>, n: nat) {
    var p := Later(env, EMPTY, deeds);
    ListsHaveRoom(p, n + 1) && forall u: Felt :: Count(p.incoming, u) + n < TWO_64
  }

  /** From any history to the next discovery: a plan made from what was discovered is accepted exactly if its draws
      are good; then the raw storage it leaves again gives a reader all that discovery needs, and what a second
      discovery returns is what the planner predicted. */
  lemma SecondDiscovery(env: Env, deeds: seq<Deed>, who: Account, intent: Intent, st: UserState, rng: Rng, d: Draft)
    requires Sound(env) && Uncollided(env, Inputs(UsedSlots(env))) && forall x :: x in deeds ==> InPlay(env, x)
    requires Discovered(env, Later(env, EMPTY, deeds), who, intent, st)
    requires SafeSums(intent) && MakeDraft(env, intent, st, rng) == Ok(d)
    requires HistoryHasRoom(env, deeds, |Assembled(intent, d).actions|)
    ensures var p, actions := Later(env, EMPTY, deeds), Assembled(intent, d).actions;
            && (RunBatch(env, who, p, actions).Some? <==> GoodDraws(env, actions))
            && (GoodDraws(env, actions) ==>
                  var after := deeds + DeedsOf(who, actions);
                  var q := Later(env, EMPTY, after);
                  && RunBatch(env, who, p, actions) == Some(q)
                  && Reads(env, ReaderOf(env, RawLater(env, after), q), q) && OwnKey(env, q, who) && Scannable(q)
                  && StateOf(env, q, who, intent).Ok?
                  && Predicted(env, p, who, intent, d, StateOf(env, q, who, intent).value))
  {
    var p, actions := Later(env, EMPTY, deeds), Assembled(intent, d).actions;
    RoomForFewer(p, |actions| + 1, |d.work.creates| + 1);
    PlanRuns(env, p, who, intent, st, rng, d);
    if GoodDraws(env, actions) {
      var q := RunBatch(env, who, p, actions).value;
      ReadableAfterPlan(env, deeds, who, intent, st, rng, d, q);
      Rediscovered(env, p, who, intent, st, rng, d, q);
    }
  }
}

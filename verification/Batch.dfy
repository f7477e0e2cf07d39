/** A plan made from what discovery returned runs on the pool, and leaves it as the plan predicted. */
module Batch {
  import opened Field
  import opened Lists
  import opened Hashes
  import opened Slots
  import opened Actions
  import opened Pool
  import opened Discovery
  import opened NoteDiscovery
  import opened NoteFacts
  import opened Planner
  import opened Mirror
  import opened Placing
  import opened CoverAllTokens
  import opened Accounting
  import opened Emitted
  import opened StateDiscovery

  /** Every list the client numbers with a u32 has room for `n` more entries. */
  ghost predicate ListsHaveRoom(p: State, n: nat) {
    && n < TWO_32
    && (forall a: Account :: Count(p.outgoing, a) + n < TWO_32)
    && (forall key: Felt :: Count(p.subs, key) + n < TWO_32)
    && (forall place: (Felt, Felt) :: Count(p.notes, place) + n < TWO_32)
  }

  lemma RoomForFewer(p: State, n: nat, k: nat)
    requires ListsHaveRoom(p, n) && k <= n
    ensures ListsHaveRoom(p, k)
  {
  }

  predicate KnownTokens(env: Env, intent: Intent) {
    forall f :: f in Flows(intent) ==> f.token in env.tokens
  }

  /** What runs between the subchannels and the new notes. */
  function Middle(deposits: seq<Amount>, spends: seq<Note>): seq<ClientAction> {
    MapSeq(DepositAction, deposits) + MapSeq(UseAction, spends)
  }

  // ---- the working copy at the start ----

  lemma NullifiersUnmirrored(env: Env, q: State, q': State, who: Account, channels: map<Felt, OutgoingChannel>,
                             next: nat)
    requires Mirrors(env, q, who, channels, next) && q' == q.(nullifiers := q'.nullifiers)
    ensures Mirrors(env, q', who, channels, next)
  {
    forall r {:trigger r in channels} | r in channels
      ensures r in q'.pk && channels[r] == ChannelOf(env, q', who, r)
    {
      assert ChannelOf(env, q', who, r) == ChannelOf(env, q, who, r);
    }
  }

  lemma MiddleRuns(env: Env, who: Account, s: Machine, deposits: seq<Amount>, spends: seq<Note>) returns (m: Machine)
    requires Registered(env, s.pool, who) && OwnedBy(env, s.pool, who)
    requires NoDup(spends) && forall n :: n in spends ==> Unspent(env, s.pool, who, n)
    ensures Exec(env, who, s, Middle(deposits, spends)) == Some(m)
    ensures m.pool == s.pool.(nullifiers := m.pool.nullifiers)
  {
    DepositsRun(env, who, s, deposits);
    var t := Exec(env, who, s, MapSeq(DepositAction, deposits)).value;
    UsesRun(env, who, t, spends);
    ExecConcat(env, who, s, MapSeq(DepositAction, deposits), MapSeq(UseAction, spends));
    m := Exec(env, who, t, MapSeq(UseAction, spends)).value;
  }

  predicate NothingPlaced(w: Work) {
    w.opens == [] && w.subs == [] && w.creates == []
  }

  lemma StartRegistered(env: Env, p: State, who: Account, deposits: seq<Amount>, spends: seq<Note>, w: Work)
    returns (m: Machine)
    requires Wf(env, p) && Registered(env, p, who) && Mirrors(env, p, who, w.channels, w.next) && NothingPlaced(w)
    requires NoDup(spends) && forall n :: n in spends ==> Unspent(env, p, who, n)
    ensures Simulates(env, who, Machine(p, map[]), [], Middle(deposits, spends), w, m)
  {
    var s := Machine(p, map[]);
    OwnsChannels(env, p, who);
    m := MiddleRuns(env, who, s, deposits, spends);
    assert Layout([], Middle(deposits, spends), w) == Middle(deposits, spends);
    NullifiersUnmirrored(env, p, m.pool, who, w.channels, w.next);
  }

  /** Nobody has a channel from, or an outgoing list of, an account that never registered. */
  lemma NothingBeforeRegistering(env: Env, p: State, who: Account)
    requires Wf(env, p) && who.addr !in p.pk
    ensures Count(p.outgoing, who) == 0
    ensures !ChannelExists(p, ChannelKey(env, who, env.IdentityOf(who)), who.addr, env.IdentityOf(who))
  {
    OpenWf(env, p);
    assert (who, 0) !in p.outgoing;
    CountIs(p.outgoing, who, 0);
    var key := ChannelKey(env, who, env.IdentityOf(who));
    if key in p.channels {
      assert WfOpening(env, p.pk, key, p.channels[key]);
    }
  }

  lemma StartRegistering(env: Env, p: State, who: Account, random: Felt, deposits: seq<Amount>, w: Work)
    returns (m: Machine)
    requires Wf(env, p) && who.addr !in p.pk && NothingPlaced(w) && w.next == 0
    requires var id := env.IdentityOf(who);
             w.channels == map[who.addr := OutgoingChannel(who.addr, id.pk, ChannelKey(env, who, id), false, map[])]
    ensures Simulates(env, who, Machine(p, map[]), [SetViewingKey(random)], Middle(deposits, []), w, m)
  {
    var s, x := Machine(p, map[]), SetViewingKey(random);
    NothingBeforeRegistering(env, p, who);
    var t := s.(pool := AfterRegister(env, p, who));
    assert Step(env, who, s, x) == Some(t);
    Reorder.OneStep(env, who, s, x);
    DepositsRun(env, who, t, deposits);
    ExecConcat(env, who, s, [x], MapSeq(DepositAction, deposits));
    m := Exec(env, who, t, MapSeq(DepositAction, deposits)).value;
    assert Layout([x], Middle(deposits, []), w) == [x] + MapSeq(DepositAction, deposits);
  }

  // ---- room in the working copy ----

  lemma ChannelHasRoom(env: Env, p: State, who: Account, r: Felt, n: nat)
    requires Wf(env, p) && r in p.pk && ListsHaveRoom(p, n)
    ensures ChannelRoom(ChannelOf(env, p, who, r), n, n)
  {
    var key := KeyTo(env, p, who, r);
    OpenWf(env, p);
    SubsAreSound(env.tokens, p.channels.Keys, p.subs, p.subIndex, key);
    SubchannelsSize(p.subs, p.subIndex, p.notes, key, Count(p.subs, key));
    forall t | t in SubchannelsOf(p, key)
      ensures SubchannelsOf(p, key)[t].nextNote + n < TWO_32
    {
      SubchannelEntry(p.subs, p.subIndex, p.notes, key, Count(p.subs, key), t);
    }
  }

  lemma WorkHasRoom(env: Env, p: State, who: Account, w: Work, n: nat)
    requires Wf(env, p) && Mirrors(env, p, who, w.channels, w.next) && ListsHaveRoom(p, n)
    ensures Room(w, n, n, n)
  {
    forall r | r in w.channels
      ensures ChannelRoom(w.channels[r], n, n)
    {
      ChannelHasRoom(env, p, who, r, n);
    }
  }

  // ---- the start of placing ----

  /** The state a plan is made from still describes the pool: the account's registration, its channels and
      outgoing count, and notes of which those that can be spent are still unspent. */
  ghost predicate Describes(env: Env, p: State, who: Account, st: UserState) {
    && st.user == who && (st.registered <==> who.addr in p.pk)
    && NoDup(st.notes) && (forall n :: n in st.notes && !n.open ==> Unspent(env, p, who, n))
    && (if st.registered then Mirrors(env, p, who, st.channels, st.outgoing)
        else st == UserState(who, false, 0, map[], []))
  }

  /** Where a plan can be made and run: a sound setting, a well-formed pool, and a state that describes it. */
  ghost predicate Informed(env: Env, p: State, who: Account, intent: Intent, st: UserState) {
    && Sound(env) && Wf(env, p) && OwnKey(env, p, who) && Scannable(p)
    && Describes(env, p, who, st)
    && KnownTokens(env, intent)
  }

  /** The same with the state just discovered. */
  ghost predicate Discovered(env: Env, p: State, who: Account, intent: Intent, st: UserState) {
    && Sound(env) && Wf(env, p) && OwnKey(env, p, who) && Scannable(p)
    && StateOf(env, p, who, intent) == Ok(st)
    && KnownTokens(env, intent)
  }

  lemma DiscoveryDescribes(env: Env, p: State, who: Account, intent: Intent, st: UserState)
    requires Discovered(env, p, who, intent, st)
    ensures Informed(env, p, who, intent, st)
  {
    StateIs(env, p, who, intent, st);
  }

  /** Before the first new note is placed, the account actions and the middle run and the working copy
      mirrors the pool. */
  lemma StartSim(env: Env, p: State, who: Account, intent: Intent, st: UserState, rng: Rng, spends: seq<Note>,
                 account: seq<ClientAction>, w: Work, n: nat) returns (m: Machine)
    requires Informed(env, p, who, intent, st) && StartWork(env, intent, st, rng) == Ok((account, w))
    requires intent.register || st.registered
    requires NoDup(spends) && forall x :: x in spends ==> x in st.notes && !x.open
    requires Good(env, w) && ListsHaveRoom(p, n) && n + 1 < TWO_32
    ensures Synced(env, who, Machine(p, map[]), account, Middle(intent.deposits, spends), w, m) && Room(w, n, n, n)
  {
    if st.registered {
      m := SyncRegistered(env, p, who, intent.deposits, spends, w, n);
    } else {
      NothingToSpend(spends, st.notes);
      m := SyncRegistering(env, p, who, intent, st, rng, account, w, n);
    }
  }

  lemma NothingToSpend(spends: seq<Note>, notes: seq<Note>)
    requires notes == [] && forall x :: x in spends ==> x in notes
    ensures spends == []
  {
    var known := (n: Note) => n in notes;
    FilterAll(known, spends);
    FilterNone(known, spends);
  }

  lemma SyncRegistered(env: Env, p: State, who: Account, deposits: seq<Amount>, spends: seq<Note>, w: Work, n: nat)
    returns (m: Machine)
    requires Sound(env) && who in env.accounts && Wf(env, p) && Registered(env, p, who) && NothingPlaced(w)
    requires Mirrors(env, p, who, w.channels, w.next) && ListsHaveRoom(p, n)
    requires NoDup(spends) && forall x :: x in spends ==> Unspent(env, p, who, x)
    ensures Synced(env, who, Machine(p, map[]), [], Middle(deposits, spends), w, m) && Room(w, n, n, n)
  {
    m := StartRegistered(env, p, who, deposits, spends, w);
    SealSynced(env, who, Machine(p, map[]), [], Middle(deposits, spends), w, m);
    WorkHasRoom(env, p, who, w, n);
  }

  lemma SyncRegistering(env: Env, p: State, who: Account, intent: Intent, st: UserState, rng: Rng,
                        account: seq<ClientAction>, w: Work, n: nat) returns (m: Machine)
    requires Sound(env) && who in env.accounts && Wf(env, p) && who.addr !in p.pk
    requires StartWork(env, intent, st, rng) == Ok((account, w)) && intent.register
    requires st == UserState(who, false, 0, map[], []) && Good(env, w) && n + 1 < TWO_32
    ensures Synced(env, who, Machine(p, map[]), account, Middle(intent.deposits, []), w, m) && Room(w, n, n, n)
  {
    var s, mid := Machine(p, map[]), Middle(intent.deposits, []);
    var id := env.IdentityOf(who);
    var self := OutgoingChannel(who.addr, id.pk, ChannelKey(env, who, id), false, map[]);
    var w0 := Work(map[who.addr := self], 0, [], [], [], TakeFelt(rng).value.1);
    var m0 := StartRegistering(env, p, who, TakeFelt(rng).value.0, intent.deposits, w0);
    SealSynced(env, who, s, account, mid, w0, m0);
    m := EnsureChannelSim(env, who, s, account, mid, w0, m0, who.addr, w);
  }

  // ---- the theorem ----

  lemma GoodParts(env: Env, intent: Intent, d: Draft)
    requires GoodDraws(env, Assembled(intent, d).actions)
    ensures Good(env, d.work)
  {
    var actions := Assembled(intent, d).actions;
    assert forall a :: a in d.work.opens ==> a in actions;
    assert forall a :: a in d.work.subs ==> a in actions;
  }

  lemma {:induction false} PlaceAllExtends(w: Work, ms: seq<Move>, w': Work)
    requires PlaceAll(w, ms) == Ok(w')
    ensures Extends(w, w')
    decreases |ms|
  {
    if ms != [] {
      var before := PlaceAll(w, ms[..|ms| - 1]).value;
      PlaceAllExtends(w, ms[..|ms| - 1], before);
      PlaceNoteExtends(before, ms[|ms| - 1], w');
    }
  }

  lemma DraftSteps(env: Env, intent: Intent, st: UserState, rng: Rng, d: Draft) returns (w: Work)
    requires SafeSums(intent) && MakeDraft(env, intent, st, rng) == Ok(d)
    ensures intent.register || st.registered
    ensures StartWork(env, intent, st, rng) == Ok((d.account, w))
    ensures PlaceAll(w, NewNotes(intent, st.user.addr, d.cover.change)) == Ok(d.work)
  {
    w := StartWork(env, intent, st, rng).value.1;
  }

  lemma NewNotesKnown(env: Env, intent: Intent, st: UserState, rng: Rng, d: Draft)
    requires SafeSums(intent) && MakeDraft(env, intent, st, rng) == Ok(d) && NoDup(st.notes) && KnownTokens(env, intent)
    ensures forall mv :: mv in NewNotes(intent, st.user.addr, d.cover.change) ==> mv.token in env.tokens
  {
    var change := d.cover.change;
    AscendingIs(change.Keys);
    forall mv | mv in NewNotes(intent, st.user.addr, change)
      ensures mv.token in env.tokens
    {
      if mv in intent.transfers {
        TransferFlows(intent, mv);
      } else {
        assert mv in MapSeq(ChangeNote(st.user.addr, change), Ascending(change.Keys));
        assert mv.token in Ascending(change.Keys);
        DraftCovers(env, intent, st, rng, d, mv.token);
      }
    }
  }

  lemma TransferFlows(intent: Intent, mv: Move)
    requires mv in intent.transfers
    ensures Outflow(mv) in Flows(intent)
  {
    var ms := intent.transfers + intent.withdrawals;
    assert mv in ms;
    var i :| 0 <= i < |ms| && ms[i] == mv;
    assert MapSeq(Outflow, ms)[i] == Outflow(mv);
  }

  /** The batch but its withdrawals, as it is laid out while notes are placed. */
  lemma PlacedRuns(env: Env, p: State, who: Account, intent: Intent, st: UserState, rng: Rng, d: Draft)
    returns (m: Machine)
    requires Informed(env, p, who, intent, st) && SafeSums(intent) && MakeDraft(env, intent, st, rng) == Ok(d)
    requires Good(env, d.work)
    requires ListsHaveRoom(p, |NewNotes(intent, st.user.addr, d.cover.change)| + 1)
    ensures Synced(env, who, Machine(p, map[]), d.account, Middle(intent.deposits, d.cover.spends), d.work, m)
  {
    var ms := NewNotes(intent, st.user.addr, d.cover.change);
    var w := DraftSteps(env, intent, st, rng, d);
    SpendsHeld(env, intent, st, rng, d);
    NewNotesKnown(env, intent, st, rng, d);
    m := PlacedFrom(env, p, who, intent, st, rng, d.cover.spends, d.account, w, ms, d.work);
  }

  lemma SpendsHeld(env: Env, intent: Intent, st: UserState, rng: Rng, d: Draft)
    requires SafeSums(intent) && MakeDraft(env, intent, st, rng) == Ok(d) && NoDup(st.notes)
    ensures NoDup(d.cover.spends) && forall n :: n in d.cover.spends ==> n in st.notes && !n.open
  {
    DraftCovers(env, intent, st, rng, d, 0);
  }

  lemma PlacedFrom(env: Env, p: State, who: Account, intent: Intent, st: UserState, rng: Rng, spends: seq<Note>,
                   account: seq<ClientAction>, w: Work, ms: seq<Move>, w': Work) returns (m: Machine)
    requires Informed(env, p, who, intent, st) && StartWork(env, intent, st, rng) == Ok((account, w))
    requires intent.register || st.registered
    requires NoDup(spends) && forall x :: x in spends ==> x in st.notes && !x.open
    requires PlaceAll(w, ms) == Ok(w') && Good(env, w') && ListsHaveRoom(p, |ms| + 1)
    requires forall mv :: mv in ms ==> mv.token in env.tokens
    ensures Synced(env, who, Machine(p, map[]), account, Middle(intent.deposits, spends), w', m)
  {
    var s, mid := Machine(p, map[]), Middle(intent.deposits, spends);
    PlaceAllExtends(w, ms, w');
    GoodPrefix(env, w, w');
    var m0 := StartSim(env, p, who, intent, st, rng, spends, account, w, |ms|);
    m := PlaceAllSim(env, who, s, account, mid, w, m0, ms, w', 0);
  }

  lemma AssembledIs(intent: Intent, d: Draft)
    ensures Assembled(intent, d).actions
         == Layout(d.account, Middle(intent.deposits, d.cover.spends), d.work) + d.withdraws
  {
  }

  lemma {:induction false} AcceptedDraws(env: Env, who: Account, s: Machine, actions: seq<ClientAction>)
    requires Exec(env, who, s, actions).Some?
    ensures GoodDraws(env, actions)
    decreases |actions|
  {
    if actions != [] {
      AcceptedDraws(env, who, s, actions[..|actions| - 1]);
    }
  }

  lemma NotesRecorded(env: Env, p: State, who: Account, intent: Intent, st: UserState)
    requires Informed(env, p, who, intent, st)
    ensures Recorded(p.notes, st.notes)
  {
  }

  lemma PlanUsesHeld(p: State, intent: Intent, d: Draft, ms: seq<Move>, known: seq<Note>)
    requires (forall a :: a in d.account ==> a.SetViewingKey?) && Kinds(d.work)
    requires DeliversAll(ms, d.work.creates) && PaysAll(intent.withdrawals, d.withdraws)
    requires Recorded(p.notes, known) && forall n :: n in d.cover.spends ==> n in known && !n.open
    ensures UsesHeld(p, Assembled(intent, d).actions)
  {
    forall a | a in Assembled(intent, d).actions && a.UseNote?
      ensures ((a.key, a.token), a.index as nat) in p.notes
    {
      assert a in MapSeq(UseAction, d.cover.spends);
    }
  }

  /** The batch runs to the end and leaves every token at zero. */
  lemma PlanExecs(env: Env, p: State, who: Account, intent: Intent, st: UserState, rng: Rng, d: Draft)
    returns (m: Machine)
    requires Informed(env, p, who, intent, st) && SafeSums(intent) && MakeDraft(env, intent, st, rng) == Ok(d)
    requires Good(env, d.work) && ListsHaveRoom(p, |d.work.creates| + 1)
    ensures Exec(env, who, Machine(p, map[]), Assembled(intent, d).actions) == Some(m)
    ensures Mirrors(env, m.pool, who, d.work.channels, d.work.next)
    ensures Wf(env, m.pool)
  {
    DraftEmits(env, intent, st, rng, d);
    var s := Machine(p, map[]);
    var m0 := PlacedRuns(env, p, who, intent, st, rng, d);
    SyncedPool(env, who, s, d.account, Middle(intent.deposits, d.cover.spends), d.work, m0);
    m := FinishRun(env, who, s, Layout(d.account, Middle(intent.deposits, d.cover.spends), d.work), m0,
                   intent.withdrawals, d.withdraws);
    AssembledIs(intent, d);
  }

  lemma FinishRun(env: Env, who: Account, s: Machine, a: seq<ClientAction>, m0: Machine, ws: seq<Move>,
                  withdraws: seq<ClientAction>) returns (m: Machine)
    requires Exec(env, who, s, a) == Some(m0) && Registered(env, m0.pool, who) && PaysAll(ws, withdraws)
    ensures Exec(env, who, s, a + withdraws) == Some(m) && m.pool == m0.pool
  {
    WithdrawsRun(env, who, m0, withdraws);
    ExecConcat(env, who, s, a, withdraws);
    m := Exec(env, who, m0, withdraws).value;
  }

  lemma PlanNets(env: Env, p: State, who: Account, intent: Intent, st: UserState, rng: Rng, d: Draft, m: Machine)
    requires Informed(env, p, who, intent, st) && SafeSums(intent) && MakeDraft(env, intent, st, rng) == Ok(d)
    requires Exec(env, who, Machine(p, map[]), Assembled(intent, d).actions) == Some(m)
    ensures forall t :: t in m.net ==> m.net[t] == 0
  {
    NotesRecorded(env, p, who, intent, st);
    DraftEmits(env, intent, st, rng, d);
    DraftCovers(env, intent, st, rng, d, 0);
    PlanUsesHeld(p, intent, d, NewNotes(intent, st.user.addr, d.cover.change), st.notes);
    forall t | t in m.net
      ensures m.net[t] == 0
    {
      PlanConserves(env, intent, st, rng, d, p.notes, t);
      ExecNet(env, who, Machine(p, map[]), Assembled(intent, d).actions, t);
    }
  }

  lemma InformedPlanRuns(env: Env, p: State, who: Account, intent: Intent, st: UserState, rng: Rng, d: Draft)
    requires Informed(env, p, who, intent, st) && SafeSums(intent) && MakeDraft(env, intent, st, rng) == Ok(d)
    requires ListsHaveRoom(p, |d.work.creates| + 1)
    ensures var actions := Assembled(intent, d).actions;
            && (RunBatch(env, who, p, actions).Some? <==> GoodDraws(env, actions))
            && (RunBatch(env, who, p, actions).Some? ==>
                  var q := RunBatch(env, who, p, actions).value;
                  Wf(env, q) && Mirrors(env, q, who, d.work.channels, d.work.next))
  {
    var actions := Assembled(intent, d).actions;
    if GoodDraws(env, actions) {
      GoodParts(env, intent, d);
      PlanInPhaseOrder(env, intent, st, rng, d);
      var m := PlanExecs(env, p, who, intent, st, rng, d);
      PlanNets(env, p, who, intent, st, rng, d, m);
    } else if RunBatch(env, who, p, actions).Some? {
      AcceptedDraws(env, who, Machine(p, map[]), actions);
    }
  }

  /** A plan made from what discovery returned is accepted exactly when the drawn randomness is what the
      pool wants (for each channel an ephemeral key that is a valid scalar, no zero salt): no index is taken, no note is
      missing or spent, no token is out of balance. And a later discovery of each channel the plan touched
      returns exactly the planner's final working copy. */
  lemma PlanRuns(env: Env, p: State, who: Account, intent: Intent, st: UserState, rng: Rng, d: Draft)
    requires Discovered(env, p, who, intent, st) && SafeSums(intent) && MakeDraft(env, intent, st, rng) == Ok(d)
    requires ListsHaveRoom(p, |d.work.creates| + 1)
    ensures var actions := Assembled(intent, d).actions;
            && (RunBatch(env, who, p, actions).Some? <==> GoodDraws(env, actions))
            && (RunBatch(env, who, p, actions).Some? ==>
                  var q := RunBatch(env, who, p, actions).value;
                  Wf(env, q) && Mirrors(env, q, who, d.work.channels, d.work.next))
  {
    DiscoveryDescribes(env, p, who, intent, st);
    InformedPlanRuns(env, p, who, intent, st, rng, d);
  }
}

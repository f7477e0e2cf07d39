/** What the guard against a moving state stops and what gets past it, when only other users act. */
module Moving {
  import opened Field
  import opened Lists
  import opened Hashes
  import opened Slots
  import opened Pool
  import opened History
  import opened Discovery
  import opened NoteDiscovery
  import opened NoteFacts
  import opened Planner
  import opened Mirror
  import opened Placing
  import opened StateDiscovery
  import opened Batch
  import opened Balance
  import opened Rediscovery
  import opened Others
  import opened Prepare

  /** The second read decides whether there is a plan and nothing about which. So whatever it returned, taken from
      one pool or from several, if only other users act from the proving block on, a prepared plan is accepted
      exactly when its draws are good. */
  lemma PreparedSurvivesOthers(env: Env, older: State, who: Account, intent: Intent, st: UserState, now: UserState,
                               rng: Rng, plan: Plan, deeds: seq<Deed>)
    requires Discovered(env, older, who, intent, st) && SafeSums(intent)
    requires Decide(env, intent, st, now, rng) == Ok(plan)
    requires ByOthers(env, who, deeds) && ListsHaveRoom(Later(env, older, deeds), |plan.actions| + 1)
    ensures RunBatch(env, who, Later(env, older, deeds), plan.actions).Some? <==> GoodDraws(env, plan.actions)
  {
    var d := MakeDraft(env, intent, st, rng).value;
    RoomForFewer(Later(env, older, deeds), |plan.actions| + 1, |d.work.creates| + 1);
    PlanSurvivesOthers(env, older, who, intent, st, rng, d, deeds);
  }

  // ---- a second read spread over several pools ----

  /** Which pool each piece of a read saw, counted in the deeds before it: the registration, each recipient's
      channel, the notes, the outgoing count. */
  datatype Times = Times(registration: nat, channel: Felt -> nat, notes: nat, outgoing: nat)

  ghost predicate ReadAt(env: Env, first: State, deeds: seq<Deed>, i: nat, who: Account, r: Felt, ch: OutgoingChannel) {
    && i <= |deeds|
    && var p := Later(env, first, deeds[..i]);
       r in p.pk && ch == ChannelOf(env, p, who, r)
  }

  ghost predicate NotesReadAt(env: Env, first: State, deeds: seq<Deed>, i: nat, who: Account, tokens: seq<Felt>,
                              notes: seq<Note>)
  {
    && i <= |deeds|
    && var p := Later(env, first, deeds[..i]);
       Scannable(p) && notes == if tokens == [] then [] else NotesOf(env, p, who, tokens)
  }

  /** `now` is what discovery returns when, between its pieces, the pool moves on from `first` by these deeds. */
  ghost predicate ReadOver(env: Env, first: State, deeds: seq<Deed>, at: Times, who: Account, intent: Intent,
                           now: UserState)
  {
    && at.registration <= |deeds| && at.outgoing <= |deeds|
    && (now.registered <==> who.addr in Later(env, first, deeds[..at.registration]).pk)
    && if !now.registered then now == UserState(who, false, 0, map[], [])
       else
         && now.user == who && now.outgoing == Count(Later(env, first, deeds[..at.outgoing]).outgoing, who)
         && (forall r :: r in now.channels <==> r in Recipients(intent, who.addr))
         && (forall r {:trigger r in now.channels} :: r in now.channels ==>
               ReadAt(env, first, deeds, at.channel(r), who, r, now.channels[r]))
         && NotesReadAt(env, first, deeds, at.notes, who, TokensOut(intent), now.notes)
  }

  /** Where a description can be carried along while others act. */
  ghost predicate Watched(env: Env, p: State, who: Account) {
    Sound(env) && Wf(env, p) && OwnKey(env, p, who)
  }

  lemma OthersKeepDescribed(env: Env, p: State, who: Account, st: UserState, deeds: seq<Deed>)
    requires Watched(env, p, who) && ByOthers(env, who, deeds) && Describes(env, p, who, st)
    ensures Watched(env, Later(env, p, deeds), who) && Describes(env, Later(env, p, deeds), who, st)
  {
    var nothing := Intent(false, [], [], []);
    assert Flows(nothing) == [];
    WfIsScannable(env, p);
    OthersKeepInformed(env, p, who, nothing, st, deeds);
  }

  lemma UserStays(env: Env, p: State, who: Account, deeds: seq<Deed>)
    requires Watched(env, p, who) && ByOthers(env, who, deeds)
    ensures Watched(env, Later(env, p, deeds), who)
    ensures who.addr in Later(env, p, deeds).pk <==> who.addr in p.pk
    ensures who.addr in p.pk ==> Count(Later(env, p, deeds).outgoing, who) == Count(p.outgoing, who)
  {
    var st := if who.addr in p.pk then UserState(who, true, Count(p.outgoing, who), map[], [])
              else UserState(who, false, 0, map[], []);
    OthersKeepDescribed(env, p, who, st, deeds);
  }

  /** What was true of the user after `i` of the deeds still is after all of them. */
  lemma FromThenOn(env: Env, first: State, deeds: seq<Deed>, i: nat, who: Account, st: UserState)
    requires Watched(env, first, who) && ByOthers(env, who, deeds) && i <= |deeds|
    requires Describes(env, Later(env, first, deeds[..i]), who, st)
    ensures Describes(env, Later(env, first, deeds), who, st)
  {
    assert deeds == deeds[..i] + deeds[i..];
    LaterConcat(env, first, deeds[..i], deeds[i..]);
    UserStays(env, first, who, deeds[..i]);
    OthersKeepDescribed(env, Later(env, first, deeds[..i]), who, st, deeds[i..]);
  }

  lemma ChannelStays(env: Env, first: State, deeds: seq<Deed>, i: nat, who: Account, r: Felt, ch: OutgoingChannel)
    requires Watched(env, first, who) && ByOthers(env, who, deeds) && who.addr in first.pk
    requires ReadAt(env, first, deeds, i, who, r, ch)
    ensures r in Later(env, first, deeds).pk && ch == ChannelOf(env, Later(env, first, deeds), who, r)
  {
    UserStays(env, first, who, deeds[..i]);
    var st := UserState(who, true, Count(first.outgoing, who), map[r := ch], []);
    FromThenOn(env, first, deeds, i, who, st);
    assert r in st.channels;
  }

  lemma NotesStay(env: Env, first: State, deeds: seq<Deed>, i: nat, who: Account, tokens: seq<Felt>, notes: seq<Note>)
    requires Watched(env, first, who) && ByOthers(env, who, deeds) && who.addr in first.pk
    requires NotesReadAt(env, first, deeds, i, who, tokens, notes)
    ensures NoDup(notes) && forall n :: n in notes && !n.open ==> Unspent(env, Later(env, first, deeds), who, n)
  {
    var p := Later(env, first, deeds[..i]);
    UserStays(env, first, who, deeds[..i]);
    if tokens != [] {
      NotesOnce(env, p, who, tokens);
      forall n | n in notes
        ensures Unspent(env, p, who, n)
      {
        NotesMember(env, p, who, tokens, n);
      }
    }
    FromThenOn(env, first, deeds, i, who, UserState(who, true, Count(first.outgoing, who), map[], notes));
  }

  lemma ChannelsStay(env: Env, first: State, deeds: seq<Deed>, at: Felt -> nat, who: Account,
                     channels: map<Felt, OutgoingChannel>)
    requires Watched(env, first, who) && ByOthers(env, who, deeds) && who.addr in first.pk
    requires forall r {:trigger r in channels} :: r in channels ==>
        ReadAt(env, first, deeds, at(r), who, r, channels[r])
    ensures Mirrors(env, Later(env, first, deeds), who, channels, Count(first.outgoing, who))
  {
    UserStays(env, first, who, deeds);
    forall r | r in channels
      ensures r in Later(env, first, deeds).pk && channels[r] == ChannelOf(env, Later(env, first, deeds), who, r)
    {
      ChannelStays(env, first, deeds, at(r), who, r, channels[r]);
    }
  }

  /** However the pieces are spread, while only others act what was read describes the last pool. */
  lemma SpreadReadDescribes(env: Env, first: State, deeds: seq<Deed>, at: Times, who: Account, intent: Intent,
                            now: UserState)
    requires Watched(env, first, who) && ByOthers(env, who, deeds) && ReadOver(env, first, deeds, at, who, intent, now)
    ensures Watched(env, Later(env, first, deeds), who) && Describes(env, Later(env, first, deeds), who, now)
  {
    UserStays(env, first, who, deeds[..at.registration]);
    UserStays(env, first, who, deeds);
    if now.registered {
      UserStays(env, first, who, deeds[..at.outgoing]);
      NotesStay(env, first, deeds, at.notes, who, TokensOut(intent), now.notes);
      ChannelsStay(env, first, deeds, at.channel, who, now.channels);
    }
  }

  /** So a prepared plan runs on the last pool of a second read like that, whatever anybody, the user included, did
      between the two reads. */
  lemma PreparedOverPools(env: Env, first: State, deeds: seq<Deed>, at: Times, who: Account, intent: Intent,
                          st: UserState, now: UserState, rng: Rng, plan: Plan)
    requires Watched(env, first, who) && ByOthers(env, who, deeds) && ReadOver(env, first, deeds, at, who, intent, now)
    requires st.user == who && SafeSums(intent) && KnownTokens(env, intent)
    requires Decide(env, intent, st, now, rng) == Ok(plan)
    requires ListsHaveRoom(Later(env, first, deeds), |plan.actions| + 1)
    ensures RunBatch(env, who, Later(env, first, deeds), plan.actions).Some? <==> GoodDraws(env, plan.actions)
  {
    var last := Later(env, first, deeds);
    SpreadReadDescribes(env, first, deeds, at, who, intent, now);
    WfIsScannable(env, last);
    assert st == now;
    var d := MakeDraft(env, intent, st, rng).value;
    RoomForFewer(last, |plan.actions| + 1, |d.work.creates| + 1);
    InformedPlanRuns(env, last, who, intent, st, rng, d);
  }

  // ---- exactly when it stops a plan ----

  /** Other users leave the user's registration, channels and outgoing count alone. */
  lemma OnlyNotesMove(env: Env, older: State, who: Account, intent: Intent, st: UserState, deeds: seq<Deed>)
    requires Discovered(env, older, who, intent, st) && ByOthers(env, who, deeds)
    ensures Scannable(Later(env, older, deeds)) && StateOf(env, Later(env, older, deeds), who, intent).Ok?
    ensures StateOf(env, Later(env, older, deeds), who, intent).value
         == st.(notes := StateOf(env, Later(env, older, deeds), who, intent).value.notes)
  {
    DiscoveryDescribes(env, older, who, intent, st);
    OthersKeepInformed(env, older, who, intent, st, deeds);
    StateIs(env, older, who, intent, st);
    if st.registered {
      SameChannels(env, Later(env, older, deeds), who, st.outgoing, Recipients(intent, who.addr), st.channels);
    }
  }

  /** So when only they act between the two reads, the wallet calls the state moving exactly when they changed the
      notes it holds of the tokens that leave. */
  lemma MovingExactly(env: Env, older: State, who: Account, intent: Intent, st: UserState, rng: Rng, deeds: seq<Deed>)
    requires Discovered(env, older, who, intent, st) && SafeSums(intent) && ByOthers(env, who, deeds)
    ensures var latest := Later(env, older, deeds);
            && Scannable(latest) && StateOf(env, latest, who, intent).Ok?
            && (Prepared(env, older, latest, who, intent, rng) == Err(Moving)
                <==> StateOf(env, latest, who, intent).value.notes != st.notes)
  {
    OnlyNotesMove(env, older, who, intent, st, deeds);
  }

  /** Any payment to the user in such a token does. */
  lemma PaymentMoves(env: Env, older: State, who: Account, intent: Intent, st: UserState, rng: Rng, d: Deed)
    requires Discovered(env, older, who, intent, st) && SafeSums(intent) && st.registered
    requires InPlay(env, d) && d.who.addr != who.addr && d.action.Sent? && d.action.action.CreateEncNote?
    requires d.action.action.recipient == who.addr && d.action.action.token in TokensOut(intent)
    requires Step(env, d.who, Machine(older, map[]), d.action.action).Some?
    ensures Scannable(Perform(env, older, d))
    ensures Prepared(env, older, Perform(env, older, d), who, intent, rng) == Err(Moving)
  {
    var s, a := Machine(older, map[]), d.action.action;
    var latest, n := Perform(env, older, d), CreatedNote(env, d.who, a);
    LaterSnoc(env, older, [], d);
    assert [] + [d] == [d];
    MovingExactly(env, older, who, intent, st, rng, [d]);
    PerformKeepsWf(env, older, d);
    StepUnspent(env, d.who, s, a, who, n);
    StateIs(env, older, who, intent, st);
    StateIs(env, latest, who, intent, StateOf(env, latest, who, intent).value);
  }
}

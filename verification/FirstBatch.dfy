/** A source of valid scalars always gives acceptable plans; and a first batch, from the empty pool on. */
module FirstBatch {
  import opened Field
  import opened Ledger
  import opened Hashes
  import opened Slots
  import opened Pool
  import opened Discovery
  import opened NoteDiscovery
  import opened Planner
  import opened Placing
  import opened Emitted
  import opened StateDiscovery
  import opened Batch
  import opened Balance
  import opened Outcome
  import Example
  import Success

  /** Every felt the source draws is a valid scalar, so not zero. */
  predicate ScalarSource(env: Env, rng: Rng) {
    forall f :: f in rng.felts ==> env.Scalar(f)
  }

  predicate GoodSoFar(env: Env, w: Work) {
    ScalarSource(env, w.rng) && Good(env, w)
  }

  lemma TakeFeltGood(env: Env, rng: Rng)
    requires ScalarSource(env, rng) && TakeFelt(rng).Ok?
    ensures env.Scalar(TakeFelt(rng).value.0) && TakeFelt(rng).value.0 != 0 && ScalarSource(env, TakeFelt(rng).value.1)
  {
    assert rng.felts[0] in rng.felts;
    assert forall f :: f in rng.felts[1..] ==> f in rng.felts;
  }

  lemma OpenGood(env: Env, w: Work, r: Felt)
    requires GoodSoFar(env, w) && EnsureChannel(w, r).Ok?
    ensures GoodSoFar(env, EnsureChannel(w, r).value)
  {
    if !w.channels[r].open {
      TakeFeltGood(env, w.rng);
      TakeFeltGood(env, TakeFelt(w.rng).value.1);
    }
  }

  lemma OpenSubGood(env: Env, w: Work, r: Felt, token: Felt)
    requires r in w.channels && GoodSoFar(env, w) && EnsureSubchannel(w, r, token).Ok?
    ensures GoodSoFar(env, EnsureSubchannel(w, r, token).value)
  {
    if token !in w.channels[r].subchannels {
      TakeFeltGood(env, w.rng);
    }
  }

  lemma PlaceGood(env: Env, w: Work, m: Move)
    requires GoodSoFar(env, w) && PlaceNote(w, m).Ok?
    ensures GoodSoFar(env, PlaceNote(w, m).value)
  {
    OpenGood(env, w, m.to);
    OpenSubGood(env, EnsureChannel(w, m.to).value, m.to, m.token);
  }

  lemma {:induction false} PlaceAllGood(env: Env, w: Work, ms: seq<Move>)
    requires GoodSoFar(env, w) && PlaceAll(w, ms).Ok?
    ensures GoodSoFar(env, PlaceAll(w, ms).value)
    decreases |ms|
  {
    if ms != [] {
      PlaceAllGood(env, w, ms[..|ms| - 1]);
      PlaceGood(env, PlaceAll(w, ms[..|ms| - 1]).value, ms[|ms| - 1]);
    }
  }

  lemma StartGood(env: Env, intent: Intent, st: UserState, rng: Rng)
    requires ScalarSource(env, rng) && StartWork(env, intent, st, rng).Ok?
    ensures GoodSoFar(env, StartWork(env, intent, st, rng).value.1)
  {
    if Registering(intent, st) {
      TakeFeltGood(env, rng);
      var id := env.IdentityOf(st.user);
      var self := OutgoingChannel(st.user.addr, id.pk, ChannelKey(env, st.user, id), false, map[]);
      var w := Work(st.channels[st.user.addr := self], st.outgoing, [], [], [], TakeFelt(rng).value.1);
      OpenGood(env, w, st.user.addr);
    }
  }

  /** A plan whose randomness comes from a source of valid scalars has good draws throughout. */
  lemma ScalarsAreGood(env: Env, intent: Intent, st: UserState, rng: Rng, d: Draft)
    requires SafeSums(intent) && MakeDraft(env, intent, st, rng) == Ok(d) && ScalarSource(env, rng)
    ensures GoodDraws(env, Assembled(intent, d).actions)
  {
    DraftEmits(env, intent, st, rng, d);
    var w := DraftSteps(env, intent, st, rng, d);
    StartGood(env, intent, st, rng);
    PlaceAllGood(env, w, NewNotes(intent, st.user.addr, d.cover.change));
    PartsGood(env, intent, d, NewNotes(intent, st.user.addr, d.cover.change));
  }

  lemma PartsGood(env: Env, intent: Intent, d: Draft, ms: seq<Move>)
    requires (forall a :: a in d.account ==> a.SetViewingKey?) && Kinds(d.work) && Good(env, d.work)
    requires DeliversAll(ms, d.work.creates) && PaysAll(intent.withdrawals, d.withdraws)
    ensures GoodDraws(env, Assembled(intent, d).actions)
  {
  }

  /** With such a source, every plan made from what discovery returned is accepted. */
  lemma ScalarPlansRun(env: Env, p: State, who: Account, intent: Intent, st: UserState, rng: Rng, d: Draft)
    requires Discovered(env, p, who, intent, st) && SafeSums(intent) && MakeDraft(env, intent, st, rng) == Ok(d)
    requires ScalarSource(env, rng) && ListsHaveRoom(p, |d.work.creates| + 1)
    ensures RunBatch(env, who, p, Assembled(intent, d).actions).Some?
  {
    ScalarsAreGood(env, intent, st, rng, d);
    PlanRuns(env, p, who, intent, st, rng, d);
  }

  // ---- the first batch ----

  function FirstIntent(t: Felt, x: U128): Intent {
    Intent(true, [Amount(t, x)], [], [])
  }

  lemma DepositFlows(t: Felt, x: U128)
    requires 0 < x < TWO_127
    ensures Flows(FirstIntent(t, x)) == [Flow(t, x)] && SafeSums(FirstIntent(t, x))
    ensures forall u :: Total(Flows(FirstIntent(t, x)), u) == if u == t then x else 0
  {
    var flows := Flows(FirstIntent(t, x));
    assert flows == [Inflow(Amount(t, x))];
    assert flows[..0] == [];
    forall i, u | 0 <= i <= |flows| && AllConvertible(flows[..i])
      ensures InI128(Total(flows[..i], u))
    {
      assert flows[..1] == flows;
    }
  }

  lemma EmptyHasRoom(n: nat)
    requires n < TWO_32
    ensures ListsHaveRoom(EMPTY, n) && Scannable(EMPTY)
  {
    forall a: Account
      ensures Count(EMPTY.outgoing, a) == 0
    {
      CountIs(EMPTY.outgoing, a, 0);
    }
    forall key: Felt
      ensures Count(EMPTY.subs, key) == 0
    {
      CountIs(EMPTY.subs, key, 0);
    }
    forall place: (Felt, Felt)
      ensures Count(EMPTY.notes, place) == 0
    {
      CountIs(EMPTY.notes, place, 0);
    }
  }

  /** Registering and depositing is planned, given randomness. */
  lemma FirstPlan(env: Env, who: Account, t: Felt, x: U128, rng: Rng) returns (d: Draft)
    requires 0 < x < TWO_127 && Success.EnoughDraws(FirstIntent(t, x), rng)
    ensures SafeSums(FirstIntent(t, x))
    ensures MakeDraft(env, FirstIntent(t, x), UserState(who, false, 0, map[], []), rng) == Ok(d)
    ensures |d.work.creates| <= 1
  {
    var intent, st := FirstIntent(t, x), UserState(who, false, 0, map[], []);
    DepositFlows(t, x);
    Success.PlanSucceedsExactly(env, intent, st, rng);
    d := MakeDraft(env, intent, st, rng).value;
    DraftEmits(env, intent, st, rng, d);
    Success.BalanceIs(intent, Balances(intent).value);
    Success.NewNotesFit(intent, st.notes, who.addr, Balances(intent).value, d.cover);
  }

  /** From the empty pool, an account that registers and deposits in one batch holds its deposit privately
      afterwards: planned, accepted and rediscovered. */
  lemma FirstDepositArrives(env: Env, who: Account, t: Felt, x: U128, rng: Rng)
    requires Sound(env) && who in env.accounts && t in env.tokens && 0 < x < TWO_127
    requires Success.EnoughDraws(FirstIntent(t, x), rng) && ScalarSource(env, rng)
    ensures SafeSums(FirstIntent(t, x)) && Scannable(EMPTY)
    ensures StateOf(env, EMPTY, who, FirstIntent(t, x)) == Ok(UserState(who, false, 0, map[], []))
    ensures exists d, q ::
              && MakeDraft(env, FirstIntent(t, x), UserState(who, false, 0, map[], []), rng) == Ok(d)
              && RunBatch(env, who, EMPTY, Assembled(FirstIntent(t, x), d).actions) == Some(q)
              && Scannable(q) && Held(env, q, who, t) == x
  {
    var intent, st := FirstIntent(t, x), UserState(who, false, 0, map[], []);
    var d := FirstPlan(env, who, t, x, rng);
    DepositFlows(t, x);
    EmptyIsWf(env);
    EmptyHasRoom(2);
    assert Discovered(env, EMPTY, who, intent, st);
    RoomForOne(EMPTY, |d.work.creates| + 1);
    ScalarPlansRun(env, EMPTY, who, intent, st, rng, d);
    var q := RunBatch(env, who, EMPTY, Assembled(intent, d).actions).value;
    BalancesAfterPlan(env, EMPTY, who, intent, st, rng, d, q, who, t);
    NothingHeld(env, who, t);
    MovedNone(Reaching(who, who), t);
    MovedNone(Outflow, t);
    assert intent.deposits == [Amount(t, x)];
    MovedOne(Inflow, Amount(t, x), t);
  }

  lemma RoomForOne(p: State, n: nat)
    requires ListsHaveRoom(p, 2) && n <= 2
    ensures ListsHaveRoom(p, n)
  {
  }

  lemma NothingHeld(env: Env, who: Account, t: Felt)
    requires Scannable(EMPTY)
    ensures Held(env, EMPTY, who, t) == 0
  {
    CountIs(EMPTY.incoming, who.addr, 0);
    assert NotesOf(env, EMPTY, who, []) == [];
    MovedNone(NoteFlow, t);
  }

  /** All of these assumptions can be met at once: two accounts, slots that do not collide, a reader of the
      empty pool, and enough good draws. */
  lemma TheSettingExists(rng: Rng)
    requires rng == Rng([3, 3, 3, 3, 3, 3], [4])
    ensures Sound(Example.SETTING) && Example.ALICE in Example.SETTING.accounts && 7 in Example.SETTING.tokens
    ensures exists r :: Reads(Example.SETTING, r, EMPTY)
    ensures Success.EnoughDraws(FirstIntent(7, 5), rng) && ScalarSource(Example.SETTING, rng)
  {
    Example.AReadableSetting();
    DepositFlows(7, 5);
    assert Success.GoodSalts([4]) == 1 + Success.GoodSalts([]);
  }
}

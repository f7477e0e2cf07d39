/** A payment between the two reads makes the wallet give up a plan that would still have run. */
module Payment {
  import opened Field
  import opened Ledger
  import opened Hashes
  import opened Slots
  import opened Actions
  import opened Pool
  import opened History
  import opened NoteDiscovery
  import opened Planner
  import opened StateDiscovery
  import opened Success
  import opened Batch
  import opened FirstBatch
  import opened Rediscovery
  import opened Others
  import opened Prepare
  import opened Moving

  /** Alice and Bob register, and Bob opens a channel to Alice with a subchannel for token `t`. */
  ghost function Before(env: Env, alice: Account, bob: Account, t: Felt, k: Felt): seq<Deed> {
    var id := env.IdentityOf(alice);
    [Deed(alice, Sent(SetViewingKey(k))), Deed(bob, Sent(SetViewingKey(k))),
     Deed(bob, Sent(OpenChannel(alice.addr, 0, k, 1))),
     Deed(bob, Sent(OpenSubchannel(alice.addr, id.pk, ChannelKey(env, bob, id), 0, t, 1)))]
  }

  /** Bob sends Alice 3 of it. */
  function Paying(env: Env, alice: Account, bob: Account, t: Felt): Deed {
    Deed(bob, Sent(CreateEncNote(alice.addr, env.publicKey(alice.sk), t, 3, 0, 2)))
  }

  /** Alice passes 5 of it through the pool. */
  function PassThrough(t: Felt, to: Felt): Intent {
    Intent(false, [Amount(t, 5)], [], [Move(to, t, 5)])
  }

  ghost function BothRegistered(env: Env, alice: Account, bob: Account): State {
    AfterRegister(env, AfterRegister(env, EMPTY, alice), bob)
  }

  ghost function Opened(env: Env, alice: Account, bob: Account, k: Felt): State {
    AfterOpen(env, BothRegistered(env, alice, bob), bob, env.IdentityOf(alice), k, 1)
  }

  ghost function Ready(env: Env, alice: Account, bob: Account, t: Felt, k: Felt): State {
    AfterOpenSub(Opened(env, alice, bob, k), ChannelKey(env, bob, env.IdentityOf(alice)), t, 1)
  }

  lemma NothingListed<K(!new), V>(m: map<(K, nat), V>, a: K)
    requires m == map[]
    ensures Count(m, a) == 0
  {
    CountIs(m, a, 0);
  }

  lemma OpenAccepted(env: Env, alice: Account, bob: Account, k: Felt)
    requires alice.addr != bob.addr && env.Scalar(k)
    ensures Perform(env, BothRegistered(env, alice, bob), Deed(bob, Sent(OpenChannel(alice.addr, 0, k, 1))))
         == Opened(env, alice, bob, k)
  {
    NothingListed(BothRegistered(env, alice, bob).outgoing, bob);
  }

  lemma OpenSubAccepted(env: Env, alice: Account, bob: Account, t: Felt, k: Felt)
    requires alice.addr != bob.addr
    ensures Perform(env, Opened(env, alice, bob, k), Before(env, alice, bob, t, k)[3]) == Ready(env, alice, bob, t, k)
  {
    NothingListed(Opened(env, alice, bob, k).subs, ChannelKey(env, bob, env.IdentityOf(alice)));
  }

  lemma BeforeIsReady(env: Env, alice: Account, bob: Account, t: Felt, k: Felt)
    requires alice.addr != bob.addr && env.Scalar(k)
    ensures Later(env, EMPTY, Before(env, alice, bob, t, k)) == Ready(env, alice, bob, t, k)
  {
    var ds := Before(env, alice, bob, t, k);
    LaterSnoc(env, EMPTY, [], ds[0]);
    LaterSnoc(env, EMPTY, [ds[0]], ds[1]);
    LaterSnoc(env, EMPTY, [ds[0], ds[1]], ds[2]);
    LaterSnoc(env, EMPTY, [ds[0], ds[1], ds[2]], ds[3]);
    assert [] + [ds[0]] == [ds[0]] && [ds[0]] + [ds[1]] == [ds[0], ds[1]];
    assert [ds[0], ds[1]] + [ds[2]] == [ds[0], ds[1], ds[2]] && [ds[0], ds[1], ds[2]] + [ds[3]] == ds;
    OpenAccepted(env, alice, bob, k);
    OpenSubAccepted(env, alice, bob, t, k);
  }

  lemma PaymentAccepted(env: Env, alice: Account, bob: Account, t: Felt, k: Felt)
    requires alice.addr != bob.addr
    ensures Step(env, bob, Machine(Ready(env, alice, bob, t, k), map[]), Paying(env, alice, bob, t).action.action).Some?
  {
    var p := Ready(env, alice, bob, t, k);
    NothingListed(p.notes, (ChannelKey(env, bob, env.IdentityOf(alice)), t));
  }

  lemma PassThroughFlows(t: Felt, to: Felt)
    ensures SafeSums(PassThrough(t, to)) && AllConvertible(Flows(PassThrough(t, to)))
    ensures forall f :: f in Flows(PassThrough(t, to)) ==> f.token == t
    ensures Total(Flows(PassThrough(t, to)), t) == 0
    ensures TokensOut(PassThrough(t, to)) == [t] && forall u: Felt :: Recipients(PassThrough(t, to), u) == [u]
  {
    var flows := Flows(PassThrough(t, to));
    assert flows == [Flow(t, 5), Flow(t, -5)];
    assert flows[..2] == flows && flows[..1] == [Flow(t, 5)] && flows[..1][..0] == [] && flows[..0] == [];
    forall u
      ensures Total(flows[..0], u) == 0 && InI128(Total(flows, u)) && InI128(Total(flows[..1], u))
    {
    }
    forall i, u | 0 <= i <= |flows|
      ensures InI128(Total(flows[..i], u))
    {
      assert i == 0 || i == 1 || i == 2;
    }
  }

  lemma AliceDiscovers(env: Env, alice: Account, bob: Account, t: Felt, to: Felt, k: Felt) returns (st: UserState)
    requires Sound(env) && alice in env.accounts && bob in env.accounts && alice.addr != bob.addr
    requires t in env.tokens && env.Scalar(k)
    ensures Discovered(env, Later(env, EMPTY, Before(env, alice, bob, t, k)), alice, PassThrough(t, to), st)
    ensures st.user == alice && st.registered
  {
    var p, intent := Later(env, EMPTY, Before(env, alice, bob, t, k)), PassThrough(t, to);
    BeforeIsReady(env, alice, bob, t, k);
    EveryHistoryIsWf(env, Before(env, alice, bob, t, k));
    WfIsScannable(env, p);
    PassThroughFlows(t, to);
    ChannelsToAre(env, p, alice, Recipients(intent, alice.addr));
    st := StateOf(env, p, alice, intent).value;
  }

  lemma PassThroughIsPlanned(env: Env, st: UserState, t: Felt, to: Felt, rng: Rng) returns (d: Draft)
    requires st.registered && EnoughDraws(PassThrough(t, to), rng)
    ensures SafeSums(PassThrough(t, to)) && MakeDraft(env, PassThrough(t, to), st, rng) == Ok(d)
    ensures |d.work.creates| <= 2
  {
    var intent := PassThrough(t, to);
    PassThroughFlows(t, to);
    PlanSucceedsExactly(env, intent, st, rng);
    d := MakeDraft(env, intent, st, rng).value;
    Emitted.DraftEmits(env, intent, st, rng, d);
    BalanceIs(intent, Balances(intent).value);
    NewNotesFit(intent, st.notes, st.user.addr, Balances(intent).value, d.cover);
  }

  lemma RoomAfterGrowing(p: State, q: State, n: nat, k: nat)
    requires ListsHaveRoom(p, 8) && n + k <= 8 && Grown(p, q, n)
    ensures ListsHaveRoom(q, k)
  {
  }

  lemma RoomAfterFive(env: Env, before: seq<Deed>, one: Deed, n: nat)
    requires Sound(env) && (forall x :: x in before ==> InPlay(env, x)) && InPlay(env, one) && |before| == 4 && n <= 3
    ensures Later(env, Later(env, EMPTY, before), [one]) == Perform(env, Later(env, EMPTY, before), one)
    ensures ListsHaveRoom(Perform(env, Later(env, EMPTY, before), one), n)
  {
    LaterSnoc(env, EMPTY, before, one);
    LaterSnoc(env, Later(env, EMPTY, before), [], one);
    assert [] + [one] == [one];
    EmptyIsWf(env);
    LaterGrows(env, EMPTY, before + [one]);
    EmptyHasRoom(8);
    RoomAfterGrowing(EMPTY, Perform(env, Later(env, EMPTY, before), one), 5, n);
  }

  lemma PlanOutlivesOne(env: Env, before: seq<Deed>, one: Deed, who: Account, intent: Intent, st: UserState, rng: Rng,
                        d: Draft)
    requires Discovered(env, Later(env, EMPTY, before), who, intent, st) && |before| == 4
    requires (forall x :: x in before ==> InPlay(env, x)) && InPlay(env, one) && one.who.addr != who.addr
    requires SafeSums(intent) && MakeDraft(env, intent, st, rng) == Ok(d)
    requires ScalarSource(env, rng) && |d.work.creates| <= 2
    ensures RunBatch(env, who, Perform(env, Later(env, EMPTY, before), one), Assembled(intent, d).actions).Some?
  {
    RoomAfterFive(env, before, one, |d.work.creates| + 1);
    ScalarsAreGood(env, intent, st, rng, d);
    PlanSurvivesOthers(env, Later(env, EMPTY, before), who, intent, st, rng, d, [one]);
  }

  lemma AllInPlay(env: Env, alice: Account, bob: Account, t: Felt, k: Felt)
    requires alice in env.accounts && bob in env.accounts && t in env.tokens
    ensures |Before(env, alice, bob, t, k)| == 4 && forall x :: x in Before(env, alice, bob, t, k) ==> InPlay(env, x)
    ensures InPlay(env, Paying(env, alice, bob, t))
  {
  }

  lemma PayingMoves(env: Env, older: State, alice: Account, bob: Account, t: Felt, to: Felt, k: Felt, st: UserState,
                    rng: Rng)
    requires older == Ready(env, alice, bob, t, k) && bob in env.accounts && alice.addr != bob.addr
    requires Discovered(env, older, alice, PassThrough(t, to), st) && st.registered && SafeSums(PassThrough(t, to))
    ensures Scannable(Perform(env, older, Paying(env, alice, bob, t)))
    ensures Prepared(env, older, Perform(env, older, Paying(env, alice, bob, t)), alice, PassThrough(t, to), rng)
         == Err(Refusal.Moving)
  {
    PaymentAccepted(env, alice, bob, t, k);
    PassThroughFlows(t, to);
    PaymentMoves(env, older, alice, PassThrough(t, to), st, rng, Paying(env, alice, bob, t));
  }

  /** Alice's plan would be accepted after Bob's payment as before it, and the wallet gives it up because of the
      payment: in any setting with two accounts, and from a pool that is reached. */
  lemma PaymentStopsAPlan(env: Env, alice: Account, bob: Account, t: Felt, to: Felt, k: Felt, rng: Rng)
    returns (older: State, latest: State, st: UserState, plan: Plan)
    requires Sound(env) && alice in env.accounts && bob in env.accounts && alice.addr != bob.addr
    requires t in env.tokens && env.Scalar(k) && EnoughDraws(PassThrough(t, to), rng) && ScalarSource(env, rng)
    ensures older == Later(env, EMPTY, Before(env, alice, bob, t, k)) && Scannable(older)
    ensures latest == Perform(env, older, Paying(env, alice, bob, t)) && Scannable(latest)
    ensures SafeSums(PassThrough(t, to)) && StateOf(env, older, alice, PassThrough(t, to)) == Ok(st)
    ensures MakePlan(env, PassThrough(t, to), st, rng) == Ok(plan)
    ensures RunBatch(env, alice, latest, plan.actions).Some?
    ensures Prepared(env, older, latest, alice, PassThrough(t, to), rng) == Err(Refusal.Moving)
  {
    older := Later(env, EMPTY, Before(env, alice, bob, t, k));
    latest := Perform(env, older, Paying(env, alice, bob, t));
    st := AliceDiscovers(env, alice, bob, t, to, k);
    var d := PassThroughIsPlanned(env, st, t, to, rng);
    plan := Assembled(PassThrough(t, to), d);
    AllInPlay(env, alice, bob, t, k);
    PlanOutlivesOne(env, Before(env, alice, bob, t, k), Paying(env, alice, bob, t), alice, PassThrough(t, to), st, rng,
                    d);
    BeforeIsReady(env, alice, bob, t, k);
    PayingMoves(env, older, alice, bob, t, to, k, st, rng);
  }
}

/** A batch that registers the user can send notes to nobody else. */
module Registration {
  import opened Field
  import opened Errors
  import opened Lists
  import opened Ledger
  import opened Hashes
  import opened Pool
  import opened NoteDiscovery
  import opened Planner
  import opened CoverAllTokens
  import opened StateDiscovery
  import opened Success

  /** Without notes, a token is covered exactly when it has no deficit. */
  lemma NothingToCoverWith(intent: Intent)
    ensures AllCoverable(intent, []) <==> forall f :: f in Flows(intent) ==> Total(Flows(intent), f.token) >= 0
  {
    forall t, bal
      ensures Coverable([], t, bal) <==> bal >= 0
    {
      assert Filter(Spendable(t), []) == [];
    }
  }

  /** Discovery reads no channel of an account that has not registered. So, given randomness, a batch that
      registers its user is planned exactly when amounts are positive and fit, no token has a deficit, and
      every transfer goes to the user itself, however many recipients have registered. */
  lemma RegisteringReachesOnlySelf(env: Env, p: State, who: Account, intent: Intent, st: UserState, rng: Rng)
    requires Scannable(p) && StateOf(env, p, who, intent) == Ok(st) && who.addr !in p.pk && intent.register
    requires SafeSums(intent) && EnoughDraws(intent, rng)
    ensures MakePlan(env, intent, st, rng).Ok?
       <==> && PositiveAmounts(intent) && AllConvertible(Flows(intent))
            && (forall f :: f in Flows(intent) ==> Total(Flows(intent), f.token) >= 0)
            && (forall m :: m in intent.transfers ==> m.to == who.addr)
  {
    PlanSucceedsExactly(env, intent, st, rng);
    NothingToCoverWith(intent);
  }

  /** Register, deposit 5 of a token and pass it on to `to`. */
  function RegisterAndSend(token: Felt, to: Felt): Intent {
    Intent(true, [Amount(token, 5)], [Move(to, token, 5)], [])
  }

  lemma SendFlows(token: Felt, to: Felt)
    ensures Flows(RegisterAndSend(token, to)) == [Flow(token, 5), Flow(token, -5)]
    ensures SafeSums(RegisterAndSend(token, to)) && AllConvertible(Flows(RegisterAndSend(token, to)))
    ensures forall t :: Total(Flows(RegisterAndSend(token, to)), t) == 0
  {
    var flows := Flows(RegisterAndSend(token, to));
    assert flows == [Flow(token, 5), Flow(token, -5)];
    assert flows[..2] == flows && flows[..1] == [Flow(token, 5)] && flows[..1][..0] == [] && flows[..0] == [];
    forall t
      ensures Total(flows[..0], t) == 0 && Total(flows, t) == 0 && InI128(Total(flows[..1], t))
    {
    }
    forall i, t | 0 <= i <= |flows|
      ensures InI128(Total(flows[..i], t))
    {
      assert i == 0 || i == 1 || i == 2;
    }
  }

  /** Alice registers and sends her deposit on to Bob in the same batch: refused for want of Bob's channel,
      whether or not Bob has registered. */
  lemma BobIsRefused(env: Env, p: State, alice: Account, bob: Felt, token: Felt, rng: Rng)
    requires Scannable(p) && alice.addr !in p.pk && bob != alice.addr
    requires EnoughDraws(RegisterAndSend(token, bob), rng)
    ensures SafeSums(RegisterAndSend(token, bob))
    ensures StateOf(env, p, alice, RegisterAndSend(token, bob)) == Ok(UserState(alice, false, 0, map[], []))
    ensures MakePlan(env, RegisterAndSend(token, bob), UserState(alice, false, 0, map[], []), rng)
         == Err(NotRegistered(bob))
  {
    var intent, st := RegisterAndSend(token, bob), UserState(alice, false, 0, map[], []);
    var cover := SendIsCovered(token, bob);
    BobHasNoChannel(env, intent, st, rng, cover);
  }

  lemma SendIsCovered(token: Felt, to: Felt) returns (cover: Cover)
    ensures SafeSums(RegisterAndSend(token, to)) && CoverIntent(RegisterAndSend(token, to), []) == Ok(cover)
    ensures cover.change == map[]
  {
    var intent := RegisterAndSend(token, to);
    SendFlows(token, to);
    NothingToCoverWith(intent);
    var balance := Balances(intent).value;
    BalanceIs(intent, balance);
    CoverExactly(intent, [], balance, Ascending(balance.Keys));
    NoChange(intent);
    cover := CoverIntent(intent, []).value;
  }

  lemma BobHasNoChannel(env: Env, intent: Intent, st: UserState, rng: Rng, cover: Cover)
    requires |intent.transfers| == 1 && cover.change == map[] && EnoughDraws(intent, rng)
    requires !Reachable(intent, st, intent.transfers[0].to)
    ensures PlaceIntent(env, intent, st, rng, cover) == Err(NotRegistered(intent.transfers[0].to))
  {
    StartWorkSucceeds(env, intent, st, rng, 0, 0);
    assert Ascending(cover.change.Keys) == [];
    assert NewNotes(intent, st.user.addr, cover.change) == intent.transfers;
    OnlyMove(StartWork(env, intent, st, rng).value.1, intent.transfers);
  }

  lemma OnlyMove(w: Work, ms: seq<Move>)
    requires |ms| == 1 && ms[0].to !in w.channels
    ensures PlaceAll(w, ms) == Err(NotRegistered(ms[0].to))
  {
    assert ms[..0] == [];
    assert PlaceAll(w, ms[..0]) == Ok(w);
  }

  lemma NoChange(intent: Intent)
    requires forall f :: f in Flows(intent) ==> Total(Flows(intent), f.token) == 0
    ensures !HasChange(intent, [])
  {
  }
}

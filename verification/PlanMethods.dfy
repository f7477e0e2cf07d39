/** The planner as it runs: loops that update balances, spends, the channel map and the action lists. */
module PlanMethods {
  import opened Field
  import opened Sealing
  import opened Errors
  import opened Lists
  import opened Ledger
  import opened Hashes
  import opened Crypto
  import opened Actions
  import opened Discovery
  import opened Planner
  import opened CoverAllTokens

  // ---- amounts and balances ----

  method CheckAmounts(intent: Intent) returns (ok: bool)
    ensures ok <==> PositiveAmounts(intent)
  {
    for i := 0 to |intent.deposits|
      invariant forall j :: 0 <= j < i ==> intent.deposits[j].amount > 0
    {
      if intent.deposits[i].amount == 0 { return false; }
    }
    var moves := intent.transfers + intent.withdrawals;
    for i := 0 to |moves|
      invariant forall j :: 0 <= j < i ==> moves[j].amount > 0
    {
      if moves[i].amount == 0 {
        assert moves[i] in intent.transfers || moves[i] in intent.withdrawals;
        return false;
      }
    }
    assert forall m :: m in intent.transfers || m in intent.withdrawals ==> m in moves;
    ok := true;
  }

  lemma CreditNext(flows: seq<Flow>, i: nat)
    requires i < |flows|
    ensures CreditAll(map[], flows[..i + 1]) == Credit(CreditAll(map[], flows[..i]), flows[i].token, flows[i].amount)
    ensures AllConvertible(flows[..i]) && Convertible(flows[i]) ==> AllConvertible(flows[..i + 1])
  {
    assert flows[..i + 1][..i] == flows[..i];
    assert flows[..i + 1] == flows[..i] + [flows[i]];
  }

  /** The next running sum is the next prefix's total, so it stays an i128. */
  lemma NextSumFits(flows: seq<Flow>, i: nat)
    requires SafeFlows(flows) && i < |flows| && AllConvertible(flows[..i + 1])
    ensures InI128(NetOf(CreditAll(map[], flows[..i]), flows[i].token) + flows[i].amount)
  {
    CreditNext(flows, i);
    CreditAllTotals(map[], flows[..i + 1], flows[i].token);
  }

  /** `balance` is what the first `k` flows add up to, and each of them fitted an i128. Sealed. */
  ghost predicate Running(flows: seq<Flow>, k: nat, balance: map<Felt, int>) {
    forall u: nat {:trigger Unsealed(u)} :: Unsealed(u) ==>
      && SafeFlows(flows) && k <= |flows|
      && AllConvertible(flows[..k])
      && balance == CreditAll(map[], flows[..k])
  }

  lemma RunningStarts(flows: seq<Flow>)
    requires SafeFlows(flows)
    ensures Running(flows, 0, map[])
  {
  }

  lemma RunningEnds(flows: seq<Flow>, balance: map<Felt, int>)
    requires Running(flows, |flows|, balance)
    ensures AllConvertible(flows) && balance == CreditAll(map[], flows)
  {
    assert Unsealed(0);
    assert flows[..|flows|] == flows;
  }

  /** One amount into the running balance; refused when it does not fit an i128. */
  method AddFlow(ghost flows: seq<Flow>, ghost i: nat, balance: map<Felt, int>, token: Felt, amount: U128, out: bool)
    returns (res: Option<map<Felt, int>>)
    requires i < |flows| && Running(flows, i, balance)
    requires flows[i] == Flow(token, if out then -(amount as int) else amount)
    ensures res.Some? ==> Running(flows, i + 1, res.value)
    ensures res.None? ==> !AllConvertible(flows)
  {
    assert Unsealed(0);
    if amount >= TWO_127 {
      assert flows[i] in flows;
      return None;
    }
    CreditNext(flows, i);
    NextSumFits(flows, i);
    var sum: I128 := if out then NetOf(balance, token) - amount else NetOf(balance, token) + amount;
    res := Some(balance[token := sum]);
  }

  /** The first balance loop: deposits in. */
  method SumDeposits(deposits: seq<Amount>, ghost flows: seq<Flow>) returns (res: Option<map<Felt, int>>)
    requires Running(flows, 0, map[]) && |deposits| <= |flows|
    requires forall i :: 0 <= i < |deposits| ==> flows[i] == Inflow(deposits[i])
    ensures res.Some? ==> Running(flows, |deposits|, res.value)
    ensures res.None? ==> !AllConvertible(flows)
  {
    var balance: map<Felt, int> := map[];
    for i := 0 to |deposits|
      invariant Running(flows, i, balance)
    {
      var added := AddFlow(flows, i, balance, deposits[i].token, deposits[i].amount, false);
      match added {
        case None => return None;
        case Some(b) => balance := b;
      }
    }
    res := Some(balance);
  }

  /** The second balance loop: transfers and withdrawals out. */
  method SumOutflows(moves: seq<Move>, deposited: map<Felt, int>, ghost flows: seq<Flow>, ghost n: nat)
    returns (res: Option<map<Felt, int>>)
    requires Running(flows, n, deposited) && n + |moves| == |flows|
    requires forall i :: 0 <= i < |moves| ==> flows[n + i] == Outflow(moves[i])
    ensures res.Some? ==> Running(flows, |flows|, res.value)
    ensures res.None? ==> !AllConvertible(flows)
  {
    var balance := deposited;
    for i := 0 to |moves|
      invariant Running(flows, n + i, balance)
    {
      assert flows[n + i] == Outflow(moves[i]);
      var added := AddFlow(flows, n + i, balance, moves[i].token, moves[i].amount, true);
      match added {
        case None => return None;
        case Some(b) => balance := b;
      }
    }
    res := Some(balance);
  }

  /** `flows` is the deposits coming in, then the moves going out. */
  predicate Lays(deposits: seq<Amount>, moves: seq<Move>, flows: seq<Flow>) {
    && |flows| == |deposits| + |moves|
    && (forall i :: 0 <= i < |deposits| ==> flows[i] == Inflow(deposits[i]))
    && (forall i :: 0 <= i < |moves| ==> flows[|deposits| + i] == Outflow(moves[i]))
  }

  method SumFlows(deposits: seq<Amount>, moves: seq<Move>, ghost flows: seq<Flow>) returns (res: Option<map<Felt, int>>)
    requires Lays(deposits, moves, flows) && SafeFlows(flows)
    ensures res.Some? ==> AllConvertible(flows) && res.value == CreditAll(map[], flows)
    ensures res.None? ==> !AllConvertible(flows)
  {
    RunningStarts(flows);
    var deposited := SumDeposits(deposits, flows);
    if deposited.None? { return None; }
    res := SumOutflows(moves, deposited.value, flows, |deposits|);
    if res.Some? { RunningEnds(flows, res.value); }
  }

  lemma FlowsLay(intent: Intent)
    ensures Lays(intent.deposits, intent.transfers + intent.withdrawals, Flows(intent))
  {
    LaysOut(intent.deposits, intent.transfers + intent.withdrawals);
  }

  lemma LaysOut(deposits: seq<Amount>, moves: seq<Move>)
    ensures Lays(deposits, moves, MapSeq(Inflow, deposits) + MapSeq(Outflow, moves))
  {
    var ins, outs := MapSeq(Inflow, deposits), MapSeq(Outflow, moves);
    forall i | 0 <= i < |moves|
      ensures (ins + outs)[|deposits| + i] == Outflow(moves[i])
    {
      assert (ins + outs)[|deposits| + i] == outs[i];
    }
  }

  /** Both loops: deposits in, then transfers and withdrawals out. */
  method SumBalances(intent: Intent) returns (res: Result<map<Felt, int>, Error>)
    requires SafeSums(intent)
    ensures res == Balances(intent)
  {
    FlowsLay(intent);
    var summed := SumFlows(intent.deposits, intent.transfers + intent.withdrawals, Flows(intent));
    match summed {
      case None => res := Err(Read);
      case Some(balance) => res := Ok(balance);
    }
  }

  // ---- covering deficits ----

  /** The keys in ascending order, as the ordered map iterates over them. */
  method InOrder(keys: set<Felt>) returns (order: seq<Felt>)
    ensures order == Ascending(keys)
  {
    order := [];
    var rest := keys;
    while rest != {}
      invariant Ascending(keys) == order + Ascending(rest)
      decreases |rest|
    {
      LeastInhabited(rest);
      var least: Felt :| least in rest && IsLeast(least, rest);
      order := order + [least];
      rest := rest - {least};
    }
  }

  lemma {:induction false} CoverAllStops(notes: seq<Note>, balance: map<Felt, int>, tokens: seq<Felt>, i: nat)
    requires forall t :: t in tokens ==> InI128(NetOf(balance, t))
    requires i <= |tokens| && CoverAll(notes, balance, tokens[..i]).Err?
    ensures CoverAll(notes, balance, tokens) == CoverAll(notes, balance, tokens[..i])
    decreases |tokens|
  {
    if i == |tokens| {
      assert tokens[..i] == tokens;
    } else {
      var init := tokens[..|tokens| - 1];
      assert init[..i] == tokens[..i];
      CoverAllStops(notes, balance, init, i);
    }
  }

  /** The spending loop over the sorted candidates of one token. */
  method SpendLoop(candidates: seq<Note>, deficit: I128) returns (res: Result<(nat, I128), Error>)
    ensures res == SpendFrom(candidates, 0, deficit)
  {
    var bal: I128 := deficit;
    var i := 0;
    while i < |candidates|
      invariant i <= |candidates| && SpendFrom(candidates, 0, deficit) == SpendFrom(candidates, i, bal)
    {
      if bal >= 0 { break; }
      var amount := candidates[i].amount;
      if amount >= TWO_127 { return Err(Read); }
      bal := bal + amount;
      i := i + 1;
    }
    res := Ok((i, bal));
  }

  /** One token of the covering loop. */
  method CoverOne(notes: seq<Note>, token: Felt, balance: I128, cover: Cover) returns (res: Result<Cover, Error>)
    ensures res == match CoverToken(notes, token, balance)
                   case Err(e) => Err(e)
                   case Ok((spent, left)) =>
                     Ok(Cover(cover.spends + spent, if 0 < left then cover.change[token := left] else cover.change))
  {
    var bal: I128 := balance;
    var spends, change := cover.spends, cover.change;
    assert spends + [] == spends;
    if bal < 0 {
      var candidates := Candidates(notes, token);
      var got := SpendLoop(candidates, bal);
      match got {
        case Err(e) => return Err(e);
        case Ok((k, left)) =>
          spends := spends + candidates[..k];
          bal := left;
      }
      if bal < 0 {
        return Err(InsufficientBalance(token, -(bal as int), Available(notes, token)));
      }
    }
    if bal > 0 { change := change[token := bal]; }
    res := Ok(Cover(spends, change));
  }

  lemma CoverAllNext(notes: seq<Note>, balance: map<Felt, int>, tokens: seq<Felt>, i: nat, cover: Cover)
    requires forall t :: t in tokens ==> InI128(NetOf(balance, t))
    requires i < |tokens| && CoverAll(notes, balance, tokens[..i]) == Ok(cover) && tokens[i] in tokens
    ensures CoverAll(notes, balance, tokens[..i + 1])
         == match CoverToken(notes, tokens[i], NetOf(balance, tokens[i]))
            case Err(e) => Err(e)
            case Ok((spent, left)) =>
              Ok(Cover(cover.spends + spent, if 0 < left then cover.change[tokens[i] := left] else cover.change))
  {
    assert tokens[..i + 1][..i] == tokens[..i];
  }

  method CoverDeficits(notes: seq<Note>, balance: map<Felt, int>) returns (res: Result<Cover, Error>)
    requires forall t {:trigger t in balance} :: t in balance ==> InI128(balance[t])
    ensures (forall t :: t in Ascending(balance.Keys) ==> InI128(NetOf(balance, t)))
    ensures res == CoverAll(notes, balance, Ascending(balance.Keys))
  {
    AscendingIs(balance.Keys);
    var tokens := InOrder(balance.Keys);
    var cover := Cover([], map[]);
    for i := 0 to |tokens|
      invariant forall t :: t in tokens ==> t in balance && InI128(NetOf(balance, t))
      invariant CoverAll(notes, balance, tokens[..i]) == Ok(cover)
    {
      assert tokens[i] in tokens;
      CoverAllNext(notes, balance, tokens, i, cover);
      var next := CoverOne(notes, tokens[i], NetOf(balance, tokens[i]), cover);
      match next {
        case Err(e) =>
          CoverAllStops(notes, balance, tokens, i + 1);
          return Err(e);
        case Ok(c) => cover := c;
      }
    }
    assert tokens[..|tokens|] == tokens;
    res := Ok(cover);
  }

  // ---- placing notes ----

  /** Draw until the salt is neither 0 nor the open-note mark. */
  method DrawSalt(rng: Rng) returns (res: Result<(U128, Rng), Error>)
    ensures res == TakeSalt(rng)
  {
    var left := rng;
    while true
      invariant TakeSalt(rng) == TakeSalt(left)
      decreases |left.salts|
    {
      if left.salts == [] { return Err(Random); }
      var salt := left.salts[0];
      left := left.(salts := left.salts[1..]);
      if salt > OPEN_NOTE_SALT { return Ok((salt, left)); }
    }
  }

  method OpenIfMissing(w: Work, recipient: Felt) returns (res: Result<Work, Error>)
    ensures res == EnsureChannel(w, recipient)
  {
    if recipient !in w.channels { return Err(NotRegistered(recipient)); }
    var channel := w.channels[recipient];
    if channel.open { return Ok(w); }
    var random, salt, rng;
    match TakeFelt(w.rng) {
      case Err(e) => return Err(e);
      case Ok((x, left)) => random, rng := x, left;
    }
    match TakeFelt(rng) {
      case Err(e) => return Err(e);
      case Ok((x, left)) => salt, rng := x, left;
    }
    res := Ok(Work(w.channels[recipient := channel.(open := true)], w.next + 1,
                   w.opens + [OpenChannel(recipient, Index(w.next), random, salt)], w.subs, w.creates, rng));
  }

  /** One round of the placing loop. */
  method Place(w: Work, m: Move) returns (res: Result<Work, Error>)
    ensures res == PlaceNote(w, m)
  {
    var ensured := OpenIfMissing(w, m.to);
    var channels, next, opens, subs, rng;
    match ensured {
      case Err(e) => return Err(e);
      case Ok(o) => channels, next, opens, subs, rng := o.channels, o.next, o.opens, o.subs, o.rng;
    }
    var channel := channels[m.to];
    if m.token !in channel.subchannels {
      var nextSub := Index(|channel.subchannels|);
      match TakeFelt(rng) {
        case Err(e) => return Err(e);
        case Ok((salt, left)) =>
          subs := subs + [OpenSubchannel(m.to, channel.recipientPk, channel.key, nextSub, m.token, salt)];
          rng := left;
      }
      channel := channel.(subchannels := channel.subchannels[m.token := Subchannel(nextSub, 0)]);
      channels := channels[m.to := channel];
    }
    var sub := channel.subchannels[m.token];
    var creates;
    var drawn := DrawSalt(rng);
    match drawn {
      case Err(e) => return Err(e);
      case Ok((salt, left)) =>
        creates := w.creates + [CreateEncNote(m.to, channel.recipientPk, m.token, m.amount, Index(sub.nextNote), salt)];
        rng := left;
    }
    channel := channel.(subchannels := channel.subchannels[m.token := sub.(nextNote := sub.nextNote + 1)]);
    channels := channels[m.to := channel];
    res := Ok(Work(channels, next, opens, subs, creates, rng));
  }

  lemma {:induction false} PlaceAllStops(w: Work, ms: seq<Move>, i: nat)
    requires i <= |ms| && PlaceAll(w, ms[..i]).Err?
    ensures PlaceAll(w, ms) == PlaceAll(w, ms[..i])
    decreases |ms|
  {
    if i == |ms| {
      assert ms[..i] == ms;
    } else {
      var init := ms[..|ms| - 1];
      assert init[..i] == ms[..i];
      PlaceAllStops(w, init, i);
    }
  }

  method PlaceNotes(start: Work, ms: seq<Move>) returns (res: Result<Work, Error>)
    ensures res == PlaceAll(start, ms)
  {
    var w := start;
    for i := 0 to |ms|
      invariant PlaceAll(start, ms[..i]) == Ok(w)
    {
      assert ms[..i + 1][..i] == ms[..i];
      var placed := Place(w, ms[i]);
      match placed {
        case Err(e) =>
          PlaceAllStops(start, ms, i + 1);
          return Err(e);
        case Ok(w') => w := w';
      }
    }
    assert ms[..|ms|] == ms;
    res := Ok(w);
  }

  lemma {:induction false} WithdrawAllStops(ws: seq<Move>, rng: Rng, i: nat)
    requires i <= |ws| && WithdrawAll(ws[..i], rng).Err?
    ensures WithdrawAll(ws, rng) == WithdrawAll(ws[..i], rng)
    decreases |ws|
  {
    if i == |ws| {
      assert ws[..i] == ws;
    } else {
      var init := ws[..|ws| - 1];
      assert init[..i] == ws[..i];
      WithdrawAllStops(init, rng, i);
    }
  }

  method Withdrawals(ws: seq<Move>, rng: Rng) returns (res: Result<(seq<ClientAction>, Rng), Error>)
    ensures res == WithdrawAll(ws, rng)
  {
    var actions, left := [], rng;
    for i := 0 to |ws|
      invariant WithdrawAll(ws[..i], rng) == Ok((actions, left))
    {
      assert ws[..i + 1][..i] == ws[..i];
      match TakeFelt(left) {
        case Err(e) =>
          WithdrawAllStops(ws, rng, i + 1);
          return Err(e);
        case Ok((random, rest)) =>
          actions := actions + [Withdraw(ws[i].to, ws[i].token, ws[i].amount, random)];
          left := rest;
      }
    }
    assert ws[..|ws|] == ws;
    res := Ok((actions, left));
  }

  /** The account actions of a registration, and the map and lists placing starts from. */
  method Start(env: Env, intent: Intent, st: UserState, rng: Rng)
    returns (res: Result<(seq<ClientAction>, Work), Error>)
    ensures res == StartWork(env, intent, st, rng)
  {
    var w := Work(st.channels, st.outgoing, [], [], [], rng);
    if !(intent.register && !st.registered) { return Ok(([], w)); }
    var account, left;
    match TakeFelt(rng) {
      case Err(e) => return Err(e);
      case Ok((random, rest)) => account, left := [SetViewingKey(random)], rest;
    }
    var pk := env.publicKey(st.user.sk);
    var key := ChannelKey(env, st.user, Identity(st.user.addr, pk));
    var self := OutgoingChannel(st.user.addr, pk, key, false, map[]);
    var ensured := OpenIfMissing(w.(channels := w.channels[st.user.addr := self], rng := left), st.user.addr);
    match ensured {
      case Err(e) => return Err(e);
      case Ok(w') => res := Ok((account, w'));
    }
  }

  /** Transfers, then one change note per token in token order. */
  method NotesToPlace(intent: Intent, user: Felt, change: map<Felt, U128>) returns (ms: seq<Move>)
    ensures ms == NewNotes(intent, user, change)
  {
    var tokens := InOrder(change.Keys);
    AscendingIs(change.Keys);
    ms := intent.transfers;
    for i := 0 to |tokens|
      invariant ms == intent.transfers + MapSeq(ChangeNote(user, change), tokens[..i])
    {
      assert tokens[i] in tokens;
      assert MapSeq(ChangeNote(user, change), tokens[..i + 1])
          == MapSeq(ChangeNote(user, change), tokens[..i]) + [ChangeNote(user, change)(tokens[i])];
      ms := ms + [Move(user, tokens[i], change[tokens[i]])];
    }
    assert tokens[..|tokens|] == tokens;
  }

  /** The planner. */
  method PlanBatch(env: Env, intent: Intent, st: UserState, rng: Rng) returns (res: Result<Plan, Error>)
    requires SafeSums(intent)
    ensures res == MakePlan(env, intent, st, rng)
  {
    if !intent.register && !st.registered { return Err(NotRegistered(st.user.addr)); }
    var positive := CheckAmounts(intent);
    if !positive { return Err(ZeroAmount); }
    var summed := SumBalances(intent);
    var balance, cover;
    match summed {
      case Err(e) => return Err(e);
      case Ok(b) => balance := b;
    }
    BalanceFits(intent, balance);
    var covered := CoverDeficits(st.notes, balance);
    match covered {
      case Err(e) => return Err(e);
      case Ok(c) => cover := c;
    }
    var draft := PlaceCovered(env, intent, st, rng, cover);
    match draft {
      case Err(e) => return Err(e);
      case Ok(d) =>
        var actions := Assemble(intent, d.account, d.work, cover.spends, d.withdraws);
        res := Ok(Plan(actions, MapSeq(NoteOf, cover.spends), cover.change, Linkage(actions)));
    }
  }

  lemma BalanceFits(intent: Intent, balance: map<Felt, int>)
    requires SafeSums(intent) && Balances(intent) == Ok(balance)
    ensures forall t {:trigger t in balance} :: t in balance ==> InI128(balance[t])
  {
    forall t | t in balance
      ensures InI128(balance[t])
    {
      BalancesInRange(intent, t);
    }
  }

  method PlaceCovered(env: Env, intent: Intent, st: UserState, rng: Rng, cover: Cover)
    returns (res: Result<Draft, Error>)
    ensures res == PlaceIntent(env, intent, st, rng, cover)
  {
    var ms := NotesToPlace(intent, st.user.addr, cover.change);
    var account, w;
    var started := Start(env, intent, st, rng);
    match started {
      case Err(e) => return Err(e);
      case Ok((a, s)) => account, w := a, s;
    }
    var placed := PlaceNotes(w, ms);
    match placed {
      case Err(e) => return Err(e);
      case Ok(w') => w := w';
    }
    var withdrawn := Withdrawals(intent.withdrawals, w.rng);
    match withdrawn {
      case Err(e) => return Err(e);
      case Ok((withdraws, _)) => res := Ok(Draft(cover, account, w, withdraws));
    }
  }
}

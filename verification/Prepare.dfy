/** Discover at the proving block and at the latest one, compare, plan, refuse what would link channels. */
module Prepare {
  import opened Field
  import opened Errors
  import opened Lists
  import opened Ledger
  import opened Hashes
  import opened Pool
  import opened Discovery
  import opened NoteDiscovery
  import opened NoteFacts
  import opened Planner
  import opened Mirror
  import opened Placing
  import opened StateDiscovery
  import opened Batch
  import opened Balance
  import PlanMethods
  import CoverAllTokens

  // ---- the intent of a request ----

  datatype Request = DepositRequest(token: Felt, amount: U128)
                   | WithdrawRequest(token: Felt, amount: U128, recipient: Felt)
                   | TransferRequest(token: Felt, amount: U128, recipient: Felt)

  /** What one request asks to move. */
  function Asked(a: Request): Flow {
    match a
    case DepositRequest(t, x) => Flow(t, x)
    case WithdrawRequest(t, x, _) => Flow(t, -(x as int))
    case TransferRequest(t, x, _) => Flow(t, -(x as int))
  }

  function DepositsIn(actions: seq<Request>): seq<Amount> {
    if actions == [] then []
    else
      var a := actions[|actions| - 1];
      DepositsIn(actions[..|actions| - 1]) + (if a.DepositRequest? then [Amount(a.token, a.amount)] else [])
  }

  function TransfersIn(actions: seq<Request>): seq<Move> {
    if actions == [] then []
    else
      var a := actions[|actions| - 1];
      TransfersIn(actions[..|actions| - 1])
      + (if a.TransferRequest? then [Move(a.recipient, a.token, a.amount)] else [])
  }

  function WithdrawalsIn(actions: seq<Request>): seq<Move> {
    if actions == [] then []
    else
      var a := actions[|actions| - 1];
      WithdrawalsIn(actions[..|actions| - 1])
      + (if a.WithdrawRequest? then [Move(a.recipient, a.token, a.amount)] else [])
  }

  /** The request an entry of each list stands for. */
  function ToDeposit(d: Amount): Request {
    DepositRequest(d.token, d.amount)
  }

  function ToTransfer(m: Move): Request {
    TransferRequest(m.token, m.amount, m.to)
  }

  function ToWithdraw(m: Move): Request {
    WithdrawRequest(m.token, m.amount, m.to)
  }

  /** Read back as requests, each list of the intent is the requests of its kind, every one, in order and with all
      their fields. */
  ghost predicate Answers(intent: Intent, actions: seq<Request>) {
    && MapSeq(ToDeposit, intent.deposits) == Filter((a: Request) => a.DepositRequest?, actions)
    && MapSeq(ToTransfer, intent.transfers) == Filter((a: Request) => a.TransferRequest?, actions)
    && MapSeq(ToWithdraw, intent.withdrawals) == Filter((a: Request) => a.WithdrawRequest?, actions)
  }

  lemma {:induction false} ListsAnswer(actions: seq<Request>)
    ensures Answers(Intent(false, DepositsIn(actions), TransfersIn(actions), WithdrawalsIn(actions)), actions)
    decreases |actions|
  {
    if actions != [] {
      var k := |actions| - 1;
      ListsAnswer(actions[..k]);
      assert actions == actions[..k] + [actions[k]];
      DepositsAnswer(actions[..k], actions[k]);
      TransfersAnswer(actions[..k], actions[k]);
      WithdrawalsAnswer(actions[..k], actions[k]);
    }
  }

  lemma DepositsAnswer(init: seq<Request>, a: Request)
    requires MapSeq(ToDeposit, DepositsIn(init)) == Filter((a: Request) => a.DepositRequest?, init)
    ensures MapSeq(ToDeposit, DepositsIn(init + [a])) == Filter((a: Request) => a.DepositRequest?, init + [a])
  {
    assert (init + [a])[..|init|] == init;
    FilterSnoc((a: Request) => a.DepositRequest?, init, a);
    if a.DepositRequest? {
      MapPlus(ToDeposit, DepositsIn(init), Amount(a.token, a.amount));
    } else {
      assert DepositsIn(init) + [] == DepositsIn(init);
    }
  }

  lemma TransfersAnswer(init: seq<Request>, a: Request)
    requires MapSeq(ToTransfer, TransfersIn(init)) == Filter((a: Request) => a.TransferRequest?, init)
    ensures MapSeq(ToTransfer, TransfersIn(init + [a])) == Filter((a: Request) => a.TransferRequest?, init + [a])
  {
    assert (init + [a])[..|init|] == init;
    FilterSnoc((a: Request) => a.TransferRequest?, init, a);
    if a.TransferRequest? {
      MapPlus(ToTransfer, TransfersIn(init), Move(a.recipient, a.token, a.amount));
    } else {
      assert TransfersIn(init) + [] == TransfersIn(init);
    }
  }

  lemma WithdrawalsAnswer(init: seq<Request>, a: Request)
    requires MapSeq(ToWithdraw, WithdrawalsIn(init)) == Filter((a: Request) => a.WithdrawRequest?, init)
    ensures MapSeq(ToWithdraw, WithdrawalsIn(init + [a])) == Filter((a: Request) => a.WithdrawRequest?, init + [a])
  {
    assert (init + [a])[..|init|] == init;
    FilterSnoc((a: Request) => a.WithdrawRequest?, init, a);
    if a.WithdrawRequest? {
      MapPlus(ToWithdraw, WithdrawalsIn(init), Move(a.recipient, a.token, a.amount));
    } else {
      assert WithdrawalsIn(init) + [] == WithdrawalsIn(init);
    }
  }

  method IntentOf(actions: seq<Request>) returns (intent: Intent)
    ensures intent == Intent(false, DepositsIn(actions), TransfersIn(actions), WithdrawalsIn(actions))
    ensures !intent.register && Answers(intent, actions)
  {
    ListsAnswer(actions);
    intent := Intent(false, [], [], []);
    for i := 0 to |actions|
      invariant intent
          == Intent(false, DepositsIn(actions[..i]), TransfersIn(actions[..i]), WithdrawalsIn(actions[..i]))
    {
      assert actions[..i + 1][..i] == actions[..i];
      match actions[i] {
        case DepositRequest(t, x) => intent := intent.(deposits := intent.deposits + [Amount(t, x)]);
        case WithdrawRequest(t, x, r) => intent := intent.(withdrawals := intent.withdrawals + [Move(r, t, x)]);
        case TransferRequest(t, x, r) => intent := intent.(transfers := intent.transfers + [Move(r, t, x)]);
      }
    }
    assert actions[..|actions|] == actions;
  }

  /** Sorting the requests into three lists changes nothing about what they move. */
  lemma {:induction false} IntentMovesWhatWasAsked(actions: seq<Request>, t: Felt)
    ensures Moved(Inflow, DepositsIn(actions), t) + Moved(Outflow, TransfersIn(actions), t)
            + Moved(Outflow, WithdrawalsIn(actions), t)
         == Moved(Asked, actions, t)
    ensures |DepositsIn(actions)| + |TransfersIn(actions)| + |WithdrawalsIn(actions)| == |actions|
    decreases |actions|
  {
    if actions == [] {
      MovedNone(Inflow, t);
      MovedNone(Outflow, t);
      MovedNone(Asked, t);
    } else {
      var k := |actions| - 1;
      var init, a := actions[..k], actions[k];
      IntentMovesWhatWasAsked(init, t);
      MovedSnoc(Asked, init, a, t);
      assert actions == init + [a];
      assert DepositsIn(init) + [] == DepositsIn(init);
      assert TransfersIn(init) + [] == TransfersIn(init);
      assert WithdrawalsIn(init) + [] == WithdrawalsIn(init);
      match a {
        case DepositRequest(tk, x) => MovedSnoc(Inflow, DepositsIn(init), Amount(tk, x), t);
        case WithdrawRequest(tk, x, r) => MovedSnoc(Outflow, WithdrawalsIn(init), Move(r, tk, x), t);
        case TransferRequest(tk, x, r) => MovedSnoc(Outflow, TransfersIn(init), Move(r, tk, x), t);
      }
    }
  }

  // ---- the guard against stale reads ----

  /** Two discoveries agree on everything a plan writes to or spends. */
  predicate SameState(a: UserState, b: UserState) {
    a.registered == b.registered && a.outgoing == b.outgoing && a.channels == b.channels && a.notes == b.notes
  }

  /** If discovery at the proving block and at the latest block agree, the plan made from the older one is
      accepted by both pools, whatever happened in between; on either, only a bad draw can make it fail. */
  lemma PlanRunsOnBoth(env: Env, older: State, latest: State, who: Account, intent: Intent,
                       st: UserState, now: UserState, rng: Rng, d: Draft)
    requires Discovered(env, older, who, intent, st) && Discovered(env, latest, who, intent, now) && SameState(st, now)
    requires SafeSums(intent) && MakeDraft(env, intent, st, rng) == Ok(d)
    requires ListsHaveRoom(older, |d.work.creates| + 1) && ListsHaveRoom(latest, |d.work.creates| + 1)
    ensures var actions := Assembled(intent, d).actions;
            && (RunBatch(env, who, older, actions).Some? <==> GoodDraws(env, actions))
            && (RunBatch(env, who, latest, actions).Some? <==> GoodDraws(env, actions))
            && (GoodDraws(env, actions) ==>
                  Mirrors(env, RunBatch(env, who, latest, actions).value, who, d.work.channels, d.work.next))
  {
    StateIs(env, older, who, intent, st);
    StateIs(env, latest, who, intent, now);
    assert st == now;
    PlanRuns(env, older, who, intent, st, rng, d);
    PlanRuns(env, latest, who, intent, st, rng, d);
  }

  // ---- the pipeline ----

  datatype Refusal = Because(error: Error) | Moving | PrivacyLeak

  /** What becomes of the two reads: `st` is planned from, `now` is only compared with it. */
  ghost function Decide(env: Env, intent: Intent, st: UserState, now: UserState, rng: Rng): Result<Plan, Refusal>
    requires SafeSums(intent)
  {
    if !SameState(st, now) then Err(Moving)
    else
      match MakePlan(env, intent, st, rng)
      case Err(e) => Err(Because(e))
      case Ok(plan) => if UserLinkage in plan.warnings then Err(PrivacyLeak) else Ok(plan)
  }

  ghost function Prepared(env: Env, older: State, latest: State, who: Account, intent: Intent, rng: Rng):
    Result<Plan, Refusal>
    requires Scannable(older) && Scannable(latest) && SafeSums(intent)
  {
    match StateOf(env, older, who, intent)
    case Err(e) => Err(Because(e))
    case Ok(st) =>
      match StateOf(env, latest, who, intent)
      case Err(e) => Err(Because(e))
      case Ok(now) => Decide(env, intent, st, now, rng)
  }

  method PrepareBatch(env: Env, atBlock: Reader, atLatest: Reader, ghost older: State, ghost latest: State,
                      who: Account, intent: Intent, rng: Rng) returns (res: Result<Plan, Refusal>)
    requires Reads(env, atBlock, older) && OwnKey(env, older, who) && Scannable(older)
    requires Reads(env, atLatest, latest) && OwnKey(env, latest, who) && Scannable(latest)
    requires SafeSums(intent)
    ensures res == Prepared(env, older, latest, who, intent, rng)
  {
    var st, now;
    var olderState := DiscoverState(env, atBlock, older, who, intent);
    match olderState {
      case Err(e) => return Err(Because(e));
      case Ok(s) => st := s;
    }
    var latestState := DiscoverState(env, atLatest, latest, who, intent);
    match latestState {
      case Err(e) => return Err(Because(e));
      case Ok(s) => now := s;
    }
    if !SameState(st, now) { return Err(Moving); }
    var planned := PlanMethods.PlanBatch(env, intent, st, rng);
    match planned {
      case Err(e) => res := Err(Because(e));
      case Ok(plan) =>
        if UserLinkage in plan.warnings { return Err(PrivacyLeak); }
        res := Ok(plan);
    }
  }

  /** A prepared plan opens at most one channel, and unless a draw is bad it runs on the pool it was proved
      against and on the pool it is applied to. */
  lemma PreparedRuns(env: Env, older: State, latest: State, who: Account, intent: Intent, rng: Rng, plan: Plan)
    requires Sound(env) && Wf(env, older) && Wf(env, latest) && OwnKey(env, older, who) && OwnKey(env, latest, who)
    requires Scannable(older) && Scannable(latest) && SafeSums(intent) && KnownTokens(env, intent)
    requires Prepared(env, older, latest, who, intent, rng) == Ok(plan)
    requires ListsHaveRoom(older, |plan.actions| + 1) && ListsHaveRoom(latest, |plan.actions| + 1)
    ensures RunBatch(env, who, older, plan.actions).Some? <==> GoodDraws(env, plan.actions)
    ensures RunBatch(env, who, latest, plan.actions).Some? <==> GoodDraws(env, plan.actions)
    ensures |Filter(IsOpening, plan.actions)| <= 1
  {
    var st, now := StateOf(env, older, who, intent).value, StateOf(env, latest, who, intent).value;
    var d := MakeDraft(env, intent, st, rng).value;
    RoomForFewer(older, |plan.actions| + 1, |d.work.creates| + 1);
    RoomForFewer(latest, |plan.actions| + 1, |d.work.creates| + 1);
    PlanRunsOnBoth(env, older, latest, who, intent, st, now, rng, d);
  }

  // ---- reported balances ----

  /** The sum `wallet_strk20Balances` reports for one token. */
  function Reported(notes: seq<Note>, t: Felt): nat {
    Available(notes, t)
  }

  lemma {:induction false} ReportedIsWorth(notes: seq<Note>, t: Felt)
    ensures Reported(notes, t) == CoverAllTokens.Worth(notes, t)
    decreases |notes|
  {
    if notes == [] {
      MovedNone(NoteFlow, t);
    } else {
      var k := |notes| - 1;
      ReportedIsWorth(notes[..k], t);
      MovedSnoc(NoteFlow, notes[..k], notes[k], t);
      assert notes == notes[..k] + [notes[k]];
    }
  }

  lemma {:induction false} WorthFiltered(tokens: seq<Felt>, notes: seq<Note>, t: Felt)
    requires t in tokens
    ensures CoverAllTokens.Worth(Filter(Keep(tokens), notes), t) == CoverAllTokens.Worth(notes, t)
    decreases |notes|
  {
    if notes != [] {
      var k := |notes| - 1;
      WorthFiltered(tokens, notes[..k], t);
      MovedSnoc(NoteFlow, notes[..k], notes[k], t);
      MovedSnoc(NoteFlow, Filter(Keep(tokens), notes[..k]), notes[k], t);
      assert Filter(Keep(tokens), notes[..k]) + [] == Filter(Keep(tokens), notes[..k]);
      assert notes == notes[..k] + [notes[k]];
    }
  }

  /** The balance reported for a requested token, from notes read with the request as filter, is the
      account's whole private balance in it. */
  lemma ReportedIsHeld(env: Env, p: State, who: Account, tokens: seq<Felt>, t: Felt)
    requires Wf(env, p) && Scannable(p) && t in tokens
    ensures Reported(NotesOf(env, p, who, tokens), t) == Held(env, p, who, t)
  {
    OpenWf(env, p);
    FilterWhileScanning(env, p, who, tokens);
    ReportedIsWorth(NotesOf(env, p, who, tokens), t);
    WorthFiltered(tokens, NotesOf(env, p, who, []), t);
  }

  // ---- token approvals ----

  /** What the account has to let the pool pull: its deposits, token by token, and the pool's fee. */
  method Approvals(deposits: seq<Amount>, fee: U128, strk: Felt) returns (approvals: map<Felt, int>)
    requires forall t :: Moved(Inflow, deposits, t) + fee < TWO_128
    ensures forall t :: NetOf(approvals, t) == Moved(Inflow, deposits, t) + (if t == strk then fee else 0)
    ensures forall t :: t in approvals <==> (exists d :: d in deposits && d.token == t) || (t == strk && fee > 0)
  {
    approvals := map[];
    for i := 0 to |deposits|
      invariant forall t :: NetOf(approvals, t) == Moved(Inflow, deposits[..i], t)
      invariant forall t :: t in approvals <==> exists d :: d in deposits[..i] && d.token == t
    {
      var d := deposits[i];
      ghost var before := approvals;
      approvals := approvals[d.token := NetOf(approvals, d.token) + d.amount];
      assert deposits[..i + 1] == deposits[..i] + [d];
      forall t
        ensures NetOf(approvals, t) == Moved(Inflow, deposits[..i + 1], t)
      {
        assert NetOf(before, t) == Moved(Inflow, deposits[..i], t);
        MovedSnoc(Inflow, deposits[..i], d, t);
      }
    }
    assert deposits[..|deposits|] == deposits;
    if fee > 0 {
      approvals := approvals[strk := NetOf(approvals, strk) + fee];
    }
  }
}

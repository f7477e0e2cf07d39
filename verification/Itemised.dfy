/** A planned batch, item by item: which action stands for which deposit, note, transfer and withdrawal. */
module Itemised {
  import opened Field
  import opened Lists
  import opened Hashes
  import opened Actions
  import opened Discovery
  import opened Planner
  import opened Ledger
  import opened Covering
  import opened CoverAllTokens
  import opened Emitted

  // ---- the actions of one kind, in order ----

  function ViewingKeys(actions: seq<ClientAction>): seq<ClientAction> {
    Filter((a: ClientAction) => a.SetViewingKey?, actions)
  }

  function Openings(actions: seq<ClientAction>): seq<ClientAction> {
    Filter((a: ClientAction) => a.OpenChannel?, actions)
  }

  function SubOpenings(actions: seq<ClientAction>): seq<ClientAction> {
    Filter((a: ClientAction) => a.OpenSubchannel?, actions)
  }

  function Deposits(actions: seq<ClientAction>): seq<ClientAction> {
    Filter((a: ClientAction) => a.Deposit?, actions)
  }

  function Uses(actions: seq<ClientAction>): seq<ClientAction> {
    Filter((a: ClientAction) => a.UseNote?, actions)
  }

  function Creates(actions: seq<ClientAction>): seq<ClientAction> {
    Filter((a: ClientAction) => a.CreateEncNote?, actions)
  }

  function Withdraws(actions: seq<ClientAction>): seq<ClientAction> {
    Filter((a: ClientAction) => a.Withdraw?, actions)
  }

  /** The seven parts of a batch in phase order. */
  datatype Parts = Parts(
    account: seq<ClientAction>, opens: seq<ClientAction>, subs: seq<ClientAction>, deposits: seq<ClientAction>,
    uses: seq<ClientAction>, creates: seq<ClientAction>, withdraws: seq<ClientAction>)
  {
    function All(): seq<ClientAction> {
      account + opens + subs + deposits + uses + creates + withdraws
    }

    function Listed(): seq<seq<ClientAction>> {
      [account, opens, subs, deposits, uses, creates, withdraws]
    }

    predicate Sorted() {
      && (forall a :: a in account ==> a.SetViewingKey?)
      && (forall a :: a in opens ==> a.OpenChannel?)
      && (forall a :: a in subs ==> a.OpenSubchannel?)
      && (forall a :: a in deposits ==> a.Deposit?)
      && (forall a :: a in uses ==> a.UseNote?)
      && (forall a :: a in creates ==> a.CreateEncNote?)
      && (forall a :: a in withdraws ==> a.Withdraw?)
    }
  }

  lemma ConcatNext<T>(xss: seq<seq<T>>, xs: seq<T>, all: seq<seq<T>>, sum: seq<T>)
    requires all == xss + [xs] && Concat(xss) == sum
    ensures Concat(all) == sum + xs
  {
    ConcatSnoc(xss, xs);
  }

  lemma ListedAll(q: Parts)
    ensures Concat(q.Listed()) == q.All()
  {
    var xss: seq<seq<ClientAction>> := [];
    ConcatNext(xss, q.account, [q.account], []);
    ConcatNext([q.account], q.opens, [q.account, q.opens], q.account);
    ConcatNext([q.account, q.opens], q.subs, [q.account, q.opens, q.subs], q.account + q.opens);
    ConcatNext([q.account, q.opens, q.subs], q.deposits, [q.account, q.opens, q.subs, q.deposits],
               q.account + q.opens + q.subs);
    ConcatNext([q.account, q.opens, q.subs, q.deposits], q.uses, [q.account, q.opens, q.subs, q.deposits, q.uses],
               q.account + q.opens + q.subs + q.deposits);
    ConcatNext([q.account, q.opens, q.subs, q.deposits, q.uses], q.creates,
               [q.account, q.opens, q.subs, q.deposits, q.uses, q.creates],
               q.account + q.opens + q.subs + q.deposits + q.uses);
    ConcatNext([q.account, q.opens, q.subs, q.deposits, q.uses, q.creates], q.withdraws, q.Listed(),
               q.account + q.opens + q.subs + q.deposits + q.uses + q.creates);
  }

  lemma FilterMore<T(!new)>(keep: T -> bool, before: seq<T>, part: seq<T>)
    requires Filter(keep, before) == [] && forall x :: x in part ==> keep(x)
    ensures Filter(keep, before + part) == part
  {
    FilterConcat(keep, before, part);
    FilterAll(keep, part);
  }

  lemma FilterLess<T(!new)>(keep: T -> bool, before: seq<T>, part: seq<T>)
    requires forall x :: x in part ==> !keep(x)
    ensures Filter(keep, before + part) == Filter(keep, before)
  {
    FilterConcat(keep, before, part);
    FilterNone(keep, part);
  }

  lemma {:induction false} ConcatPick<T(!new)>(keep: T -> bool, xss: seq<seq<T>>, n: nat)
    requires forall i :: 0 <= i < |xss| ==> forall x :: x in xss[i] ==> (keep(x) <==> i == n)
    ensures Filter(keep, Concat(xss)) == if n < |xss| then xss[n] else []
    decreases |xss|, 1
  {
    if xss != [] {
      var k := |xss| - 1;
      assert xss == xss[..k] + [xss[k]];
      ConcatPickSnoc(keep, xss[..k], xss[k], n);
    }
  }

  lemma {:induction false} ConcatPickSnoc<T(!new)>(keep: T -> bool, init: seq<seq<T>>, xs: seq<T>, n: nat)
    requires forall i :: 0 <= i < |init| ==> forall x :: x in init[i] ==> (keep(x) <==> i == n)
    requires forall x :: x in xs ==> (keep(x) <==> n == |init|)
    ensures Filter(keep, Concat(init + [xs])) == if n <= |init| then (init + [xs])[n] else []
    decreases |init + [xs]|, 0
  {
    ConcatPick(keep, init, n);
    ConcatSnoc(init, xs);
    if n == |init| {
      FilterMore(keep, Concat(init), xs);
    } else {
      FilterLess(keep, Concat(init), xs);
    }
  }

  lemma OnePart(keep: ClientAction -> bool, q: Parts, n: nat)
    requires q.Sorted() && n < 7 && forall x: ClientAction :: keep(x) <==> x.Phase() == n
    ensures Filter(keep, q.All()) == q.Listed()[n]
  {
    ListedAll(q);
    ConcatPick(keep, q.Listed(), n);
  }

  /** A batch's parts can be read off its actions. */
  lemma PartsAre(q: Parts)
    requires q.Sorted()
    ensures ViewingKeys(q.All()) == q.account && Openings(q.All()) == q.opens && SubOpenings(q.All()) == q.subs
    ensures Deposits(q.All()) == q.deposits && Uses(q.All()) == q.uses && Creates(q.All()) == q.creates
    ensures Withdraws(q.All()) == q.withdraws
  {
    OnePart((a: ClientAction) => a.SetViewingKey?, q, 0);
    OnePart((a: ClientAction) => a.OpenChannel?, q, 1);
    OnePart((a: ClientAction) => a.OpenSubchannel?, q, 2);
    OnePart((a: ClientAction) => a.Deposit?, q, 3);
    OnePart((a: ClientAction) => a.UseNote?, q, 4);
    OnePart((a: ClientAction) => a.CreateEncNote?, q, 5);
    OnePart((a: ClientAction) => a.Withdraw?, q, 6);
  }

  // ---- the parts of a plan ----

  function PartsOf(intent: Intent, d: Draft): Parts {
    Parts(d.account, d.work.opens, d.work.subs, MapSeq(DepositAction, intent.deposits),
          MapSeq(UseAction, d.cover.spends), d.work.creates, d.withdraws)
  }

  lemma PlanParts(env: Env, intent: Intent, st: UserState, rng: Rng, d: Draft)
    requires SafeSums(intent) && MakeDraft(env, intent, st, rng) == Ok(d)
    ensures PartsOf(intent, d).Sorted() && PartsOf(intent, d).All() == Assembled(intent, d).actions
  {
    DraftEmits(env, intent, st, rng, d);
    SortedParts(intent, d, NewNotes(intent, st.user.addr, d.cover.change));
  }

  lemma SortedParts(intent: Intent, d: Draft, ms: seq<Move>)
    requires (forall a :: a in d.account ==> a.SetViewingKey?) && Kinds(d.work)
    requires DeliversAll(ms, d.work.creates) && PaysAll(intent.withdrawals, d.withdraws)
    ensures PartsOf(intent, d).Sorted()
  {
  }

  // ---- what each item of the intent and each known note became ----

  /** Each deposit and each withdrawal has its action, in order and with its own fields. */
  ghost predicate InsAndOuts(intent: Intent, actions: seq<ClientAction>) {
    && |Deposits(actions)| == |intent.deposits| && |Withdraws(actions)| == |intent.withdrawals|
    && (forall k :: 0 <= k < |intent.deposits| ==>
          Deposits(actions)[k] == Deposit(intent.deposits[k].token, intent.deposits[k].amount))
    && (forall k :: 0 <= k < |intent.withdrawals| ==>
          var x, m := Withdraws(actions)[k], intent.withdrawals[k];
          x.Withdraw? && x.to == m.to && x.token == m.token && x.amount == m.amount)
  }

  /** The new notes: first each transfer, in order and with its own fields, then to the user the change of each token
      that has any, tokens ascending. */
  ghost predicate NotesCreated(intent: Intent, user: Felt, change: map<Felt, U128>, actions: seq<ClientAction>) {
    var xs, n := Creates(actions), |intent.transfers|;
    && |xs| == n + |change|
    && (forall k :: 0 <= k < |xs| ==> xs[k].CreateEncNote?)
    && (forall k :: 0 <= k < n ==>
          && xs[k].recipient == intent.transfers[k].to && xs[k].token == intent.transfers[k].token
          && xs[k].amount == intent.transfers[k].amount)
    && (forall k :: n <= k < |xs| ==>
          xs[k].recipient == user && xs[k].token in change && xs[k].amount == change[xs[k].token])
    && (forall j, k :: n <= j < k < |xs| ==> xs[j].token < xs[k].token)
  }

  /** By ascending token, and within a token largest first. */
  ghost predicate SpendOrder(spends: seq<Note>) {
    forall j, k :: 0 <= j < k < |spends| ==>
      spends[j].token < spends[k].token
      || (spends[j].token == spends[k].token && spends[j].amount >= spends[k].amount)
  }

  /** The notes spent: known and spendable, each with its use action in order; the plan lists their ids. */
  ghost predicate NotesSpent(known: seq<Note>, spends: seq<Note>, plan: Plan) {
    && |Uses(plan.actions)| == |spends| == |plan.spent|
    && (forall k :: 0 <= k < |spends| ==>
          && spends[k] in known && !spends[k].open && spends[k].amount > 0
          && Uses(plan.actions)[k] == UseNote(spends[k].key, spends[k].token, spends[k].index)
          && plan.spent[k] == spends[k].id)
    && SpendOrder(spends)
  }

  lemma PlanInsAndOuts(env: Env, intent: Intent, st: UserState, rng: Rng, plan: Plan)
    requires SafeSums(intent) && MakePlan(env, intent, st, rng) == Ok(plan)
    ensures InsAndOuts(intent, plan.actions)
  {
    var d := MakeDraft(env, intent, st, rng).value;
    PlanParts(env, intent, st, rng, d);
    PartsAre(PartsOf(intent, d));
    DraftEmits(env, intent, st, rng, d);
    InOuts(intent, plan.actions, d.withdraws);
  }

  lemma {:induction false} AscendingSize(s: set<Felt>)
    ensures |Ascending(s)| == |s|
    decreases |s|
  {
    if s != {} {
      AscendingSize(s - {LeastOf(s)});
    }
  }

  lemma InOuts(intent: Intent, actions: seq<ClientAction>, withdraws: seq<ClientAction>)
    requires Deposits(actions) == MapSeq(DepositAction, intent.deposits) && Withdraws(actions) == withdraws
    requires PaysAll(intent.withdrawals, withdraws)
    ensures InsAndOuts(intent, actions)
  {
    forall k | 0 <= k < |intent.withdrawals|
      ensures PaysOut(intent.withdrawals[k], withdraws[k])
    {
    }
  }

  /** The change notes: one per token that has any, tokens ascending. */
  lemma ChangeNotesAre(user: Felt, change: map<Felt, U128>, back: seq<Move>)
    requires back == MapSeq(ChangeNote(user, change), Ascending(change.Keys))
    ensures |back| == |change|
    ensures forall k :: 0 <= k < |back| ==>
              back[k].to == user && back[k].token in change && back[k].amount == change[back[k].token]
    ensures forall j, k :: 0 <= j < k < |back| ==> back[j].token < back[k].token
  {
    var ts := Ascending(change.Keys);
    AscendingSize(change.Keys);
    AscendingSorted(change.Keys);
    AscendingIs(change.Keys);
    assert |change| == |change.Keys|;
    forall k | 0 <= k < |back|
      ensures back[k].token == ts[k] && ts[k] in change
    {
      assert ts[k] in ts;
    }
  }

  lemma DeliveredIs(intent: Intent, user: Felt, change: map<Felt, U128>, xs: seq<ClientAction>,
                    actions: seq<ClientAction>)
    requires DeliversAll(NewNotes(intent, user, change), xs) && Creates(actions) == xs
    ensures NotesCreated(intent, user, change, actions)
  {
    var n, back := |intent.transfers|, MapSeq(ChangeNote(user, change), Ascending(change.Keys));
    ChangeNotesAre(user, change, back);
    DeliveredInTwo(intent.transfers, back, xs);
  }

  lemma DeliveredInTwo(a: seq<Move>, b: seq<Move>, xs: seq<ClientAction>)
    requires DeliversAll(a + b, xs)
    ensures |xs| == |a| + |b|
    ensures forall k :: 0 <= k < |a| ==> Delivers(a[k], xs[k])
    ensures forall k :: |a| <= k < |xs| ==> Delivers(b[k - |a|], xs[k])
  {
    forall k | 0 <= k < |a|
      ensures Delivers(a[k], xs[k])
    {
      assert (a + b)[k] == a[k];
    }
    forall k | |a| <= k < |xs|
      ensures Delivers(b[k - |a|], xs[k])
    {
      assert (a + b)[k] == b[k - |a|];
    }
  }

  lemma PlanCreates(env: Env, intent: Intent, st: UserState, rng: Rng, plan: Plan)
    requires SafeSums(intent) && MakePlan(env, intent, st, rng) == Ok(plan)
    ensures NotesCreated(intent, st.user.addr, plan.change, plan.actions)
  {
    var d := MakeDraft(env, intent, st, rng).value;
    PlanParts(env, intent, st, rng, d);
    PartsAre(PartsOf(intent, d));
    DraftEmits(env, intent, st, rng, d);
    DeliveredIs(intent, st.user.addr, d.cover.change, d.work.creates, plan.actions);
  }

  lemma TokenInOrder(notes: seq<Note>, token: Felt, bal: I128, spent: seq<Note>, left: I128)
    requires CoverToken(notes, token, bal) == Ok((spent, left))
    ensures SpendOrder(spent)
    ensures forall n :: n in spent ==> n in notes && n.token == token && !n.open && n.amount > 0
  {
    if bal < 0 {
      CandidatesAre(notes, token);
      SpentIsFront(notes, token, bal, spent, left);
      FrontInOrder(Candidates(notes, token), |spent|, token);
      forall n | n in spent
        ensures n in Candidates(notes, token)
      {
      }
    }
  }

  lemma FrontInOrder(cs: seq<Note>, k: nat, token: Felt)
    requires Descending(cs) && k <= |cs| && forall n :: n in cs ==> n.token == token
    ensures SpendOrder(cs[..k])
  {
    forall i | 0 <= i < k
      ensures cs[..k][i].token == token
    {
      assert cs[i] in cs;
    }
  }

  lemma OrderJoins(before: seq<Note>, spent: seq<Note>, token: Felt)
    requires SpendOrder(before) && SpendOrder(spent)
    requires (forall n :: n in before ==> n.token < token) && forall n :: n in spent ==> n.token == token
    ensures SpendOrder(before + spent)
  {
  }

  lemma {:induction false} CoverInOrder(notes: seq<Note>, balance: map<Felt, int>, tokens: seq<Felt>, c: Cover)
    requires forall t :: t in tokens ==> InI128(NetOf(balance, t))
    requires forall i, j :: 0 <= i < j < |tokens| ==> tokens[i] < tokens[j]
    requires CoverAll(notes, balance, tokens) == Ok(c)
    ensures SpendOrder(c.spends)
    ensures forall n :: n in c.spends ==> n in notes && n.token in tokens && !n.open && n.amount > 0
    decreases |tokens|
  {
    if tokens != [] {
      var k := |tokens| - 1;
      var init, token := tokens[..k], tokens[k];
      var before := CoverAll(notes, balance, init).value;
      CoverInOrder(notes, balance, init, before);
      var (spent, left) := CoverToken(notes, token, NetOf(balance, token)).value;
      TokenInOrder(notes, token, NetOf(balance, token), spent, left);
      OrderJoins(before.spends, spent, token);
    }
  }

  lemma PlanSpends(env: Env, intent: Intent, st: UserState, rng: Rng, plan: Plan) returns (spends: seq<Note>)
    requires SafeSums(intent) && MakePlan(env, intent, st, rng) == Ok(plan)
    ensures NotesSpent(st.notes, spends, plan)
  {
    var d := MakeDraft(env, intent, st, rng).value;
    PlanParts(env, intent, st, rng, d);
    PartsAre(PartsOf(intent, d));
    spends := d.cover.spends;
    SpendsOrdered(intent, st.notes, d.cover);
    forall k | 0 <= k < |spends|
      ensures spends[k] in st.notes && !spends[k].open && spends[k].amount > 0
    {
      assert spends[k] in spends;
    }
  }

  lemma SpendsOrdered(intent: Intent, notes: seq<Note>, c: Cover)
    requires SafeSums(intent) && CoverIntent(intent, notes) == Ok(c)
    ensures SpendOrder(c.spends) && forall n :: n in c.spends ==> n in notes && !n.open && n.amount > 0
  {
    var balance := Balances(intent).value;
    forall t
      ensures InI128(NetOf(balance, t))
    {
      BalancesInRange(intent, t);
    }
    AscendingSorted(balance.Keys);
    CoverInOrder(notes, balance, Ascending(balance.Keys), c);
  }

  /** What every plan does, item by item. */
  lemma PlanIsItemised(env: Env, intent: Intent, st: UserState, rng: Rng, plan: Plan)
    requires SafeSums(intent) && MakePlan(env, intent, st, rng) == Ok(plan)
    ensures InsAndOuts(intent, plan.actions)
    ensures NotesCreated(intent, st.user.addr, plan.change, plan.actions)
    ensures exists spends :: NotesSpent(st.notes, spends, plan)
    ensures |ViewingKeys(plan.actions)| == if intent.register && !st.registered then 1 else 0
  {
    PlanInsAndOuts(env, intent, st, rng, plan);
    PlanCreates(env, intent, st, rng, plan);
    var spends := PlanSpends(env, intent, st, rng, plan);
    var d := MakeDraft(env, intent, st, rng).value;
    PlanParts(env, intent, st, rng, d);
    PartsAre(PartsOf(intent, d));
  }
}

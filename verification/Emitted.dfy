/** What the planner emits: the right actions, in phase order, every token conserved. */
module Emitted {
  import opened Field
  import opened Lists
  import opened Ledger
  import opened Hashes
  import opened Crypto
  import opened Actions
  import opened Pool
  import opened Discovery
  import opened Planner
  import opened CoverAllTokens
  import opened Accounting

  // ---- one create action per new note ----

  /** `x` is the create action for `m`. */
  predicate Delivers(m: Move, x: ClientAction) {
    x.CreateEncNote? && x.recipient == m.to && x.token == m.token && x.amount == m.amount && NoteSalt(x.noteSalt)
  }

  predicate DeliversAll(ms: seq<Move>, xs: seq<ClientAction>) {
    |ms| == |xs| && forall i :: 0 <= i < |ms| ==> Delivers(ms[i], xs[i])
  }

  predicate Kinds(w: Work) {
    && (forall a :: a in w.opens ==> a.OpenChannel?)
    && (forall a :: a in w.subs ==> a.OpenSubchannel?)
  }

  lemma PlaceNoteDelivers(w: Work, m: Move, w': Work) returns (x: ClientAction)
    requires PlaceNote(w, m) == Ok(w') && Kinds(w)
    ensures Kinds(w') && w'.creates == w.creates + [x] && Delivers(m, x)
  {
    var w1 := EnsureChannel(w, m.to).value;
    var w2 := EnsureSubchannel(w1, m.to, m.token).value;
    x := w'.creates[|w.creates|];
  }

  lemma {:induction false} PlaceAllDelivers(w: Work, ms: seq<Move>, w': Work)
    requires PlaceAll(w, ms) == Ok(w') && Kinds(w) && w.creates == []
    ensures Kinds(w') && DeliversAll(ms, w'.creates)
    decreases |ms|
  {
    if ms != [] {
      var k := |ms| - 1;
      var before := PlaceAll(w, ms[..k]).value;
      PlaceAllDelivers(w, ms[..k], before);
      var x := PlaceNoteDelivers(before, ms[k], w');
    }
  }

  /** `x` is the withdraw action for `m`. */
  predicate PaysOut(m: Move, x: ClientAction) {
    x.Withdraw? && x.to == m.to && x.token == m.token && x.amount == m.amount
  }

  predicate PaysAll(ws: seq<Move>, xs: seq<ClientAction>) {
    |ws| == |xs| && forall i :: 0 <= i < |ws| ==> PaysOut(ws[i], xs[i])
  }

  lemma {:induction false} WithdrawAllPays(ws: seq<Move>, rng: Rng)
    requires WithdrawAll(ws, rng).Ok?
    ensures PaysAll(ws, WithdrawAll(ws, rng).value.0)
    decreases |ws|
  {
    if ws != [] {
      WithdrawAllPays(ws[..|ws| - 1], rng);
    }
  }

  /** What a planned batch is made of. */
  ghost predicate Emits(intent: Intent, st: UserState, d: Draft) {
    && (forall a :: a in d.account ==> a.SetViewingKey?)
    && Kinds(d.work)
    && DeliversAll(NewNotes(intent, st.user.addr, d.cover.change), d.work.creates)
    && PaysAll(intent.withdrawals, d.withdraws)
  }

  lemma DraftEmits(env: Env, intent: Intent, st: UserState, rng: Rng, d: Draft)
    requires SafeSums(intent) && MakeDraft(env, intent, st, rng) == Ok(d)
    ensures Emits(intent, st, d)
  {
    var (account, start) := StartWork(env, intent, st, rng).value;
    var ms := NewNotes(intent, st.user.addr, d.cover.change);
    PlaceAllDelivers(start, ms, d.work);
    WithdrawAllPays(intent.withdrawals, d.work.rng);
  }

  // ---- phase order ----

  ghost predicate Within(actions: seq<ClientAction>, lo: nat, hi: nat) {
    PhaseOrdered(actions) && forall a :: a in actions ==> lo <= a.Phase() <= hi
  }

  lemma Follows(a: seq<ClientAction>, b: seq<ClientAction>, lo: nat, mid: nat, hi: nat)
    requires lo <= mid <= hi && Within(a, lo, mid) && Within(b, mid, hi)
    ensures Within(a + b, lo, hi)
  {
  }

  lemma OnePhase(actions: seq<ClientAction>, k: nat)
    requires forall a :: a in actions ==> a.Phase() == k
    ensures Within(actions, k, k)
  {
  }

  lemma SevenPhases(a: seq<ClientAction>, b: seq<ClientAction>, c: seq<ClientAction>, d: seq<ClientAction>,
                    e: seq<ClientAction>, f: seq<ClientAction>, g: seq<ClientAction>)
    requires Within(a, 0, 0) && Within(b, 1, 1) && Within(c, 2, 2) && Within(d, 3, 3)
    requires Within(e, 4, 4) && Within(f, 5, 5) && Within(g, 6, 6)
    ensures PhaseOrdered(a + b + c + d + e + f + g)
  {
    Follows(a, b, 0, 1, 1);
    Follows(a + b, c, 0, 2, 2);
    Follows(a + b + c, d, 0, 3, 3);
    Follows(a + b + c + d, e, 0, 4, 4);
    Follows(a + b + c + d + e, f, 0, 5, 5);
    Follows(a + b + c + d + e + f, g, 0, 6, 6);
  }

  /** Whatever the intent and the state, the batch comes in the pool's phase order. */
  lemma PlanInPhaseOrder(env: Env, intent: Intent, st: UserState, rng: Rng, d: Draft)
    requires SafeSums(intent) && MakeDraft(env, intent, st, rng) == Ok(d)
    ensures PhaseOrdered(Assembled(intent, d).actions)
  {
    DraftEmits(env, intent, st, rng, d);
    EmittedInOrder(intent, d, NewNotes(intent, st.user.addr, d.cover.change));
  }

  lemma EmittedInOrder(intent: Intent, d: Draft, ms: seq<Move>)
    requires (forall a :: a in d.account ==> a.SetViewingKey?) && Kinds(d.work)
    requires DeliversAll(ms, d.work.creates) && PaysAll(intent.withdrawals, d.withdraws)
    ensures PhaseOrdered(Assembled(intent, d).actions)
  {
    var w, deposits, uses := d.work, MapSeq(DepositAction, intent.deposits), MapSeq(UseAction, d.cover.spends);
    OnePhase(d.account, 0);
    OnePhase(w.opens, 1);
    OnePhase(w.subs, 2);
    OnePhase(deposits, 3);
    OnePhase(uses, 4);
    OnePhase(w.creates, 5);
    OnePhase(d.withdraws, 6);
    SevenPhases(d.account, w.opens, w.subs, deposits, uses, w.creates, d.withdraws);
  }

  // ---- conservation ----

  lemma {:induction false} ChangeNotes(user: Felt, change: map<Felt, U128>, ts: seq<Felt>, t: Felt)
    requires NoDup(ts)
    ensures Moved(Outflow, MapSeq(ChangeNote(user, change), ts), t) == -(if t in ts then ChangeIn(change, t) else 0)
  {
    var ms := MapSeq(ChangeNote(user, change), ts);
    if ts == [] {
      assert ms == [];
      MovedNone(Outflow, t);
    } else {
      var k := |ts| - 1;
      ChangeNotes(user, change, ts[..k], t);
      assert ms == MapSeq(ChangeNote(user, change), ts[..k]) + [ms[k]];
      MovedSnoc(Outflow, MapSeq(ChangeNote(user, change), ts[..k]), ms[k], t);
    }
  }

  lemma NewNotesWorth(intent: Intent, user: Felt, change: map<Felt, U128>, t: Felt)
    ensures Moved(Outflow, NewNotes(intent, user, change), t)
         == Moved(Outflow, intent.transfers, t) - ChangeIn(change, t)
  {
    var ts := Ascending(change.Keys);
    AscendingIs(change.Keys);
    ChangeNotes(user, change, ts, t);
    MovedConcat(Outflow, intent.transfers, MapSeq(ChangeNote(user, change), ts), t);
  }

  /** The pool's record of each spendable note the planner knows of agrees with it. */
  ghost predicate Recorded(notes: map<((Felt, Felt), nat), StoredNote>, known: seq<Note>) {
    forall n :: n in known && !n.open ==>
      ((n.key, n.token), n.index as nat) in notes && notes[((n.key, n.token), n.index as nat)].amount == n.amount
  }

  /** Deposits plus spent notes equal new notes plus withdrawals, in every token. */
  lemma PlanConserves(env: Env, intent: Intent, st: UserState, rng: Rng, d: Draft,
                      notes: map<((Felt, Felt), nat), StoredNote>, t: Felt)
    requires SafeSums(intent) && MakeDraft(env, intent, st, rng) == Ok(d)
    requires NoDup(st.notes) && Recorded(notes, st.notes)
    ensures Moved(FlowBy(notes), Assembled(intent, d).actions, t) == 0
  {
    DraftEmits(env, intent, st, rng, d);
    DraftCovers(env, intent, st, rng, d, t);
    ActionsMove(intent, d, notes, st.notes, NewNotes(intent, st.user.addr, d.cover.change), t);
    NewNotesWorth(intent, st.user.addr, d.cover.change, t);
    FlowsWorth(intent, t);
  }

  lemma DraftCovers(env: Env, intent: Intent, st: UserState, rng: Rng, d: Draft, t: Felt)
    requires SafeSums(intent) && MakeDraft(env, intent, st, rng) == Ok(d) && NoDup(st.notes)
    ensures NoDup(d.cover.spends) && forall n :: n in d.cover.spends ==> n in st.notes && !n.open
    ensures Total(Flows(intent), t) + Worth(d.cover.spends, t) == ChangeIn(d.cover.change, t)
    ensures t in d.cover.change ==> exists f :: f in Flows(intent) && f.token == t
  {
    var balance := Balances(intent).value;
    var ts := Ascending(balance.Keys);
    forall x
      ensures InI128(NetOf(balance, x))
    {
      BalancesInRange(intent, x);
    }
    AscendingIs(balance.Keys);
    CoverIsBalanced(st.notes, balance, ts, d.cover);
    CreditAllTotals(map[], Flows(intent), t);
  }

  lemma FlowsWorth(intent: Intent, t: Felt)
    ensures Total(Flows(intent), t)
         == Moved(Inflow, intent.deposits, t) + Moved(Outflow, intent.transfers, t)
            + Moved(Outflow, intent.withdrawals, t)
  {
    TotalConcat(MapSeq(Inflow, intent.deposits), MapSeq(Outflow, intent.transfers + intent.withdrawals), t);
    MovedConcat(Outflow, intent.transfers, intent.withdrawals, t);
  }

  lemma OpeningsMoveNothing(d: Draft, notes: map<((Felt, Felt), nat), StoredNote>, t: Felt)
    requires (forall a :: a in d.account ==> a.SetViewingKey?) && Kinds(d.work)
    ensures Moved(FlowBy(notes), d.account, t) == 0
    ensures Moved(FlowBy(notes), d.work.opens, t) == 0 && Moved(FlowBy(notes), d.work.subs, t) == 0
  {
    MovedNothing(FlowBy(notes), d.account, t);
    MovedNothing(FlowBy(notes), d.work.opens, t);
    MovedNothing(FlowBy(notes), d.work.subs, t);
  }

  lemma UsesMove(spends: seq<Note>, notes: map<((Felt, Felt), nat), StoredNote>, known: seq<Note>, t: Felt)
    requires Recorded(notes, known) && forall n :: n in spends ==> n in known && !n.open
    ensures Moved(FlowBy(notes), MapSeq(UseAction, spends), t) == Worth(spends, t)
  {
    MovedSame(FlowBy(notes), MapSeq(UseAction, spends), NoteFlow, spends, t);
  }

  lemma ActionsMove(intent: Intent, d: Draft, notes: map<((Felt, Felt), nat), StoredNote>, known: seq<Note>,
                    ms: seq<Move>, t: Felt)
    requires (forall a :: a in d.account ==> a.SetViewingKey?) && Kinds(d.work)
    requires DeliversAll(ms, d.work.creates) && PaysAll(intent.withdrawals, d.withdraws)
    requires Recorded(notes, known) && forall n :: n in d.cover.spends ==> n in known && !n.open
    ensures Moved(FlowBy(notes), Assembled(intent, d).actions, t)
         == Moved(Inflow, intent.deposits, t) + Worth(d.cover.spends, t) + Moved(Outflow, ms, t)
            + Moved(Outflow, intent.withdrawals, t)
  {
    var f, w := FlowBy(notes), d.work;
    var deposits, uses := MapSeq(DepositAction, intent.deposits), MapSeq(UseAction, d.cover.spends);
    OpeningsMoveNothing(d, notes, t);
    UsesMove(d.cover.spends, notes, known, t);
    MovedSame(f, deposits, Inflow, intent.deposits, t);
    MovedSame(f, w.creates, Outflow, ms, t);
    MovedSame(f, d.withdraws, Outflow, intent.withdrawals, t);
    MovedSeven(f, d.account, w.opens, w.subs, deposits, uses, w.creates, d.withdraws, t);
  }

  lemma MovedSeven<A(!new)>(flow: A -> Flow, a: seq<A>, b: seq<A>, c: seq<A>, d: seq<A>, e: seq<A>, f: seq<A>,
                            g: seq<A>, t: Felt)
    ensures Moved(flow, a + b + c + d + e + f + g, t)
         == Moved(flow, a, t) + Moved(flow, b, t) + Moved(flow, c, t) + Moved(flow, d, t) + Moved(flow, e, t)
            + Moved(flow, f, t) + Moved(flow, g, t)
  {
    MovedConcat(flow, a, b, t);
    MovedConcat(flow, a + b, c, t);
    MovedConcat(flow, a + b + c, d, t);
    MovedConcat(flow, a + b + c + d, e, t);
    MovedConcat(flow, a + b + c + d + e, f, t);
    MovedConcat(flow, a + b + c + d + e + f, g, t);
  }
}

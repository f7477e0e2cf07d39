/** What an accepted plan did to everybody's notes and balances. */
module Outcome {
  import opened Field
  import opened Lists
  import opened Ledger
  import opened Hashes
  import opened Actions
  import opened Pool
  import opened Discovery
  import opened NoteDiscovery
  import opened NoteFacts
  import opened Planner
  import opened Emitted
  import opened StateDiscovery
  import opened Batch
  import opened Balance

  /** The plan `d` was made from what discovery returned at `p`, and the pool accepted it. */
  ghost predicate Accepted(env: Env, p: State, who: Account, intent: Intent, st: UserState, rng: Rng, d: Draft,
                           q: State)
  {
    && Discovered(env, p, who, intent, st) && SafeSums(intent) && MakeDraft(env, intent, st, rng) == Ok(d)
    && RunBatch(env, who, p, Assembled(intent, d).actions) == Some(q)
  }

  predicate SubsKnown(env: Env, w: Work) {
    forall a :: a in w.subs ==> a.OpenSubchannel? && a.token in env.tokens
  }

  lemma PlaceNoteKnown(env: Env, w: Work, m: Move, w': Work)
    requires PlaceNote(w, m) == Ok(w') && SubsKnown(env, w) && m.token in env.tokens
    ensures SubsKnown(env, w')
  {
  }

  lemma {:induction false} PlaceAllKnown(env: Env, w: Work, ms: seq<Move>, w': Work)
    requires PlaceAll(w, ms) == Ok(w') && SubsKnown(env, w) && forall m :: m in ms ==> m.token in env.tokens
    ensures SubsKnown(env, w')
    decreases |ms|
  {
    if ms != [] {
      var k := |ms| - 1;
      var before := PlaceAll(w, ms[..k]).value;
      PlaceAllKnown(env, w, ms[..k], before);
      PlaceNoteKnown(env, before, ms[k], w');
    }
  }

  lemma AssembledInPlay(env: Env, intent: Intent, d: Draft, ms: seq<Move>)
    requires (forall a :: a in d.account ==> a.SetViewingKey?) && Kinds(d.work)
    requires DeliversAll(ms, d.work.creates) && PaysAll(intent.withdrawals, d.withdraws)
    requires SubsKnown(env, d.work)
    ensures forall a :: a in Assembled(intent, d).actions ==> TokenInPlay(env, a)
  {
  }

  // ---- the user's notes ----

  /** The notes a plan's create actions leave for the user itself. */
  predicate SelfCreated(env: Env, who: Account, creates: seq<ClientAction>, n: Note) {
    exists a :: a in creates && Creates(env, who, a, who, n)
  }

  lemma CreatedIsSelfCreated(env: Env, who: Account, intent: Intent, d: Draft, ms: seq<Move>, n: Note)
    requires (forall a :: a in d.account ==> a.SetViewingKey?) && Kinds(d.work)
    requires DeliversAll(ms, d.work.creates) && PaysAll(intent.withdrawals, d.withdraws)
    ensures CreatedBy(env, who, Assembled(intent, d).actions, who, n) <==> SelfCreated(env, who, d.work.creates, n)
  {
    forall a | a in Assembled(intent, d).actions && a.CreateEncNote?
      ensures a in d.work.creates
    {
    }
    forall a | a in d.work.creates
      ensures a in Assembled(intent, d).actions
    {
    }
  }

  lemma SpentIsSpends(env: Env, p: State, who: Account, intent: Intent, d: Draft, ms: seq<Move>, n: Note)
    requires (forall a :: a in d.account ==> a.SetViewingKey?) && Kinds(d.work)
    requires DeliversAll(ms, d.work.creates) && PaysAll(intent.withdrawals, d.withdraws)
    requires Unspent(env, p, who, n) && forall x :: x in d.cover.spends ==> Unspent(env, p, who, x)
    ensures SpentBy(who, Assembled(intent, d).actions, who, n) <==> n in d.cover.spends
  {
    var actions, uses := Assembled(intent, d).actions, MapSeq(UseAction, d.cover.spends);
    if UseAction(n) in actions {
      assert UseAction(n) in uses;
      var i :| 0 <= i < |uses| && uses[i] == UseAction(n);
      assert d.cover.spends[i] in d.cover.spends;
    }
    if n in d.cover.spends {
      var i :| 0 <= i < |d.cover.spends| && d.cover.spends[i] == n;
      assert uses[i] in uses && uses[i] in actions;
    }
  }

  /** What the lemmas below use of an accepted plan. */
  lemma AcceptedFacts(env: Env, p: State, who: Account, intent: Intent, st: UserState, rng: Rng, d: Draft, q: State)
    requires Accepted(env, p, who, intent, st, rng, d, q)
    ensures Emits(intent, st, d) && st.user == who
    ensures forall x :: x in d.cover.spends ==> Unspent(env, p, who, x)
    ensures forall a :: a in Assembled(intent, d).actions ==> TokenInPlay(env, a)
  {
    DraftEmits(env, intent, st, rng, d);
    StateIs(env, p, who, intent, st);
    DraftCovers(env, intent, st, rng, d, 0);
    NewNotesKnown(env, intent, st, rng, d);
    var w := DraftSteps(env, intent, st, rng, d);
    PlaceAllKnown(env, w, NewNotes(intent, st.user.addr, d.cover.change), d.work);
    AssembledInPlay(env, intent, d, NewNotes(intent, st.user.addr, d.cover.change));
  }

  /** Rediscovery after an accepted plan returns the old notes, less those the plan lists as spent, plus
      those it created for the user: change and transfers to itself. */
  lemma NotesAfterPlan(env: Env, p: State, who: Account, intent: Intent, st: UserState, rng: Rng, d: Draft, q: State,
                       n: Note)
    requires Accepted(env, p, who, intent, st, rng, d, q)
    ensures Wf(env, q) && Scannable(q)
    ensures n in NotesOf(env, q, who, [])
       <==> (n in NotesOf(env, p, who, []) && n !in d.cover.spends) || SelfCreated(env, who, d.work.creates, n)
  {
    var actions, ms := Assembled(intent, d).actions, NewNotes(intent, st.user.addr, d.cover.change);
    AcceptedFacts(env, p, who, intent, st, rng, d, q);
    ExecKeepsWf(env, who, Machine(p, map[]), actions);
    WfIsScannable(env, q);
    NotesMember(env, q, who, [], n);
    NotesMember(env, p, who, [], n);
    ExecUnspent(env, who, Machine(p, map[]), actions, who, n);
    CreatedIsSelfCreated(env, who, intent, d, ms, n);
    if Unspent(env, p, who, n) {
      SpentIsSpends(env, p, who, intent, d, ms, n);
    }
  }

  // ---- balances ----

  /** A transfer as the money of `user` sees it when `who` sends it. */
  function Reaching(who: Account, user: Account): Move -> Flow {
    (m: Move) => Flow(m.token, (if m.to == user.addr then m.amount else 0) - (if who == user then m.amount else 0))
  }

  lemma ChangeReachesNobody(who: Account, user: Account, change: map<Felt, U128>, t: Felt)
    requires user == who || user.addr != who.addr
    ensures Moved(Reaching(who, user), MapSeq(ChangeNote(who.addr, change), Ascending(change.Keys)), t) == 0
  {
    MovedNothing(Reaching(who, user), MapSeq(ChangeNote(who.addr, change), Ascending(change.Keys)), t);
  }

  lemma OutsideOfPlan(who: Account, user: Account, intent: Intent, d: Draft, t: Felt)
    requires user == who || user.addr != who.addr
    requires (forall a :: a in d.account ==> a.SetViewingKey?) && Kinds(d.work)
    requires DeliversAll(NewNotes(intent, who.addr, d.cover.change), d.work.creates)
    requires PaysAll(intent.withdrawals, d.withdraws)
    ensures Moved(OutsideBy(who, user), Assembled(intent, d).actions, t)
         == Moved(Reaching(who, user), intent.transfers, t)
            + (if who == user then Moved(Inflow, intent.deposits, t) + Moved(Outflow, intent.withdrawals, t) else 0)
  {
    var f, w := OutsideBy(who, user), d.work;
    var deposits, uses := MapSeq(DepositAction, intent.deposits), MapSeq(UseAction, d.cover.spends);
    var change := MapSeq(ChangeNote(who.addr, d.cover.change), Ascending(d.cover.change.Keys));
    MovedNothing(f, d.account, t);
    MovedNothing(f, w.opens, t);
    MovedNothing(f, w.subs, t);
    MovedNothing(f, uses, t);
    if who == user {
      MovedSame(f, deposits, Inflow, intent.deposits, t);
      MovedSame(f, d.withdraws, Outflow, intent.withdrawals, t);
    } else {
      MovedNothing(f, deposits, t);
      MovedNothing(f, d.withdraws, t);
    }
    MovedSame(f, w.creates, Reaching(who, user), intent.transfers + change, t);
    MovedConcat(Reaching(who, user), intent.transfers, change, t);
    ChangeReachesNobody(who, user, d.cover.change, t);
    MovedSeven(f, d.account, w.opens, w.subs, deposits, uses, w.creates, d.withdraws, t);
  }

  /** After an accepted plan the user's private balance has moved by deposits less withdrawals less
      transfers to others, and anybody else's by what the transfers sent to them, token by token. */
  lemma BalancesAfterPlan(env: Env, p: State, who: Account, intent: Intent, st: UserState, rng: Rng, d: Draft, q: State,
                          user: Account, t: Felt)
    requires Accepted(env, p, who, intent, st, rng, d, q) && (user == who || user.addr != who.addr)
    ensures Scannable(q)
    ensures Held(env, q, user, t)
         == Held(env, p, user, t) + Moved(Reaching(who, user), intent.transfers, t)
            + (if who == user then Moved(Inflow, intent.deposits, t) + Moved(Outflow, intent.withdrawals, t) else 0)
  {
    AcceptedFacts(env, p, who, intent, st, rng, d, q);
    BalanceMoves(env, who, p, Assembled(intent, d).actions, q, user, t);
    OutsideOfPlan(who, user, intent, d, t);
  }
}

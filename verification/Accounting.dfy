/** What a batch does to each token's balance, and the stretches of it that touch no channel. */
module Accounting {
  import opened Field
  import opened Lists
  import opened Ledger
  import opened Hashes
  import opened Actions
  import opened Pool
  import opened Discovery
  import opened NoteFacts
  import opened Planner

  /** What an action moves: deposits and spent notes in, new notes and withdrawals out. */
  function FlowOf(notes: map<((Felt, Felt), nat), StoredNote>, a: ClientAction): Flow {
    match a
    case Deposit(token, amount) => Flow(token, amount)
    case UseNote(key, token, i) =>
      var at := ((key, token), i as nat);
      Flow(token, if at in notes then notes[at].amount else 0)
    case CreateEncNote(_, _, token, amount, _, _) => Flow(token, -(amount as int))
    case Withdraw(_, token, amount, _) => Flow(token, -(amount as int))
    case _ => Flow(0, 0)
  }

  function FlowBy(notes: map<((Felt, Felt), nat), StoredNote>): ClientAction -> Flow {
    (a: ClientAction) => FlowOf(notes, a)
  }

  /** Notes are never overwritten. */
  ghost predicate NotesKept(p: State, q: State) {
    forall x {:trigger x in p.notes} :: x in p.notes ==> x in q.notes && q.notes[x] == p.notes[x]
  }

  lemma StepKeepsNotes(env: Env, who: Account, s: Machine, a: ClientAction)
    requires Step(env, who, s, a).Some?
    ensures NotesKept(s.pool, Step(env, who, s, a).value.pool)
  {
  }

  ghost predicate UsesHeld(p: State, actions: seq<ClientAction>) {
    forall a :: a in actions ==> a.UseNote? ==> ((a.key, a.token), a.index as nat) in p.notes
  }

  lemma StepNet(env: Env, who: Account, p: State, s: Machine, a: ClientAction, t: Felt)
    requires Step(env, who, s, a).Some? && NotesKept(p, s.pool)
    requires a.UseNote? ==> ((a.key, a.token), a.index as nat) in p.notes
    ensures var f := FlowOf(p.notes, a);
            NetOf(Step(env, who, s, a).value.net, t) == NetOf(s.net, t) + In(f, t)
  {
  }

  /** A run moves each token's balance by exactly what its actions say. */
  lemma {:induction false} ExecNet(env: Env, who: Account, s: Machine, actions: seq<ClientAction>, t: Felt)
    requires Exec(env, who, s, actions).Some? && UsesHeld(s.pool, actions)
    ensures NotesKept(s.pool, Exec(env, who, s, actions).value.pool)
    ensures NetOf(Exec(env, who, s, actions).value.net, t) == NetOf(s.net, t) + Moved(FlowBy(s.pool.notes), actions, t)
    decreases |actions|
  {
    if actions != [] {
      var n := |actions| - 1;
      var init := actions[..n];
      ExecNet(env, who, s, init, t);
      var m := Exec(env, who, s, init).value;
      StepNet(env, who, s.pool, m, actions[n], t);
      StepKeepsNotes(env, who, m, actions[n]);
      MovedSnoc(FlowBy(s.pool.notes), init, actions[n], t);
      assert actions == init + [actions[n]];
    } else {
      MovedNone(FlowBy(s.pool.notes), t);
    }
  }

  // ---- stretches that leave channels alone ----

  lemma {:induction false} DepositsRun(env: Env, who: Account, s: Machine, ds: seq<Amount>)
    requires Registered(env, s.pool, who)
    ensures Exec(env, who, s, MapSeq(DepositAction, ds)).Some?
    ensures Exec(env, who, s, MapSeq(DepositAction, ds)).value.pool == s.pool
    decreases |ds|
  {
    var actions := MapSeq(DepositAction, ds);
    if ds != [] {
      var n := |ds| - 1;
      DepositsRun(env, who, s, ds[..n]);
      assert actions[..n] == MapSeq(DepositAction, ds[..n]);
    }
  }

  lemma {:induction false} WithdrawsRun(env: Env, who: Account, s: Machine, ws: seq<ClientAction>)
    requires Registered(env, s.pool, who) && forall a :: a in ws ==> a.Withdraw?
    ensures Exec(env, who, s, ws).Some? && Exec(env, who, s, ws).value.pool == s.pool
    decreases |ws|
  {
    if ws != [] {
      WithdrawsRun(env, who, s, ws[..|ws| - 1]);
      assert ws[|ws| - 1] in ws;
    }
  }

  function NullifierOf(who: Account, n: Note): Nullifier {
    Nullifier(n.key, n.token, n.index, who.sk)
  }

  /** Distinct unspent notes can all be spent, one after another; only their nullifiers are new. */
  lemma {:induction false} UsesRun(env: Env, who: Account, s: Machine, spends: seq<Note>)
    requires Registered(env, s.pool, who) && OwnedBy(env, s.pool, who)
    requires NoDup(spends) && forall n :: n in spends ==> Unspent(env, s.pool, who, n)
    ensures Exec(env, who, s, MapSeq(UseAction, spends)).Some?
    ensures Exec(env, who, s, MapSeq(UseAction, spends)).value.pool
         == s.pool.(nullifiers := s.pool.nullifiers + set n | n in spends :: NullifierOf(who, n))
    decreases |spends|
  {
    var actions := MapSeq(UseAction, spends);
    if spends == [] {
      NullifiersOfNone(who, s.pool.nullifiers);
    } else {
      var k := |spends| - 1;
      var init, last := spends[..k], spends[k];
      assert spends == init + [last];
      UsesRun(env, who, s, init);
      assert actions[..k] == MapSeq(UseAction, init);
      var m := Exec(env, who, s, actions[..k]).value;
      NextUse(env, who, s.pool, m.pool, init, last);
      NullifiersSnoc(who, s.pool.nullifiers, init, last);
    }
  }

  lemma NullifiersOfNone(who: Account, before: set<Nullifier>)
    ensures before + (set n | n in [] :: NullifierOf(who, n)) == before
  {
  }

  lemma NullifiersSnoc(who: Account, before: set<Nullifier>, init: seq<Note>, last: Note)
    ensures before + (set n | n in init + [last] :: NullifierOf(who, n))
         == before + (set n | n in init :: NullifierOf(who, n)) + {NullifierOf(who, last)}
  {
  }

  /** Channels to the account carry its registered key. */
  ghost predicate OwnedBy(env: Env, p: State, who: Account) {
    forall key {:trigger key in p.channels} :: key in p.channels && p.channels[key].recipient.addr == who.addr ==>
      p.channels[key].recipient == env.IdentityOf(who)
  }

  lemma OwnsChannels(env: Env, p: State, who: Account)
    requires Wf(env, p) && Registered(env, p, who)
    ensures OwnedBy(env, p, who)
  {
    OpenWf(env, p);
    forall key {:trigger key in p.channels} | key in p.channels && p.channels[key].recipient.addr == who.addr
      ensures p.channels[key].recipient == env.IdentityOf(who)
    {
      assert WfOpening(env, p.pk, key, p.channels[key]);
    }
  }

  lemma NextUse(env: Env, who: Account, p: State, q: State, init: seq<Note>, last: Note)
    requires OwnedBy(env, p, who) && last !in init && Unspent(env, p, who, last)
    requires forall n :: n in init ==> Unspent(env, p, who, n)
    requires q == p.(nullifiers := p.nullifiers + set n | n in init :: NullifierOf(who, n))
    ensures CanUse(env, q, who, last.key, last.token, last.index)
  {
    forall n | n in init
      ensures NullifierOf(who, n) != NullifierOf(who, last)
    {
      assert Unspent(env, p, who, n);
    }
  }
}

/** Everything that can happen to the pool, by whatever client: this client's seven actions, and open notes,
    which other clients create and which an invoked contract may fill. */
module History {
  import opened Field
  import opened Hashes
  import opened Slots
  import opened Actions
  import opened Pool

  /** An action as the pool gets it from anybody. `CreateOpen` is the pool's variant 4; filling an open note
      is all that its variants 8 and 9, which invoke other contracts, can do to the pool's lists. */
  datatype PoolAction =
    | Sent(action: ClientAction)
    | CreateOpen(recipient: Felt, recipientPk: Felt, token: Felt, amount: U128, index: U32)
    | FillOpen(key: Felt, token: Felt, index: U32, amount: U128)

  datatype Deed = Deed(who: Account, action: PoolAction)

  ghost predicate CanCreateOpen(env: Env, p: State, who: Account, id: Identity, token: Felt, index: U32) {
    var key := ChannelKey(env, who, id);
    && Registered(env, p, who)
    && ChannelExists(p, key, who.addr, id)
    && (key, token) in p.subIndex
    && index == Count(p.notes, (key, token))
  }

  predicate CanFill(p: State, key: Felt, token: Felt, index: nat) {
    ((key, token), index) in p.notes && p.notes[((key, token), index)].Open?
  }

  function AfterFill(p: State, key: Felt, token: Felt, index: nat, amount: U128): State {
    p.(notes := p.notes[((key, token), index) := Open(amount)])
  }

  /** The pool after one action; a refused one changes nothing. Nothing is asked of the order of actions or of
      balances, so the pool allows no more than this. */
  ghost function Perform(env: Env, p: State, d: Deed): State {
    match d.action
    case Sent(a) => (match Step(env, d.who, Machine(p, map[]), a) case Some(m) => m.pool case None => p)
    case CreateOpen(r, pk, token, amount, index) =>
      if CanCreateOpen(env, p, d.who, Identity(r, pk), token, index)
      then AfterNote(p, ChannelKey(env, d.who, Identity(r, pk)), token, Open(amount)) else p
    case FillOpen(key, token, index, amount) =>
      if CanFill(p, key, token, index) then AfterFill(p, key, token, index, amount) else p
  }

  ghost function Later(env: Env, p: State, deeds: seq<Deed>): State {
    if deeds == [] then p else Perform(env, Later(env, p, deeds[..|deeds| - 1]), deeds[|deeds| - 1])
  }

  predicate InPlay(env: Env, d: Deed) {
    d.who in env.accounts && (d.action.Sent? ==> TokenInPlay(env, d.action.action))
  }

  // ---- batches are histories ----

  function DeedsOf(who: Account, actions: seq<ClientAction>): seq<Deed> {
    seq(|actions|, i requires 0 <= i < |actions| => Deed(who, Sent(actions[i])))
  }

  /** The balances inside a batch decide nothing about what an action does to the pool. */
  lemma StepIgnoresNet(env: Env, who: Account, s: Machine, a: ClientAction)
    ensures Step(env, who, s, a).Some? <==> Step(env, who, Machine(s.pool, map[]), a).Some?
    ensures Step(env, who, s, a).Some? ==>
              Step(env, who, s, a).value.pool == Step(env, who, Machine(s.pool, map[]), a).value.pool
  {
  }

  /** Running a batch is performing its actions one after another. */
  lemma {:induction false} BatchIsHistory(env: Env, who: Account, s: Machine, actions: seq<ClientAction>, s': Machine)
    requires Exec(env, who, s, actions) == Some(s')
    ensures Later(env, s.pool, DeedsOf(who, actions)) == s'.pool
    decreases |actions|, 1
  {
    if actions != [] {
      var k := |actions| - 1;
      assert actions == actions[..k] + [actions[k]];
      LastIsDeed(env, who, s, actions[..k], actions[k], s');
    }
  }

  lemma {:induction false} LastIsDeed(env: Env, who: Account, s: Machine, init: seq<ClientAction>, a: ClientAction,
                                      s': Machine)
    requires Exec(env, who, s, init + [a]) == Some(s')
    ensures Later(env, s.pool, DeedsOf(who, init + [a])) == s'.pool
    decreases |init + [a]|, 0
  {
    ExecLast(env, who, s, init, a);
    var m := Exec(env, who, s, init).value;
    BatchIsHistory(env, who, s, init, m);
    assert DeedsOf(who, init + [a]) == DeedsOf(who, init) + [Deed(who, Sent(a))];
    LaterSnoc(env, s.pool, DeedsOf(who, init), Deed(who, Sent(a)));
    StepIgnoresNet(env, who, m, a);
  }

  lemma LaterSnoc(env: Env, p: State, deeds: seq<Deed>, d: Deed)
    ensures Later(env, p, deeds + [d]) == Perform(env, Later(env, p, deeds), d)
  {
    assert (deeds + [d])[..|deeds|] == deeds;
  }

  lemma {:induction false} LaterConcat(env: Env, p: State, deeds: seq<Deed>, more: seq<Deed>)
    ensures Later(env, p, deeds + more) == Later(env, Later(env, p, deeds), more)
    decreases |more|, 1
  {
    if more == [] {
      assert deeds + more == deeds;
    } else {
      var k := |more| - 1;
      assert more == more[..k] + [more[k]];
      ConcatLast(env, p, deeds, more[..k], more[k]);
    }
  }

  lemma {:induction false} ConcatLast(env: Env, p: State, deeds: seq<Deed>, init: seq<Deed>, d: Deed)
    ensures Later(env, p, deeds + (init + [d])) == Later(env, Later(env, p, deeds), init + [d])
    decreases |init + [d]|, 0
  {
    LaterConcat(env, p, deeds, init);
    OneMoreDeed(env, p, Later(env, p, deeds), deeds + init, init, d);
    assert deeds + (init + [d]) == (deeds + init) + [d];
  }

  lemma OneMoreDeed(env: Env, p: State, q: State, deeds: seq<Deed>, more: seq<Deed>, d: Deed)
    requires Later(env, p, deeds) == Later(env, q, more)
    ensures Later(env, p, deeds + [d]) == Later(env, q, more + [d])
  {
    LaterSnoc(env, p, deeds, d);
    LaterSnoc(env, q, more, d);
  }

  // ---- the pool stays well formed ----

  /** Where two note maps have the same slots they have the same counts. */
  lemma SameSlotsSameCounts(notes: map<((Felt, Felt), nat), StoredNote>, notes': map<((Felt, Felt), nat), StoredNote>,
                            place: (Felt, Felt))
    requires notes'.Keys == notes.Keys
    ensures Count(notes', place) == Count(notes, place)
  {
    var n := Count(notes, place);
    assert (place, n) !in notes.Keys;
    assert forall j: nat {:trigger (place, j) in notes} :: j < n ==> (place, j) in notes.Keys;
    assert EndsAt(notes', place, n);
    CountIs(notes', place, n);
  }

  lemma FillKeepsNotes(places: set<(Felt, Felt)>, notes: map<((Felt, Felt), nat), StoredNote>,
                       nullifiers: set<Nullifier>, x: ((Felt, Felt), nat), amount: U128)
    requires WfNotes(places, notes, nullifiers) && x in notes
    ensures WfNotes(places, notes[x := Open(amount)], nullifiers)
  {
    var notes' := notes[x := Open(amount)];
    assert notes'.Keys == notes.Keys;
    forall y {:trigger y in notes'} | y in notes'
      ensures y.1 < Count(notes', y.0)
    {
      assert y in notes.Keys;
      SameSlotsSameCounts(notes, notes', y.0);
    }
  }

  lemma CreateOpenKeepsWf(env: Env, p: State, who: Account, r: Felt, pk: Felt, token: Felt, amount: U128, index: U32)
    requires Wf(env, p)
    ensures Wf(env, Perform(env, p, Deed(who, CreateOpen(r, pk, token, amount, index))))
  {
    if CanCreateOpen(env, p, who, Identity(r, pk), token, index) {
      var key := ChannelKey(env, who, Identity(r, pk));
      OpenWf(env, p);
      NotesGrow(p.subIndex.Keys, p.notes, p.nullifiers, (key, token), Open(amount));
      SealWf(env, AfterNote(p, key, token, Open(amount)));
    }
  }

  lemma FillKeepsWf(env: Env, p: State, who: Account, key: Felt, token: Felt, index: U32, amount: U128)
    requires Wf(env, p)
    ensures Wf(env, Perform(env, p, Deed(who, FillOpen(key, token, index, amount))))
  {
    if CanFill(p, key, token, index) {
      OpenWf(env, p);
      FillKeepsNotes(p.subIndex.Keys, p.notes, p.nullifiers, ((key, token), index as nat), amount);
      SealWf(env, AfterFill(p, key, token, index, amount));
    }
  }

  lemma SentKeepsWf(env: Env, p: State, who: Account, a: ClientAction)
    requires Sound(env) && Wf(env, p) && who in env.accounts && TokenInPlay(env, a)
    ensures Wf(env, Perform(env, p, Deed(who, Sent(a))))
  {
    if Step(env, who, Machine(p, map[]), a).Some? {
      StepKeepsWf(env, who, Machine(p, map[]), a);
    }
  }

  lemma PerformKeepsWf(env: Env, p: State, d: Deed)
    requires Sound(env) && Wf(env, p) && InPlay(env, d)
    ensures Wf(env, Perform(env, p, d))
  {
    match d.action {
      case Sent(a) => SentKeepsWf(env, p, d.who, a);
      case CreateOpen(r, pk, token, amount, index) => CreateOpenKeepsWf(env, p, d.who, r, pk, token, amount, index);
      case FillOpen(key, token, index, amount) => FillKeepsWf(env, p, d.who, key, token, index, amount);
    }
  }

  lemma {:induction false} LaterIsWf(env: Env, p: State, deeds: seq<Deed>)
    requires Sound(env) && Wf(env, p) && forall d :: d in deeds ==> InPlay(env, d)
    ensures Wf(env, Later(env, p, deeds))
    decreases |deeds|
  {
    if deeds != [] {
      LaterIsWf(env, p, deeds[..|deeds| - 1]);
      PerformKeepsWf(env, Later(env, p, deeds[..|deeds| - 1]), deeds[|deeds| - 1]);
    }
  }

  /** Whatever actions anybody gets accepted in whatever order, the pool stays well formed. */
  lemma EveryHistoryIsWf(env: Env, deeds: seq<Deed>)
    requires Sound(env) && forall d :: d in deeds ==> InPlay(env, d)
    ensures Wf(env, Later(env, EMPTY, deeds))
  {
    EmptyIsWf(env);
    LaterIsWf(env, EMPTY, deeds);
  }
}

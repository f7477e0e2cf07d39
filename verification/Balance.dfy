/** What a batch does to anybody's notes and private balance. */
module Balance {
  import opened Field
  import opened Lists
  import opened Ledger
  import opened Hashes
  import opened Slots
  import opened Actions
  import opened Pool
  import opened Discovery
  import opened NoteDiscovery
  import opened NoteFacts
  import opened Planner
  import opened CoverAllTokens
  import opened Accounting

  /** The note a create action by `who` leaves behind, as its recipient discovers it. */
  function CreatedNote(env: Env, who: Account, a: ClientAction): Note
    requires a.CreateEncNote?
  {
    var key := ChannelKey(env, who, Identity(a.recipient, a.recipientPk));
    Note(NoteId(env, key, a.token, a.index), a.token, a.amount, key, a.index, who.addr, false)
  }

  predicate Creates(env: Env, who: Account, a: ClientAction, user: Account, n: Note) {
    a.CreateEncNote? && a.recipient == user.addr && n == CreatedNote(env, who, a)
  }

  predicate Spends(who: Account, a: ClientAction, user: Account, n: Note) {
    who == user && a == UseAction(n)
  }

  /** What the note facts need of the pool. */
  ghost predicate NotesPlaced(p: State) {
    NoGaps(p.notes) && forall x {:trigger x in p.notes} :: x in p.notes ==> x.0.0 in p.channels
  }

  lemma WfPlaces(env: Env, p: State)
    requires Wf(env, p)
    ensures NotesPlaced(p)
  {
    OpenWf(env, p);
    forall x {:trigger x in p.notes} | x in p.notes
      ensures x.0.0 in p.channels
    {
      assert x.0 in p.subIndex;
      assert (x.0.0, p.subIndex[x.0]) in p.subs;
    }
  }

  lemma OpenUnspent(env: Env, p: State, who: Account, id: Identity, random: Felt, salt: Felt, user: Account, n: Note)
    requires NotesPlaced(p) && ChannelKey(env, who, id) !in p.channels
    ensures Unspent(env, AfterOpen(env, p, who, id, random, salt), user, n) <==> Unspent(env, p, user, n)
  {
    var key := ChannelKey(env, who, id);
    assert n.key == key ==> ((n.key, n.token), n.index as nat) !in p.notes;
  }

  lemma CreateUnspent(env: Env, p: State, who: Account, a: ClientAction, user: Account, n: Note)
    requires NotesPlaced(p) && a.CreateEncNote?
    requires CanCreate(env, p, who, Identity(a.recipient, a.recipientPk), a.token, a.index, a.noteSalt)
    requires forall x {:trigger x in p.nullifiers} :: x in p.nullifiers ==> ((x.key, x.token), x.index) in p.notes
    ensures var key := ChannelKey(env, who, Identity(a.recipient, a.recipientPk));
            var q := AfterCreate(p, key, a.token, a.amount, a.noteSalt);
            && (Unspent(env, q, user, n) <==> Unspent(env, p, user, n) || Creates(env, who, a, user, n))
            && !(Unspent(env, p, user, n) && Creates(env, who, a, user, n))
  {
    var key := ChannelKey(env, who, Identity(a.recipient, a.recipientPk));
    assert ((key, a.token), a.index as nat) !in p.notes;
    assert Nullifier(key, a.token, a.index, user.sk) !in p.nullifiers;
  }

  lemma UseUnspent(env: Env, p: State, who: Account, key: Felt, token: Felt, index: U32, user: Account, n: Note)
    requires CanUse(env, p, who, key, token, index) && (user == who || user.addr != who.addr)
    ensures Unspent(env, AfterUse(p, who, key, token, index), user, n)
       <==> Unspent(env, p, user, n) && !Spends(who, UseNote(key, token, index), user, n)
  {
  }

  /** One action adds the note it creates, takes away the note it spends, and leaves all others alone. */
  lemma StepUnspent(env: Env, who: Account, s: Machine, a: ClientAction, user: Account, n: Note)
    requires Sound(env) && Wf(env, s.pool) && who in env.accounts && (user == who || user.addr != who.addr)
    requires Step(env, who, s, a).Some?
    ensures Unspent(env, Step(env, who, s, a).value.pool, user, n)
       <==> (Unspent(env, s.pool, user, n) && !Spends(who, a, user, n)) || Creates(env, who, a, user, n)
    ensures !(Unspent(env, s.pool, user, n) && Creates(env, who, a, user, n))
  {
    var p := s.pool;
    WfPlaces(env, p);
    match a {
      case SetViewingKey(_) =>
      case OpenChannel(r, index, random, salt) =>
        NewKey(env, p, who, r);
        OpenUnspent(env, p, who, Identity(r, p.pk[r]), random, salt, user, n);
      case OpenSubchannel(_, _, _, _, _, _) =>
      case CreateEncNote(_, _, _, _, _, _) =>
        OpenWf(env, p);
        CreateUnspent(env, p, who, a, user, n);
      case Deposit(_, _) =>
      case UseNote(key, token, index) => UseUnspent(env, p, who, key, token, index, user, n);
      case Withdraw(_, _, _, _) =>
    }
  }

  lemma NewKey(env: Env, p: State, who: Account, r: Felt)
    requires Sound(env) && Wf(env, p) && who in env.accounts && r in p.pk
    requires var id := Identity(r, p.pk[r]); !ChannelExists(p, ChannelKey(env, who, id), who.addr, id)
    ensures ChannelKey(env, who, Identity(r, p.pk[r])) !in p.channels
  {
    OpenWf(env, p);
    AbsentKey(env, p, who, Identity(r, p.pk[r]));
  }

  // ---- a whole batch, note by note ----

  predicate SpentBy(who: Account, actions: seq<ClientAction>, user: Account, n: Note) {
    who == user && UseAction(n) in actions
  }

  predicate CreatedBy(env: Env, who: Account, actions: seq<ClientAction>, user: Account, n: Note) {
    exists a :: a in actions && Creates(env, who, a, user, n)
  }

  lemma InOrder(actions: seq<ClientAction>)
    requires PhaseOrdered(actions) && actions != []
    ensures PhaseOrdered(actions[..|actions| - 1])
    ensures forall a :: a in actions[..|actions| - 1] ==> a.Phase() <= actions[|actions| - 1].Phase()
  {
  }

  lemma SnocFacts(env: Env, who: Account, init: seq<ClientAction>, a: ClientAction, user: Account, n: Note)
    ensures SpentBy(who, init + [a], user, n) <==> SpentBy(who, init, user, n) || Spends(who, a, user, n)
    ensures CreatedBy(env, who, init + [a], user, n)
         <==> CreatedBy(env, who, init, user, n) || Creates(env, who, a, user, n)
  {
    assert forall x :: x in init + [a] <==> x in init || x == a;
  }

  lemma CreatedNotSpent(env: Env, who: Account, init: seq<ClientAction>, a: ClientAction, user: Account, n: Note)
    requires forall b :: b in init ==> b.Phase() <= a.Phase()
    ensures !(CreatedBy(env, who, init, user, n) && Spends(who, a, user, n))
  {
  }

  /** After a batch a user's notes are those it had, less those the batch spent, plus those it created
      for that user. */
  lemma {:induction false} ExecUnspent(env: Env, who: Account, s: Machine, actions: seq<ClientAction>, user: Account,
                                       n: Note)
    requires Sound(env) && Wf(env, s.pool) && who in env.accounts && (user == who || user.addr != who.addr)
    requires forall a :: a in actions ==> TokenInPlay(env, a)
    requires PhaseOrdered(actions) && Exec(env, who, s, actions).Some?
    ensures Unspent(env, Exec(env, who, s, actions).value.pool, user, n)
       <==> (Unspent(env, s.pool, user, n) && !SpentBy(who, actions, user, n)) || CreatedBy(env, who, actions, user, n)
    decreases |actions|
  {
    if actions != [] {
      var k := |actions| - 1;
      var init, a := actions[..k], actions[k];
      assert actions == init + [a];
      InOrder(actions);
      ExecUnspent(env, who, s, init, user, n);
      ExecKeepsWf(env, who, s, init);
      var m := Exec(env, who, s, init).value;
      StepUnspent(env, who, m, a, user, n);
      SnocFacts(env, who, init, a, user, n);
      CreatedNotSpent(env, who, init, a, user, n);
    }
  }

  // ---- a whole batch, in amounts ----

  /** All a user holds in one token, open notes included. */
  ghost function Held(env: Env, p: State, user: Account, t: Felt): int
    requires Scannable(p)
  {
    Worth(NotesOf(env, p, user, []), t)
  }

  lemma WorthWithout(xs: seq<Note>, i: nat, t: Felt)
    requires i < |xs|
    ensures Worth(xs, t) == Worth(xs[..i] + xs[i + 1..], t) + Worth([xs[i]], t)
    ensures multiset(xs[..i] + xs[i + 1..]) == multiset(xs) - multiset{xs[i]}
  {
    MovedConcat(NoteFlow, xs[..i], xs[i..], t);
    MovedConcat(NoteFlow, [xs[i]], xs[i + 1..], t);
    MovedConcat(NoteFlow, xs[..i], xs[i + 1..], t);
    assert xs[i..] == [xs[i]] + xs[i + 1..];
    assert xs == xs[..i] + xs[i..];
    assert xs == xs[..i] + ([xs[i]] + xs[i + 1..]);
  }

  /** Order does not matter to what notes are worth. */
  lemma {:induction false} WorthPerm(xs: seq<Note>, ys: seq<Note>, t: Felt)
    requires multiset(xs) == multiset(ys)
    ensures Worth(xs, t) == Worth(ys, t)
    decreases |xs|
  {
    if xs == [] {
      assert |multiset(ys)| == 0;
    } else {
      var k := |xs| - 1;
      assert xs[k] in multiset(ys);
      var i :| 0 <= i < |ys| && ys[i] == xs[k];
      WorthWithout(ys, i, t);
      WorthWithout(xs, k, t);
      assert xs[..k] + xs[k + 1..] == xs[..k];
      WorthPerm(xs[..k], ys[..i] + ys[i + 1..], t);
    }
  }

  lemma WorthMembers(xs: seq<Note>, ys: seq<Note>, t: Felt)
    requires NoDup(xs) && NoDup(ys) && forall n :: n in xs <==> n in ys
    ensures Worth(xs, t) == Worth(ys, t)
  {
    forall n
      ensures multiset(xs)[n] == multiset(ys)[n]
    {
      NoDupCounts(xs, n);
      NoDupCounts(ys, n);
    }
    WorthPerm(xs, ys, t);
  }

  lemma WorthPlusOne(xs: seq<Note>, ys: seq<Note>, x: Note, t: Felt)
    requires NoDup(xs) && NoDup(ys) && x !in ys && forall n :: n in xs <==> n in ys || n == x
    ensures Worth(xs, t) == Worth(ys, t) + In(NoteFlow(x), t)
  {
    assert (ys + [x])[..|ys|] == ys;
    WorthMembers(xs, ys + [x], t);
    MovedSnoc(NoteFlow, ys, x, t);
  }

  /** What an action by `who` does to a user's money from outside: public funds coming in or going out,
      and notes exchanged with others. */
  function Outside(who: Account, a: ClientAction, user: Account): Flow {
    match a
    case Deposit(token, amount) => Flow(token, if who == user then amount else 0)
    case Withdraw(_, token, amount, _) => Flow(token, if who == user then -(amount as int) else 0)
    case CreateEncNote(r, _, token, amount, _, _) =>
      Flow(token, (if r == user.addr then amount else 0) - (if who == user then amount else 0))
    case _ => Flow(0, 0)
  }

  function OutsideBy(who: Account, user: Account): ClientAction -> Flow {
    (a: ClientAction) => Outside(who, a, user)
  }

  /** A user's notes together with what its running batch holds. */
  ghost function Wealth(env: Env, who: Account, s: Machine, user: Account, t: Felt): int
    requires Scannable(s.pool)
  {
    Held(env, s.pool, user, t) + if who == user then NetOf(s.net, t) else 0
  }

  lemma HeldSame(env: Env, p: State, q: State, user: Account, t: Felt)
    requires Wf(env, p) && Wf(env, q) && Scannable(p) && Scannable(q)
    requires forall n :: Unspent(env, q, user, n) <==> Unspent(env, p, user, n)
    ensures Held(env, q, user, t) == Held(env, p, user, t)
  {
    NotesAre(env, p, user);
    NotesAre(env, q, user);
    WorthMembers(NotesOf(env, q, user, []), NotesOf(env, p, user, []), t);
  }

  lemma HeldMore(env: Env, p: State, q: State, user: Account, x: Note, t: Felt)
    requires Wf(env, p) && Wf(env, q) && Scannable(p) && Scannable(q) && !Unspent(env, p, user, x)
    requires forall n :: Unspent(env, q, user, n) <==> Unspent(env, p, user, n) || n == x
    ensures Held(env, q, user, t) == Held(env, p, user, t) + In(NoteFlow(x), t)
  {
    NotesAre(env, p, user);
    NotesAre(env, q, user);
    WorthPlusOne(NotesOf(env, q, user, []), NotesOf(env, p, user, []), x, t);
  }

  lemma NotesAre(env: Env, p: State, user: Account)
    requires Wf(env, p) && Scannable(p)
    ensures NoDup(NotesOf(env, p, user, []))
    ensures forall n :: n in NotesOf(env, p, user, []) <==> Unspent(env, p, user, n)
  {
    NotesOnce(env, p, user, []);
    forall n
      ensures n in NotesOf(env, p, user, []) <==> Unspent(env, p, user, n)
    {
      NotesMember(env, p, user, [], n);
    }
  }

  /** The note a use action spends, seen by its owner. */
  lemma UsedNote(env: Env, who: Account, p: State, key: Felt, token: Felt, index: U32) returns (x: Note)
    requires CanUse(env, p, who, key, token, index)
    ensures Unspent(env, p, who, x) && UseAction(x) == UseNote(key, token, index)
    ensures x.amount == p.notes[((key, token), index as nat)].amount
    ensures forall n :: Unspent(env, p, who, n) && UseAction(n) == UseNote(key, token, index) ==> n == x
  {
    x := NoteAt(env, p, key, p.channels[key].sender.addr, token, index);
  }

  lemma StepUnspentAll(env: Env, who: Account, s: Machine, a: ClientAction, user: Account, s': Machine)
    requires Sound(env) && Wf(env, s.pool) && who in env.accounts && (user == who || user.addr != who.addr)
    requires Step(env, who, s, a) == Some(s')
    ensures forall n {:trigger Unspent(env, s'.pool, user, n)} {:trigger Unspent(env, s.pool, user, n)} ::
      && (Unspent(env, s'.pool, user, n)
          <==> (Unspent(env, s.pool, user, n) && !Spends(who, a, user, n)) || Creates(env, who, a, user, n))
      && !(Unspent(env, s.pool, user, n) && Creates(env, who, a, user, n))
    ensures a.UseNote? ==> CanUse(env, s.pool, who, a.key, a.token, a.index)
  {
    forall n
      ensures Unspent(env, s'.pool, user, n)
         <==> (Unspent(env, s.pool, user, n) && !Spends(who, a, user, n)) || Creates(env, who, a, user, n)
      ensures !(Unspent(env, s.pool, user, n) && Creates(env, who, a, user, n))
    {
      StepUnspent(env, who, s, a, user, n);
    }
  }

  lemma StepWealth(env: Env, who: Account, s: Machine, a: ClientAction, user: Account, t: Felt, s': Machine)
    requires Sound(env) && Wf(env, s.pool) && Wf(env, s'.pool) && who in env.accounts
    requires (user == who || user.addr != who.addr) && Step(env, who, s, a) == Some(s')
    requires Scannable(s.pool) && Scannable(s'.pool)
    ensures Wealth(env, who, s', user, t) == Wealth(env, who, s, user, t) + In(Outside(who, a, user), t)
  {
    StepUnspentAll(env, who, s, a, user, s');
    StepNet(env, who, s.pool, s, a, t);
    if a.CreateEncNote? && a.recipient == user.addr {
      HeldMore(env, s.pool, s'.pool, user, CreatedNote(env, who, a), t);
    } else if a.UseNote? && who == user {
      var x := UsedNote(env, who, s.pool, a.key, a.token, a.index);
      HeldMore(env, s'.pool, s.pool, user, x, t);
    } else {
      HeldSame(env, s.pool, s'.pool, user, t);
    }
  }

  lemma {:induction false} ExecWealth(env: Env, who: Account, s: Machine, actions: seq<ClientAction>, user: Account,
                                      t: Felt, s': Machine)
    requires Sound(env) && Wf(env, s.pool) && Wf(env, s'.pool) && who in env.accounts
    requires (user == who || user.addr != who.addr) && Exec(env, who, s, actions) == Some(s')
    requires forall a :: a in actions ==> TokenInPlay(env, a)
    requires Scannable(s.pool) && Scannable(s'.pool)
    ensures Wealth(env, who, s', user, t) == Wealth(env, who, s, user, t) + Moved(OutsideBy(who, user), actions, t)
    decreases |actions|
  {
    if actions != [] {
      var k := |actions| - 1;
      var init := actions[..k];
      var m := Exec(env, who, s, init).value;
      ExecKeepsWf(env, who, s, init);
      WfIsScannable(env, m.pool);
      ExecWealth(env, who, s, init, user, t, m);
      StepWealth(env, who, m, actions[k], user, t, s');
      MovedSnoc(OutsideBy(who, user), init, actions[k], t);
      assert actions == init + [actions[k]];
    } else {
      MovedNone(OutsideBy(who, user), t);
    }
  }

  /** Whatever batch is accepted, and whoever sent it, every user's private balance moves by exactly the
      deposits, withdrawals and notes to or from others that concern it. */
  lemma BalanceMoves(env: Env, who: Account, p: State, actions: seq<ClientAction>, q: State, user: Account, t: Felt)
    requires Sound(env) && Wf(env, p) && who in env.accounts && (user == who || user.addr != who.addr)
    requires forall a :: a in actions ==> TokenInPlay(env, a)
    requires RunBatch(env, who, p, actions) == Some(q)
    ensures Wf(env, q) && Scannable(p) && Scannable(q)
    ensures Held(env, q, user, t) == Held(env, p, user, t) + Moved(OutsideBy(who, user), actions, t)
  {
    var s := Machine(p, map[]);
    var s' := Exec(env, who, s, actions).value;
    ExecKeepsWf(env, who, s, actions);
    WfIsScannable(env, p);
    WfIsScannable(env, q);
    ExecWealth(env, who, s, actions, user, t, s');
  }
}

/** When the pipeline prepares a batch, and when it refuses one for the sake of privacy. */
module Verdict {
  import opened Field
  import opened Lists
  import opened Hashes
  import opened Slots
  import opened Pool
  import opened Discovery
  import opened NoteDiscovery
  import opened Planner
  import opened Mirror
  import opened StateDiscovery
  import opened CoverAllTokens
  import opened Success
  import opened Indices
  import opened Prepare

  // ---- what the two reads compare ----

  /** The account looks the same in both pools, as far as the intent is concerned: registration, and if registered the
      outgoing count, the channel to each recipient and to itself, and the unspent notes of the tokens that leave. */
  ghost predicate Unchanged(env: Env, p: State, q: State, who: Account, intent: Intent)
    requires Scannable(p) && Scannable(q)
  {
    && (who.addr in p.pk <==> who.addr in q.pk)
    && (who.addr in p.pk ==>
          && Count(p.outgoing, who) == Count(q.outgoing, who)
          && (forall r :: (r == who.addr || exists m :: m in intent.transfers && m.to == r)
                          && r in p.pk && r in q.pk ==>
                ChannelOf(env, p, who, r) == ChannelOf(env, q, who, r))
          && (TokensOut(intent) != [] ==>
                NotesOf(env, p, who, TokensOut(intent)) == NotesOf(env, q, who, TokensOut(intent))))
  }

  lemma RecipientsAre(intent: Intent, user: Felt)
    ensures forall r :: r in Recipients(intent, user) <==> r == user || exists m :: m in intent.transfers && m.to == r
  {
    var rs := Recipients(intent, user);
    assert rs[|intent.transfers|] == user;
    forall r
      ensures r in rs <==> r == user || exists m :: m in intent.transfers && m.to == r
    {
      if m :| m in intent.transfers && m.to == r {
        var i :| 0 <= i < |intent.transfers| && intent.transfers[i] == m;
        assert rs[i] == r;
      }
      if r in rs && r != user {
        var i :| 0 <= i < |rs| && rs[i] == r;
        assert intent.transfers[i] in intent.transfers;
      }
    }
  }

  lemma SameReads(env: Env, p: State, q: State, who: Account, intent: Intent, st: UserState, now: UserState)
    requires Scannable(p) && Scannable(q)
    requires StateOf(env, p, who, intent) == Ok(st) && StateOf(env, q, who, intent) == Ok(now)
    ensures st == now <==> Unchanged(env, p, q, who, intent)
  {
    if st.registered && now.registered {
      RecipientsAre(intent, who.addr);
      SameChannelsRead(env, p, q, who, Recipients(intent, who.addr), st.channels, now.channels);
    }
  }

  lemma SameChannelsRead(env: Env, p: State, q: State, who: Account, rs: seq<Felt>, a: map<Felt, OutgoingChannel>,
                         b: map<Felt, OutgoingChannel>)
    requires ChannelsTo(env, p, who, rs) == Ok(a) && ChannelsTo(env, q, who, rs) == Ok(b)
    ensures (forall r :: r in rs ==> r in p.pk && r in q.pk)
    ensures a == b
       <==> forall r :: r in rs && r in p.pk && r in q.pk ==> ChannelOf(env, p, who, r) == ChannelOf(env, q, who, r)
  {
    ChannelsToAre(env, p, who, rs);
    ChannelsToAre(env, q, who, rs);
    assert a.Keys == b.Keys;
    if forall r :: r in rs && r in p.pk && r in q.pk ==> ChannelOf(env, p, who, r) == ChannelOf(env, q, who, r) {
      assert a == b;
    }
    if a == b {
      forall r | r in rs
        ensures r in a && ChannelOf(env, p, who, r) == ChannelOf(env, q, who, r)
      {
      }
    }
  }

  // ---- who needs a channel ----

  /** A note goes to `r`: a transfer, or the user's change. */
  ghost predicate Receives(intent: Intent, st: UserState, r: Felt) {
    (exists m :: m in intent.transfers && m.to == r) || (r == st.user.addr && HasChange(intent, st.notes))
  }

  /** `r` gets the first channel from the user: its own on registering, or one that is not open yet. */
  ghost predicate GetsChannel(intent: Intent, st: UserState, r: Felt) {
    || (intent.register && !st.registered && r == st.user.addr)
    || (Receives(intent, st, r) && !(r in st.channels && st.channels[r].open))
  }

  /** An observer could link two channels that one batch opens. */
  ghost predicate Linked(intent: Intent, st: UserState) {
    exists q, r :: q != r && GetsChannel(intent, st, q) && GetsChannel(intent, st, r)
  }

  lemma SentIsReceived(intent: Intent, st: UserState, change: map<Felt, U128>, r: Felt)
    requires change != map[] <==> HasChange(intent, st.notes)
    ensures SentTo(NewNotes(intent, st.user.addr, change), r) <==> Receives(intent, st, r)
  {
    var user := st.user.addr;
    var back := MapSeq(ChangeNote(user, change), Ascending(change.Keys));
    AscendingIs(change.Keys);
    assert forall m :: m in NewNotes(intent, user, change) <==> m in intent.transfers || m in back;
    if change != map[] {
      var t :| t in change;
      assert t in Ascending(change.Keys);
      var i :| 0 <= i < |Ascending(change.Keys)| && Ascending(change.Keys)[i] == t;
      assert back[i] in back && back[i].to == user;
    } else {
      assert change.Keys == {};
      assert back == [];
    }
  }

  lemma PlanCoversAll(env: Env, intent: Intent, st: UserState, rng: Rng, d: Draft)
    requires SafeSums(intent) && MakeDraft(env, intent, st, rng) == Ok(d)
    ensures d.cover.change != map[] <==> HasChange(intent, st.notes)
  {
    var balance := Balances(intent).value;
    BalanceIs(intent, balance);
    CoverExactly(intent, st.notes, balance, Ascending(balance.Keys));
  }

  /** The plan's warning, said of recipients. */
  lemma WarnedExactly(env: Env, intent: Intent, st: UserState, rng: Rng, plan: Plan)
    requires SafeSums(intent) && MakePlan(env, intent, st, rng) == Ok(plan)
    ensures UserLinkage in plan.warnings <==> Linked(intent, st)
  {
    var d := MakeDraft(env, intent, st, rng).value;
    PlanCoversAll(env, intent, st, rng, d);
    LinkageWarned(env, intent, st, rng, d);
    forall r
      ensures NeedsChannel(intent, st, NewNotes(intent, st.user.addr, d.cover.change), r)
         <==> GetsChannel(intent, st, r)
    {
      SentIsReceived(intent, st, d.cover.change, r);
    }
  }

  // ---- the verdict ----

  /** What becomes of a request, case by case: the refusal of the first read, of the second, a state that moved, the
      planner's refusal, a batch that would link channels, and otherwise exactly the plan made from the older read. */
  lemma PreparedIs(env: Env, older: State, latest: State, who: Account, intent: Intent, rng: Rng)
    requires Scannable(older) && Scannable(latest) && SafeSums(intent)
    ensures var first, second, r := StateOf(env, older, who, intent), StateOf(env, latest, who, intent),
                                    Prepared(env, older, latest, who, intent, rng);
            && (first.Err? ==> r == Err(Because(first.error)))
            && (first.Ok? && second.Err? ==> r == Err(Because(second.error)))
            && (first.Ok? && second.Ok? ==>
                  && (!Unchanged(env, older, latest, who, intent) ==> r == Err(Moving))
                  && (Unchanged(env, older, latest, who, intent) ==>
                        match MakePlan(env, intent, first.value, rng)
                        case Err(e) => r == Err(Because(e))
                        case Ok(plan) => r == if Linked(intent, first.value) then Err(PrivacyLeak) else Ok(plan)))
  {
    var first, second := StateOf(env, older, who, intent), StateOf(env, latest, who, intent);
    if first.Ok? && second.Ok? {
      SameReads(env, older, latest, who, intent, first.value, second.value);
      StateOfIsWho(env, older, who, intent);
      StateOfIsWho(env, latest, who, intent);
      var made := MakePlan(env, intent, first.value, rng);
      if made.Ok? {
        WarnedExactly(env, intent, first.value, rng, made.value);
      }
    }
  }

  lemma StateOfIsWho(env: Env, p: State, who: Account, intent: Intent)
    requires Scannable(p) && StateOf(env, p, who, intent).Ok?
    ensures StateOf(env, p, who, intent).value.user == who
  {
  }

  /** Given randomness, a batch is prepared if and only if both reads succeed, the account looks the same in both
      pools, the intent can be planned, and no two recipients need a channel. */
  lemma PreparedExactly(env: Env, older: State, latest: State, who: Account, intent: Intent, rng: Rng)
    requires Scannable(older) && Scannable(latest) && SafeSums(intent) && EnoughDraws(intent, rng)
    ensures Prepared(env, older, latest, who, intent, rng).Ok?
       <==> && StateOf(env, older, who, intent).Ok? && StateOf(env, latest, who, intent).Ok?
            && Unchanged(env, older, latest, who, intent)
            && Plannable(intent, StateOf(env, older, who, intent).value)
            && !Linked(intent, StateOf(env, older, who, intent).value)
    ensures Prepared(env, older, latest, who, intent, rng) == Err(PrivacyLeak)
       <==> && StateOf(env, older, who, intent).Ok? && StateOf(env, latest, who, intent).Ok?
            && Unchanged(env, older, latest, who, intent)
            && Plannable(intent, StateOf(env, older, who, intent).value)
            && Linked(intent, StateOf(env, older, who, intent).value)
  {
    PreparedIs(env, older, latest, who, intent, rng);
    if StateOf(env, older, who, intent).Ok? {
      PlanSucceedsExactly(env, intent, StateOf(env, older, who, intent).value, rng);
    }
  }

  /** A registered user's channel to `r` is open in what was read exactly when the pool holds its marker. */
  lemma OpenExactly(env: Env, p: State, who: Account, intent: Intent, st: UserState, r: Felt)
    requires Scannable(p) && StateOf(env, p, who, intent) == Ok(st) && st.registered
    requires r == who.addr || exists m :: m in intent.transfers && m.to == r
    ensures r in p.pk && r in st.channels
    ensures st.channels[r].open <==> ChannelExists(p, KeyTo(env, p, who, r), who.addr, Identity(r, p.pk[r]))
  {
    RecipientsAre(intent, who.addr);
    ChannelsToAre(env, p, who, Recipients(intent, who.addr));
  }
}

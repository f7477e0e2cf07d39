/** Which refusal the planner gives, said of the amounts asked for and the notes held. */
module Refusals {
  import opened Field
  import opened Errors
  import opened Lists
  import opened Hashes
  import opened Discovery
  import opened Planner
  import opened Covering
  import opened CoverAllTokens
  import opened Success

  /** Something is to be moved in the amount of 0. */
  ghost predicate AsksForNothing(intent: Intent) {
    || (exists d :: d in intent.deposits && d.amount == 0)
    || (exists m :: m in intent.transfers && m.amount == 0)
    || (exists m :: m in intent.withdrawals && m.amount == 0)
  }

  /** Some amount does not fit an i128. */
  ghost predicate AsksTooMuch(intent: Intent) {
    || (exists d :: d in intent.deposits && d.amount >= TWO_127)
    || (exists m :: m in intent.transfers && m.amount >= TWO_127)
    || (exists m :: m in intent.withdrawals && m.amount >= TWO_127)
  }

  lemma TooMuchIs(intent: Intent)
    ensures AllConvertible(Flows(intent)) <==> !AsksTooMuch(intent)
  {
    var ms := intent.transfers + intent.withdrawals;
    assert forall m :: m in ms <==> m in intent.transfers || m in intent.withdrawals;
    forall d | d in intent.deposits
      ensures Inflow(d) in MapSeq(Inflow, intent.deposits)
    {
      var i :| 0 <= i < |intent.deposits| && intent.deposits[i] == d;
      assert MapSeq(Inflow, intent.deposits)[i] == Inflow(d);
    }
    forall m | m in ms
      ensures Outflow(m) in MapSeq(Outflow, ms)
    {
      var i :| 0 <= i < |ms| && ms[i] == m;
      assert MapSeq(Outflow, ms)[i] == Outflow(m);
    }
    if AllConvertible(Flows(intent)) {
      forall m | m in ms
        ensures m.amount < TWO_127
      {
        assert Outflow(m) in Flows(intent);
      }
      forall d | d in intent.deposits
        ensures d.amount < TWO_127
      {
        assert Inflow(d) in Flows(intent);
      }
    }
  }

  /** The notes of a token that are not open. */
  function Closed(t: Felt): Note -> bool {
    (n: Note) => n.token == t && !n.open
  }

  /** Open notes do not count towards covering a deficit; notes worth nothing make no difference. */
  lemma {:induction false} SpendableWorth(notes: seq<Note>, t: Felt)
    ensures Sum(Filter(Spendable(t), notes)) == Sum(Filter(Closed(t), notes))
    decreases |notes|
  {
    if notes != [] {
      var k := |notes| - 1;
      SpendableWorth(notes[..k], t);
      var n := notes[k];
      SumConcat(Filter(Spendable(t), notes[..k]), if Spendable(t)(n) then [n] else []);
      SumConcat(Filter(Closed(t), notes[..k]), if Closed(t)(n) then [n] else []);
    }
  }

  /** A deficit can be covered exactly when the token's notes that are not open are worth enough and each of them
      fits an i128. */
  lemma CoverableExactly(notes: seq<Note>, t: Felt, bal: int)
    ensures Coverable(notes, t, bal)
       <==> bal >= 0
            || (Sum(Filter(Closed(t), notes)) >= -bal && forall n :: n in notes && Closed(t)(n) ==> n.amount < TWO_127)
  {
    SpendableWorth(notes, t);
  }

  /** The `i`-th transfer is the first to somebody without a channel entry. */
  ghost predicate FirstUnreachable(intent: Intent, st: UserState, i: nat) {
    && i < |intent.transfers| && !Reachable(intent, st, intent.transfers[i].to)
    && forall j :: 0 <= j < i ==> Reachable(intent, st, intent.transfers[j].to)
  }

  lemma {:induction false} PlaceAllRefuses(w: Work, ms: seq<Move>, i: nat)
    requires Plenty(w.rng, 3 * |ms|, |ms|)
    requires i < |ms| && ms[i].to !in w.channels && forall j :: 0 <= j < i ==> ms[j].to in w.channels
    ensures PlaceAll(w, ms) == Err(NotRegistered(ms[i].to))
    decreases |ms|
  {
    var k := |ms| - 1;
    if i < k {
      PlaceAllRefuses(w, ms[..k], i);
    } else {
      PlaceAllSucceeds(w, ms[..k], 3, 1);
      PlaceNoteSucceeds(PlaceAll(w, ms[..k]).value, ms[k], 0, 0);
    }
  }

  lemma CoverSucceeds(intent: Intent, notes: seq<Note>) returns (cover: Cover)
    requires SafeSums(intent) && PositiveAmounts(intent) && AllConvertible(Flows(intent)) && AllCoverable(intent, notes)
    ensures CoverIntent(intent, notes) == Ok(cover)
    ensures cover.change != map[] <==> HasChange(intent, notes)
    ensures forall user :: |NewNotes(intent, user, cover.change)| <= |intent.transfers| + |Flows(intent)|
  {
    var balance := Balances(intent).value;
    BalanceIs(intent, balance);
    CoverExactly(intent, notes, balance, Ascending(balance.Keys));
    cover := CoverAll(notes, balance, Ascending(balance.Keys)).value;
    forall user
      ensures |NewNotes(intent, user, cover.change)| <= |intent.transfers| + |Flows(intent)|
    {
      NewNotesFit(intent, notes, user, balance, cover);
    }
  }

  lemma RefusedAtNote(env: Env, intent: Intent, st: UserState, rng: Rng, cover: Cover, i: nat)
    requires EnoughDraws(intent, rng)
    requires var ms := NewNotes(intent, st.user.addr, cover.change);
             && i < |ms| <= |intent.transfers| + |Flows(intent)| && !Reachable(intent, st, ms[i].to)
             && forall j :: 0 <= j < i ==> Reachable(intent, st, ms[j].to)
    ensures PlaceIntent(env, intent, st, rng, cover)
         == Err(NotRegistered(NewNotes(intent, st.user.addr, cover.change)[i].to))
  {
    var ms := NewNotes(intent, st.user.addr, cover.change);
    StartWorkSucceeds(env, intent, st, rng, 3 * |ms|, |ms|);
    PlaceAllRefuses(StartWork(env, intent, st, rng).value.1, ms, i);
  }

  lemma UnreachableTransfer(env: Env, intent: Intent, st: UserState, rng: Rng, i: nat)
    requires SafeSums(intent) && EnoughDraws(intent, rng) && (intent.register || st.registered)
    requires PositiveAmounts(intent) && AllConvertible(Flows(intent)) && AllCoverable(intent, st.notes)
    requires FirstUnreachable(intent, st, i)
    ensures MakePlan(env, intent, st, rng) == Err(NotRegistered(intent.transfers[i].to))
  {
    var cover := CoverSucceeds(intent, st.notes);
    RefusedAtNote(env, intent, st, rng, cover, i);
  }

  lemma UnreachableUser(env: Env, intent: Intent, st: UserState, rng: Rng)
    requires SafeSums(intent) && EnoughDraws(intent, rng) && (intent.register || st.registered)
    requires PositiveAmounts(intent) && AllConvertible(Flows(intent)) && AllCoverable(intent, st.notes)
    requires (forall m :: m in intent.transfers ==> Reachable(intent, st, m.to))
    requires HasChange(intent, st.notes) && !Reachable(intent, st, st.user.addr)
    ensures MakePlan(env, intent, st, rng) == Err(NotRegistered(st.user.addr))
  {
    var cover := CoverSucceeds(intent, st.notes);
    var t :| t in cover.change;
    AscendingIs(cover.change.Keys);
    assert t in Ascending(cover.change.Keys);
    RefusedAtNote(env, intent, st, rng, cover, |intent.transfers|);
  }

  /** Which refusal comes first, given randomness: an unregistered user, an amount of 0, an amount that does not fit,
      a deficit (see `Success.ShortfallIsTheGap`), and then the first recipient without a channel entry, transfers
      before change. */
  lemma RefusedBecause(env: Env, intent: Intent, st: UserState, rng: Rng)
    requires SafeSums(intent) && EnoughDraws(intent, rng)
    ensures var r, known := MakePlan(env, intent, st, rng), intent.register || st.registered;
            && (!known ==> r == Err(NotRegistered(st.user.addr)))
            && (known && AsksForNothing(intent) ==> r == Err(ZeroAmount))
            && (known && !AsksForNothing(intent) && AsksTooMuch(intent) ==> r == Err(Read))
            && (known && !AsksForNothing(intent) && !AsksTooMuch(intent) && AllCoverable(intent, st.notes) ==>
                  && (forall i: nat :: FirstUnreachable(intent, st, i) ==>
                        r == Err(NotRegistered(intent.transfers[i].to)))
                  && ((forall m :: m in intent.transfers ==> Reachable(intent, st, m.to))
                      && HasChange(intent, st.notes) && !Reachable(intent, st, st.user.addr) ==>
                        r == Err(NotRegistered(st.user.addr))))
  {
    TooMuchIs(intent);
    if (intent.register || st.registered) && PositiveAmounts(intent) && AllConvertible(Flows(intent))
      && AllCoverable(intent, st.notes)
    {
      forall i: nat | FirstUnreachable(intent, st, i)
        ensures MakePlan(env, intent, st, rng) == Err(NotRegistered(intent.transfers[i].to))
      {
        UnreachableTransfer(env, intent, st, rng, i);
      }
      if (forall m :: m in intent.transfers ==> Reachable(intent, st, m.to))
        && HasChange(intent, st.notes) && !Reachable(intent, st, st.user.addr)
      {
        UnreachableUser(env, intent, st, rng);
      }
    }
  }
}

/** Exactly when a plan is made, and which refusal is reported when it is not. */
module Success {
  import opened Field
  import opened Errors
  import opened Lists
  import opened Ledger
  import opened Hashes
  import opened Crypto
  import opened Discovery
  import opened Planner
  import opened Covering
  import opened CoverAllTokens

  /** How many of the coming salts `TakeSalt` would accept. */
  function GoodSalts(salts: seq<U120>): nat {
    if salts == [] then 0 else GoodSalts(salts[1..]) + (if salts[0] > OPEN_NOTE_SALT then 1 else 0)
  }

  predicate Plenty(rng: Rng, felts: nat, salts: nat) {
    |rng.felts| >= felts && GoodSalts(rng.salts) >= salts
  }

  lemma {:induction false} TakeSaltSucceeds(rng: Rng)
    ensures TakeSalt(rng).Ok? <==> GoodSalts(rng.salts) > 0
    ensures TakeSalt(rng).Ok? ==>
              && GoodSalts(TakeSalt(rng).value.1.salts) == GoodSalts(rng.salts) - 1
              && TakeSalt(rng).value.1.felts == rng.felts
    decreases |rng.salts|
  {
    if rng.salts != [] && rng.salts[0] <= OPEN_NOTE_SALT {
      TakeSaltSucceeds(rng.(salts := rng.salts[1..]));
    }
  }

  /** Given randomness, a note is placed exactly when its recipient has a channel entry. */
  lemma PlaceNoteSucceeds(w: Work, m: Move, felts: nat, salts: nat)
    requires Plenty(w.rng, felts + 3, salts + 1)
    ensures PlaceNote(w, m).Ok? <==> m.to in w.channels
    ensures m.to !in w.channels ==> PlaceNote(w, m) == Err(NotRegistered(m.to))
    ensures m.to in w.channels ==>
              var w' := PlaceNote(w, m).value;
              Plenty(w'.rng, felts, salts) && w'.channels.Keys == w.channels.Keys
  {
    if m.to in w.channels {
      var w1 := EnsureChannel(w, m.to).value;
      var w2 := EnsureSubchannel(w1, m.to, m.token).value;
      TakeSaltSucceeds(w2.rng);
    }
  }

  lemma {:induction false} PlaceAllSucceeds(w: Work, ms: seq<Move>, felts: nat, salts: nat)
    requires Plenty(w.rng, 3 * |ms| + felts, |ms| + salts)
    ensures PlaceAll(w, ms).Ok? <==> forall m :: m in ms ==> m.to in w.channels
    ensures PlaceAll(w, ms).Ok? ==>
              Plenty(PlaceAll(w, ms).value.rng, felts, salts) && PlaceAll(w, ms).value.channels.Keys == w.channels.Keys
    decreases |ms|
  {
    if ms != [] {
      var k := |ms| - 1;
      PlaceAllSucceeds(w, ms[..k], felts + 3, salts + 1);
      assert forall m :: m in ms <==> m in ms[..k] || m == ms[k];
      if PlaceAll(w, ms[..k]).Ok? {
        PlaceNoteSucceeds(PlaceAll(w, ms[..k]).value, ms[k], felts, salts);
      }
    }
  }

  lemma {:induction false} WithdrawAllSucceeds(ws: seq<Move>, rng: Rng, felts: nat)
    requires |rng.felts| >= |ws| + felts
    ensures WithdrawAll(ws, rng).Ok? && |WithdrawAll(ws, rng).value.1.felts| >= felts
    decreases |ws|
  {
    if ws != [] {
      WithdrawAllSucceeds(ws[..|ws| - 1], rng, felts + 1);
    }
  }

  /** Enough randomness for any plan of this intent. */
  predicate EnoughDraws(intent: Intent, rng: Rng) {
    var notes := |intent.transfers| + |Flows(intent)|;
    Plenty(rng, 3 * notes + |intent.withdrawals| + 3, notes)
  }

  /** The planner can send `r` a note: discovery found its channel, or it is the registering user. */
  predicate Reachable(intent: Intent, st: UserState, r: Felt) {
    r in st.channels || (Registering(intent, st) && r == st.user.addr)
  }

  lemma StartWorkSucceeds(env: Env, intent: Intent, st: UserState, rng: Rng, felts: nat, salts: nat)
    requires Plenty(rng, felts + 3, salts)
    ensures StartWork(env, intent, st, rng).Ok?
    ensures var w := StartWork(env, intent, st, rng).value.1;
            && Plenty(w.rng, felts, salts)
            && forall r :: r in w.channels <==> Reachable(intent, st, r)
  {
  }

  ghost predicate AllCoverable(intent: Intent, notes: seq<Note>) {
    forall f :: f in Flows(intent) ==> Coverable(notes, f.token, Total(Flows(intent), f.token))
  }

  /** What a token's cover leaves over. */
  function Leftover(notes: seq<Note>, t: Felt, bal: int): int {
    if !InI128(bal) then 0
    else match CoverToken(notes, t, bal) case Err(_) => 0 case Ok((_, left)) => left
  }

  /** Some token leaves change, so the user gets a note back. */
  ghost predicate HasChange(intent: Intent, notes: seq<Note>) {
    exists f :: f in Flows(intent) && Leftover(notes, f.token, Total(Flows(intent), f.token)) > 0
  }

  lemma {:induction false} ChangeIs(notes: seq<Note>, balance: map<Felt, int>, tokens: seq<Felt>, t: Felt)
    requires forall t :: t in tokens ==> InI128(NetOf(balance, t))
    requires CoverAll(notes, balance, tokens).Ok?
    ensures t in CoverAll(notes, balance, tokens).value.change
       <==> t in tokens && Leftover(notes, t, NetOf(balance, t)) > 0
    decreases |tokens|
  {
    if tokens != [] {
      var k := |tokens| - 1;
      assert tokens == tokens[..k] + [tokens[k]];
      ChangeIs(notes, balance, tokens[..k], t);
    }
  }

  /** What the balance loop ends with, token by token. */
  ghost predicate BalancedAs(intent: Intent, balance: map<Felt, int>) {
    && (forall t {:trigger NetOf(balance, t)} ::
          NetOf(balance, t) == Total(Flows(intent), t) && InI128(NetOf(balance, t)))
    && (forall t {:trigger t in balance} :: t in balance <==> exists f :: f in Flows(intent) && f.token == t)
  }

  lemma BalanceIs(intent: Intent, balance: map<Felt, int>)
    requires SafeSums(intent) && Balances(intent) == Ok(balance)
    ensures BalancedAs(intent, balance)
  {
    forall t
      ensures NetOf(balance, t) == Total(Flows(intent), t) && InI128(NetOf(balance, t))
      ensures t in balance <==> exists f :: f in Flows(intent) && f.token == t
    {
      BalancesInRange(intent, t);
      CreditAllTotals(map[], Flows(intent), t);
    }
  }

  lemma CoverExactly(intent: Intent, notes: seq<Note>, balance: map<Felt, int>, tokens: seq<Felt>)
    requires BalancedAs(intent, balance) && tokens == Ascending(balance.Keys)
    ensures forall t :: t in tokens <==> exists f :: f in Flows(intent) && f.token == t
    ensures CoverAll(notes, balance, tokens).Ok? <==> AllCoverable(intent, notes)
    ensures CoverAll(notes, balance, tokens).Ok? ==>
              (CoverAll(notes, balance, tokens).value.change != map[] <==> HasChange(intent, notes))
  {
    AscendingIs(balance.Keys);
    assert forall t :: t in tokens ==> t in balance;
    CoverAllExactly(notes, balance, tokens);
    AllAreCoverable(intent, notes, balance, tokens);
    if CoverAll(notes, balance, tokens).Ok? {
      ChangeExactly(intent, notes, balance, tokens);
    }
  }

  lemma AllAreCoverable(intent: Intent, notes: seq<Note>, balance: map<Felt, int>, tokens: seq<Felt>)
    requires forall t {:trigger NetOf(balance, t)} ::
               NetOf(balance, t) == Total(Flows(intent), t) && InI128(NetOf(balance, t))
    requires forall t :: t in tokens <==> exists f :: f in Flows(intent) && f.token == t
    ensures AllCoverable(intent, notes) <==> forall t :: t in tokens ==> Coverable(notes, t, NetOf(balance, t))
  {
    if AllCoverable(intent, notes) {
      forall t | t in tokens
        ensures Coverable(notes, t, NetOf(balance, t))
      {
        var f :| f in Flows(intent) && f.token == t;
      }
    } else {
      var f :| f in Flows(intent) && !Coverable(notes, f.token, Total(Flows(intent), f.token));
      assert f.token in tokens && !Coverable(notes, f.token, NetOf(balance, f.token));
    }
  }

  lemma ChangeExactly(intent: Intent, notes: seq<Note>, balance: map<Felt, int>, tokens: seq<Felt>)
    requires forall t {:trigger NetOf(balance, t)} ::
               NetOf(balance, t) == Total(Flows(intent), t) && InI128(NetOf(balance, t))
    requires forall t :: t in tokens <==> exists f :: f in Flows(intent) && f.token == t
    requires CoverAll(notes, balance, tokens).Ok?
    ensures CoverAll(notes, balance, tokens).value.change != map[] <==> HasChange(intent, notes)
  {
    var change := CoverAll(notes, balance, tokens).value.change;
    if change != map[] {
      var t :| t in change;
      ChangeIs(notes, balance, tokens, t);
      var f :| f in Flows(intent) && f.token == t;
    }
    if HasChange(intent, notes) {
      var f :| f in Flows(intent) && Leftover(notes, f.token, Total(Flows(intent), f.token)) > 0;
      ChangeIs(notes, balance, tokens, f.token);
    }
  }

  // ---- how many notes there can be ----

  lemma {:induction false} NoDupFits(xs: seq<Felt>, s: set<Felt>)
    requires NoDup(xs) && forall x :: x in xs ==> x in s
    ensures |xs| <= |s|
    decreases |xs|
  {
    if xs != [] {
      var k := |xs| - 1;
      assert xs[k] in xs;
      NoDupFits(xs[..k], s - {xs[k]});
    }
  }

  lemma {:induction false} CreditAllSize(flows: seq<Flow>)
    ensures |CreditAll(map[], flows).Keys| <= |flows|
  {
    if flows != [] {
      var k := |flows| - 1;
      CreditAllSize(flows[..k]);
      var net := CreditAll(map[], flows[..k]);
      assert CreditAll(map[], flows).Keys == net.Keys + {flows[k].token};
    }
  }

  lemma NewNotesFit(intent: Intent, notes: seq<Note>, user: Felt, balance: map<Felt, int>, cover: Cover)
    requires BalancedAs(intent, balance) && Balances(intent) == Ok(balance)
    requires CoverAll(notes, balance, Ascending(balance.Keys)) == Ok(cover)
    ensures |NewNotes(intent, user, cover.change)| <= |intent.transfers| + |Flows(intent)|
  {
    AscendingIs(balance.Keys);
    AscendingIs(cover.change.Keys);
    forall t | t in cover.change
      ensures t in balance
    {
      ChangeIs(notes, balance, Ascending(balance.Keys), t);
    }
    NoDupFits(Ascending(cover.change.Keys), balance.Keys);
    CreditAllSize(Flows(intent));
  }

  /** Everybody a note goes to. */
  lemma NewNotesReach(intent: Intent, st: UserState, change: map<Felt, U128>)
    ensures (forall m :: m in NewNotes(intent, st.user.addr, change) ==> Reachable(intent, st, m.to))
       <==> (forall m :: m in intent.transfers ==> Reachable(intent, st, m.to))
            && (change != map[] ==> Reachable(intent, st, st.user.addr))
  {
    var user := st.user.addr;
    var back := MapSeq(ChangeNote(user, change), Ascending(change.Keys));
    AscendingIs(change.Keys);
    assert forall m :: m in NewNotes(intent, user, change) <==> m in intent.transfers || m in back;
    if change != map[] {
      var t :| t in change;
      assert t in Ascending(change.Keys);
      var i :| 0 <= i < |Ascending(change.Keys)| && Ascending(change.Keys)[i] == t;
      assert back[i] in back && back[i].to == user;
    } else {
      assert change.Keys == {};
      assert back == [];
    }
  }

  /** All that has to hold for a plan to be made. */
  ghost predicate Plannable(intent: Intent, st: UserState) {
    && (intent.register || st.registered)
    && PositiveAmounts(intent)
    && AllConvertible(Flows(intent))
    && AllCoverable(intent, st.notes)
    && (forall m :: m in intent.transfers ==> Reachable(intent, st, m.to))
    && (HasChange(intent, st.notes) ==> Reachable(intent, st, st.user.addr))
  }

  /** Given randomness, the part after covering succeeds exactly when every note has somewhere to go. */
  lemma PlacingSucceeds(env: Env, intent: Intent, st: UserState, rng: Rng, ms: seq<Move>)
    requires |ms| <= |intent.transfers| + |Flows(intent)| && EnoughDraws(intent, rng)
    ensures var start := StartWork(env, intent, st, rng);
            && start.Ok?
            && var w := PlaceAll(start.value.1, ms);
               && (w.Ok? <==> forall m :: m in ms ==> Reachable(intent, st, m.to))
               && (w.Ok? ==> WithdrawAll(intent.withdrawals, w.value.rng).Ok?)
  {
    var n := |intent.withdrawals|;
    StartWorkSucceeds(env, intent, st, rng, 3 * |ms| + n, |ms|);
    var w := StartWork(env, intent, st, rng).value.1;
    PlaceAllSucceeds(w, ms, n, 0);
    if PlaceAll(w, ms).Ok? {
      WithdrawAllSucceeds(intent.withdrawals, PlaceAll(w, ms).value.rng, 0);
    }
  }

  /** Given randomness and sums in range, a plan is made exactly when the user is registered or
      registering, every amount is positive and fits, every token can be covered, and everybody who is
      sent a note can be reached. */
  lemma PlanSucceedsExactly(env: Env, intent: Intent, st: UserState, rng: Rng)
    requires SafeSums(intent) && EnoughDraws(intent, rng)
    ensures MakePlan(env, intent, st, rng).Ok? <==> Plannable(intent, st)
  {
    if (intent.register || st.registered) && PositiveAmounts(intent) && AllConvertible(Flows(intent)) {
      var balance := Balances(intent).value;
      var tokens := Ascending(balance.Keys);
      BalanceIs(intent, balance);
      CoverExactly(intent, st.notes, balance, tokens);
      if CoverAll(st.notes, balance, tokens).Ok? {
        var cover := CoverAll(st.notes, balance, tokens).value;
        NewNotesFit(intent, st.notes, st.user.addr, balance, cover);
        NewNotesReach(intent, st, cover.change);
        PlacingSucceeds(env, intent, st, rng, NewNotes(intent, st.user.addr, cover.change));
      }
    }
  }

  // ---- the refusal ----

  /** `t` is the smallest token whose outflow cannot be covered. */
  ghost predicate SmallestShort(intent: Intent, notes: seq<Note>, t: Felt) {
    && (exists f :: f in Flows(intent) && f.token == t)
    && !Coverable(notes, t, Total(Flows(intent), t))
    && (forall f :: f in Flows(intent) && f.token < t ==> Coverable(notes, f.token, Total(Flows(intent), f.token)))
  }

  /** Notes of the token that are held but cannot be spent. */
  function OpenIn(token: Felt): Note -> bool {
    (n: Note) => n.token == token && n.open
  }

  /** When some token cannot be covered, the refusal names the smallest such token and exactly the gap
      between its deficit and its spendable notes. */
  lemma ShortfallIsTheGap(env: Env, intent: Intent, st: UserState, rng: Rng)
    requires SafeSums(intent) && (intent.register || st.registered) && PositiveAmounts(intent)
    requires AllConvertible(Flows(intent)) && !AllCoverable(intent, st.notes)
    ensures exists t :: SmallestShort(intent, st.notes, t)
                     && MakePlan(env, intent, st, rng) == Err(Shortage(st.notes, t, -Total(Flows(intent), t)))
  {
    var t := CoverIntentRefusal(intent, st.notes);
  }

  lemma CoverIntentRefusal(intent: Intent, notes: seq<Note>) returns (t: Felt)
    requires SafeSums(intent) && PositiveAmounts(intent) && AllConvertible(Flows(intent))
        && !AllCoverable(intent, notes)
    ensures SmallestShort(intent, notes, t)
    ensures CoverIntent(intent, notes) == Err(Shortage(notes, t, -Total(Flows(intent), t)))
  {
    var balance := Balances(intent).value;
    BalanceIs(intent, balance);
    t := CoverRefusal(intent, notes, balance, Ascending(balance.Keys));
  }

  lemma CoverRefusal(intent: Intent, notes: seq<Note>, balance: map<Felt, int>, tokens: seq<Felt>) returns (t: Felt)
    requires BalancedAs(intent, balance) && tokens == Ascending(balance.Keys) && !AllCoverable(intent, notes)
    ensures SmallestShort(intent, notes, t)
    ensures CoverAll(notes, balance, tokens) == Err(Shortage(notes, t, -Total(Flows(intent), t)))
  {
    CoverExactly(intent, notes, balance, tokens);
    var i := SomeRefused(notes, balance, tokens);
    AscendingSorted(balance.Keys);
    t := tokens[i];
    ShortAt(intent, notes, balance, tokens, i);
  }

  lemma SomeRefused(notes: seq<Note>, balance: map<Felt, int>, tokens: seq<Felt>) returns (i: nat)
    requires forall t :: t in tokens ==> InI128(NetOf(balance, t))
    requires CoverAll(notes, balance, tokens).Err?
    ensures i < |tokens| && !Coverable(notes, tokens[i], NetOf(balance, tokens[i]))
    ensures forall j :: 0 <= j < i ==> Coverable(notes, tokens[j], NetOf(balance, tokens[j]))
    ensures CoverAll(notes, balance, tokens) == Err(Shortage(notes, tokens[i], -NetOf(balance, tokens[i])))
  {
    CoverAllExactly(notes, balance, tokens);
    i :| FirstRefused(notes, balance, tokens, i);
    FirstRefusedIs(notes, balance, tokens, i);
  }

  lemma ShortAt(intent: Intent, notes: seq<Note>, balance: map<Felt, int>, tokens: seq<Felt>, i: nat)
    requires BalancedAs(intent, balance) && i < |tokens|
    requires forall t :: t in tokens <==> exists f :: f in Flows(intent) && f.token == t
    requires forall j, k :: 0 <= j < k < |tokens| ==> tokens[j] < tokens[k]
    requires !Coverable(notes, tokens[i], NetOf(balance, tokens[i]))
    requires forall j :: 0 <= j < i ==> Coverable(notes, tokens[j], NetOf(balance, tokens[j]))
    ensures SmallestShort(intent, notes, tokens[i])
  {
    SmallerAreCoverable(intent, notes, balance, tokens, i);
    assert tokens[i] in tokens;
  }

  lemma FirstRefusedIs(notes: seq<Note>, balance: map<Felt, int>, tokens: seq<Felt>, i: int)
    requires forall t :: t in tokens ==> InI128(NetOf(balance, t))
    requires FirstRefused(notes, balance, tokens, i)
    ensures 0 <= i < |tokens| && !Coverable(notes, tokens[i], NetOf(balance, tokens[i]))
    ensures forall j :: 0 <= j < i ==> Coverable(notes, tokens[j], NetOf(balance, tokens[j]))
    ensures CoverAll(notes, balance, tokens) == Err(Shortage(notes, tokens[i], -NetOf(balance, tokens[i])))
  {
    RefusedExactlyWhenShort(notes, tokens[i], NetOf(balance, tokens[i]));
  }

  lemma SmallerAreCoverable(intent: Intent, notes: seq<Note>, balance: map<Felt, int>, tokens: seq<Felt>, i: nat)
    requires BalancedAs(intent, balance) && i < |tokens|
    requires forall t :: t in tokens <==> exists f :: f in Flows(intent) && f.token == t
    requires forall j, k :: 0 <= j < k < |tokens| ==> tokens[j] < tokens[k]
    requires forall j :: 0 <= j < i ==> Coverable(notes, tokens[j], NetOf(balance, tokens[j]))
    ensures forall f :: f in Flows(intent) && f.token < tokens[i] ==>
              Coverable(notes, f.token, Total(Flows(intent), f.token))
  {
    forall f | f in Flows(intent) && f.token < tokens[i]
      ensures Coverable(notes, f.token, Total(Flows(intent), f.token))
    {
      assert f.token in tokens;
      var j :| 0 <= j < |tokens| && tokens[j] == f.token;
      assert j < i;
      assert Coverable(notes, f.token, NetOf(balance, f.token));
    }
  }

  /** The error for a token with this deficit. */
  function Shortage(notes: seq<Note>, t: Felt, deficit: int): Error
    requires Oversize(notes, t) || deficit >= Sum(Filter(Spendable(t), notes))
  {
    if Oversize(notes, t) then Read
    else InsufficientBalance(t, deficit - Sum(Filter(Spendable(t), notes)), Available(notes, t))
  }

  lemma {:induction false} AvailableIs(notes: seq<Note>, t: Felt)
    ensures Available(notes, t) == Sum(Filter(Spendable(t), notes)) + Sum(Filter(OpenIn(t), notes))
    decreases |notes|
  {
    if notes != [] {
      var k := |notes| - 1;
      AvailableIs(notes[..k], t);
      var n := notes[k];
      SumConcat(Filter(Spendable(t), notes[..k]), if Spendable(t)(n) then [n] else []);
      SumConcat(Filter(OpenIn(t), notes[..k]), if OpenIn(t)(n) then [n] else []);
    }
  }

  /** Shortfall and available together make up the deficit exactly when no open note of the token is
      worth anything: open notes count as available but are never spent. */
  lemma ShortfallPlusAvailable(notes: seq<Note>, t: Felt, deficit: nat)
    requires !Oversize(notes, t) && deficit > Sum(Filter(Spendable(t), notes))
    ensures Shortage(notes, t, deficit).shortfall + Shortage(notes, t, deficit).available == deficit
       <==> Sum(Filter(OpenIn(t), notes)) == 0
  {
    AvailableIs(notes, t);
  }

  /** With one open note of 5 and a deficit of 3: shortfall 3, available 5. */
  lemma OpenNotesInflateAvailable(id: Felt, key: Felt)
    ensures var notes := [Note(id, 7, 5, key, 0, 1, true)];
            && !Oversize(notes, 7)
            && CoverToken(notes, 7, -3) == Err(InsufficientBalance(7, 3, 5))
  {
    var notes := [Note(id, 7, 5, key, 0, 1, true)];
    assert notes[..0] == [];
    FilterNone(Spendable(7), notes);
    assert Available([], 7) == 0;
    RefusedExactlyWhenShort(notes, 7, -3);
  }
}

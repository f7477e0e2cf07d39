/** Reading only the notes of the tokens that leave is as good as reading them all. */
module Narrow {
  import opened Field
  import opened Lists
  import opened Ledger
  import opened Hashes
  import opened Pool
  import opened Discovery
  import opened NoteDiscovery
  import opened NoteFacts
  import opened Planner
  import opened Covering
  import opened CoverAllTokens
  import opened StateDiscovery

  lemma {:induction false} AvailableIsAll(notes: seq<Note>, t: Felt)
    ensures Available(notes, t) == Sum(Filter(OfToken(t), notes))
    decreases |notes|
  {
    if notes != [] {
      var k := |notes| - 1;
      AvailableIsAll(notes[..k], t);
      SumConcat(Filter(OfToken(t), notes[..k]), if OfToken(t)(notes[k]) then [notes[k]] else []);
    }
  }

  lemma KeptSpendable(tokens: seq<Felt>, notes: seq<Note>, t: Felt)
    requires t in tokens
    ensures Filter(Spendable(t), Filter(Keep(tokens), notes)) == Filter(Spendable(t), notes)
    ensures Available(Filter(Keep(tokens), notes), t) == Available(notes, t)
  {
    FilterTwice(Keep(tokens), Spendable(t), notes);
    FilterTwice(Keep(tokens), OfToken(t), notes);
    AvailableIsAll(notes, t);
    AvailableIsAll(Filter(Keep(tokens), notes), t);
  }

  /** One token's cover sees only that token's notes. */
  lemma CoverTokenNarrow(tokens: seq<Felt>, notes: seq<Note>, t: Felt, bal: I128)
    requires t in tokens || bal >= 0
    ensures CoverToken(Filter(Keep(tokens), notes), t, bal) == CoverToken(notes, t, bal)
  {
    if bal < 0 {
      KeptSpendable(tokens, notes, t);
      SameCandidates(Filter(Keep(tokens), notes), notes, t, bal);
    }
  }

  lemma SameCandidates(some: seq<Note>, all: seq<Note>, t: Felt, bal: I128)
    requires Filter(Spendable(t), some) == Filter(Spendable(t), all) && Available(some, t) == Available(all, t)
    ensures CoverToken(some, t, bal) == CoverToken(all, t, bal)
  {
    assert Candidates(some, t) == Candidates(all, t);
  }

  /** A token nothing leaves in has no deficit. */
  lemma {:induction false} NothingLeaves(flows: seq<Flow>, t: Felt)
    requires forall f :: f in flows && f.token == t ==> f.amount >= 0
    ensures Total(flows, t) >= 0
    decreases |flows|
  {
    if flows != [] {
      NothingLeaves(flows[..|flows| - 1], t);
    }
  }

  lemma OnlyDeposits(intent: Intent, t: Felt)
    requires t !in TokensOut(intent)
    ensures Total(Flows(intent), t) >= 0
  {
    var ms := intent.transfers + intent.withdrawals;
    forall i | 0 <= i < |ms|
      ensures ms[i].token != t
    {
      assert TokensOut(intent)[i] == ms[i].token;
    }
    assert forall f :: f in MapSeq(Outflow, ms) ==> f.token != t;
    NothingLeaves(Flows(intent), t);
  }

  lemma {:induction false} CoverNarrow(intent: Intent, notes: seq<Note>, balance: map<Felt, int>, tokens: seq<Felt>)
    requires forall t :: t in tokens ==> InI128(NetOf(balance, t))
    requires forall t {:trigger NetOf(balance, t)} :: NetOf(balance, t) == Total(Flows(intent), t)
    ensures CoverAll(Filter(Keep(TokensOut(intent)), notes), balance, tokens) == CoverAll(notes, balance, tokens)
    decreases |tokens|
  {
    if tokens != [] {
      var k := |tokens| - 1;
      assert tokens == tokens[..k] + [tokens[k]];
      CoverNarrow(intent, notes, balance, tokens[..k]);
      if tokens[k] !in TokensOut(intent) {
        OnlyDeposits(intent, tokens[k]);
      }
      CoverTokenNarrow(TokensOut(intent), notes, tokens[k], NetOf(balance, tokens[k]));
    }
  }

  /** Whatever else the account holds, the plan, or the refusal with the amounts it reports, is the one
      that knowing every note would give. */
  lemma NarrowIsEnough(env: Env, p: State, who: Account, intent: Intent, st: UserState, rng: Rng)
    requires Wf(env, p) && Scannable(p) && SafeSums(intent) && StateOf(env, p, who, intent) == Ok(st) && st.registered
    ensures MakeDraft(env, intent, st.(notes := NotesOf(env, p, who, [])), rng) == MakeDraft(env, intent, st, rng)
  {
    var all, tokens := NotesOf(env, p, who, []), TokensOut(intent);
    NarrowNotes(env, p, who, tokens);
    SameDraft(env, intent, st, st.(notes := all), rng, tokens);
  }

  lemma NarrowNotes(env: Env, p: State, who: Account, tokens: seq<Felt>)
    requires Wf(env, p) && Scannable(p)
    ensures (if tokens == [] then [] else NotesOf(env, p, who, tokens))
         == Filter(Keep(tokens), NotesOf(env, p, who, []))
  {
    OpenWf(env, p);
    if tokens == [] {
      FilterNone(Keep(tokens), NotesOf(env, p, who, []));
    } else {
      FilterWhileScanning(env, p, who, tokens);
    }
  }

  lemma SameDraft(env: Env, intent: Intent, st: UserState, all: UserState, rng: Rng, tokens: seq<Felt>)
    requires SafeSums(intent) && tokens == TokensOut(intent)
    requires st == all.(notes := Filter(Keep(tokens), all.notes))
    ensures MakeDraft(env, intent, all, rng) == MakeDraft(env, intent, st, rng)
  {
    CoverIntentNarrow(intent, all.notes, tokens);
    match CoverIntent(intent, st.notes) {
      case Err(_) =>
      case Ok(cover) => SamePlaces(env, intent, st, all, rng, cover);
    }
  }

  /** What is left after covering does not look at the notes. */
  lemma SamePlaces(env: Env, intent: Intent, st: UserState, all: UserState, rng: Rng, cover: Cover)
    requires st == all.(notes := st.notes)
    ensures PlaceIntent(env, intent, all, rng, cover) == PlaceIntent(env, intent, st, rng, cover)
  {
    assert StartWork(env, intent, all, rng) == StartWork(env, intent, st, rng);
  }

  lemma CoverIntentNarrow(intent: Intent, notes: seq<Note>, tokens: seq<Felt>)
    requires SafeSums(intent) && tokens == TokensOut(intent)
    ensures CoverIntent(intent, Filter(Keep(tokens), notes)) == CoverIntent(intent, notes)
  {
    if AllConvertible(Flows(intent)) {
      var balance := Balances(intent).value;
      forall t
        ensures NetOf(balance, t) == Total(Flows(intent), t) && InI128(NetOf(balance, t))
      {
        BalancesInRange(intent, t);
      }
      CoverNarrow(intent, notes, balance, Ascending(balance.Keys));
    }
  }
}

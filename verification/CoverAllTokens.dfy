/** The cover of every token in turn: no note spent twice, every token balanced, refusal at the first
    token that cannot be covered. */
module CoverAllTokens {
  import opened Field
  import opened Lists
  import opened Ledger
  import opened Discovery
  import opened Planner
  import opened Covering

  function ChangeIn(change: map<Felt, U128>, t: Felt): int {
    if t in change then change[t] else 0
  }

  function Worth(spends: seq<Note>, t: Felt): int {
    Moved(NoteFlow, spends, t)
  }

  /** Notes of one token count in that token only. */
  lemma {:induction false} WorthOfOne(xs: seq<Note>, token: Felt, t: Felt)
    requires forall n :: n in xs ==> n.token == token
    ensures Worth(xs, t) == if t == token then Sum(xs) else 0
  {
    if xs != [] {
      var n := |xs| - 1;
      WorthOfOne(xs[..n], token, t);
      assert xs == xs[..n] + [xs[n]];
      MovedSnoc(NoteFlow, xs[..n], xs[n], t);
      SumConcat(xs[..n], [xs[n]]);
    } else {
      MovedNone(NoteFlow, t);
    }
  }

  /** One token's cover takes distinct spendable notes of that token and balances it. */
  lemma CoverTokenBalances(notes: seq<Note>, token: Felt, bal: I128, spent: seq<Note>, left: I128)
    requires CoverToken(notes, token, bal) == Ok((spent, left)) && NoDup(notes)
    ensures NoDup(spent) && forall n :: n in spent ==> n in notes && Spendable(token)(n)
    ensures left == bal + Sum(spent) && left >= 0
    ensures bal >= 0 ==> spent == []
  {
    if bal < 0 {
      var cs := Candidates(notes, token);
      CandidatesAre(notes, token);
      SpentIsFront(notes, token, bal, spent, left);
      FrontIsLargest(cs, |spent|);
      NoDupPerm(cs, spent);
    }
  }

  /** What a cover of `tokens` guarantees. */
  ghost predicate Balanced(notes: seq<Note>, balance: map<Felt, int>, tokens: seq<Felt>, c: Cover) {
    && NoDup(c.spends)
    && (forall n :: n in c.spends ==> n in notes && n.token in tokens && Spendable(n.token)(n))
    && (forall t :: t in c.change ==> t in tokens && c.change[t] > 0)
    && (forall t :: (if t in tokens then NetOf(balance, t) else 0) + Worth(c.spends, t) == ChangeIn(c.change, t))
  }

  lemma BalancedStep(notes: seq<Note>, balance: map<Felt, int>, tokens: seq<Felt>, c: Cover, token: Felt,
                     spent: seq<Note>, left: I128, c': Cover)
    requires Balanced(notes, balance, tokens, c) && token !in tokens
    requires NoDup(spent) && forall n :: n in spent ==> n in notes && Spendable(token)(n)
    requires left == NetOf(balance, token) + Sum(spent) && left >= 0
    requires c' == Cover(c.spends + spent, if 0 < left then c.change[token := left] else c.change)
    ensures Balanced(notes, balance, tokens + [token], c')
  {
    NoDupConcat(c.spends, spent);
    assert forall t :: t in tokens + [token] <==> t in tokens || t == token;
    forall t
      ensures (if t in tokens + [token] then NetOf(balance, t) else 0) + Worth(c'.spends, t) == ChangeIn(c'.change, t)
    {
      MovedConcat(NoteFlow, c.spends, spent, t);
      WorthOfOne(spent, token, t);
      assert (if t in tokens then NetOf(balance, t) else 0) + Worth(c.spends, t) == ChangeIn(c.change, t);
    }
  }

  lemma {:induction false} CoverIsBalanced(notes: seq<Note>, balance: map<Felt, int>, tokens: seq<Felt>, c: Cover)
    requires forall t :: t in tokens ==> InI128(NetOf(balance, t))
    requires CoverAll(notes, balance, tokens) == Ok(c) && NoDup(notes) && NoDup(tokens)
    ensures Balanced(notes, balance, tokens, c)
    decreases |tokens|
  {
    if tokens != [] {
      var n := |tokens| - 1;
      var init, token := tokens[..n], tokens[n];
      assert tokens == init + [token] && token in tokens;
      var before := CoverAll(notes, balance, init).value;
      CoverIsBalanced(notes, balance, init, before);
      var (spent, left) := CoverToken(notes, token, NetOf(balance, token)).value;
      CoverTokenBalances(notes, token, NetOf(balance, token), spent, left);
      BalancedStep(notes, balance, init, before, token, spent, left, c);
    } else {
      assert forall t :: Worth(c.spends, t) == 0;
    }
  }

  // ---- token by token ----

  function OfToken(t: Felt): Note -> bool {
    (n: Note) => n.token == t
  }

  /** Covering all tokens spends for each what covering it alone would, and nothing for any other. */
  lemma {:induction false} CoversEach(notes: seq<Note>, balance: map<Felt, int>, tokens: seq<Felt>, t: Felt)
    requires forall t :: t in tokens ==> InI128(NetOf(balance, t))
    requires CoverAll(notes, balance, tokens).Ok? && NoDup(notes) && NoDup(tokens)
    ensures t in tokens ==> CoverToken(notes, t, NetOf(balance, t)).Ok?
    ensures Filter(OfToken(t), CoverAll(notes, balance, tokens).value.spends)
         == if t in tokens then CoverToken(notes, t, NetOf(balance, t)).value.0 else []
    decreases |tokens|, 1
  {
    if tokens != [] {
      var n := |tokens| - 1;
      assert tokens == tokens[..n] + [tokens[n]];
      CoversLast(notes, balance, tokens[..n], tokens[n], t);
    }
  }

  lemma {:induction false} CoversLast(notes: seq<Note>, balance: map<Felt, int>, init: seq<Felt>, token: Felt, t: Felt)
    requires forall t :: t in init + [token] ==> InI128(NetOf(balance, t))
    requires CoverAll(notes, balance, init + [token]).Ok? && NoDup(notes) && NoDup(init) && token !in init
    ensures t in init + [token] ==> CoverToken(notes, t, NetOf(balance, t)).Ok?
    ensures Filter(OfToken(t), CoverAll(notes, balance, init + [token]).value.spends)
         == if t in init + [token] then CoverToken(notes, t, NetOf(balance, t)).value.0 else []
    decreases |init + [token]|, 0
  {
    var before, spent := CoverSplits(notes, balance, init, token);
    CoversEach(notes, balance, init, t);
    assert t in init + [token] <==> t in init || t == token;
    if t == token {
      assert Filter(OfToken(t), before) + spent == spent;
    } else {
      assert Filter(OfToken(t), before) + [] == Filter(OfToken(t), before);
    }
    FilterOneToken(before, spent, token, t);
  }

  lemma CoverSplits(notes: seq<Note>, balance: map<Felt, int>, init: seq<Felt>, token: Felt)
    returns (before: seq<Note>, spent: seq<Note>)
    requires forall t :: t in init + [token] ==> InI128(NetOf(balance, t))
    requires CoverAll(notes, balance, init + [token]).Ok? && NoDup(notes)
    ensures token in init + [token] && forall t :: t in init ==> t in init + [token]
    ensures CoverAll(notes, balance, init).Ok? && CoverAll(notes, balance, init).value.spends == before
    ensures CoverToken(notes, token, NetOf(balance, token)).Ok?
    ensures CoverToken(notes, token, NetOf(balance, token)).value.0 == spent
    ensures CoverAll(notes, balance, init + [token]).value.spends == before + spent
    ensures forall n :: n in spent ==> n.token == token
  {
    assert (init + [token])[..|init|] == init && token in init + [token];
    var (taken, left) := CoverToken(notes, token, NetOf(balance, token)).value;
    before, spent := CoverAll(notes, balance, init).value.spends, taken;
    CoverTokenBalances(notes, token, NetOf(balance, token), taken, left);
  }

  lemma FilterOneToken(before: seq<Note>, spent: seq<Note>, token: Felt, t: Felt)
    requires forall n :: n in spent ==> n.token == token
    ensures Filter(OfToken(t), before + spent) == Filter(OfToken(t), before) + (if t == token then spent else [])
  {
    FilterConcat(OfToken(t), before, spent);
    if t == token {
      FilterAll(OfToken(t), spent);
    } else {
      FilterNone(OfToken(t), spent);
    }
  }

  // ---- exactly when it succeeds ----

  /** The token needs no notes, or its spendable ones suffice and are all small enough to count. */
  predicate Coverable(notes: seq<Note>, token: Felt, bal: int) {
    bal >= 0 || (!Oversize(notes, token) && Sum(Filter(Spendable(token), notes)) >= -bal)
  }

  lemma CoverTokenExactly(notes: seq<Note>, token: Felt, bal: I128)
    ensures CoverToken(notes, token, bal).Ok? <==> Coverable(notes, token, bal)
  {
    if bal < 0 {
      RefusedExactlyWhenShort(notes, token, bal);
    }
  }

  /** All tokens are covered if every one can be; otherwise the refusal is that of the first that cannot. */
  lemma {:induction false} CoverAllExactly(notes: seq<Note>, balance: map<Felt, int>, tokens: seq<Felt>)
    requires forall t :: t in tokens ==> InI128(NetOf(balance, t))
    ensures CoverAll(notes, balance, tokens).Ok? <==>
              forall t :: t in tokens ==> Coverable(notes, t, NetOf(balance, t))
    ensures CoverAll(notes, balance, tokens).Err? ==>
              exists i :: FirstRefused(notes, balance, tokens, i)
    decreases |tokens|
  {
    if tokens != [] {
      var n := |tokens| - 1;
      var init, token := tokens[..n], tokens[n];
      assert tokens == init + [token] && token in tokens;
      CoverAllExactly(notes, balance, init);
      CoverTokenExactly(notes, token, NetOf(balance, token));
      if CoverAll(notes, balance, init).Err? {
        var i :| FirstRefused(notes, balance, init, i);
        StillFirst(notes, balance, tokens, i);
      } else if CoverAll(notes, balance, tokens).Err? {
        NowFirst(notes, balance, tokens);
      }
    }
  }

  lemma StillFirst(notes: seq<Note>, balance: map<Felt, int>, tokens: seq<Felt>, i: int)
    requires tokens != [] && forall t :: t in tokens ==> InI128(NetOf(balance, t))
    requires FirstRefused(notes, balance, tokens[..|tokens| - 1], i)
    ensures FirstRefused(notes, balance, tokens, i)
  {
    assert tokens[..|tokens| - 1][i] == tokens[i];
  }

  lemma NowFirst(notes: seq<Note>, balance: map<Felt, int>, tokens: seq<Felt>)
    requires tokens != [] && forall t :: t in tokens ==> InI128(NetOf(balance, t))
    requires CoverAll(notes, balance, tokens[..|tokens| - 1]).Ok? && CoverAll(notes, balance, tokens).Err?
    requires forall t :: t in tokens[..|tokens| - 1] ==> Coverable(notes, t, NetOf(balance, t))
    ensures FirstRefused(notes, balance, tokens, |tokens| - 1)
  {
    var n := |tokens| - 1;
    CoverTokenExactly(notes, tokens[n], NetOf(balance, tokens[n]));
    assert forall j :: 0 <= j < n ==> tokens[j] in tokens[..n];
  }

  predicate FirstRefused(notes: seq<Note>, balance: map<Felt, int>, tokens: seq<Felt>, i: int)
    requires forall t :: t in tokens ==> InI128(NetOf(balance, t))
  {
    && 0 <= i < |tokens| && tokens[i] in tokens && InI128(NetOf(balance, tokens[i]))
    && (forall j :: 0 <= j < i ==> Coverable(notes, tokens[j], NetOf(balance, tokens[j])))
    && !Coverable(notes, tokens[i], NetOf(balance, tokens[i]))
    && var r := CoverToken(notes, tokens[i], NetOf(balance, tokens[i]));
       r.Err? && CoverAll(notes, balance, tokens) == Err(r.error)
  }

  // ---- token order ----

  lemma {:induction false} AscendingMember(s: set<Felt>, t: Felt)
    ensures t in Ascending(s) <==> t in s
  {
    if s != {} {
      AscendingMember(s - {LeastOf(s)}, t);
    }
  }

  lemma {:induction false} AscendingSorted(s: set<Felt>)
    ensures forall i, j :: 0 <= i < j < |Ascending(s)| ==> Ascending(s)[i] < Ascending(s)[j]
  {
    if s != {} {
      var m := LeastOf(s);
      var rest := Ascending(s - {m});
      AscendingSorted(s - {m});
      forall j | 0 <= j < |rest|
        ensures m < rest[j]
      {
        AscendingMember(s - {m}, rest[j]);
      }
    }
  }

  lemma {:induction false} SortedNoDup(xs: seq<Felt>)
    requires forall i, j :: 0 <= i < j < |xs| ==> xs[i] < xs[j]
    ensures NoDup(xs)
  {
    if xs != [] {
      SortedNoDup(xs[..|xs| - 1]);
    }
  }

  lemma AscendingIs(s: set<Felt>)
    ensures forall t :: t in Ascending(s) <==> t in s
    ensures NoDup(Ascending(s))
  {
    forall t
      ensures t in Ascending(s) <==> t in s
    {
      AscendingMember(s, t);
    }
    AscendingSorted(s);
    SortedNoDup(Ascending(s));
  }
}

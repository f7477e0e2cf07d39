/** Where a plan's randomness comes from: each field is filled by its own draw, in the order of drawing. */
module Draws {
  import opened Field
  import opened Sealing
  import opened Lists
  import opened Hashes
  import opened Crypto
  import opened Actions
  import opened Discovery
  import opened Planner
  import opened Indices
  import opened Itemised
  import Batch

  // ---- reading the draws off the actions ----

  /** The felts drawn for an action, in order. */
  function FeltsIn(a: ClientAction): seq<Felt> {
    match a
    case SetViewingKey(random) => [random]
    case OpenChannel(_, _, random, salt) => [random, salt]
    case OpenSubchannel(_, _, _, _, _, salt) => [salt]
    case Withdraw(_, _, _, random) => [random]
    case _ => []
  }

  function FeltsOf(actions: seq<ClientAction>): seq<Felt> {
    Concat(MapSeq(FeltsIn, actions))
  }

  function SaltNat(a: ClientAction): nat {
    match a case CreateEncNote(_, _, _, _, _, salt) => salt case _ => 0
  }

  predicate SameRecipient(a: ClientAction, x: ClientAction) {
    a.CreateEncNote? && x.CreateEncNote? && a.recipient == x.recipient
  }

  predicate SamePlace(a: ClientAction, x: ClientAction) {
    SameRecipient(a, x) && a.token == x.token
  }

  predicate ChannelFor(o: ClientAction, x: ClientAction) {
    o.OpenChannel? && x.CreateEncNote? && o.recipient == x.recipient
  }

  predicate SubchannelFor(s: ClientAction, x: ClientAction) {
    s.OpenSubchannel? && x.CreateEncNote? && s.recipient == x.recipient && s.token == x.token
  }

  /** How many of the openings at the end were made for note `x`: it is the first to its recipient, and that is
      whose channel was opened last. */
  function OpenedFor(opens: seq<ClientAction>, before: seq<ClientAction>, x: ClientAction): (n: nat)
    ensures n <= |opens|
  {
    if opens != [] && ChannelFor(opens[|opens| - 1], x) && (forall y :: y in before ==> !SameRecipient(y, x)) then 1
    else 0
  }

  function SubOpenedFor(subs: seq<ClientAction>, before: seq<ClientAction>, x: ClientAction): (n: nat)
    ensures n <= |subs|
  {
    if subs != [] && SubchannelFor(subs[|subs| - 1], x) && (forall y :: y in before ==> !SamePlace(y, x)) then 1 else 0
  }

  /** The felts drawn while the notes were placed, note by note: the channel opened for it, then its subchannel. */
  function NoteFelts(opens: seq<ClientAction>, subs: seq<ClientAction>, creates: seq<ClientAction>): seq<Felt>
    decreases |creates|
  {
    if creates == [] then []
    else
      var init, x := creates[..|creates| - 1], creates[|creates| - 1];
      var o, s := |opens| - OpenedFor(opens, init, x), |subs| - SubOpenedFor(subs, init, x);
      NoteFelts(opens[..o], subs[..s], init) + FeltsOf(opens[o..]) + FeltsOf(subs[s..])
  }

  /** How many channels were opened before any note: the user's own, if the batch registers it. */
  function OwnOpened(actions: seq<ClientAction>): (n: nat)
    ensures n <= |Openings(actions)|
  {
    if ViewingKeys(actions) != [] && Openings(actions) != [] then 1 else 0
  }

  /** All felts of a batch in the order they are drawn: the viewing key's, the user's own channel, then note by note,
      then the withdrawals'. */
  function DrawnFelts(actions: seq<ClientAction>): seq<Felt> {
    var opens, n := Openings(actions), OwnOpened(actions);
    FeltsOf(ViewingKeys(actions)) + FeltsOf(opens[..n])
    + NoteFelts(opens[n..], SubOpenings(actions), Creates(actions)) + FeltsOf(Withdraws(actions))
  }

  /** The drawn salts a note can have, in order: neither 0 nor the open-note mark 1. */
  function UsableSalts(salts: seq<U120>): seq<nat> {
    if salts == [] then [] else (if salts[0] >= 2 then [salts[0]] else []) + UsableSalts(salts[1..])
  }

  // ---- sequence steps ----

  lemma FeltsSnoc(actions: seq<ClientAction>, a: ClientAction)
    ensures FeltsOf(actions + [a]) == FeltsOf(actions) + FeltsIn(a)
  {
    ConcatSnoc(MapSeq(FeltsIn, actions), FeltsIn(a));
    assert MapSeq(FeltsIn, actions + [a]) == MapSeq(FeltsIn, actions) + [FeltsIn(a)];
  }

  lemma FeltsOfOne(a: ClientAction)
    ensures FeltsOf([]) == [] && FeltsOf([a]) == FeltsIn(a)
  {
    var none: seq<ClientAction> := [];
    FeltsSnoc(none, a);
    assert none + [a] == [a];
  }

  lemma {:induction false} SaltTaken(rng: Rng)
    requires TakeSalt(rng).Ok?
    ensures UsableSalts(rng.salts) == [TakeSalt(rng).value.0] + UsableSalts(TakeSalt(rng).value.1.salts)
    decreases |rng.salts|
  {
    if rng.salts[0] <= OPEN_NOTE_SALT {
      SaltTaken(rng.(salts := rng.salts[1..]));
    }
  }

  // ---- one note ----

  /** What placing one note added to the lists, and what it drew. */
  ghost predicate Drew(w: Work, m: Move, w': Work, o: seq<ClientAction>, s: seq<ClientAction>, x: ClientAction) {
    && w'.opens == w.opens + o && w'.subs == w.subs + s && w'.creates == w.creates + [x]
    && x.CreateEncNote? && x.recipient == m.to && x.token == m.token
    && (if IsOpen(w.channels, m.to) then o == [] else |o| == 1 && ChannelFor(o[0], x))
    && (if HasSub(w.channels, m.to, m.token) then s == [] else |s| == 1 && SubchannelFor(s[0], x))
    && w.rng.felts == FeltsOf(o) + FeltsOf(s) + w'.rng.felts
    && UsableSalts(w.rng.salts) == [SaltNat(x)] + UsableSalts(w'.rng.salts)
  }

  lemma ChannelDraws(w: Work, r: Felt, w': Work) returns (o: seq<ClientAction>)
    requires EnsureChannel(w, r) == Ok(w')
    ensures w'.opens == w.opens + o && w'.subs == w.subs && w'.creates == w.creates && w'.rng.salts == w.rng.salts
    ensures if IsOpen(w.channels, r) then o == []
            else |o| == 1 && o[0].OpenChannel? && o[0].recipient == r
    ensures w.rng.felts == FeltsOf(o) + w'.rng.felts
    ensures forall q, t :: HasSub(w'.channels, q, t) <==> HasSub(w.channels, q, t)
  {
    if IsOpen(w.channels, r) {
      o := [];
    } else {
      o := [w'.opens[|w.opens|]];
      FeltsOfOne(o[0]);
      assert w.rng.felts[1..][1..] == w.rng.felts[2..];
      assert w.rng.felts == [w.rng.felts[0], w.rng.felts[1]] + w.rng.felts[2..];
    }
  }

  lemma SubchannelDraws(w: Work, r: Felt, t: Felt, w': Work) returns (s: seq<ClientAction>)
    requires r in w.channels && EnsureSubchannel(w, r, t) == Ok(w')
    ensures w'.subs == w.subs + s && w'.opens == w.opens && w'.creates == w.creates && w'.rng.salts == w.rng.salts
    ensures if HasSub(w.channels, r, t) then s == []
            else |s| == 1 && s[0].OpenSubchannel? && s[0].recipient == r && s[0].token == t
    ensures w.rng.felts == FeltsOf(s) + w'.rng.felts
  {
    if HasSub(w.channels, r, t) {
      s := [];
    } else {
      s := [w'.subs[|w.subs|]];
      FeltsOfOne(s[0]);
      assert w.rng.felts == [w.rng.felts[0]] + w.rng.felts[1..];
    }
  }

  lemma NoteDraws(w: Work, m: Move, w': Work) returns (x: ClientAction)
    requires m.to in w.channels && m.token in w.channels[m.to].subchannels && AddNote(w, m) == Ok(w')
    ensures w'.opens == w.opens && w'.subs == w.subs && w'.creates == w.creates + [x]
    ensures x.CreateEncNote? && x.recipient == m.to && x.token == m.token
    ensures w'.rng.felts == w.rng.felts && UsableSalts(w.rng.salts) == [SaltNat(x)] + UsableSalts(w'.rng.salts)
  {
    SaltTaken(w.rng);
    x := w'.creates[|w.creates|];
  }

  lemma PlaceNoteDraws(w: Work, m: Move, w': Work)
    returns (o: seq<ClientAction>, s: seq<ClientAction>, x: ClientAction)
    requires PlaceNote(w, m) == Ok(w')
    ensures Drew(w, m, w', o, s, x)
  {
    var w1 := EnsureChannel(w, m.to).value;
    var w2 := EnsureSubchannel(w1, m.to, m.token).value;
    o := ChannelDraws(w, m.to, w1);
    s := SubchannelDraws(w1, m.to, m.token, w2);
    x := NoteDraws(w2, m, w');
    DrawnInTurn(w.rng.felts, FeltsOf(o), w1.rng.felts, FeltsOf(s), w'.rng.felts);
  }

  lemma DrawnInTurn<T>(all: seq<T>, a: seq<T>, mid: seq<T>, b: seq<T>, rest: seq<T>)
    requires all == a + mid && mid == b + rest
    ensures all == a + b + rest
  {
  }

  // ---- all notes ----

  /** Everything opened since the first `own` channels was opened for a note created since, and every note created
      has its channel and subchannel. */
  ghost predicate AllAccounted(w: Work, own: nat) {
    && own <= |w.opens|
    && (forall y :: y in w.creates ==>
          y.CreateEncNote? && IsOpen(w.channels, y.recipient) && HasSub(w.channels, y.recipient, y.token))
    && (forall o :: o in w.opens[own..] ==> exists y :: y in w.creates && ChannelFor(o, y))
    && (forall s :: s in w.subs ==> exists y :: y in w.creates && SubchannelFor(s, y))
  }

  /** The above, and what was drawn for these notes; sealed. */
  ghost predicate Accounted(w: Work, own: nat, felts: seq<Felt>) {
    forall k: nat {:trigger Unsealed(k)} :: Unsealed(k) ==>
      AllAccounted(w, own) && felts == NoteFelts(w.opens[own..], w.subs, w.creates)
  }

  lemma OpenedForIs(w: Work, own: nat, m: Move, w': Work, o: seq<ClientAction>, s: seq<ClientAction>, x: ClientAction)
    requires AllAccounted(w, own) && Drew(w, m, w', o, s, x)
    ensures OpenedFor(w.opens[own..] + o, w.creates, x) == |o|
  {
    var opens := w.opens[own..] + o;
    if o != [] {
      assert opens[|opens| - 1] == o[0];
    } else if opens != [] && ChannelFor(opens[|opens| - 1], x) {
      assert opens[|opens| - 1] in w.opens[own..];
      var y :| y in w.creates && ChannelFor(opens[|opens| - 1], y);
      assert SameRecipient(y, x);
    }
  }

  lemma SubOpenedForIs(w: Work, own: nat, m: Move, w': Work, o: seq<ClientAction>, s: seq<ClientAction>,
                       x: ClientAction)
    requires AllAccounted(w, own) && Drew(w, m, w', o, s, x)
    ensures SubOpenedFor(w.subs + s, w.creates, x) == |s|
  {
    var subs := w.subs + s;
    if s != [] {
      assert subs[|subs| - 1] == s[0];
    } else if subs != [] && SubchannelFor(subs[|subs| - 1], x) {
      assert subs[|subs| - 1] in w.subs;
      var y :| y in w.creates && SubchannelFor(subs[|subs| - 1], y);
      assert SamePlace(y, x);
    }
  }

  lemma NoteFeltsNext(opens: seq<ClientAction>, subs: seq<ClientAction>, creates: seq<ClientAction>,
                      o: seq<ClientAction>, s: seq<ClientAction>, x: ClientAction)
    requires OpenedFor(opens + o, creates, x) == |o| && SubOpenedFor(subs + s, creates, x) == |s|
    ensures NoteFelts(opens + o, subs + s, creates + [x]) == NoteFelts(opens, subs, creates) + FeltsOf(o) + FeltsOf(s)
  {
    var all := creates + [x];
    assert all[..|all| - 1] == creates && all[|all| - 1] == x;
    assert (opens + o)[..|opens|] == opens && (opens + o)[|opens|..] == o;
    assert (subs + s)[..|subs|] == subs && (subs + s)[|subs|..] == s;
  }

  lemma OwnStays(opens: seq<ClientAction>, o: seq<ClientAction>, own: nat)
    requires own <= |opens|
    ensures (opens + o)[..own] == opens[..own] && (opens + o)[own..] == opens[own..] + o
  {
  }

  lemma AccountedNext(w: Work, own: nat, m: Move, w': Work, o: seq<ClientAction>, s: seq<ClientAction>, x: ClientAction,
                      felts: seq<Felt>)
    requires Accounted(w, own, felts) && Drew(w, m, w', o, s, x) && PlacesOne(w, m, w')
    ensures Accounted(w', own, felts + FeltsOf(o) + FeltsOf(s))
  {
    assert Unsealed(0);
    OpenedForIs(w, own, m, w', o, s, x);
    SubOpenedForIs(w, own, m, w', o, s, x);
    NoteFeltsNext(w.opens[own..], w.subs, w.creates, o, s, x);
    OwnStays(w.opens, o, own);
    AllAccountedNext(w, own, m, w', o, s, x);
  }

  lemma AllAccountedNext(w: Work, own: nat, m: Move, w': Work, o: seq<ClientAction>, s: seq<ClientAction>,
                         x: ClientAction)
    requires AllAccounted(w, own) && Drew(w, m, w', o, s, x) && PlacesOne(w, m, w')
    ensures AllAccounted(w', own)
  {
    CreatesAccounted(w, m, w', x);
    OwnStays(w.opens, o, own);
    OpensAccounted(w.opens[own..], o, w.creates, x);
    SubsAccounted(w.subs, s, w.creates, x);
  }

  lemma CreatesAccounted(w: Work, m: Move, w': Work, x: ClientAction)
    requires PlacesOne(w, m, w') && w'.creates == w.creates + [x]
    requires x.CreateEncNote? && x.recipient == m.to && x.token == m.token
    requires forall y :: y in w.creates ==>
               y.CreateEncNote? && IsOpen(w.channels, y.recipient) && HasSub(w.channels, y.recipient, y.token)
    ensures forall y :: y in w'.creates ==>
              y.CreateEncNote? && IsOpen(w'.channels, y.recipient) && HasSub(w'.channels, y.recipient, y.token)
  {
    PlaceNoteOpens(w, m, w');
    forall y | y in w'.creates
      ensures y.CreateEncNote? && IsOpen(w'.channels, y.recipient) && HasSub(w'.channels, y.recipient, y.token)
    {
      assert y in w.creates || y == x;
      PlaceNoteHasSub(w, m, w', y.recipient, y.token);
    }
  }

  lemma OpensAccounted(opens: seq<ClientAction>, o: seq<ClientAction>, creates: seq<ClientAction>, x: ClientAction)
    requires forall c :: c in o ==> ChannelFor(c, x)
    requires forall c :: c in opens ==> exists y :: y in creates && ChannelFor(c, y)
    ensures forall c :: c in opens + o ==> exists y :: y in creates + [x] && ChannelFor(c, y)
  {
    forall c | c in opens + o
      ensures exists y :: y in creates + [x] && ChannelFor(c, y)
    {
      if c in opens {
        var y :| y in creates && ChannelFor(c, y);
        assert y in creates + [x];
      } else {
        assert x in creates + [x] && ChannelFor(c, x);
      }
    }
  }

  lemma SubsAccounted(subs: seq<ClientAction>, s: seq<ClientAction>, creates: seq<ClientAction>, x: ClientAction)
    requires forall c :: c in s ==> SubchannelFor(c, x)
    requires forall c :: c in subs ==> exists y :: y in creates && SubchannelFor(c, y)
    ensures forall c :: c in subs + s ==> exists y :: y in creates + [x] && SubchannelFor(c, y)
  {
    forall c | c in subs + s
      ensures exists y :: y in creates + [x] && SubchannelFor(c, y)
    {
      if c in subs {
        var y :| y in creates && SubchannelFor(c, y);
        assert y in creates + [x];
      } else {
        assert x in creates + [x] && SubchannelFor(c, x);
      }
    }
  }

  /** What placing all notes drew: `felts`, when `own` channels were open before the first. */
  ghost predicate DrewAll(w: Work, w': Work, own: nat, felts: seq<Felt>) {
    && Accounted(w', own, felts) && own <= |w'.opens| && w'.opens[..own] == w.opens
    && w.rng.felts == felts + w'.rng.felts && |felts| == 2 * (|w'.opens| - own) + |w'.subs|
    && UsableSalts(w.rng.salts) == MapSeq(SaltNat, w'.creates) + UsableSalts(w'.rng.salts)
  }

  lemma FeltsSize(o: seq<ClientAction>, k: nat)
    requires |o| <= 1 && forall c :: c in o ==> |FeltsIn(c)| == k
    ensures |FeltsOf(o)| == k * |o|
  {
    if o != [] {
      FeltsOfOne(o[0]);
      assert o == [o[0]];
    }
  }

  lemma Joined<T>(all: seq<T>, a: seq<T>, b: seq<T>, c: seq<T>, rest: seq<T>)
    requires all == a + (b + c + rest)
    ensures all == (a + b + c) + rest
  {
  }

  lemma SaltsNext(creates: seq<ClientAction>, x: ClientAction, rest: seq<nat>)
    ensures MapSeq(SaltNat, creates) + ([SaltNat(x)] + rest) == MapSeq(SaltNat, creates + [x]) + rest
  {
    assert MapSeq(SaltNat, creates + [x]) == MapSeq(SaltNat, creates) + [SaltNat(x)];
  }

  lemma DrewNext(w: Work, before: Work, w': Work, own: nat, m: Move, o: seq<ClientAction>, s: seq<ClientAction>,
                 x: ClientAction, felts: seq<Felt>)
    requires DrewAll(w, before, own, felts) && Drew(before, m, w', o, s, x) && PlacesOne(before, m, w')
    ensures DrewAll(w, w', own, felts + FeltsOf(o) + FeltsOf(s))
  {
    AccountedNext(before, own, m, w', o, s, x, felts);
    FeltsSize(o, 2);
    FeltsSize(s, 1);
    Joined(w.rng.felts, felts, FeltsOf(o), FeltsOf(s), w'.rng.felts);
    SaltsNext(before.creates, x, UsableSalts(w'.rng.salts));
    OwnStays(before.opens, o, own);
  }

  lemma {:induction false} PlaceAllDraws(w: Work, ms: seq<Move>, w': Work) returns (felts: seq<Felt>)
    requires PlaceAll(w, ms) == Ok(w') && w.creates == [] && w.subs == []
    ensures DrewAll(w, w', |w.opens|, felts)
    decreases |ms|
  {
    if ms == [] {
      felts := [];
    } else {
      var k := |ms| - 1;
      var before := PlaceAll(w, ms[..k]).value;
      var drawn := PlaceAllDraws(w, ms[..k], before);
      var o, s, x := PlaceNoteDraws(before, ms[k], w');
      DrewNext(w, before, w', |w.opens|, ms[k], o, s, x, drawn);
      felts := drawn + FeltsOf(o) + FeltsOf(s);
    }
  }

  // ---- the rest of the batch ----

  lemma {:induction false} WithdrawAllDraws(ws: seq<Move>, rng: Rng)
    requires WithdrawAll(ws, rng).Ok?
    ensures var (actions, left) := WithdrawAll(ws, rng).value;
            rng.felts == FeltsOf(actions) + left.felts && |FeltsOf(actions)| == |actions|
    decreases |ws|
  {
    if ws != [] {
      var k := |ws| - 1;
      WithdrawAllDraws(ws[..k], rng);
      var (before, mid) := WithdrawAll(ws[..k], rng).value;
      var (actions, left) := WithdrawAll(ws, rng).value;
      FeltsSnoc(before, actions[|before|]);
      assert mid.felts == [mid.felts[0]] + left.felts;
    }
  }

  lemma StartDraws(env: Env, intent: Intent, st: UserState, rng: Rng, account: seq<ClientAction>, w: Work)
    requires StartWork(env, intent, st, rng) == Ok((account, w))
    ensures w.creates == [] && w.subs == [] && w.rng.salts == rng.salts && |w.opens| == |account| <= 1
    ensures rng.felts == FeltsOf(account) + FeltsOf(w.opens) + w.rng.felts
    ensures |FeltsOf(account)| == |account| && |FeltsOf(w.opens)| == 2 * |account|
  {
    if Registering(intent, st) {
      var (random, rest) := TakeFelt(rng).value;
      var id := env.IdentityOf(st.user);
      var self := OutgoingChannel(st.user.addr, id.pk, ChannelKey(env, st.user, id), false, map[]);
      var w0 := Work(st.channels[st.user.addr := self], st.outgoing, [], [], [], rest);
      var o := ChannelDraws(w0, st.user.addr, w);
      OwnDraws(rng.felts, random, rest.felts, account, o, w.rng.felts);
    }
  }

  lemma OwnDraws(felts: seq<Felt>, random: Felt, rest: seq<Felt>, account: seq<ClientAction>, o: seq<ClientAction>,
                 left: seq<Felt>)
    requires felts == [random] + rest && account == [SetViewingKey(random)]
    requires |o| == 1 && o[0].OpenChannel? && rest == FeltsOf(o) + left
    ensures felts == FeltsOf(account) + FeltsOf(o) + left && |FeltsOf(account)| == 1 && |FeltsOf(o)| == 2
  {
    FeltsOfOne(SetViewingKey(random));
    FeltsSize(o, 2);
  }

  /** Every random felt of a plan is its own draw: read off the actions in the order of drawing, they are the first of
      the source's felts, as many as there are fields to fill. And the notes' salts are, in order, the first usable
      salts of the source. */
  lemma DrawsInOrder(env: Env, intent: Intent, st: UserState, rng: Rng, plan: Plan)
    requires SafeSums(intent) && MakePlan(env, intent, st, rng) == Ok(plan)
    ensures DrawnFelts(plan.actions) <= rng.felts
    ensures |DrawnFelts(plan.actions)|
         == |ViewingKeys(plan.actions)| + 2 * |Openings(plan.actions)| + |SubOpenings(plan.actions)|
            + |Withdraws(plan.actions)|
    ensures MapSeq(SaltNat, Creates(plan.actions)) <= UsableSalts(rng.salts)
  {
    var d := MakeDraft(env, intent, st, rng).value;
    PlanParts(env, intent, st, rng, d);
    PartsAre(PartsOf(intent, d));
    DraftDraws(env, intent, st, rng, d);
    DrawnInParts(plan.actions, d.account, d.work.opens, d.work.subs, d.work.creates, d.withdraws);
  }

  lemma DrawnInParts(actions: seq<ClientAction>, account: seq<ClientAction>, opens: seq<ClientAction>,
                     subs: seq<ClientAction>, creates: seq<ClientAction>, withdraws: seq<ClientAction>)
    requires ViewingKeys(actions) == account && Openings(actions) == opens && SubOpenings(actions) == subs
    requires Creates(actions) == creates && Withdraws(actions) == withdraws
    requires |account| <= 1 && |account| <= |opens|
    ensures DrawnFelts(actions)
         == FeltsOf(account) + FeltsOf(opens[..|account|]) + NoteFelts(opens[|account|..], subs, creates)
            + FeltsOf(withdraws)
  {
    assert OwnOpened(actions) == |account|;
  }

  lemma DraftDraws(env: Env, intent: Intent, st: UserState, rng: Rng, d: Draft)
    requires SafeSums(intent) && MakeDraft(env, intent, st, rng) == Ok(d)
    ensures var own := |d.account|;
            && own <= 1 && own <= |d.work.opens|
            && var felts := FeltsOf(d.account) + FeltsOf(d.work.opens[..own])
                            + NoteFelts(d.work.opens[own..], d.work.subs, d.work.creates) + FeltsOf(d.withdraws);
               felts <= rng.felts && |felts| == own + 2 * |d.work.opens| + |d.work.subs| + |d.withdraws|
    ensures MapSeq(SaltNat, d.work.creates) <= UsableSalts(rng.salts)
  {
    var w := Batch.DraftSteps(env, intent, st, rng, d);
    StartDraws(env, intent, st, rng, d.account, w);
    var felts := PlaceAllDraws(w, NewNotes(intent, st.user.addr, d.cover.change), d.work);
    WithdrawAllDraws(intent.withdrawals, d.work.rng);
    InAll(rng.felts, FeltsOf(d.account), FeltsOf(w.opens), w.rng.felts, felts, d.work.rng.felts, FeltsOf(d.withdraws));
    assert Unsealed(0);
  }

  lemma InAll<T>(all: seq<T>, a: seq<T>, b: seq<T>, mid: seq<T>, c: seq<T>, late: seq<T>, e: seq<T>)
    requires all == a + b + mid && mid == c + late && e <= late
    ensures a + b + c + e <= all
  {
    assert late == e + late[|e|..];
    assert all == a + b + c + e + late[|e|..];
  }
}

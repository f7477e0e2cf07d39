/** While the planner places notes, the batch so far runs on the pool and leaves it as the working copy says. */
module Placing {
  import opened Field
  import opened Sealing
  import opened Hashes
  import opened Crypto
  import opened Ledger
  import opened Actions
  import opened Pool
  import opened Discovery
  import opened Planner
  import opened Mirror
  import opened Reorder

  /** The batch in phase order, given what goes before the channels and between subchannels and notes. */
  function Layout(pre: seq<ClientAction>, mid: seq<ClientAction>, w: Work): seq<ClientAction> {
    pre + w.opens + w.subs + mid + w.creates
  }

  /** The draws the pool needs: a channel's ephemeral scalar and the salts of channels and subchannels. Nothing is
      asked of those in `SetViewingKey` and `Withdraw`. */
  predicate GoodDraw(env: Env, a: ClientAction) {
    && (a.OpenChannel? ==> env.Scalar(a.random) && a.salt != 0)
    && (a.OpenSubchannel? ==> a.salt != 0)
  }

  predicate GoodDraws(env: Env, actions: seq<ClientAction>) {
    forall a :: a in actions ==> GoodDraw(env, a)
  }

  predicate Good(env: Env, w: Work) {
    GoodDraws(env, w.opens) && GoodDraws(env, w.subs)
  }

  predicate Shaped(env: Env, w: Work) {
    && (forall a :: a in w.opens ==> a.OpenChannel?)
    && (forall a :: a in w.subs ==> a.OpenSubchannel? && a.token in env.tokens)
    && (forall a :: a in w.creates ==> a.CreateEncNote?)
  }

  /** Room below 2^32 for `a` more channels, `b` more subchannels and `c` more notes in any list. */
  predicate Room(w: Work, a: nat, b: nat, c: nat) {
    && w.next + a < TWO_32 && c < TWO_32
    && (forall r :: r in w.channels ==> ChannelRoom(w.channels[r], b, c))
  }

  predicate ChannelRoom(ch: OutgoingChannel, b: nat, c: nat) {
    && |ch.subchannels| + b < TWO_32
    && forall t :: t in ch.subchannels ==> ch.subchannels[t].nextNote + c < TWO_32
  }

  /** What stays the same while notes are placed. */
  ghost predicate Setting(env: Env, who: Account, s: Machine, pre: seq<ClientAction>, mid: seq<ClientAction>) {
    && Sound(env) && who in env.accounts && Wf(env, s.pool)
    && (forall a :: a in pre ==> TokenInPlay(env, a))
    && (forall a :: a in mid ==> a.Deposit? || a.UseNote?)
  }

  ghost predicate Simulates(env: Env, who: Account, s: Machine, pre: seq<ClientAction>, mid: seq<ClientAction>,
                            w: Work, m: Machine)
  {
    && Exec(env, who, s, Layout(pre, mid, w)) == Some(m)
    && Registered(env, m.pool, who)
    && Mirrors(env, m.pool, who, w.channels, w.next)
  }

  /** All of the above, sealed. */
  ghost predicate Synced(env: Env, who: Account, s: Machine, pre: seq<ClientAction>, mid: seq<ClientAction>,
                         w: Work, m: Machine)
  {
    forall k: nat {:trigger Unsealed(k)} :: Unsealed(k) ==>
      Setting(env, who, s, pre, mid) && Shaped(env, w) && Simulates(env, who, s, pre, mid, w, m)
  }

  lemma OpenSynced(env: Env, who: Account, s: Machine, pre: seq<ClientAction>, mid: seq<ClientAction>, w: Work,
                   m: Machine)
    requires Synced(env, who, s, pre, mid, w, m)
    ensures Setting(env, who, s, pre, mid) && Shaped(env, w) && Simulates(env, who, s, pre, mid, w, m)
  {
    assert Unsealed(0);
  }

  lemma SealSynced(env: Env, who: Account, s: Machine, pre: seq<ClientAction>, mid: seq<ClientAction>, w: Work,
                   m: Machine)
    requires Setting(env, who, s, pre, mid) && Shaped(env, w) && Simulates(env, who, s, pre, mid, w, m)
    ensures Synced(env, who, s, pre, mid, w, m)
  {
  }

  /** Where a new channel, subchannel or note goes in the layout. */
  lemma LayoutOpens(pre: seq<ClientAction>, mid: seq<ClientAction>, w: Work, x: ClientAction)
    ensures Layout(pre, mid, w) == (pre + w.opens) + (w.subs + mid + w.creates)
    ensures Layout(pre, mid, w.(opens := w.opens + [x])) == ((pre + w.opens) + [x]) + (w.subs + mid + w.creates)
  {
  }

  lemma LayoutSubs(pre: seq<ClientAction>, mid: seq<ClientAction>, w: Work, x: ClientAction)
    ensures Layout(pre, mid, w) == (pre + w.opens + w.subs) + (mid + w.creates)
    ensures Layout(pre, mid, w.(subs := w.subs + [x])) == ((pre + w.opens + w.subs) + [x]) + (mid + w.creates)
  {
  }

  lemma LayoutCreates(pre: seq<ClientAction>, mid: seq<ClientAction>, w: Work, x: ClientAction)
    ensures Layout(pre, mid, w.(creates := w.creates + [x])) == Layout(pre, mid, w) + [x]
  {
  }

  predicate AllInPlay(env: Env, actions: seq<ClientAction>) {
    forall a :: a in actions ==> TokenInPlay(env, a)
  }

  /** Actions a new channel overtakes. */
  predicate BehindOpens(env: Env, bs: seq<ClientAction>) {
    forall b :: b in bs ==> TokenInPlay(env, b) && (b.OpenSubchannel? || b.Deposit? || b.UseNote? || b.CreateEncNote?)
  }

  /** Actions a new subchannel overtakes. */
  predicate BehindSubs(bs: seq<ClientAction>) {
    forall b :: b in bs ==> b.Deposit? || b.UseNote? || b.CreateEncNote?
  }

  lemma LayoutInPlay(env: Env, who: Account, s: Machine, pre: seq<ClientAction>, mid: seq<ClientAction>, w: Work)
    requires Setting(env, who, s, pre, mid) && Shaped(env, w)
    ensures AllInPlay(env, Layout(pre, mid, w))
  {
  }

  lemma OpensShaped(env: Env, who: Account, s: Machine, pre: seq<ClientAction>, mid: seq<ClientAction>, w: Work)
    requires Setting(env, who, s, pre, mid) && Shaped(env, w)
    ensures AllInPlay(env, pre + w.opens) && BehindOpens(env, w.subs + mid + w.creates)
  {
  }

  lemma SubsShaped(env: Env, who: Account, s: Machine, pre: seq<ClientAction>, mid: seq<ClientAction>, w: Work)
    requires Setting(env, who, s, pre, mid) && Shaped(env, w)
    ensures AllInPlay(env, pre + w.opens + w.subs) && BehindSubs(mid + w.creates)
  {
  }

  lemma SimulatedIsWf(env: Env, who: Account, s: Machine, pre: seq<ClientAction>, mid: seq<ClientAction>, w: Work,
                      m: Machine)
    requires Setting(env, who, s, pre, mid) && Shaped(env, w) && Simulates(env, who, s, pre, mid, w, m)
    ensures Wf(env, m.pool)
  {
    LayoutInPlay(env, who, s, pre, mid, w);
    ExecKeepsWf(env, who, s, Layout(pre, mid, w));
  }

  /** What holds of the pool wherever the planner's working copy stands. */
  lemma SyncedPool(env: Env, who: Account, s: Machine, pre: seq<ClientAction>, mid: seq<ClientAction>, w: Work,
                   m: Machine)
    requires Synced(env, who, s, pre, mid, w, m)
    ensures Exec(env, who, s, Layout(pre, mid, w)) == Some(m) && Wf(env, m.pool)
    ensures Registered(env, m.pool, who) && Mirrors(env, m.pool, who, w.channels, w.next)
  {
    OpenSynced(env, who, s, pre, mid, w, m);
    SimulatedIsWf(env, who, s, pre, mid, w, m);
  }

  lemma ShapedGrows(env: Env, w: Work, x: ClientAction, w': Work)
    requires Shaped(env, w) && TokenInPlay(env, x)
    requires || (x.OpenChannel? && w' == w.(opens := w.opens + [x]))
             || (x.OpenSubchannel? && w' == w.(subs := w.subs + [x]))
             || (x.CreateEncNote? && w' == w.(creates := w.creates + [x]))
    ensures Shaped(env, w')
  {
  }

  // ---- the three steps of placing a note, sealed ----

  ghost predicate ChannelStep(w: Work, r: Felt, w': Work) {
    forall k: nat {:trigger Unsealed(k)} :: Unsealed(k) ==> EnsureChannel(w, r) == Ok(w')
  }

  ghost predicate SubchannelStep(w: Work, r: Felt, token: Felt, w': Work) {
    forall k: nat {:trigger Unsealed(k)} :: Unsealed(k) ==> r in w.channels && EnsureSubchannel(w, r, token) == Ok(w')
  }

  ghost predicate NoteStep(w: Work, mv: Move, w': Work) {
    forall k: nat {:trigger Unsealed(k)} :: Unsealed(k) ==>
      mv.to in w.channels && mv.token in w.channels[mv.to].subchannels && AddNote(w, mv) == Ok(w')
  }

  ghost predicate PlaceStep(w: Work, mv: Move, w': Work) {
    forall k: nat {:trigger Unsealed(k)} :: Unsealed(k) ==> PlaceNote(w, mv) == Ok(w')
  }

  lemma PlaceSteps(w: Work, mv: Move, w': Work) returns (w1: Work, w2: Work)
    requires PlaceStep(w, mv, w')
    ensures ChannelStep(w, mv.to, w1) && SubchannelStep(w1, mv.to, mv.token, w2) && NoteStep(w2, mv, w')
  {
    assert Unsealed(0);
    w1 := EnsureChannel(w, mv.to).value;
    w2 := EnsureSubchannel(w1, mv.to, mv.token).value;
  }

  /** What ensuring a channel appends. */
  lemma EnsureChannelShape(w: Work, r: Felt, w': Work) returns (x: ClientAction)
    requires ChannelStep(w, r, w')
    ensures r in w.channels
    ensures w.channels[r].open ==> w' == w
    ensures !w.channels[r].open ==>
              && x.OpenChannel? && x.recipient == r && x.index == Index(w.next)
              && w' == w.(channels := w.channels[r := w.channels[r].(open := true)], next := w.next + 1,
                          opens := w.opens + [x], rng := w'.rng)
  {
    assert Unsealed(0);
    x := if w.channels[r].open then SetViewingKey(0) else w'.opens[|w.opens|];
  }

  lemma EnsureChannelSim(env: Env, who: Account, s: Machine, pre: seq<ClientAction>, mid: seq<ClientAction>,
                         w: Work, m: Machine, r: Felt, w': Work) returns (m': Machine)
    requires Synced(env, who, s, pre, mid, w, m)
    requires ChannelStep(w, r, w') && w.next < TWO_32 && Good(env, w')
    ensures Synced(env, who, s, pre, mid, w', m')
  {
    var x := EnsureChannelShape(w, r, w');
    if w.channels[r].open {
      m' := m;
    } else {
      assert x in w'.opens;
      m' := SyncOpen(env, who, s, pre, mid, w, m, x, w');
    }
  }

  lemma SyncOpen(env: Env, who: Account, s: Machine, pre: seq<ClientAction>, mid: seq<ClientAction>,
                 w: Work, m: Machine, x: ClientAction, w': Work) returns (m': Machine)
    requires Synced(env, who, s, pre, mid, w, m)
    requires x.OpenChannel? && x.recipient in w.channels && !w.channels[x.recipient].open
    requires x.index == w.next && GoodDraw(env, x)
    requires w' == w.(channels := w.channels[x.recipient := w.channels[x.recipient].(open := true)], next := w.next + 1,
                      opens := w.opens + [x], rng := w'.rng)
    ensures Synced(env, who, s, pre, mid, w', m')
  {
    OpenSynced(env, who, s, pre, mid, w, m);
    SimulatedIsWf(env, who, s, pre, mid, w, m);
    OpensShaped(env, who, s, pre, mid, w);
    LayoutOpens(pre, mid, w, x);
    m' := OpenNext(env, who, s, pre + w.opens, w.subs + mid + w.creates, m, w.channels, w.next, x);
    ShapedGrows(env, w, x, w.(opens := w.opens + [x]));
    SealSynced(env, who, s, pre, mid, w', m');
  }

  /** Opening a missing channel at the user's count: accepted, and accepted as early as its phase wants. */
  lemma OpenNext(env: Env, who: Account, s: Machine, a: seq<ClientAction>, bs: seq<ClientAction>, m: Machine,
                 channels: map<Felt, OutgoingChannel>, next: nat, x: ClientAction) returns (m': Machine)
    requires Sound(env) && who in env.accounts && Wf(env, s.pool) && Wf(env, m.pool) && Registered(env, m.pool, who)
    requires AllInPlay(env, a) && BehindOpens(env, bs)
    requires Exec(env, who, s, a + bs) == Some(m) && Mirrors(env, m.pool, who, channels, next)
    requires x.OpenChannel? && x.recipient in channels && !channels[x.recipient].open
    requires x.index == next && GoodDraw(env, x)
    ensures Exec(env, who, s, (a + [x]) + bs) == Some(m') && Registered(env, m'.pool, who)
    ensures Mirrors(env, m'.pool, who, channels[x.recipient := channels[x.recipient].(open := true)], next + 1)
  {
    OpenMirrors(env, m.pool, who, channels, next, x.recipient, x.random, x.salt);
    m' := m.(pool := AfterOpen(env, m.pool, who, IdOf(m.pool, x.recipient), x.random, x.salt));
    assert Step(env, who, m, x) == Some(m');
    InsertEarlier(env, who, s, a, bs, x);
  }

  /** What ensuring a subchannel appends. */
  lemma EnsureSubchannelShape(w: Work, r: Felt, token: Felt, w': Work) returns (x: ClientAction)
    requires SubchannelStep(w, r, token, w')
    ensures r in w.channels
    ensures token in w.channels[r].subchannels ==> w' == w
    ensures var ch := w.channels[r];
            token !in ch.subchannels ==>
              && x.OpenSubchannel? && x.recipient == r && x.recipientPk == ch.recipientPk && x.key == ch.key
              && x.token == token && x.index == Index(|ch.subchannels|)
              && w' == w.(channels := w.channels[r :=
                            ch.(subchannels := ch.subchannels[token := Subchannel(Index(|ch.subchannels|), 0)])],
                          subs := w.subs + [x], rng := w'.rng)
  {
    assert Unsealed(0);
    x := if token in w.channels[r].subchannels then SetViewingKey(0) else w'.subs[|w.subs|];
  }

  lemma EnsureSubchannelSim(env: Env, who: Account, s: Machine, pre: seq<ClientAction>, mid: seq<ClientAction>,
                            w: Work, m: Machine, r: Felt, token: Felt, w': Work) returns (m': Machine)
    requires Synced(env, who, s, pre, mid, w, m)
    requires r in w.channels && w.channels[r].open && token in env.tokens
    requires SubchannelStep(w, r, token, w') && |w.channels[r].subchannels| < TWO_32 && Good(env, w')
    ensures Synced(env, who, s, pre, mid, w', m')
  {
    var x := EnsureSubchannelShape(w, r, token, w');
    if token in w.channels[r].subchannels {
      m' := m;
    } else {
      assert x in w'.subs;
      m' := SyncOpenSub(env, who, s, pre, mid, w, m, x, w.channels[r], w');
    }
  }

  lemma SyncOpenSub(env: Env, who: Account, s: Machine, pre: seq<ClientAction>, mid: seq<ClientAction>,
                    w: Work, m: Machine, x: ClientAction, ch: OutgoingChannel, w': Work) returns (m': Machine)
    requires Synced(env, who, s, pre, mid, w, m)
    requires x.OpenSubchannel? && x.recipient in w.channels && w.channels[x.recipient] == ch && ch.open
    requires x.recipientPk == ch.recipientPk && x.key == ch.key && x.token !in ch.subchannels && x.token in env.tokens
    requires x.index == |ch.subchannels| && GoodDraw(env, x)
    requires w' == w.(channels := w.channels[x.recipient :=
                        ch.(subchannels := ch.subchannels[x.token := Subchannel(|ch.subchannels|, 0)])],
                      subs := w.subs + [x], rng := w'.rng)
    ensures Synced(env, who, s, pre, mid, w', m')
  {
    OpenSynced(env, who, s, pre, mid, w, m);
    SimulatedIsWf(env, who, s, pre, mid, w, m);
    SubsShaped(env, who, s, pre, mid, w);
    LayoutSubs(pre, mid, w, x);
    m' := OpenSubNext(env, who, s, pre + w.opens + w.subs, mid + w.creates, m, w.channels, w.next, x, ch);
    ShapedGrows(env, w, x, w.(subs := w.subs + [x]));
    SealSynced(env, who, s, pre, mid, w', m');
  }

  lemma OpenSubNext(env: Env, who: Account, s: Machine, a: seq<ClientAction>, bs: seq<ClientAction>, m: Machine,
                    channels: map<Felt, OutgoingChannel>, next: nat, x: ClientAction, ch: OutgoingChannel)
    returns (m': Machine)
    requires Sound(env) && who in env.accounts && Wf(env, s.pool) && Wf(env, m.pool) && Registered(env, m.pool, who)
    requires AllInPlay(env, a) && BehindSubs(bs)
    requires Exec(env, who, s, a + bs) == Some(m) && Mirrors(env, m.pool, who, channels, next)
    requires x.OpenSubchannel? && x.recipient in channels && channels[x.recipient] == ch && ch.open
    requires x.recipientPk == ch.recipientPk && x.key == ch.key && x.token !in ch.subchannels && x.token in env.tokens
    requires x.index == |ch.subchannels| && GoodDraw(env, x)
    ensures Exec(env, who, s, (a + [x]) + bs) == Some(m') && Registered(env, m'.pool, who)
    ensures Mirrors(env, m'.pool, who,
                    channels[x.recipient :=
                               ch.(subchannels := ch.subchannels[x.token := Subchannel(|ch.subchannels|, 0)])],
                    next)
  {
    SubMirrors(env, m.pool, who, channels, next, x.recipient, x.token, x.salt, ch);
    m' := m.(pool := AfterOpenSub(m.pool, x.key, x.token, x.salt));
    assert Step(env, who, m, x) == Some(m');
    InsertEarlier(env, who, s, a, bs, x);
  }

  /** What placing one note appends. */
  lemma AddNoteShape(w: Work, mv: Move, w': Work) returns (x: ClientAction)
    requires NoteStep(w, mv, w')
    ensures mv.to in w.channels && mv.token in w.channels[mv.to].subchannels
    ensures x.CreateEncNote? && x.recipient == mv.to && x.token == mv.token && x.amount == mv.amount
    ensures x.recipientPk == w.channels[mv.to].recipientPk && NoteSalt(x.noteSalt)
    ensures x.index == Index(w.channels[mv.to].subchannels[mv.token].nextNote)
    ensures w' == w.(channels := w.channels[mv.to := WithNote(w.channels[mv.to], mv.token)],
                     creates := w.creates + [x], rng := w'.rng)
  {
    assert Unsealed(0);
    x := w'.creates[|w.creates|];
  }

  lemma AddNoteSim(env: Env, who: Account, s: Machine, pre: seq<ClientAction>, mid: seq<ClientAction>,
                   w: Work, m: Machine, mv: Move, w': Work) returns (m': Machine)
    requires Synced(env, who, s, pre, mid, w, m)
    requires mv.to in w.channels && w.channels[mv.to].open && mv.token in w.channels[mv.to].subchannels
    requires w.channels[mv.to].subchannels[mv.token].nextNote < TWO_32 && NoteStep(w, mv, w')
    ensures Synced(env, who, s, pre, mid, w', m')
  {
    var x := AddNoteShape(w, mv, w');
    OpenSynced(env, who, s, pre, mid, w, m);
    SimulatedIsWf(env, who, s, pre, mid, w, m);
    LayoutCreates(pre, mid, w, x);
    m' := CreateNext(env, who, s, Layout(pre, mid, w), m, w.channels, w.next, x, w.channels[mv.to]);
    ShapedGrows(env, w, x, w.(creates := w.creates + [x]));
    SealSynced(env, who, s, pre, mid, w', m');
  }

  lemma CreateNext(env: Env, who: Account, s: Machine, a: seq<ClientAction>, m: Machine,
                   channels: map<Felt, OutgoingChannel>, next: nat, x: ClientAction, ch: OutgoingChannel)
    returns (m': Machine)
    requires Sound(env) && who in env.accounts && Wf(env, m.pool) && Registered(env, m.pool, who)
    requires Exec(env, who, s, a) == Some(m) && Mirrors(env, m.pool, who, channels, next)
    requires x.CreateEncNote? && x.recipient in channels && channels[x.recipient] == ch && ch.open
    requires x.recipientPk == ch.recipientPk && x.token in ch.subchannels
    requires x.index == ch.subchannels[x.token].nextNote && NoteSalt(x.noteSalt)
    ensures Exec(env, who, s, a + [x]) == Some(m') && Registered(env, m'.pool, who)
    ensures Mirrors(env, m'.pool, who, channels[x.recipient := WithNote(ch, x.token)], next)
  {
    NoteMirrors(env, m.pool, who, channels, next, x.recipient, x.token, x.amount, x.noteSalt, ch);
    m' := Machine(AfterCreate(m.pool, ch.key, x.token, x.amount, x.noteSalt),
                  Credit(m.net, x.token, -(x.amount as int)));
    assert Step(env, who, m, x) == Some(m');
    ExecSnoc(env, who, s, a, x);
  }

  // ---- one note, then all of them ----

  predicate Extends(w: Work, w': Work) {
    w.opens <= w'.opens && w.subs <= w'.subs
  }

  lemma EnsureChannelRoom(w: Work, r: Felt, w': Work, a: nat, b: nat, c: nat)
    requires ChannelStep(w, r, w') && Room(w, a + 1, b, c)
    ensures Room(w', a, b, c) && Extends(w, w') && r in w'.channels && w'.channels[r].open
  {
    var x := EnsureChannelShape(w, r, w');
  }

  lemma EnsureSubchannelRoom(w: Work, r: Felt, token: Felt, w': Work, a: nat, b: nat, c: nat)
    requires SubchannelStep(w, r, token, w') && Room(w, a, b + 1, c)
    ensures Room(w', a, b, c) && Extends(w, w')
    ensures r in w.channels && r in w'.channels
    ensures w'.channels[r].open == w.channels[r].open && token in w'.channels[r].subchannels
  {
    var x := EnsureSubchannelShape(w, r, token, w');
  }

  lemma AddNoteRoom(w: Work, mv: Move, w': Work, a: nat, b: nat, c: nat)
    requires NoteStep(w, mv, w') && Room(w, a, b, c + 1)
    ensures Room(w', a, b, c) && Extends(w, w')
  {
    var x := AddNoteShape(w, mv, w');
  }

  lemma GoodPrefix(env: Env, w: Work, w': Work)
    requires Extends(w, w') && Good(env, w')
    ensures Good(env, w)
  {
    assert forall a :: a in w.opens ==> a in w'.opens;
    assert forall a :: a in w.subs ==> a in w'.subs;
  }

  lemma PlaceNoteSim(env: Env, who: Account, s: Machine, pre: seq<ClientAction>, mid: seq<ClientAction>,
                     w: Work, m: Machine, mv: Move, w': Work, n: nat) returns (m': Machine)
    requires Synced(env, who, s, pre, mid, w, m)
    requires PlaceStep(w, mv, w') && Room(w, n + 1, n + 1, n + 1) && Good(env, w') && mv.token in env.tokens
    ensures Synced(env, who, s, pre, mid, w', m') && Room(w', n, n, n) && Extends(w, w')
  {
    var w1, w2 := PlaceSteps(w, mv, w');
    EnsureChannelRoom(w, mv.to, w1, n, n + 1, n + 1);
    EnsureSubchannelRoom(w1, mv.to, mv.token, w2, n, n, n + 1);
    AddNoteRoom(w2, mv, w', n, n, n);
    GoodPrefix(env, w2, w');
    GoodPrefix(env, w1, w2);
    var m1 := EnsureChannelSim(env, who, s, pre, mid, w, m, mv.to, w1);
    var m2 := EnsureSubchannelSim(env, who, s, pre, mid, w1, m1, mv.to, mv.token, w2);
    m' := AddNoteSim(env, who, s, pre, mid, w2, m2, mv, w');
  }

  lemma PlaceNoteExtends(w: Work, mv: Move, w': Work)
    requires PlaceNote(w, mv) == Ok(w')
    ensures Extends(w, w')
  {
  }

  lemma {:induction false} PlaceAllSim(env: Env, who: Account, s: Machine, pre: seq<ClientAction>,
                                       mid: seq<ClientAction>, w: Work, m: Machine, ms: seq<Move>, w': Work, n: nat)
    returns (m': Machine)
    requires Synced(env, who, s, pre, mid, w, m)
    requires PlaceAll(w, ms) == Ok(w') && Good(env, w')
    requires Room(w, |ms| + n, |ms| + n, |ms| + n) && forall mv :: mv in ms ==> mv.token in env.tokens
    ensures Synced(env, who, s, pre, mid, w', m') && Room(w', n, n, n)
    decreases |ms|
  {
    if ms == [] {
      m' := m;
    } else {
      var init, mv := ms[..|ms| - 1], ms[|ms| - 1];
      var w1 := PlaceAll(w, init).value;
      PlaceNoteExtends(w1, mv, w');
      GoodPrefix(env, w1, w');
      var m1 := PlaceAllSim(env, who, s, pre, mid, w, m, init, w1, n + 1);
      m' := PlaceNoteSim(env, who, s, pre, mid, w1, m1, mv, w', n);
    }
  }
}

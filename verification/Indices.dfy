/** Which index every new channel, subchannel and note gets, for any intent and any channel map. */
module Indices {
  import opened Field
  import opened Sealing
  import opened Lists
  import opened Hashes
  import opened Actions
  import opened Discovery
  import opened Planner
  import opened Emitted
  import Batch

  predicate IsOpen(channels: map<Felt, OutgoingChannel>, r: Felt) {
    r in channels && channels[r].open
  }

  predicate HasSub(channels: map<Felt, OutgoingChannel>, r: Felt, t: Felt) {
    r in channels && t in channels[r].subchannels
  }

  function SubCount(channels: map<Felt, OutgoingChannel>, r: Felt): nat {
    if r in channels then |channels[r].subchannels| else 0
  }

  function NextNote(channels: map<Felt, OutgoingChannel>, r: Felt, t: Felt): nat {
    if HasSub(channels, r, t) then channels[r].subchannels[t].nextNote else 0
  }

  /** How many of the moves go to `r` in token `t`. */
  function CountOn(ms: seq<Move>, r: Felt, t: Felt): nat {
    if ms == [] then 0
    else
      var m := ms[|ms| - 1];
      CountOn(ms[..|ms| - 1], r, t) + (if m.to == r && m.token == t then 1 else 0)
  }

  predicate OpensAt(x: ClientAction, r: Felt, index: nat) {
    x.OpenChannel? && x.recipient == r && x.index == Index(index)
  }

  predicate SubsAt(x: ClientAction, r: Felt, t: Felt, index: nat) {
    x.OpenSubchannel? && x.recipient == r && x.token == t && x.index == Index(index)
  }

  predicate CreatesAt(x: ClientAction, m: Move, index: nat) {
    x.CreateEncNote? && x.recipient == m.to && x.token == m.token && x.amount == m.amount && x.index == Index(index)
  }

  // ---- runs, sealed: a proof looks inside one only through the lemmas below ----

  /** Placing `m` takes the working copy from `w` to `w'`. */
  ghost predicate PlacesOne(w: Work, m: Move, w': Work) {
    forall k: nat {:trigger Unsealed(k)} :: Unsealed(k) ==> PlaceNote(w, m) == Ok(w')
  }

  ghost predicate PlacesAll(w: Work, ms: seq<Move>, w': Work) {
    forall k: nat {:trigger Unsealed(k)} :: Unsealed(k) ==> PlaceAll(w, ms) == Ok(w')
  }

  lemma SealPlaces(w: Work, ms: seq<Move>, w': Work)
    requires PlaceAll(w, ms) == Ok(w')
    ensures PlacesAll(w, ms, w')
  {
  }

  lemma SplitPlaces(w: Work, ms: seq<Move>, w': Work) returns (mid: Work)
    requires PlacesAll(w, ms, w') && ms != []
    ensures PlacesAll(w, ms[..|ms| - 1], mid) && PlacesOne(mid, ms[|ms| - 1], w')
  {
    assert Unsealed(0);
    mid := PlaceAll(w, ms[..|ms| - 1]).value;
  }

  lemma NothingToPlace(w: Work, w': Work)
    requires PlacesAll(w, [], w')
    ensures w' == w
  {
    assert Unsealed(0);
  }

  // ---- notes ----

  lemma PlaceNoteCreates(w: Work, m: Move, w': Work)
    requires PlacesOne(w, m, w')
    ensures w'.creates != [] && w'.creates[..|w'.creates| - 1] == w.creates
    ensures CreatesAt(w'.creates[|w'.creates| - 1], m, NextNote(w.channels, m.to, m.token))
  {
    assert Unsealed(0);
  }

  lemma PlaceNoteCounts(w: Work, m: Move, w': Work, r: Felt, t: Felt)
    requires PlacesOne(w, m, w')
    ensures NextNote(w'.channels, r, t) == NextNote(w.channels, r, t) + if r == m.to && t == m.token then 1 else 0
  {
    assert Unsealed(0);
  }

  /** Where the working copy stands after the batch. */
  lemma {:induction false} NextNotes(w: Work, ms: seq<Move>, w': Work, r: Felt, t: Felt)
    requires PlacesAll(w, ms, w')
    ensures NextNote(w'.channels, r, t) == NextNote(w.channels, r, t) + CountOn(ms, r, t)
    decreases |ms|
  {
    if ms != [] {
      var k := |ms| - 1;
      var mid := SplitPlaces(w, ms, w');
      NextNotes(w, ms[..k], mid, r, t);
      PlaceNoteCounts(mid, ms[k], w', r, t);
    } else {
      NothingToPlace(w, w');
    }
  }

  lemma {:induction false} CreatesMany(w: Work, ms: seq<Move>, w': Work)
    requires PlacesAll(w, ms, w') && w.creates == []
    ensures |w'.creates| == |ms|
    decreases |ms|
  {
    if ms != [] {
      var k := |ms| - 1;
      var mid := SplitPlaces(w, ms, w');
      CreatesMany(w, ms[..k], mid);
      PlaceNoteCreates(mid, ms[k], w');
    } else {
      NothingToPlace(w, w');
    }
  }

  lemma LastNote(w: Work, ms: seq<Move>, w': Work)
    requires PlacesAll(w, ms, w') && w.creates == [] && ms != []
    ensures |w'.creates| == |ms|
    ensures var k := |ms| - 1;
            CreatesAt(w'.creates[k], ms[k],
                      NextNote(w.channels, ms[k].to, ms[k].token) + CountOn(ms[..k], ms[k].to, ms[k].token))
  {
    var k := |ms| - 1;
    var mid := SplitPlaces(w, ms, w');
    PlaceNoteCreates(mid, ms[k], w');
    NextNotes(w, ms[..k], mid, ms[k].to, ms[k].token);
    CreatesMany(w, ms[..k], mid);
  }

  /** Each note takes its subchannel's next index plus the number of notes before it in the batch that
      go to the same subchannel. */
  lemma {:induction false} NoteIndices(w: Work, ms: seq<Move>, w': Work, i: nat)
    requires PlacesAll(w, ms, w') && w.creates == [] && i < |ms|
    ensures |w'.creates| == |ms|
    ensures CreatesAt(w'.creates[i], ms[i],
                      NextNote(w.channels, ms[i].to, ms[i].token) + CountOn(ms[..i], ms[i].to, ms[i].token))
    decreases |ms|
  {
    var k := |ms| - 1;
    if i == k {
      LastNote(w, ms, w');
    } else {
      var mid := SplitPlaces(w, ms, w');
      PlaceNoteCreates(mid, ms[k], w');
      NoteIndices(w, ms[..k], mid, i);
      assert ms[..k][..i] == ms[..i];
    }
  }

  lemma {:induction false} CountGrows(ms: seq<Move>, i: nat, j: nat)
    requires i < j <= |ms|
    ensures CountOn(ms[..i], ms[i].to, ms[i].token) < CountOn(ms[..j], ms[i].to, ms[i].token) <= j
    decreases j
  {
    var r, t := ms[i].to, ms[i].token;
    assert ms[..j][..j - 1] == ms[..j - 1];
    if i == j - 1 {
      CountAtMost(ms[..i], r, t);
    } else {
      CountGrows(ms, i, j - 1);
    }
  }

  lemma {:induction false} CountAtMost(ms: seq<Move>, r: Felt, t: Felt)
    ensures CountOn(ms, r, t) <= |ms|
  {
    if ms != [] {
      CountAtMost(ms[..|ms| - 1], r, t);
    }
  }

  /** No two new notes share a slot, however often a recipient repeats and even when it is the user. */
  lemma NotesApart(w: Work, ms: seq<Move>, w': Work, i: nat, j: nat)
    requires PlacesAll(w, ms, w') && w.creates == [] && i < j < |ms|
    requires NextNote(w.channels, ms[i].to, ms[i].token) + |ms| < TWO_32
    ensures |w'.creates| == |ms| && w'.creates[i].CreateEncNote? && w'.creates[j].CreateEncNote?
    ensures !(w'.creates[i].recipient == w'.creates[j].recipient && w'.creates[i].token == w'.creates[j].token
              && w'.creates[i].index == w'.creates[j].index)
  {
    NoteIndices(w, ms, w', i);
    NoteIndices(w, ms, w', j);
    CountGrows(ms, i, j);
  }

  // ---- channels ----

  function ToWhom(a: ClientAction): Felt {
    if a.OpenChannel? then a.recipient else 0
  }

  /** Channels are opened to distinct recipients, which are open from then on, at the indices that
      follow the user's count. */
  ghost predicate OpensNumbered(first: nat, w: Work) {
    && w.next == first + |w.opens|
    && (forall k :: 0 <= k < |w.opens| ==> w.opens[k].OpenChannel? && w.opens[k].index == Index(first + k))
    && NoDup(MapSeq(ToWhom, w.opens))
    && forall r :: r in MapSeq(ToWhom, w.opens) ==> IsOpen(w.channels, r)
  }

  lemma PlaceNoteOpens(w: Work, m: Move, w': Work)
    requires PlacesOne(w, m, w')
    ensures m.to in w.channels && forall r {:trigger IsOpen(w'.channels, r)} ::
              IsOpen(w'.channels, r) <==> IsOpen(w.channels, r) || r == m.to
    ensures IsOpen(w.channels, m.to) ==> w'.opens == w.opens && w'.next == w.next
    ensures !IsOpen(w.channels, m.to) ==>
              && w'.opens != [] && w'.opens[..|w'.opens| - 1] == w.opens && w'.next == w.next + 1
              && OpensAt(w'.opens[|w'.opens| - 1], m.to, w.next)
  {
    assert Unsealed(0);
  }

  lemma OpenedOn(first: nat, w: Work, m: Move, w': Work)
    requires PlacesOne(w, m, w') && OpensNumbered(first, w)
    ensures OpensNumbered(first, w')
    ensures forall r :: r in MapSeq(ToWhom, w'.opens) <==>
              r in MapSeq(ToWhom, w.opens) || (r == m.to && !IsOpen(w.channels, m.to))
  {
    PlaceNoteOpens(w, m, w');
    if !IsOpen(w.channels, m.to) {
      var k := |w.opens|;
      assert w'.opens == w.opens + [w'.opens[k]];
      assert MapSeq(ToWhom, w'.opens) == MapSeq(ToWhom, w.opens) + [m.to];
    }
  }

  predicate SentTo(ms: seq<Move>, r: Felt) {
    exists m :: m in ms && m.to == r
  }

  /** A channel is opened for exactly those recipients that have none yet, once each. */
  lemma {:induction false} ChannelsOpened(first: nat, w: Work, ms: seq<Move>, w': Work, r: Felt)
    requires PlacesAll(w, ms, w') && OpensNumbered(first, w)
    ensures OpensNumbered(first, w')
    ensures r in MapSeq(ToWhom, w'.opens) <==> r in MapSeq(ToWhom, w.opens) || (SentTo(ms, r) && !IsOpen(w.channels, r))
    ensures IsOpen(w'.channels, r) <==> IsOpen(w.channels, r) || SentTo(ms, r)
    decreases |ms|
  {
    if ms != [] {
      var k := |ms| - 1;
      var init := ms[..k];
      var mid := SplitPlaces(w, ms, w');
      ChannelsOpened(first, w, init, mid, r);
      PlaceNoteOpens(mid, ms[k], w');
      OpenedOn(first, mid, ms[k], w');
      assert SentTo(ms, r) <==> SentTo(init, r) || ms[k].to == r by {
        assert forall m :: m in ms <==> m in init || m == ms[k];
      }
    } else {
      NothingToPlace(w, w');
    }
  }

  // ---- subchannels ----

  /** How many of the opened subchannels go to `r`. */
  function CountOpened(subs: seq<ClientAction>, r: Felt): nat {
    if subs == [] then 0
    else
      var x := subs[|subs| - 1];
      CountOpened(subs[..|subs| - 1], r) + (if x.OpenSubchannel? && x.recipient == r then 1 else 0)
  }

  predicate OpensSub(x: ClientAction, r: Felt, t: Felt) {
    x.OpenSubchannel? && x.recipient == r && x.token == t
  }

  predicate Opened(subs: seq<ClientAction>, r: Felt, t: Felt) {
    exists i :: 0 <= i < |subs| && OpensSub(subs[i], r, t)
  }

  lemma OpenedSnoc(subs: seq<ClientAction>, r: Felt, t: Felt)
    requires subs != []
    ensures Opened(subs, r, t) <==> Opened(subs[..|subs| - 1], r, t) || OpensSub(subs[|subs| - 1], r, t)
  {
    var init := subs[..|subs| - 1];
    if Opened(init, r, t) {
      var i :| 0 <= i < |init| && OpensSub(init[i], r, t);
      assert subs[i] == init[i];
    }
    if Opened(subs, r, t) && !OpensSub(subs[|subs| - 1], r, t) {
      var i :| 0 <= i < |subs| && OpensSub(subs[i], r, t);
      assert subs[i] == init[i];
    }
  }

  lemma PlaceNoteSubs(w: Work, m: Move, w': Work)
    requires PlacesOne(w, m, w')
    ensures HasSub(w.channels, m.to, m.token) ==> w'.subs == w.subs
    ensures !HasSub(w.channels, m.to, m.token) ==>
              && w'.subs != [] && w'.subs[..|w'.subs| - 1] == w.subs
              && SubsAt(w'.subs[|w'.subs| - 1], m.to, m.token, SubCount(w.channels, m.to))
  {
    assert Unsealed(0);
  }

  lemma PlaceNoteHasSub(w: Work, m: Move, w': Work, r: Felt, t: Felt)
    requires PlacesOne(w, m, w')
    ensures HasSub(w'.channels, r, t) <==> HasSub(w.channels, r, t) || (r == m.to && t == m.token)
    ensures SubCount(w'.channels, r)
         == SubCount(w.channels, r) + if r == m.to && !HasSub(w.channels, m.to, m.token) then 1 else 0
  {
    assert Unsealed(0);
  }

  /** A subchannel is opened for exactly those (recipient, token) pairs that have none yet. */
  lemma {:induction false} SubchannelsOpened(w: Work, ms: seq<Move>, w': Work, r: Felt, t: Felt)
    requires PlacesAll(w, ms, w') && w.subs == []
    ensures HasSub(w'.channels, r, t) <==> HasSub(w.channels, r, t) || CountOn(ms, r, t) > 0
    ensures Opened(w'.subs, r, t) <==> CountOn(ms, r, t) > 0 && !HasSub(w.channels, r, t)
    ensures SubCount(w'.channels, r) == SubCount(w.channels, r) + CountOpened(w'.subs, r)
    decreases |ms|
  {
    if ms != [] {
      var k := |ms| - 1;
      var mid := SplitPlaces(w, ms, w');
      SubchannelsOpened(w, ms[..k], mid, r, t);
      PlaceNoteSubs(mid, ms[k], w');
      PlaceNoteHasSub(mid, ms[k], w', r, t);
      if !HasSub(mid.channels, ms[k].to, ms[k].token) {
        OpenedSnoc(w'.subs, r, t);
      }
    } else {
      NothingToPlace(w, w');
    }
  }

  /** The `j`-th new subchannel takes the index after its channel's subchannels, those opened before it in
      the batch included. */
  lemma {:induction false} SubIndices(w: Work, ms: seq<Move>, w': Work, j: nat)
    requires PlacesAll(w, ms, w') && w.subs == [] && j < |w'.subs|
    ensures w'.subs[j].OpenSubchannel?
    ensures var r := w'.subs[j].recipient;
            w'.subs[j].index == Index(SubCount(w.channels, r) + CountOpened(w'.subs[..j], r))
    decreases |ms|
  {
    if ms == [] {
      NothingToPlace(w, w');
    } else {
      var k := |ms| - 1;
      var mid := SplitPlaces(w, ms, w');
      PlaceNoteSubs(mid, ms[k], w');
      if j < |mid.subs| {
        SubIndices(w, ms[..k], mid, j);
        assert mid.subs[..j] == w'.subs[..j];
      } else {
        SubchannelsOpened(w, ms[..k], mid, ms[k].to, ms[k].token);
        assert w'.subs[..j] == mid.subs;
      }
    }
  }

  /** No two new subchannels are for the same recipient and token. */
  lemma {:induction false} SubsApart(w: Work, ms: seq<Move>, w': Work, i: nat, j: nat)
    requires PlacesAll(w, ms, w') && w.subs == [] && i < j < |w'.subs|
    ensures w'.subs[i].OpenSubchannel? && w'.subs[j].OpenSubchannel?
    ensures !(w'.subs[i].recipient == w'.subs[j].recipient && w'.subs[i].token == w'.subs[j].token)
    decreases |ms|
  {
    if ms == [] {
      NothingToPlace(w, w');
    } else {
      var k := |ms| - 1;
      var mid := SplitPlaces(w, ms, w');
      PlaceNoteSubs(mid, ms[k], w');
      if j < |mid.subs| {
        SubsApart(w, ms[..k], mid, i, j);
      } else {
        SubchannelsOpened(w, ms[..k], mid, ms[k].to, ms[k].token);
        SubIndices(w, ms[..k], mid, i);
        assert w'.subs[i] == mid.subs[i] && OpensSub(mid.subs[i], mid.subs[i].recipient, mid.subs[i].token);
      }
    }
  }

  // ---- the plan as a whole ----

  /** The batch has to open a channel to `r`: the user's own when it registers, a note recipient's when it
      has none. */
  predicate NeedsChannel(intent: Intent, st: UserState, ms: seq<Move>, r: Felt) {
    || (Registering(intent, st) && r == st.user.addr)
    || (SentTo(ms, r) && !IsOpen(st.channels, r) && !(Registering(intent, st) && r == st.user.addr))
  }

  lemma StartNumbered(env: Env, intent: Intent, st: UserState, rng: Rng, account: seq<ClientAction>, w: Work, r: Felt)
    requires StartWork(env, intent, st, rng) == Ok((account, w))
    ensures OpensNumbered(st.outgoing, w)
    ensures r in MapSeq(ToWhom, w.opens) <==> Registering(intent, st) && r == st.user.addr
    ensures IsOpen(w.channels, r) <==> (Registering(intent, st) && r == st.user.addr) || IsOpen(st.channels, r)
  {
    if Registering(intent, st) {
      assert MapSeq(ToWhom, w.opens) == [st.user.addr];
    }
  }

  /** A plan opens a channel for exactly the recipients that need one, once each, numbered on from the
      user's outgoing count. */
  lemma PlanOpens(env: Env, intent: Intent, st: UserState, rng: Rng, d: Draft, r: Felt)
    requires SafeSums(intent) && MakeDraft(env, intent, st, rng) == Ok(d)
    ensures OpensNumbered(st.outgoing, d.work)
    ensures r in MapSeq(ToWhom, d.work.opens)
       <==> NeedsChannel(intent, st, NewNotes(intent, st.user.addr, d.cover.change), r)
  {
    var ms := NewNotes(intent, st.user.addr, d.cover.change);
    var w := Batch.DraftSteps(env, intent, st, rng, d);
    StartNumbered(env, intent, st, rng, d.account, w, r);
    SealPlaces(w, ms, d.work);
    ChannelsOpened(st.outgoing, w, ms, d.work, r);
  }

  lemma OnlyOpens(intent: Intent, d: Draft, ms: seq<Move>)
    requires (forall a :: a in d.account ==> a.SetViewingKey?) && Kinds(d.work)
    requires DeliversAll(ms, d.work.creates) && PaysAll(intent.withdrawals, d.withdraws)
    ensures Filter(IsOpening, Assembled(intent, d).actions) == d.work.opens
  {
    var w := d.work;
    var deposits, uses := MapSeq(DepositAction, intent.deposits), MapSeq(UseAction, d.cover.spends);
    FilterNone(IsOpening, d.account);
    FilterAll(IsOpening, w.opens);
    FilterNone(IsOpening, w.subs);
    FilterNone(IsOpening, deposits);
    FilterNone(IsOpening, uses);
    FilterNone(IsOpening, w.creates);
    FilterNone(IsOpening, d.withdraws);
    KeepSecond(IsOpening, d.account, w.opens, w.subs, deposits, uses, w.creates, d.withdraws);
  }

  lemma KeepSecond<T(!new)>(keep: T -> bool, a: seq<T>, b: seq<T>, c: seq<T>, d: seq<T>, e: seq<T>, f: seq<T>,
                     g: seq<T>)
    requires Filter(keep, a) == [] && Filter(keep, b) == b && Filter(keep, c) == [] && Filter(keep, d) == []
    requires Filter(keep, e) == [] && Filter(keep, f) == [] && Filter(keep, g) == []
    ensures Filter(keep, a + b + c + d + e + f + g) == b
  {
    FilterConcat(keep, a, b);
    FilterConcat(keep, a + b, c);
    FilterConcat(keep, a + b + c, d);
    FilterConcat(keep, a + b + c + d, e);
    FilterConcat(keep, a + b + c + d + e, f);
    FilterConcat(keep, a + b + c + d + e + f, g);
  }

  /** The plan warns that an observer can link channels exactly when two different recipients need one. */
  lemma LinkageWarned(env: Env, intent: Intent, st: UserState, rng: Rng, d: Draft)
    requires SafeSums(intent) && MakeDraft(env, intent, st, rng) == Ok(d)
    ensures var ms := NewNotes(intent, st.user.addr, d.cover.change);
            UserLinkage in Assembled(intent, d).warnings
            <==> exists r, r' :: r != r' && NeedsChannel(intent, st, ms, r) && NeedsChannel(intent, st, ms, r')
  {
    var ms, opens := NewNotes(intent, st.user.addr, d.cover.change), d.work.opens;
    var whom := MapSeq(ToWhom, opens);
    DraftEmits(env, intent, st, rng, d);
    OnlyOpens(intent, d, ms);
    forall r
      ensures r in whom <==> NeedsChannel(intent, st, ms, r)
    {
      PlanOpens(env, intent, st, rng, d, r);
    }
    PlanOpens(env, intent, st, rng, d, 0);
    Several(whom);
  }

  lemma Several(xs: seq<Felt>)
    requires NoDup(xs)
    ensures |xs| > 1 <==> exists r, r' :: r != r' && r in xs && r' in xs
  {
    if |xs| > 1 {
      TwoApart(xs);
    }
  }

  lemma {:induction false} TwoApart(xs: seq<Felt>)
    requires NoDup(xs) && |xs| > 1
    ensures xs[0] in xs && xs[1] in xs && xs[0] != xs[1]
    decreases |xs|
  {
    if |xs| > 2 {
      TwoApart(xs[..|xs| - 1]);
    }
  }
}

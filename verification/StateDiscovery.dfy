/** Everything a plan builds on, read from the pool in one go. */
module StateDiscovery {
  import opened Field
  import opened Errors
  import opened Lists
  import opened Hashes
  import opened Slots
  import opened Pool
  import opened Discovery
  import opened NoteDiscovery
  import opened NoteFacts
  import opened Planner
  import opened Mirror

  function TokenOf(m: Move): Felt {
    m.token
  }

  function RecipientOf(m: Move): Felt {
    m.to
  }

  /** The tokens that leave the user's hands. */
  function TokensOut(intent: Intent): seq<Felt> {
    MapSeq(TokenOf, intent.transfers) + MapSeq(TokenOf, intent.withdrawals)
  }

  /** Everybody the batch may send a note to; the user, for change, comes last. */
  function Recipients(intent: Intent, user: Felt): seq<Felt> {
    MapSeq(RecipientOf, intent.transfers) + [user]
  }

  /** The user's channels to `rs`; refused at the first one that never registered. */
  ghost function ChannelsTo(env: Env, p: State, who: Account, rs: seq<Felt>):
    Result<map<Felt, OutgoingChannel>, Error>
  {
    if rs == [] then Ok(map[])
    else
      match ChannelsTo(env, p, who, rs[..|rs| - 1])
      case Err(e) => Err(e)
      case Ok(m) =>
        match ChannelResult(env, p, who, rs[|rs| - 1])
        case Err(e) => Err(e)
        case Ok(ch) => Ok(m[rs[|rs| - 1] := ch])
  }

  /** What discovery reports for an intent. */
  ghost function StateOf(env: Env, p: State, who: Account, intent: Intent): Result<UserState, Error>
    requires Scannable(p)
  {
    if who.addr !in p.pk then Ok(UserState(who, false, 0, map[], []))
    else
      match ChannelsTo(env, p, who, Recipients(intent, who.addr))
      case Err(e) => Err(e)
      case Ok(channels) =>
        var tokens := TokensOut(intent);
        Ok(UserState(who, true, Count(p.outgoing, who), channels,
                     if tokens == [] then [] else NotesOf(env, p, who, tokens)))
  }

  ghost predicate FirstMissing(p: State, rs: seq<Felt>, i: int) {
    0 <= i < |rs| && rs[i] !in p.pk && forall j :: 0 <= j < i ==> rs[j] in p.pk
  }

  /** The channels are found exactly when every recipient has registered; each is the pool's own. */
  lemma {:induction false} ChannelsToAre(env: Env, p: State, who: Account, rs: seq<Felt>)
    ensures ChannelsTo(env, p, who, rs).Ok? <==> forall r :: r in rs ==> r in p.pk
    ensures ChannelsTo(env, p, who, rs).Ok? ==>
              var m := ChannelsTo(env, p, who, rs).value;
              && (forall r {:trigger r in m} :: r in m ==> r in p.pk && m[r] == ChannelOf(env, p, who, r))
              && (forall r :: r in m <==> r in rs)
    ensures ChannelsTo(env, p, who, rs).Err? ==>
              exists i :: FirstMissing(p, rs, i) && ChannelsTo(env, p, who, rs) == Err(NotRegistered(rs[i]))
    decreases |rs|
  {
    if rs != [] {
      var k := |rs| - 1;
      var init := rs[..k];
      ChannelsToAre(env, p, who, init);
      assert forall r :: r in rs <==> r in init || r == rs[k];
      if ChannelsTo(env, p, who, init).Err? {
        var i :| FirstMissing(p, init, i) && ChannelsTo(env, p, who, init) == Err(NotRegistered(init[i]));
        assert FirstMissing(p, rs, i) && rs[i] == init[i];
      } else if rs[k] !in p.pk {
        assert forall j :: 0 <= j < k ==> rs[j] == init[j] && init[j] in init;
        assert FirstMissing(p, rs, k);
      }
    }
  }

  /** The discovered state is the pool's: the copy of the channels mirrors it, and the notes are the
      unspent ones of the tokens that leave, each once. */
  lemma StateIs(env: Env, p: State, who: Account, intent: Intent, st: UserState)
    requires Wf(env, p) && Scannable(p) && StateOf(env, p, who, intent) == Ok(st)
    ensures st.user == who && (st.registered <==> who.addr in p.pk)
    ensures st.registered ==>
              && Mirrors(env, p, who, st.channels, st.outgoing)
              && (forall r :: r in st.channels <==> r in Recipients(intent, who.addr))
              && (forall n :: n in st.notes <==> Unspent(env, p, who, n) && n.token in TokensOut(intent))
    ensures NoDup(st.notes)
  {
    if st.registered {
      ChannelsToAre(env, p, who, Recipients(intent, who.addr));
      var tokens := TokensOut(intent);
      NotesOnce(env, p, who, tokens);
      forall n
        ensures n in NotesOf(env, p, who, tokens) <==> Unspent(env, p, who, n) && Wanted(tokens, n.token)
      {
        NotesMember(env, p, who, tokens, n);
      }
    }
  }

  /** A later recipient that is already in the map is not read again; that loses nothing. */
  lemma ChannelsToSkips(env: Env, p: State, who: Account, rs: seq<Felt>, i: nat)
    requires i < |rs| && ChannelsTo(env, p, who, rs[..i]).Ok?
    ensures rs[i] in ChannelsTo(env, p, who, rs[..i]).value ==>
              ChannelsTo(env, p, who, rs[..i + 1]) == ChannelsTo(env, p, who, rs[..i])
    ensures ChannelsTo(env, p, who, rs[..i + 1])
         == match ChannelResult(env, p, who, rs[i])
            case Err(e) => Err(e)
            case Ok(ch) => Ok(ChannelsTo(env, p, who, rs[..i]).value[rs[i] := ch])
  {
    ChannelsToAre(env, p, who, rs[..i]);
    assert rs[..i + 1][..i] == rs[..i];
    var m := ChannelsTo(env, p, who, rs[..i]).value;
    if rs[i] in m {
      assert m[rs[i] := m[rs[i]]] == m;
    }
  }

  lemma {:induction false} ChannelsToFails(env: Env, p: State, who: Account, rs: seq<Felt>, i: nat)
    requires i <= |rs| && ChannelsTo(env, p, who, rs[..i]).Err?
    ensures ChannelsTo(env, p, who, rs) == ChannelsTo(env, p, who, rs[..i])
    decreases |rs|
  {
    if i == |rs| {
      assert rs[..i] == rs;
    } else {
      var init := rs[..|rs| - 1];
      assert init[..i] == rs[..i];
      ChannelsToFails(env, p, who, init, i);
    }
  }

  method DiscoverState(env: Env, r: Reader, ghost p: State, who: Account, intent: Intent)
    returns (res: Result<UserState, Error>)
    requires Reads(env, r, p) && OwnKey(env, p, who) && Scannable(p)
    ensures res == StateOf(env, p, who, intent)
  {
    var registered;
    match PublicKey(r, who.addr) {
      case Err(e) => return Err(e);
      case Ok(pk) => registered := pk.Some?;
    }
    if !registered {
      return Ok(UserState(who, false, 0, map[], []));
    }
    var recipients := Recipients(intent, who.addr);
    var channels: map<Felt, OutgoingChannel> := map[];
    for i := 0 to |recipients|
      invariant ChannelsTo(env, p, who, recipients[..i]) == Ok(channels)
    {
      ChannelsToSkips(env, p, who, recipients, i);
      if recipients[i] in channels { continue; }
      var ch := DiscoverChannel(env, r, p, who, recipients[i]);
      match ch {
        case Err(e) =>
          ChannelsToFails(env, p, who, recipients, i + 1);
          return Err(e);
        case Ok(c) => channels := channels[recipients[i] := c];
      }
    }
    assert recipients[..|recipients|] == recipients;
    var tokens := TokensOut(intent);
    var notes := [];
    if tokens != [] {
      var found := DiscoverNotes(env, r, p, who, tokens);
      match found {
        case Err(e) => return Err(e);
        case Ok(ns) => notes := ns;
      }
    }
    OutgoingScan(env, r, p, who);
    var outgoing := OutgoingChannelCount(env, r, p, who);
    match outgoing {
      case Err(e) => return Err(e);
      case Ok(n) => res := Ok(UserState(who, true, n, channels, notes));
    }
  }
}

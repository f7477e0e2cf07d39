/** Opening channels and subchannels can be moved ahead of later phases without changing a batch. */
module Reorder {
  import opened Field
  import opened Hashes
  import opened Actions
  import opened Pool

  /** `x` may be moved from right behind `b` to right in front of it. */
  predicate Overtakes(x: ClientAction, b: ClientAction) {
    || (x.OpenChannel? && (b.OpenSubchannel? || b.Deposit? || b.UseNote? || b.CreateEncNote?))
    || (x.OpenSubchannel? && (b.Deposit? || b.UseNote? || b.CreateEncNote?))
  }

  ghost predicate BothOrders(env: Env, who: Account, s: Machine, b: ClientAction, x: ClientAction) {
    var first := Step(env, who, s, b);
    first.Some? && Step(env, who, first.value, x).Some? ==>
      && Step(env, who, s, x).Some?
      && Step(env, who, Step(env, who, s, x).value, b) == Step(env, who, first.value, x)
  }

  /** The key `x` would open is either that very channel's or nobody's. */
  ghost predicate KeyFree(env: Env, p: State, who: Account, recipient: Felt) {
    recipient in p.pk ==>
      var id := Identity(recipient, p.pk[recipient]);
      var key := ChannelKey(env, who, id);
      ChannelExists(p, key, who.addr, id) || key !in p.channels
  }

  lemma KeyIsFree(env: Env, p: State, who: Account, recipient: Felt)
    requires Sound(env) && WfUsers(env, p.pk) && WfOpenings(env, p.pk, p.channels) && who in env.accounts
    ensures KeyFree(env, p, who, recipient)
  {
    if recipient in p.pk {
      var id := Identity(recipient, p.pk[recipient]);
      if !ChannelExists(p, ChannelKey(env, who, id), who.addr, id) {
        AbsentKey(env, p, who, id);
      }
    }
  }

  lemma OpenOvertakesSub(env: Env, who: Account, s: Machine, b: ClientAction, x: ClientAction)
    requires x.OpenChannel? && b.OpenSubchannel? && KeyFree(env, s.pool, who, x.recipient)
    ensures BothOrders(env, who, s, b, x)
  {
  }

  lemma OpenOvertakesUse(env: Env, who: Account, s: Machine, b: ClientAction, x: ClientAction)
    requires x.OpenChannel? && b.UseNote? && KeyFree(env, s.pool, who, x.recipient)
    ensures BothOrders(env, who, s, b, x)
  {
  }

  lemma OpenOvertakesCreate(env: Env, who: Account, s: Machine, b: ClientAction, x: ClientAction)
    requires x.OpenChannel? && b.CreateEncNote? && KeyFree(env, s.pool, who, x.recipient)
    ensures BothOrders(env, who, s, b, x)
  {
  }

  lemma SubOvertakesNote(env: Env, who: Account, s: Machine, b: ClientAction, x: ClientAction)
    requires x.OpenSubchannel? && (b.UseNote? || b.CreateEncNote?)
    ensures BothOrders(env, who, s, b, x)
  {
  }

  lemma OvertakesDeposit(env: Env, who: Account, s: Machine, b: ClientAction, x: ClientAction)
    requires (x.OpenChannel? || x.OpenSubchannel?) && b.Deposit?
    ensures BothOrders(env, who, s, b, x)
  {
  }

  lemma OvertakesOne(env: Env, who: Account, s: Machine, b: ClientAction, x: ClientAction)
    requires Sound(env) && Wf(env, s.pool) && who in env.accounts && Overtakes(x, b)
    ensures BothOrders(env, who, s, b, x)
  {
    OpenWf(env, s.pool);
    if b.Deposit? {
      OvertakesDeposit(env, who, s, b, x);
    } else if x.OpenSubchannel? {
      SubOvertakesNote(env, who, s, b, x);
    } else {
      KeyIsFree(env, s.pool, who, x.recipient);
      if b.OpenSubchannel? {
        OpenOvertakesSub(env, who, s, b, x);
      } else if b.UseNote? {
        OpenOvertakesUse(env, who, s, b, x);
      } else {
        OpenOvertakesCreate(env, who, s, b, x);
      }
    }
  }

  /** Moving `x` ahead of a whole stretch it overtakes leaves the outcome alone. */
  lemma {:induction false} OvertakesAll(env: Env, who: Account, s: Machine, bs: seq<ClientAction>, x: ClientAction)
    requires Sound(env) && Wf(env, s.pool) && who in env.accounts
    requires forall b :: b in bs ==> Overtakes(x, b) && TokenInPlay(env, b)
    requires Exec(env, who, s, bs + [x]).Some?
    ensures Exec(env, who, s, [x] + bs) == Exec(env, who, s, bs + [x])
    decreases |bs|
  {
    if bs == [] {
      assert bs + [x] == [x] + bs;
    } else {
      var n := |bs| - 1;
      var init, b := bs[..n], bs[n];
      assert bs + [x] == init + ([b] + [x]);
      assert [x] + bs == ([x] + init) + [b];
      OvertakesLast(env, who, s, init, b, x);
      OvertakesAll(env, who, s, init, x);
      ExecConcat(env, who, s, [x] + init, [b]);
      ExecConcat(env, who, s, init + [x], [b]);
    }
  }

  lemma OvertakesLast(env: Env, who: Account, s: Machine, bs: seq<ClientAction>, b: ClientAction, x: ClientAction)
    requires Sound(env) && Wf(env, s.pool) && who in env.accounts && Overtakes(x, b)
    requires forall c :: c in bs ==> TokenInPlay(env, c)
    requires Exec(env, who, s, bs + ([b] + [x])).Some?
    ensures Exec(env, who, s, bs + [x]).Some?
    ensures Exec(env, who, s, (bs + [x]) + [b]) == Exec(env, who, s, bs + ([b] + [x]))
  {
    ExecConcat(env, who, s, bs, [b] + [x]);
    var t := Exec(env, who, s, bs).value;
    TwoSteps(env, who, t, b, x);
    ExecKeepsWf(env, who, s, bs);
    OvertakesOne(env, who, t, b, x);
    ExecSnoc(env, who, s, bs, x);
    ExecSnoc(env, who, s, bs + [x], b);
  }

  lemma OneStep(env: Env, who: Account, s: Machine, a: ClientAction)
    ensures Exec(env, who, s, [a]) == Step(env, who, s, a)
  {
    assert [a][..0] == [];
  }

  lemma TwoSteps(env: Env, who: Account, s: Machine, a: ClientAction, b: ClientAction)
    ensures Exec(env, who, s, [a] + [b])
         == (match Step(env, who, s, a) case None => None case Some(t) => Step(env, who, t, b))
  {
    ExecConcat(env, who, s, [a], [b]);
    OneStep(env, who, s, a);
    if Step(env, who, s, a).Some? {
      OneStep(env, who, Step(env, who, s, a).value, b);
    }
  }

  lemma InsertAfter(env: Env, who: Account, s: Machine, a: seq<ClientAction>, t: Machine, bs: seq<ClientAction>,
                    x: ClientAction)
    requires Sound(env) && Wf(env, t.pool) && who in env.accounts
    requires forall b :: b in bs ==> Overtakes(x, b) && TokenInPlay(env, b)
    requires Exec(env, who, s, a) == Some(t) && Exec(env, who, t, bs + [x]).Some?
    ensures Exec(env, who, s, (a + [x]) + bs) == Exec(env, who, t, bs + [x])
  {
    OvertakesAll(env, who, t, bs, x);
    ExecConcat(env, who, s, a, [x] + bs);
    assert (a + [x]) + bs == a + ([x] + bs);
  }

  /** The same in the middle of a batch. */
  lemma InsertEarlier(env: Env, who: Account, s: Machine, a: seq<ClientAction>, bs: seq<ClientAction>, x: ClientAction)
    requires Sound(env) && Wf(env, s.pool) && who in env.accounts
    requires forall b :: b in a ==> TokenInPlay(env, b)
    requires forall b :: b in bs ==> Overtakes(x, b) && TokenInPlay(env, b)
    requires Exec(env, who, s, a + bs).Some? && Step(env, who, Exec(env, who, s, a + bs).value, x).Some?
    ensures Exec(env, who, s, (a + [x]) + bs) == Step(env, who, Exec(env, who, s, a + bs).value, x)
  {
    ExecConcat(env, who, s, a, bs);
    var t := Exec(env, who, s, a).value;
    ExecKeepsWf(env, who, s, a);
    ExecSnoc(env, who, t, bs, x);
    InsertAfter(env, who, s, a, t, bs, x);
  }
}

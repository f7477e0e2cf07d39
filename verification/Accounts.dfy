/** What setup and account creation leave in the wallet, and whose account is whose. */
module Accounts {
  import opened Field
  import opened Session

  // ---- the mnemonic ----

  /** Staging a mnemonic, setting up, locking and unlocking gives a wallet of that mnemonic without accounts, under the
      setup's passphrase and no other. */
  lemma SetupIsWhatWasStaged(keys: Keys, w: World, mnemonic: string, p: string, q: string, now: nat, later: nat)
    requires w.guard.until.Some? ==> w.guard.until.value <= now
    ensures var after := RunAll(keys, w, [Stage(mnemonic), Setup(p, true), Lock, Unlock(q, now, later)]);
            && after.session == (if q == p then Some(Unlocked(p, Contents(mnemonic, []))) else None)
            && after.disk == Some(Vault(true, p, Some(Contents(mnemonic, []))))
            && after.chain == w.home && after.staged == None
  {
    var a, b, c, d := Stage(mnemonic), Setup(p, true), Lock, Unlock(q, now, later);
    assert [a, b, c, d][..3] == [a, b, c] && [a, b, c][..2] == [a, b] && [a, b][..1] == [a] && [a][..0] == [];
    assert RunAll(keys, w, [a]) == After(keys, w, a);
    assert RunAll(keys, w, [a, b]) == After(keys, After(keys, w, a), b);
    assert RunAll(keys, w, [a, b, c]) == After(keys, After(keys, After(keys, w, a), b), c);
  }

  /** The mnemonic was staged in the run, or was there when it started. */
  ghost predicate Known(start: World, commands: seq<Command>, mnemonic: string) {
    || Stage(mnemonic) in commands || start.staged == Some(mnemonic)
    || (start.session.Some? && start.session.value.contents.mnemonic == mnemonic)
    || (start.disk.Some? && start.disk.value.plaintext.Some? && start.disk.value.plaintext.value.mnemonic == mnemonic)
  }

  ghost predicate AllKnown(start: World, commands: seq<Command>, w: World) {
    && (w.staged.Some? ==> Known(start, commands, w.staged.value))
    && (w.session.Some? ==> Known(start, commands, w.session.value.contents.mnemonic))
    && (w.disk.Some? && w.disk.value.plaintext.Some? ==> Known(start, commands, w.disk.value.plaintext.value.mnemonic))
  }

  lemma StepKnown(keys: Keys, start: World, init: seq<Command>, w: World, c: Command)
    requires AllKnown(start, init, w)
    ensures AllKnown(start, init + [c], After(keys, w, c))
  {
    assert c in init + [c];
    assert forall m :: Known(start, init, m) ==> Known(start, init + [c], m);
  }

  /** No run ever brings in another one. */
  lemma {:induction false} MnemonicsAreKnown(keys: Keys, start: World, commands: seq<Command>)
    ensures AllKnown(start, commands, RunAll(keys, start, commands))
    decreases |commands|
  {
    if commands != [] {
      var k := |commands| - 1;
      MnemonicsAreKnown(keys, start, commands[..k]);
      StepKnown(keys, start, commands[..k], RunAll(keys, start, commands[..k]), commands[k]);
      assert commands == commands[..k] + [commands[k]];
    }
  }

  // ---- the accounts ----

  /** `n` is the first index above all those of the branch. */
  ghost predicate IsNext(accounts: seq<AccountRef>, d: Domain, n: nat) {
    && (forall i :: 0 <= i < |accounts| && accounts[i].domain == d ==> accounts[i].index < n)
    && (n == 0 || exists i :: 0 <= i < |accounts| && accounts[i].domain == d && accounts[i].index == n - 1)
  }

  lemma {:induction false} NextIsNext(accounts: seq<AccountRef>, d: Domain)
    ensures IsNext(accounts, d, NextIndex(accounts, d))
    decreases |accounts|
  {
    if accounts != [] {
      var k := |accounts| - 1;
      NextIsNext(accounts[..k], d);
      var n := NextIndex(accounts[..k], d);
      if n > 0 {
        var i :| 0 <= i < k && accounts[..k][i].domain == d && accounts[..k][i].index == n - 1;
        assert accounts[i].domain == d && accounts[i].index == n - 1;
      }
      forall i | 0 <= i < k && accounts[i].domain == d
        ensures accounts[i].index < n
      {
        assert accounts[..k][i] == accounts[i];
      }
    }
  }

  /** The hardened account index and the address index: user accounts by number, agent accounts under their own. */
  function KeyPath(d: Domain, n: U32): (nat, nat) {
    match d case User => (0x8000_0000 + n, 0) case Agent => (0xC147_4E54, n)
  }

  /** `a` is the account a command asked for, next in its branch. */
  ghost predicate AskedFor(keys: Keys, w: World, a: AccountRef, d: Domain, name: string, owner: Option<string>)
    requires w.session.Some?
  {
    var c := w.session.value.contents;
    && a.domain == d && a.name == name && a.owner == owner && IsNext(c.accounts, d, a.index)
    && EffectivePath(d, a.index) == KeyPath(d, a.index)
    && a.address == keys.address(c.mnemonic, EffectivePath(d, a.index), w.chain)
  }

  /** The branch is full: some account has the last index it may have. */
  ghost predicate Full(accounts: seq<AccountRef>, d: Domain) {
    exists i :: 0 <= i < |accounts| && accounts[i].domain == d
                && accounts[i].index + 1 >= (match d case User => 0x4147_4E54 case Agent => 0x8000_0000)
  }

  lemma CreatedIs(keys: Keys, w: World, d: Domain, name: string, owner: Option<string>, saving: Saving)
    ensures var after := AfterCreate(keys, w, d, name, owner, saving);
            if w.session.None? || saving == Failed || Full(w.session.value.contents.accounts, d) then after == w
            else
              exists a :: AskedFor(keys, w, a, d, name, owner)
                && after == w.(session := Some(WithAccount(w.session.value, a)),
                               disk := if saving == NoStore then w.disk
                                       else Some(Vault(true, w.session.value.passphrase,
                                                       Some(WithAccount(w.session.value, a).contents))))
  {
    if w.session.Some? {
      var u := w.session.value;
      NextIsNext(u.contents.accounts, d);
      var made := NewAccount(keys, u.contents, w.chain, d, name, owner);
      if made.Ok? {
        assert AskedFor(keys, w, made.value, d, name, owner);
      }
    }
  }

  /** Creating an account adds the one that was asked for, with its name and owner, at the next index of its branch and
      the address derived there, in memory and, if there is a store, in the vault; when locked, when saving fails or
      when the branch is full, nothing changes. */
  lemma CreationsAre(keys: Keys, w: World, c: Command)
    requires c.CreateUser? || c.CreateAgent?
    ensures var d, owner := if c.CreateUser? then User else Agent, if c.CreateUser? then None else Some(c.client);
            var failed, stored := if c.CreateUser? then !c.saved else c.saving == Failed,
                                  c.CreateUser? || c.saving == Saved;
            if w.session.None? || failed || Full(w.session.value.contents.accounts, d) then After(keys, w, c) == w
            else
              exists a :: AskedFor(keys, w, a, d, c.name, owner)
                && After(keys, w, c)
                   == w.(session := Some(WithAccount(w.session.value, a)),
                         disk := if !stored then w.disk
                                 else Some(Vault(true, w.session.value.passphrase,
                                                 Some(WithAccount(w.session.value, a).contents))))
  {
    match c {
      case CreateUser(name, saved) => CreatedIs(keys, w, User, name, None, if saved then Saved else Failed);
      case CreateAgent(client, name, saving) => CreatedIs(keys, w, Agent, name, Some(client), saving);
    }
  }

  /** In a valid registry each account is visible to exactly one caller: an agent's to the client that owns it, the
      user's to everybody else. */
  lemma VisibleExactly(keys: Keys, mnemonic: string, accounts: seq<AccountRef>, i: nat, client: Option<string>)
    requires ValidRegistry(keys, mnemonic, accounts) && i < |accounts|
    ensures Visible(accounts[i], client) <==> client == accounts[i].owner
  {
    assert Proper(keys, mnemonic, accounts[i]);
  }
}

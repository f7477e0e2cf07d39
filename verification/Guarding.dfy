/** The guessing rate the running app leaves: the passphrase guard over its commands. */
module Guarding {
  import opened Field
  import opened Backoff
  import opened Session

  /** An unlock that gets to try its passphrase: the guard's delay is over, and there is a vault this build opens. */
  predicate Tried(w: World, c: Command) {
    && c.Unlock? && (w.guard.until.Some? ==> w.guard.until.value <= c.now)
    && w.disk.Some? && w.disk.value.supported
  }

  predicate Right(w: World, c: Command)
    requires Tried(w, c)
  {
    w.disk.value.passphrase == c.passphrase && w.disk.value.plaintext.Some?
  }

  /** The wrong tries of a run since the last right one. */
  function WrongTries(keys: Keys, start: World, commands: seq<Command>): seq<Attempt> {
    if commands == [] then []
    else
      var init, c := commands[..|commands| - 1], commands[|commands| - 1];
      var w := RunAll(keys, start, init);
      if !Tried(w, c) then WrongTries(keys, start, init)
      else if Right(w, c) then []
      else WrongTries(keys, start, init) + [Attempt(c.now, c.later)]
  }

  /** Only a try changes the guard, or by unlocking anything. */
  lemma UntriedChangesNothing(keys: Keys, w: World, c: Command)
    ensures !c.Unlock? ==> After(keys, w, c).guard == w.guard
    ensures c.Unlock? && !Tried(w, c) ==> After(keys, w, c) == w
  {
  }

  /** A right one unlocks to what the vault holds and clears the guard; a wrong one is counted and changes nothing
      else. */
  lemma TriedIs(keys: Keys, w: World, c: Command)
    requires Tried(w, c)
    ensures After(keys, w, c)
         == if Right(w, c)
            then w.(session := Some(Unlocked(c.passphrase, w.disk.value.plaintext.value)), guard := Guard(0, None))
            else w.(guard := AfterMiss(w.guard, c.later))
  {
  }

  /** The guard counts the wrong tries and nothing else: not a vault this build refuses, not an attempt the delay
      stops, and no other command. */
  lemma {:induction false} GuardCountsTries(keys: Keys, start: World, commands: seq<Command>)
    requires start.guard == CLEAR
    ensures RunAll(keys, start, commands).guard == GuardAfter(WrongTries(keys, start, commands))
    ensures RunAll(keys, start, commands).guard.failures == Saturated(|WrongTries(keys, start, commands)|)
    decreases |commands|
  {
    GuardCounts(WrongTries(keys, start, commands));
    if commands != [] {
      var init, c := commands[..|commands| - 1], commands[|commands| - 1];
      GuardCountsTries(keys, start, init);
      var w := RunAll(keys, start, init);
      if Tried(w, c) {
        TriedIs(keys, w, c);
        var before := WrongTries(keys, start, init);
        assert (before + [Attempt(c.now, c.later)])[..|before|] == before;
      } else {
        UntriedChangesNothing(keys, w, c);
      }
    }
  }

  /** Unlocks come one after the other. */
  predicate OneByOne(commands: seq<Command>) {
    && (forall i :: 0 <= i < |commands| && commands[i].Unlock? ==> commands[i].now <= commands[i].later)
    && (forall i, j :: 0 <= i < j < |commands| && commands[i].Unlock? && commands[j].Unlock? ==>
          commands[i].later <= commands[j].now)
  }

  /** The latest wrong try is one of the commands. */
  lemma {:induction false} LatestTry(keys: Keys, start: World, commands: seq<Command>) returns (i: nat)
    requires WrongTries(keys, start, commands) != []
    ensures i < |commands| && commands[i].Unlock?
    ensures var tries := WrongTries(keys, start, commands);
            tries[|tries| - 1] == Attempt(commands[i].now, commands[i].later)
    decreases |commands|
  {
    var k := |commands| - 1;
    if Tried(RunAll(keys, start, commands[..k]), commands[k]) {
      i := k;
    } else {
      i := LatestTry(keys, start, commands[..k]);
    }
  }

  lemma PacedMore(attempts: seq<Attempt>, a: Attempt)
    requires Paced(attempts) && a.start <= a.end && Backoff.Open(GuardAfter(attempts), a.start)
    requires attempts != [] ==> attempts[|attempts| - 1].end <= a.start
    ensures Paced(attempts + [a])
  {
    var all := attempts + [a];
    forall i | 0 <= i < |all|
      ensures all[i].start <= all[i].end && (0 < i ==> all[i - 1].end <= all[i].start)
      ensures Backoff.Open(GuardAfter(all[..i]), all[i].start)
    {
      SamePrefix(attempts, a, i);
    }
  }

  lemma SamePrefix(attempts: seq<Attempt>, a: Attempt, i: nat)
    requires i <= |attempts|
    ensures (attempts + [a])[..i] == attempts[..i] && attempts[..|attempts|] == attempts
    ensures (attempts + [a])[i] == if i < |attempts| then attempts[i] else a
    ensures i > 0 ==> (attempts + [a])[i - 1] == attempts[i - 1]
  {
  }

  lemma {:induction false} TriesArePaced(keys: Keys, start: World, commands: seq<Command>)
    requires start.guard == CLEAR && OneByOne(commands)
    ensures Paced(WrongTries(keys, start, commands))
    decreases |commands|
  {
    if commands != [] {
      var k := |commands| - 1;
      var init, c := commands[..k], commands[k];
      var w, before := RunAll(keys, start, init), WrongTries(keys, start, init);
      TriesArePaced(keys, start, init);
      GuardCountsTries(keys, start, init);
      if Tried(w, c) && !Right(w, c) {
        if before != [] {
          var i := LatestTry(keys, start, init);
          assert init[i] == commands[i];
        }
        PacedMore(before, Attempt(c.now, c.later));
      }
    }
  }

  /** Over every run of the app from a clear guard, unlocks coming one at a time: since the last right passphrase, the
      n-th wrong one is tried no sooner than all delays since the fourth was recorded have passed. */
  lemma AppGuessesAreSlow(keys: Keys, start: World, commands: seq<Command>)
    requires start.guard == CLEAR && OneByOne(commands)
    ensures var tries := WrongTries(keys, start, commands);
            && (4 < |tries| ==> tries[|tries| - 1].start >= tries[3].end + Waits(|tries| - 1))
            && (10 <= |tries| ==> tries[|tries| - 1].start >= tries[3].end + (315 + 300 * (|tries| - 10)) * SECOND)
  {
    TriesArePaced(keys, start, commands);
    PacedAreSlow(WrongTries(keys, start, commands));
  }

  lemma PacedAreSlow(tries: seq<Attempt>)
    requires Paced(tries)
    ensures 4 < |tries| ==> tries[|tries| - 1].start >= tries[3].end + Waits(|tries| - 1)
    ensures 10 <= |tries| ==> tries[|tries| - 1].start >= tries[3].end + (315 + 300 * (|tries| - 10)) * SECOND
  {
    if 4 < |tries| {
      GuessesAreSlow(tries);
    }
    if 10 <= |tries| {
      GuessRate(tries);
    }
  }

  /** Four wrong passphrases at time 0, and the fifth is refused for five seconds. */
  lemma FourWrongOnes(keys: Keys, w: World, mnemonic: string)
    requires w.guard == CLEAR && w.disk == Some(Vault(true, "right", Some(Contents(mnemonic, []))))
    ensures var wrong := Unlock("wrong", 0, 0);
            var after := RunAll(keys, w, [wrong, wrong, wrong, wrong]);
            && after == w.(guard := Guard(4, Some(5 * SECOND)))
            && forall t: nat, later: nat :: t < 5 * SECOND ==>
                 After(keys, after, Unlock("wrong", t, later)) == after
                 && After(keys, after, Unlock("right", t, later)) == after
  {
    var wrong := Unlock("wrong", 0, 0);
    assert "wrong"[0] != "right"[0];
    var four := [wrong, wrong, wrong, wrong];
    assert four[..3] == [wrong, wrong, wrong] && four[..3][..2] == [wrong, wrong];
    assert [wrong, wrong][..1] == [wrong] && [wrong][..0] == [];
    TriedIs(keys, w, wrong);
    var w1 := w.(guard := Guard(1, None));
    TriedIs(keys, w1, wrong);
    var w2 := w.(guard := Guard(2, None));
    TriedIs(keys, w2, wrong);
    var w3 := w.(guard := Guard(3, None));
    TriedIs(keys, w3, wrong);
    assert RunAll(keys, w, [wrong]) == w1;
    assert RunAll(keys, w, [wrong, wrong]) == w2;
    assert RunAll(keys, w, [wrong, wrong, wrong]) == w3;
    assert Pow2(0) == 1;
  }
}

/** The delay after wrong passphrases, and the guessing rate it leaves. Times are in nanoseconds. */
module Backoff {
  import opened Field

  const SECOND: nat := 1_000_000_000
  const FREE_ATTEMPTS: nat := 3
  const BASE_DELAY: nat := 5 * SECOND
  const MAX_DELAY: nat := 300 * SECOND

  datatype Guard = Guard(failures: U32, until: Option<nat>)

  const CLEAR: Guard := Guard(0, None)

  function Pow2(n: nat): nat {
    if n == 0 then 1 else 2 * Pow2(n - 1)
  }

  function Min(a: nat, b: nat): nat {
    if a <= b then a else b
  }

  /** The delay the `n`-th miss in a row starts. */
  function DelayAfter(n: nat): nat {
    if n <= FREE_ATTEMPTS then 0 else Min(BASE_DELAY * Pow2(n - FREE_ATTEMPTS - 1), MAX_DELAY)
  }

  predicate Open(g: Guard, now: nat) {
    g.until.Some? ==> g.until.value <= now
  }

  function Saturated(n: nat): U32 {
    Min(n, TWO_32 - 1)
  }

  function AfterMiss(g: Guard, now: nat): Guard {
    var n := Saturated(g.failures + 1);
    Guard(n, if n > FREE_ATTEMPTS then Some(now + DelayAfter(n)) else g.until)
  }

  // ---- the delay ----

  lemma {:induction false} Pow2Grows(m: nat, n: nat)
    requires m <= n
    ensures Pow2(m) <= Pow2(n)
    decreases n
  {
    if m < n {
      Pow2Grows(m, n - 1);
    }
  }

  lemma Pow2Sixteen()
    ensures Pow2(6) == 64 && Pow2(16) == 65536
  {
    assert Pow2(4) == 16;
    assert Pow2(8) == 256;
    assert Pow2(12) == 4096;
  }

  /** A further miss never shortens the delay. */
  lemma DelayNeverDecreases(m: nat, n: nat)
    requires m <= n
    ensures DelayAfter(m) <= DelayAfter(n) <= MAX_DELAY
  {
    if FREE_ATTEMPTS < m {
      Pow2Grows(m - FREE_ATTEMPTS - 1, n - FREE_ATTEMPTS - 1);
    }
  }

  /** From the tenth miss on the delay is the longest one. */
  lemma DelayAtCap(n: nat)
    requires n >= 10
    ensures DelayAfter(n) == MAX_DELAY
  {
    Pow2Grows(6, n - FREE_ATTEMPTS - 1);
    Pow2Sixteen();
  }

  /** Three free misses, then five seconds, doubled each time up to five minutes. */
  lemma DelayTable()
    ensures DelayAfter(1) == DelayAfter(2) == DelayAfter(3) == 0
    ensures DelayAfter(4) == 5 * SECOND && DelayAfter(5) == 10 * SECOND && DelayAfter(6) == 20 * SECOND
    ensures DelayAfter(7) == 40 * SECOND && DelayAfter(8) == 80 * SECOND && DelayAfter(9) == 160 * SECOND
    ensures DelayAfter(10) == 300 * SECOND
  {
    assert Pow2(0) == 1 && Pow2(1) == 2 && Pow2(2) == 4;
    assert Pow2(3) == 8 && Pow2(4) == 16 && Pow2(5) == 32;
    DelayAtCap(10);
  }

  /** Stopping the doublings at 16 keeps the shift inside 32 bits and changes no delay. */
  lemma DoublingsCapped(n: nat)
    requires n > FREE_ATTEMPTS
    ensures var doublings := Min(n - FREE_ATTEMPTS - 1, 16);
            && Pow2(doublings) < TWO_32
            && Min(BASE_DELAY * Pow2(doublings), MAX_DELAY) == DelayAfter(n)
  {
    var doublings := Min(n - FREE_ATTEMPTS - 1, 16);
    Pow2Grows(doublings, 16);
    Pow2Sixteen();
    if doublings < n - FREE_ATTEMPTS - 1 {
      Pow2Grows(16, n - FREE_ATTEMPTS - 1);
    }
  }

  // ---- the guard itself ----

  class PassphraseBackoff {
    var failures: U32
    var until: Option<nat>

    function State(): Guard
      reads this
    {
      Guard(failures, until)
    }

    constructor ()
      ensures State() == CLEAR
    {
      failures, until := 0, None;
    }

    method Check(now: nat) returns (res: Result<(), nat>)
      ensures res.Ok? <==> Open(State(), now)
      ensures res.Err? ==> until.Some? && res.error == until.value - now > 0
    {
      match until {
        case Some(t) => if now < t { return Err(t - now); }
        case None =>
      }
      res := Ok(());
    }

    method RecordFailure(now: nat)
      modifies this
      ensures State() == AfterMiss(old(State()), now)
    {
      failures := if failures < TWO_32 - 1 then failures + 1 else failures;
      if failures > FREE_ATTEMPTS {
        DoublingsCapped(failures);
        var doublings := Min(failures - FREE_ATTEMPTS - 1, 16);
        var delay := Min(BASE_DELAY * Pow2(doublings), MAX_DELAY);
        until := Some(now + delay);
      }
    }

    method RecordSuccess()
      modifies this
      ensures State() == CLEAR
    {
      failures, until := 0, None;
    }
  }

  // ---- the rate bound ----

  /** A wrong guess: let through at `start`, recorded at `end`. */
  datatype Attempt = Attempt(start: nat, end: nat)

  function GuardAfter(attempts: seq<Attempt>): Guard {
    if attempts == [] then CLEAR else AfterMiss(GuardAfter(attempts[..|attempts| - 1]), attempts[|attempts| - 1].end)
  }

  /** Attempts made one at a time, each let through by the guard, all of them wrong. */
  ghost predicate Paced(attempts: seq<Attempt>) {
    forall i :: 0 <= i < |attempts| ==>
      && attempts[i].start <= attempts[i].end
      && (0 < i ==> attempts[i - 1].end <= attempts[i].start)
      && Open(GuardAfter(attempts[..i]), attempts[i].start)
  }

  /** The delays the misses from the fourth to the `n`-th start, added up. */
  function Waits(n: nat): nat {
    if n <= FREE_ATTEMPTS then 0 else Waits(n - 1) + DelayAfter(n)
  }

  lemma {:induction false} GuardCounts(attempts: seq<Attempt>)
    ensures GuardAfter(attempts).failures == Saturated(|attempts|)
    decreases |attempts|
  {
    if attempts != [] {
      GuardCounts(attempts[..|attempts| - 1]);
    }
  }

  /** A saturated count starts the same delay. */
  lemma SaturatedDelay(n: nat)
    ensures DelayAfter(Saturated(n)) == DelayAfter(n)
  {
    if n >= TWO_32 {
      DelayAtCap(n);
      DelayAtCap(TWO_32 - 1);
    }
  }

  lemma PacedPrefix(attempts: seq<Attempt>)
    requires Paced(attempts) && attempts != []
    ensures Paced(attempts[..|attempts| - 1])
  {
    var init := attempts[..|attempts| - 1];
    forall i | 0 <= i < |init|
      ensures init[..i] == attempts[..i] && init[i] == attempts[i]
    {
    }
  }

  /** From the fifth on, the `n`-th wrong guess is let through no sooner than all delays since the fourth
      was recorded have passed. */
  lemma {:induction false} GuessesAreSlow(attempts: seq<Attempt>)
    requires Paced(attempts) && 4 < |attempts|
    ensures attempts[|attempts| - 1].start >= attempts[3].end + Waits(|attempts| - 1)
    decreases |attempts|
  {
    var n := |attempts|;
    var before := attempts[..n - 1];
    PacedPrefix(attempts);
    if n > 5 {
      GuessesAreSlow(before);
    }
    LastDelay(before);
    assert Open(GuardAfter(before), attempts[n - 1].start);
  }

  lemma LastDelay(attempts: seq<Attempt>)
    requires |attempts| > 3
    ensures GuardAfter(attempts).until == Some(attempts[|attempts| - 1].end + DelayAfter(|attempts|))
  {
    GuardCounts(attempts);
    GuardCounts(attempts[..|attempts| - 1]);
    SaturatedDelay(|attempts|);
  }

  lemma {:induction false} WaitsAre(n: nat)
    requires n >= 9
    ensures Waits(n) == (315 + 300 * (n - 9)) * SECOND
    decreases n
  {
    if n == 9 {
      FirstWaits();
    } else {
      WaitsAre(n - 1);
      DelayAtCap(n);
    }
  }

  lemma FirstWaits()
    ensures Waits(9) == 315 * SECOND
  {
    assert Pow2(0) == 1 && Pow2(1) == 2 && Pow2(2) == 4;
    assert Pow2(3) == 8 && Pow2(4) == 16 && Pow2(5) == 32;
    assert Waits(4) == 5 * SECOND;
    assert Waits(5) == 15 * SECOND;
    assert Waits(6) == 35 * SECOND;
    assert Waits(7) == 75 * SECOND;
    assert Waits(8) == 155 * SECOND;
  }

  /** From the tenth wrong guess on: let through at least 315 + 300 (n - 10) seconds after the fourth. */
  lemma GuessRate(attempts: seq<Attempt>)
    requires Paced(attempts) && 10 <= |attempts|
    ensures attempts[|attempts| - 1].start >= attempts[3].end + (315 + 300 * (|attempts| - 10)) * SECOND
  {
    GuessesAreSlow(attempts);
    WaitsAre(|attempts| - 1);
  }

  // ---- attempts that overlap ----

  /** Checking and recording are separate steps, so attempts can overlap in any way. */
  datatype Event = Checked(now: nat) | Missed(now: nat)

  function GuardOver(events: seq<Event>): Guard {
    if events == [] then CLEAR
    else
      var g, e := GuardOver(events[..|events| - 1]), events[|events| - 1];
      if e.Missed? then AfterMiss(g, e.now) else g
  }

  function Misses(events: seq<Event>): nat {
    if events == [] then 0 else Misses(events[..|events| - 1]) + if events[|events| - 1].Missed? then 1 else 0
  }

  function LastMiss(events: seq<Event>): nat {
    if events == [] then 0
    else if events[|events| - 1].Missed? then events[|events| - 1].now
    else LastMiss(events[..|events| - 1])
  }

  lemma {:induction false} GuardOverIs(events: seq<Event>)
    ensures GuardOver(events).failures == Saturated(Misses(events))
    ensures GuardOver(events).until
         == if Misses(events) <= FREE_ATTEMPTS then None else Some(LastMiss(events) + DelayAfter(Misses(events)))
    decreases |events|
  {
    if events != [] {
      GuardOverIs(events[..|events| - 1]);
      SaturatedDelay(Misses(events));
    }
  }

  /** However attempts overlap, a guess is let through exactly when the delay of the last miss recorded
      before its check has passed, or no more than the free ones have been recorded. */
  lemma LetThroughExactly(events: seq<Event>, now: nat)
    ensures Open(GuardOver(events), now)
       <==> Misses(events) <= FREE_ATTEMPTS || now >= LastMiss(events) + DelayAfter(Misses(events))
  {
    GuardOverIs(events);
  }

  function Times(e: Event, n: nat): seq<Event> {
    if n == 0 then [] else Times(e, n - 1) + [e]
  }

  lemma {:induction false} TimesAre(e: Event, n: nat)
    ensures |Times(e, n)| == n && forall i :: 0 <= i < n ==> Times(e, n)[i] == e
    decreases n
  {
    if n > 0 {
      TimesAre(e, n - 1);
    }
  }

  /** So the rate is only guaranteed for attempts that do not overlap: any number of guesses whose checks all come
      before the first miss is recorded are let through at once. */
  lemma OverlapIsNotDelayed(n: nat)
    ensures exists events: seq<Event> ::
              && Misses(events) == n
              && (forall i :: 0 <= i < |events| ==> events[i].now == 0)
              && |events| == 2 * n
              && (forall i :: 0 <= i < |events| && events[i].Checked? ==> Open(GuardOver(events[..i]), events[i].now))
  {
    var checks, misses := Times(Checked(0), n), Times(Missed(0), n);
    var events := checks + misses;
    TimesAre(Checked(0), n);
    TimesAre(Missed(0), n);
    MissesOf(checks, n);
    forall i | 0 <= i < |events| && events[i].Checked?
      ensures Open(GuardOver(events[..i]), events[i].now)
    {
      assert events[..i] == checks[..i];
      NoMisses(checks[..i]);
      LetThroughExactly(checks[..i], 0);
    }
    NoMisses(checks);
  }

  lemma {:induction false} NoMisses(events: seq<Event>)
    requires forall i :: 0 <= i < |events| ==> events[i].Checked?
    ensures Misses(events) == 0
    decreases |events|
  {
    if events != [] {
      NoMisses(events[..|events| - 1]);
    }
  }

  lemma {:induction false} MissesOf(events: seq<Event>, n: nat)
    ensures Misses(events + Times(Missed(0), n)) == Misses(events) + n
    decreases n
  {
    if n == 0 {
      assert events + [] == events;
    } else {
      MissesOf(events, n - 1);
      var all := events + Times(Missed(0), n);
      assert all[..|all| - 1] == events + Times(Missed(0), n - 1);
    }
  }
}

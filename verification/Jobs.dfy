/** The prover's job store and activity feed, under any interleaving of proving tasks. */
module Jobs {
  import opened Field

  datatype Status = Queued | Proving | Succeeded | Failed

  datatype Job =
    Job(status: Status, startedAt: nat, title: Option<string>, result: Option<string>, error: Option<string>)

  /** An entry of the feed; `job` is the number in the job's id. */
  datatype Activity = Activity(seqNo: nat, job: nat, status: Status, startedAt: nat, title: Option<string>)

  datatype Store = Store(jobs: map<nat, Job>, activity: seq<Activity>, next: nat)

  const ACTIVITY_CAP: nat := 100

  /** The last `cap` entries. */
  function Last<T>(xs: seq<T>, cap: nat): seq<T> {
    if |xs| <= cap then xs else xs[|xs| - cap..]
  }

  function NextSeq(activity: seq<Activity>): nat {
    if activity == [] then 0 else activity[|activity| - 1].seqNo + 1
  }

  function Entry(seqNo: nat, n: nat, j: Job): Activity {
    Activity(seqNo, n, j.status, j.startedAt, j.title)
  }

  /** Store the job and put its new status on the feed. */
  function Record(s: Store, n: nat, j: Job): Store {
    s.(jobs := s.jobs[n := j], activity := Last(s.activity + [Entry(NextSeq(s.activity), n, j)], ACTIVITY_CAP))
  }

  /** A change to a job that is there; nothing otherwise. */
  function Change(s: Store, n: nat, status: Status, result: Option<string>, error: Option<string>): Store {
    if n !in s.jobs then s
    else
      var j := s.jobs[n];
      Record(s, n, j.(status := status,
                      result := if result.Some? then result else j.result,
                      error := if error.Some? then error else j.error))
  }

  // ---- the store itself ----

  class JobStore {
    var jobs: map<nat, Job>
    var activity: seq<Activity>
    var next: nat

    function State(): Store
      reads this
    {
      Store(jobs, activity, next)
    }

    constructor (start: nat)
      ensures State() == Store(map[], [], start)
    {
      jobs, activity, next := map[], [], start;
    }

    /** Take the next job number. */
    method TakeNumber() returns (n: nat)
      modifies this
      ensures n == old(next) && State() == old(State()).(next := old(next) + 1)
    {
      n := next;
      next := next + 1;
    }

    method PushActivity(n: nat, j: Job)
      modifies this`activity
      ensures activity == Last(old(activity) + [Entry(NextSeq(old(activity)), n, j)], ACTIVITY_CAP)
    {
      var seqNo := if activity == [] then 0 else activity[|activity| - 1].seqNo + 1;
      activity := activity + [Activity(seqNo, n, j.status, j.startedAt, j.title)];
      ghost var all := activity;
      while |activity| > ACTIVITY_CAP
        invariant Last(activity, ACTIVITY_CAP) == Last(all, ACTIVITY_CAP)
      {
        activity := activity[1..];
      }
    }

    method Create(n: nat, title: Option<string>, now: nat)
      modifies this
      ensures State() == Record(old(State()), n, Job(Queued, now, title, None, None))
    {
      var job := Job(Queued, now, title, None, None);
      jobs := jobs[n := job];
      PushActivity(n, job);
    }

    method SetStatus(n: nat, status: Status)
      modifies this
      ensures State() == Change(old(State()), n, status, None, None)
    {
      if n in jobs {
        var job := jobs[n].(status := status);
        jobs := jobs[n := job];
        PushActivity(n, job);
      }
    }

    method Succeed(n: nat, result: string)
      modifies this
      ensures State() == Change(old(State()), n, Succeeded, Some(result), None)
    {
      if n in jobs {
        var job := jobs[n].(status := Succeeded, result := Some(result));
        jobs := jobs[n := job];
        PushActivity(n, job);
      }
    }

    method Fail(n: nat, error: string)
      modifies this
      ensures State() == Change(old(State()), n, Failed, None, Some(error))
    {
      if n in jobs {
        var job := jobs[n].(status := Failed, error := Some(error));
        jobs := jobs[n := job];
        PushActivity(n, job);
      }
    }

    /** Newest first. */
    method RecentActivity() returns (recent: seq<Activity>)
      ensures |recent| == |activity| && forall i :: 0 <= i < |recent| ==> recent[i] == activity[|activity| - 1 - i]
    {
      recent := [];
      for i := 0 to |activity|
        invariant |recent| == i && forall k :: 0 <= k < i ==> recent[k] == activity[|activity| - 1 - k]
      {
        recent := recent + [activity[|activity| - 1 - i]];
      }
    }
  }

  // ---- proving tasks, interleaved ----

  /** How far a task has come: it has its number, it has created its job, it has set it proving, it is done. */
  datatype Task = Numbered | Waiting | Running | Done(final: Status)

  /** One step of some task; `Begin` starts a new one. */
  datatype Event = Begin | Advance(task: nat, title: Option<string>, now: nat, outcome: Result<string, string>)

  /** The store, the tasks, and everything that ever went on the feed. */
  datatype System = System(store: Store, tasks: map<nat, Task>, history: seq<Activity>)

  function Apply(s: System, n: nat, t: Task, store: Store): System {
    System(store, s.tasks[n := t],
           s.history + (if n in store.jobs then [Entry(|s.history|, n, store.jobs[n])] else []))
  }

  function Step(s: System, e: Event): System {
    match e
    case Begin => System(s.store.(next := s.store.next + 1), s.tasks[s.store.next := Numbered], s.history)
    case Advance(n, title, now, outcome) =>
      if n !in s.tasks then s
      else
        match s.tasks[n]
        case Numbered => Apply(s, n, Waiting, Record(s.store, n, Job(Queued, now, title, None, None)))
        case Waiting => Apply(s, n, Running, Change(s.store, n, Proving, None, None))
        case Running =>
          (match outcome
           case Ok(proof) => Apply(s, n, Done(Succeeded), Change(s.store, n, Succeeded, Some(proof), None))
           case Err(error) => Apply(s, n, Done(Failed), Change(s.store, n, Failed, None, Some(error))))
        case Done(_) => s
  }

  function Run(start: nat, events: seq<Event>): System {
    if events == [] then System(Store(map[], [], start), map[], [])
    else Step(Run(start, events[..|events| - 1]), events[|events| - 1])
  }

  /** The statuses a job went through, in order. */
  function StatusesOf(history: seq<Activity>, n: nat): seq<Status> {
    if history == [] then []
    else
      var a := history[|history| - 1];
      StatusesOf(history[..|history| - 1], n) + (if a.job == n then [a.status] else [])
  }

  /** What a task has put on the feed so far. */
  function Trail(t: Task): seq<Status> {
    match t
    case Numbered => []
    case Waiting => [Queued]
    case Running => [Queued, Proving]
    case Done(final) => [Queued, Proving, final]
  }

  predicate Terminal(st: Status) {
    st == Succeeded || st == Failed
  }

  predicate Consistent(s: System, n: nat) {
    && StatusesOf(s.history, n) == (if n in s.tasks then Trail(s.tasks[n]) else [])
    && (n in s.store.jobs <==> n in s.tasks && s.tasks[n] != Numbered)
    && (n in s.tasks ==> n < s.store.next)
    && (n in s.store.jobs ==> s.store.jobs[n].status == Trail(s.tasks[n])[|Trail(s.tasks[n])| - 1])
    && (n in s.tasks && s.tasks[n].Done? ==> Terminal(s.tasks[n].final))
  }

  predicate Feed(s: System) {
    && (forall i :: 0 <= i < |s.history| ==> s.history[i].seqNo == i)
    && s.store.activity == Last(s.history, ACTIVITY_CAP)
  }

  lemma StatusesSnoc(history: seq<Activity>, a: Activity, n: nat)
    ensures StatusesOf(history + [a], n) == StatusesOf(history, n) + (if a.job == n then [a.status] else [])
  {
    assert (history + [a])[..|history|] == history;
  }

  lemma NextSeqIs(s: System)
    requires Feed(s)
    ensures NextSeq(s.store.activity) == |s.history|
  {
  }

  lemma RecordFeeds(s: System, n: nat, j: Job, t: Task)
    requires Feed(s)
    ensures Feed(Apply(s, n, t, Record(s.store, n, j)))
  {
    NextSeqIs(s);
  }

  /** Where a task's step takes it. */
  function NextTask(t: Task, outcome: Result<string, string>): Task {
    match t
    case Numbered => Waiting
    case Waiting => Running
    case Running => if outcome.Ok? then Done(Succeeded) else Done(Failed)
    case Done(_) => t
  }

  /** What it stores. */
  function NextJob(s: Store, n: nat, t: Task, title: Option<string>, now: nat, outcome: Result<string, string>): Job
    requires t != Numbered ==> n in s.jobs
  {
    match t
    case Numbered => Job(Queued, now, title, None, None)
    case Waiting => s.jobs[n].(status := Proving)
    case Running =>
      (match outcome
       case Ok(proof) => s.jobs[n].(status := Succeeded, result := Some(proof))
       case Err(error) => s.jobs[n].(status := Failed, error := Some(error)))
    case Done(_) => s.jobs[n]
  }

  lemma StepRecords(s: System, e: Event)
    requires e.Advance? && e.task in s.tasks && !s.tasks[e.task].Done? && Consistent(s, e.task)
    ensures var t := s.tasks[e.task];
            Step(s, e) == Apply(s, e.task, NextTask(t, e.outcome),
                                Record(s.store, e.task, NextJob(s.store, e.task, t, e.title, e.now, e.outcome)))
  {
  }

  lemma StepFeeds(s: System, e: Event)
    requires Feed(s) && (e.Advance? ==> Consistent(s, e.task))
    ensures Feed(Step(s, e))
  {
    if e.Advance? && e.task in s.tasks && !s.tasks[e.task].Done? {
      var t := s.tasks[e.task];
      StepRecords(s, e);
      RecordFeeds(s, e.task, NextJob(s.store, e.task, t, e.title, e.now, e.outcome), NextTask(t, e.outcome));
    }
  }

  lemma BeginConsistent(s: System, n: nat)
    requires Consistent(s, n) && Consistent(s, s.store.next)
    ensures Consistent(Step(s, Begin), n)
  {
  }

  lemma OthersConsistent(s: System, m: nat, t: Task, store: Store, n: nat)
    requires Consistent(s, n) && n != m && store.next == s.store.next
    requires (n in store.jobs <==> n in s.store.jobs) && (n in store.jobs ==> store.jobs[n] == s.store.jobs[n])
    ensures Consistent(Apply(s, m, t, store), n)
  {
    if m in store.jobs {
      StatusesSnoc(s.history, Entry(|s.history|, m, store.jobs[m]), n);
    } else {
      assert s.history + [] == s.history;
    }
  }

  lemma OwnConsistent(s: System, n: nat, t: Task, store: Store)
    requires Consistent(s, n) && n in s.tasks && n in store.jobs && store.next == s.store.next && t != Numbered
    requires Trail(t) == Trail(s.tasks[n]) + [store.jobs[n].status] && (t.Done? ==> Terminal(t.final))
    ensures Consistent(Apply(s, n, t, store), n)
  {
    StatusesSnoc(s.history, Entry(|s.history|, n, store.jobs[n]), n);
  }

  lemma StepConsistent(s: System, e: Event, n: nat)
    requires Consistent(s, n) && (e.Advance? ==> Consistent(s, e.task))
    requires e.Begin? ==> Consistent(s, s.store.next)
    ensures Consistent(Step(s, e), n)
  {
    if e.Begin? {
      BeginConsistent(s, n);
    } else if e.task in s.tasks && !s.tasks[e.task].Done? {
      StepRecords(s, e);
      ActiveConsistent(s, e, n, Step(s, e));
    }
  }

  lemma ActiveConsistent(s: System, e: Event, n: nat, next: System)
    requires e.Advance? && e.task in s.tasks && !s.tasks[e.task].Done? && Consistent(s, e.task) && Consistent(s, n)
    requires var t := s.tasks[e.task];
             next == Apply(s, e.task, NextTask(t, e.outcome),
                           Record(s.store, e.task, NextJob(s.store, e.task, t, e.title, e.now, e.outcome)))
    ensures Consistent(next, n)
  {
    Advanced(s, e.task, NextTask(s.tasks[e.task], e.outcome),
             NextJob(s.store, e.task, s.tasks[e.task], e.title, e.now, e.outcome), n);
  }

  lemma Advanced(s: System, m: nat, t: Task, j: Job, n: nat)
    requires Consistent(s, n) && Consistent(s, m) && m in s.tasks && t != Numbered
    requires Trail(t) == Trail(s.tasks[m]) + [j.status] && (t.Done? ==> Terminal(t.final))
    ensures Consistent(Apply(s, m, t, Record(s.store, m, j)), n)
  {
    if n == m {
      OwnConsistent(s, m, t, Record(s.store, m, j));
    } else {
      OthersConsistent(s, m, t, Record(s.store, m, j), n);
    }
  }

  /** Whatever the interleaving: the feed is the last 100 entries of the whole history, each numbered by
      its place in it; a job's entries are Queued, Proving, then one final status, or a prefix of that; and
      the stored status is that of the job's latest entry. */
  lemma {:induction false} FeedAndStatus(start: nat, events: seq<Event>, n: nat)
    ensures Feed(Run(start, events)) && Consistent(Run(start, events), n)
    decreases |events|
  {
    if events != [] {
      var init, e := events[..|events| - 1], events[|events| - 1];
      FeedAndStatus(start, init, n);
      FeedAndStatus(start, init, if e.Advance? then e.task else Run(start, init).store.next);
      StepFeeds(Run(start, init), e);
      StepConsistent(Run(start, init), e, n);
    }
  }

  predicate IsPrefixOfLife(s: seq<Status>) {
    s <= [Queued, Proving, Succeeded] || s <= [Queued, Proving, Failed]
  }

  /** What a poller and the feed can see of one job. */
  lemma JobLifecycle(start: nat, events: seq<Event>, n: nat)
    ensures var s := Run(start, events);
            && IsPrefixOfLife(StatusesOf(s.history, n))
            && (n in s.store.jobs <==> StatusesOf(s.history, n) != [])
            && (n in s.store.jobs ==>
                  s.store.jobs[n].status == StatusesOf(s.history, n)[|StatusesOf(s.history, n)| - 1])
  {
    FeedAndStatus(start, events, n);
  }

  /** A final status never changes. */
  lemma {:induction false} FinalStays(start: nat, events: seq<Event>, more: seq<Event>, n: nat)
    requires n in Run(start, events).store.jobs && Terminal(Run(start, events).store.jobs[n].status)
    ensures n in Run(start, events + more).store.jobs
         && Run(start, events + more).store.jobs[n] == Run(start, events).store.jobs[n]
    decreases |more|
  {
    if more == [] {
      assert events + more == events;
    } else {
      var k := |more| - 1;
      FinalStays(start, events, more[..k], n);
      OneMoreStays(start, events + more[..k], more[k], n);
      assert events + more == (events + more[..k]) + [more[k]];
    }
  }

  lemma OneMoreStays(start: nat, events: seq<Event>, e: Event, n: nat)
    requires n in Run(start, events).store.jobs && Terminal(Run(start, events).store.jobs[n].status)
    ensures n in Run(start, events + [e]).store.jobs
         && Run(start, events + [e]).store.jobs[n] == Run(start, events).store.jobs[n]
  {
    assert (events + [e])[..|events|] == events;
    FeedAndStatus(start, events, n);
    StaysFinal(Run(start, events), e, n);
  }

  lemma StaysFinal(s: System, e: Event, n: nat)
    requires Consistent(s, n) && n in s.store.jobs && Terminal(s.store.jobs[n].status)
    ensures n in Step(s, e).store.jobs && Step(s, e).store.jobs[n] == s.store.jobs[n]
  {
    assert s.tasks[n].Done?;
  }
}

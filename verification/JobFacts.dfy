/** What a job's record says: when and under which title it was created, and how its task ended. */
module JobFacts {
  import opened Field
  import opened Jobs

  /** Event `i` is a step of task `n`, which is at `t` then. */
  ghost predicate StepsAt(start: nat, events: seq<Event>, i: int, n: nat, t: Task) {
    && 0 <= i < |events| && events[i].Advance? && events[i].task == n
    && n in Run(start, events[..i]).tasks && Run(start, events[..i]).tasks[n] == t
  }

  /** Title and time are those of the step that created the job. */
  ghost predicate Created(start: nat, events: seq<Event>, n: nat, j: Job) {
    exists i :: StepsAt(start, events, i, n, Numbered) && events[i].title == j.title && events[i].now == j.startedAt
  }

  /** A finished job has the result, or the error, its task ended with; before that it has neither. */
  ghost predicate Ended(start: nat, events: seq<Event>, n: nat, j: Job) {
    match j.status
    case Succeeded =>
      j.error == None && exists i :: StepsAt(start, events, i, n, Running) && events[i].outcome.Ok?
                                     && j.result == Some(events[i].outcome.value)
    case Failed =>
      j.result == None && exists i :: StepsAt(start, events, i, n, Running) && events[i].outcome.Err?
                                      && j.error == Some(events[i].outcome.error)
    case _ => j.result == None && j.error == None
  }

  lemma StepsBefore(start: nat, events: seq<Event>, e: Event, i: int, n: nat, t: Task)
    requires StepsAt(start, events, i, n, t)
    ensures StepsAt(start, events + [e], i, n, t) && (events + [e])[i] == events[i]
  {
    assert (events + [e])[..i] == events[..i];
  }

  lemma StepsNow(start: nat, events: seq<Event>, e: Event)
    requires e.Advance? && e.task in Run(start, events).tasks
    ensures StepsAt(start, events + [e], |events|, e.task, Run(start, events).tasks[e.task])
    ensures (events + [e])[|events|] == e
  {
    assert (events + [e])[..|events|] == events;
  }

  lemma StaysCreated(start: nat, events: seq<Event>, e: Event, n: nat, j: Job)
    requires Created(start, events, n, j)
    ensures Created(start, events + [e], n, j)
  {
    var i :| StepsAt(start, events, i, n, Numbered) && events[i].title == j.title && events[i].now == j.startedAt;
    StepsBefore(start, events, e, i, n, Numbered);
  }

  lemma StaysEnded(start: nat, events: seq<Event>, e: Event, n: nat, j: Job)
    requires Ended(start, events, n, j)
    ensures Ended(start, events + [e], n, j)
  {
    match j.status {
      case Succeeded =>
        var i :| StepsAt(start, events, i, n, Running) && events[i].outcome.Ok?
                 && j.result == Some(events[i].outcome.value);
        StepsBefore(start, events, e, i, n, Running);
      case Failed =>
        var i :| StepsAt(start, events, i, n, Running) && events[i].outcome.Err?
                 && j.error == Some(events[i].outcome.error);
        StepsBefore(start, events, e, i, n, Running);
      case _ =>
    }
  }

  /** Every feed entry of the job carries its title and time. */
  predicate Labelled(s: System, n: nat) {
    forall a :: a in s.history && a.job == n ==>
      n in s.store.jobs && a.title == s.store.jobs[n].title && a.startedAt == s.store.jobs[n].startedAt
  }

  lemma OwnLabels(start: nat, events: seq<Event>, e: Event)
    requires e.Advance? && e.task in Run(start, events).tasks && !Run(start, events).tasks[e.task].Done?
    requires Consistent(Run(start, events), e.task) && Labelled(Run(start, events), e.task)
    ensures e.task in Step(Run(start, events), e).store.jobs && Labelled(Step(Run(start, events), e), e.task)
  {
    StepRecords(Run(start, events), e);
  }

  lemma OwnCreated(start: nat, events: seq<Event>, e: Event)
    requires e.Advance? && e.task in Run(start, events).tasks && !Run(start, events).tasks[e.task].Done?
    requires Consistent(Run(start, events), e.task)
    requires e.task in Run(start, events).store.jobs ==>
               Created(start, events, e.task, Run(start, events).store.jobs[e.task])
    ensures e.task in Step(Run(start, events), e).store.jobs
    ensures Created(start, events + [e], e.task, Step(Run(start, events), e).store.jobs[e.task])
  {
    var s, n := Run(start, events), e.task;
    StepRecords(s, e);
    StepsNow(start, events, e);
    if n in s.store.jobs {
      var j := s.store.jobs[n];
      StaysCreated(start, events, e, n, j);
      var i :| StepsAt(start, events + [e], i, n, Numbered) && (events + [e])[i].title == j.title
               && (events + [e])[i].now == j.startedAt;
    }
  }

  lemma OwnEnded(start: nat, events: seq<Event>, e: Event)
    requires e.Advance? && e.task in Run(start, events).tasks && !Run(start, events).tasks[e.task].Done?
    requires Consistent(Run(start, events), e.task)
    requires e.task in Run(start, events).store.jobs ==>
               Ended(start, events, e.task, Run(start, events).store.jobs[e.task])
    ensures e.task in Step(Run(start, events), e).store.jobs
    ensures Ended(start, events + [e], e.task, Step(Run(start, events), e).store.jobs[e.task])
  {
    StepRecords(Run(start, events), e);
    StepsNow(start, events, e);
  }

  lemma OtherStep(start: nat, events: seq<Event>, e: Event, n: nat)
    requires Labelled(Run(start, events), n)
    requires e.Begin? || e.task != n || e.task !in Run(start, events).tasks || Run(start, events).tasks[e.task].Done?
    requires e.Advance? ==> Consistent(Run(start, events), e.task)
    ensures var s, next := Run(start, events), Step(Run(start, events), e);
            && (n in next.store.jobs <==> n in s.store.jobs)
            && (n in s.store.jobs ==> next.store.jobs[n] == s.store.jobs[n]) && Labelled(next, n)
  {
    if e.Advance? && e.task in Run(start, events).tasks && !Run(start, events).tasks[e.task].Done? {
      StepRecords(Run(start, events), e);
    }
  }

  /** Over every interleaving: a stored job has the title and time it was created with, on the feed too, and the result
      or error its own task ended with, if it has. */
  lemma {:induction false} JobIs(start: nat, events: seq<Event>, n: nat)
    ensures Labelled(Run(start, events), n)
    ensures n in Run(start, events).store.jobs ==>
              && Created(start, events, n, Run(start, events).store.jobs[n])
              && Ended(start, events, n, Run(start, events).store.jobs[n])
    decreases |events|
  {
    if events != [] {
      var k := |events| - 1;
      var init, e := events[..k], events[k];
      JobIs(start, init, n);
      assert events == init + [e];
      if e.Advance? {
        FeedAndStatus(start, init, e.task);
      }
      if e.Advance? && e.task == n && n in Run(start, init).tasks && !Run(start, init).tasks[n].Done? {
        OwnLabels(start, init, e);
        OwnCreated(start, init, e);
        OwnEnded(start, init, e);
      } else {
        OtherStep(start, init, e, n);
        if n in Run(start, init).store.jobs {
          StaysCreated(start, init, e, n, Run(start, init).store.jobs[n]);
          StaysEnded(start, init, e, n, Run(start, init).store.jobs[n]);
        }
      }
    }
  }
}

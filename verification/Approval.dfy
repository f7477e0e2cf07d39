/** The approval bridge: prompts, the user's answers and each prompt's timer, in any interleaving. */
module Approval {
  import opened Field

  datatype Decision = Approve | Reject

  /** Requests are numbered in the order the bridge receives them. `pending` maps a prompt's id to the
      request whose answer channel it holds; `issued[k]` is the id request `k` got; a request whose channel
      was answered or dropped is in `decisions`. */
  datatype Prompts = Prompts(nextId: U64, pending: map<U64, nat>, decisions: map<nat, Decision>, issued: seq<U64>)

  const FRESH: Prompts := Prompts(1, map[], map[], [])

  /** One atomic step. */
  datatype Event = Prompt | Answer(id: U64, approved: bool) | Timer(request: nat)

  // ---- the steps ----

  /** The counter wraps like the u64 it is. */
  function After(id: U64): U64 {
    if id == TWO_64 - 1 then 0 else id + 1
  }

  /** The id of the `k`-th request: 1, 2, ... */
  function IdOf(k: nat): U64 {
    if k == 0 then 1 else After(IdOf(k - 1))
  }

  /** The answer goes out on the channel kept under `id`; a channel that is dropped reads as a rejection. */
  function Resolve(p: Prompts, id: U64, d: Decision): Prompts {
    if id in p.pending then
      p.(pending := p.pending - {id}, decisions := p.decisions[p.pending[id] := d])
    else p
  }

  /** A new prompt takes the next id; were that id still pending, inserting it would drop the old channel. */
  function AfterPrompt(p: Prompts): Prompts {
    var k, id := |p.issued|, p.nextId;
    var q := Resolve(p, id, Reject);
    q.(pending := q.pending[id := k], issued := q.issued + [id], nextId := After(id))
  }

  function AfterTimer(p: Prompts, k: nat): Prompts {
    if k < |p.issued| then Resolve(p, p.issued[k], Reject) else p
  }

  function Step(p: Prompts, e: Event): Prompts {
    match e
    case Prompt => AfterPrompt(p)
    case Answer(id, approved) => Resolve(p, id, if approved then Approve else Reject)
    case Timer(k) => AfterTimer(p, k)
  }

  function Run(events: seq<Event>): Prompts {
    if events == [] then FRESH else Step(Run(events[..|events| - 1]), events[|events| - 1])
  }

  // ---- what every interleaving keeps ----

  /** Every request is decided or still pending under its own id, never both. */
  ghost predicate Valid(p: Prompts) {
    && (forall k :: 0 <= k < |p.issued| ==> p.issued[k] == IdOf(k))
    && p.nextId == IdOf(|p.issued|)
    && (forall id {:trigger id in p.pending} :: id in p.pending ==>
          p.pending[id] < |p.issued| && p.issued[p.pending[id]] == id && p.pending[id] !in p.decisions)
    && (forall k {:trigger k in p.decisions} :: k in p.decisions ==> k < |p.issued|)
    && (forall k :: 0 <= k < |p.issued| ==>
        k in p.decisions || (p.issued[k] in p.pending && p.pending[p.issued[k]] == k))
  }

  lemma StepValid(p: Prompts, e: Event)
    requires Valid(p)
    ensures Valid(Step(p, e))
  {
    match e {
      case Prompt => PromptValid(p);
      case Answer(id, approved) => ResolveValid(p, id, if approved then Approve else Reject);
      case Timer(k) => if k < |p.issued| { ResolveValid(p, p.issued[k], Reject); }
    }
  }

  lemma ResolveValid(p: Prompts, id: U64, d: Decision)
    requires Valid(p)
    ensures Valid(Resolve(p, id, d))
  {
  }

  lemma PromptValid(p: Prompts)
    requires Valid(p)
    ensures Valid(AfterPrompt(p))
  {
    ResolveValid(p, p.nextId, Reject);
    InsertValid(Resolve(p, p.nextId, Reject));
  }

  lemma InsertValid(q: Prompts)
    requires Valid(q) && q.nextId !in q.pending
    ensures var k := |q.issued|;
            Valid(q.(pending := q.pending[q.nextId := k], issued := q.issued + [q.nextId], nextId := After(q.nextId)))
  {
  }

  lemma {:induction false} RunValid(events: seq<Event>)
    ensures Valid(Run(events))
    decreases |events|
  {
    if events != [] {
      RunValid(events[..|events| - 1]);
      StepValid(Run(events[..|events| - 1]), events[|events| - 1]);
    }
  }

  /** A decision, once made, stays; and a step approves a request only as the user's answer to an id
      under which that very request is still pending. */
  lemma StepDecides(p: Prompts, e: Event, k: nat)
    requires Valid(p)
    ensures k in p.decisions ==> k in Step(p, e).decisions && Step(p, e).decisions[k] == p.decisions[k]
    ensures k !in p.decisions && k in Step(p, e).decisions && Step(p, e).decisions[k] == Approve ==>
              e.Answer? && e.approved && e.id in p.pending && p.pending[e.id] == k
  {
  }

  /** No request's decision ever changes, however the run goes on. */
  lemma {:induction false} DecidedOnce(events: seq<Event>, more: seq<Event>, k: nat)
    requires k in Run(events).decisions
    ensures k in Run(events + more).decisions && Run(events + more).decisions[k] == Run(events).decisions[k]
    decreases |more|
  {
    if more == [] {
      assert events + more == events;
    } else {
      var n := |more| - 1;
      DecidedOnce(events, more[..n], k);
      assert events + more == (events + more[..n]) + [more[n]];
      RunDecides(events + more[..n], more[n], k);
    }
  }

  lemma RunDecides(events: seq<Event>, e: Event, k: nat)
    requires k in Run(events).decisions
    ensures k in Run(events + [e]).decisions && Run(events + [e]).decisions[k] == Run(events).decisions[k]
  {
    RunValid(events);
    assert (events + [e])[..|events|] == events;
    StepDecides(Run(events), e, k);
  }

  /** Step `i` of the run is the user approving the prompt of request `k` while it was still pending. */
  ghost predicate ApprovedAt(events: seq<Event>, i: int, k: nat) {
    && 0 <= i < |events| && events[i].Answer? && events[i].approved
    && events[i].id in Run(events[..i]).pending && Run(events[..i]).pending[events[i].id] == k
  }

  /** An approval always comes from the user, for that very prompt, while it was still pending. */
  lemma {:induction false} ApprovalIsTheUsers(events: seq<Event>, k: nat)
    requires k in Run(events).decisions && Run(events).decisions[k] == Approve
    ensures exists i :: ApprovedAt(events, i, k)
    decreases |events|
  {
    var n := |events| - 1;
    var init := events[..n];
    RunValid(init);
    StepDecides(Run(init), events[n], k);
    if k in Run(init).decisions {
      ApprovalIsTheUsers(init, k);
      var i :| ApprovedAt(init, i, k);
      assert events[..i] == init[..i];
      assert ApprovedAt(events, i, k);
    } else {
      assert ApprovedAt(events, n, k);
    }
  }

  /** The user's answer to a pending prompt decides its request, as answered and for good; an answer to an id that is
      not pending changes nothing. */
  lemma AnswerDecides(before: seq<Event>, id: U64, approved: bool, after: seq<Event>)
    ensures id !in Run(before).pending ==> Run(before + [Answer(id, approved)]) == Run(before)
    ensures id in Run(before).pending ==>
              var k := Run(before).pending[id];
              && k in Run(before + [Answer(id, approved)] + after).decisions
              && Run(before + [Answer(id, approved)] + after).decisions[k] == if approved then Approve else Reject
  {
    var answered := before + [Answer(id, approved)];
    assert answered[..|before|] == before;
    if id in Run(before).pending {
      DecidedOnce(answered, after, Run(before).pending[id]);
    }
  }

  /** Step `i` decides request `k`: an answer to its pending prompt, its timer or that of another prompt of the same id,
      or a prompt that takes over its id. */
  ghost predicate DecidedAt(events: seq<Event>, i: int, k: nat) {
    && 0 <= i < |events| && k < |Run(events[..i]).issued|
    && var p, id := Run(events[..i]), Run(events[..i]).issued[k];
       && id in p.pending && p.pending[id] == k
       && match events[i]
          case Answer(x, _) => x == id
          case Timer(j) => j < |p.issued| && p.issued[j] == id
          case Prompt => p.nextId == id
  }

  lemma StepCause(p: Prompts, e: Event, k: nat)
    requires Valid(p) && k !in p.decisions && k in Step(p, e).decisions
    ensures k < |p.issued| && p.issued[k] in p.pending && p.pending[p.issued[k]] == k
    ensures match e
            case Answer(x, _) => x == p.issued[k]
            case Timer(j) => j < |p.issued| && p.issued[j] == p.issued[k]
            case Prompt => p.nextId == p.issued[k]
  {
  }

  /** Nothing is decided by itself. */
  lemma {:induction false} DecisionHasCause(events: seq<Event>, k: nat)
    requires k in Run(events).decisions
    ensures exists i :: DecidedAt(events, i, k)
    decreases |events|
  {
    var n := |events| - 1;
    var init := events[..n];
    RunValid(init);
    if k in Run(init).decisions {
      DecisionHasCause(init, k);
      var i :| DecidedAt(init, i, k);
      assert events[..i] == init[..i];
      assert DecidedAt(events, i, k);
    } else {
      StepCause(Run(init), events[n], k);
      assert DecidedAt(events, n, k);
    }
  }

  /** Until 2^64 prompts have come, no two share an id. */
  lemma IdsAreDistinct(events: seq<Event>, j: nat, k: nat)
    requires j < k < |Run(events).issued| < TWO_64
    ensures Run(events).issued[j] != Run(events).issued[k]
  {
    IssuedIs(events, j);
    IssuedIs(events, k);
  }

  lemma IssuedIs(events: seq<Event>, k: nat)
    requires k < |Run(events).issued|
    ensures Run(events).issued[k] == (1 + k) % TWO_64
  {
    RunValid(events);
    IdIs(k);
  }

  lemma {:induction false} IdIs(k: nat)
    ensures IdOf(k) == (1 + k) % TWO_64
    decreases k
  {
    if k > 0 {
      IdIs(k - 1);
      NextMod(k, IdOf(k - 1));
    }
  }

  lemma NextMod(k: nat, id: U64)
    requires id == k % TWO_64
    ensures After(id) == (1 + k) % TWO_64
  {
  }

  /** Once a prompt's timer has run, its request is decided, for good. */
  lemma TimerDecides(before: seq<Event>, k: nat, after: seq<Event>)
    requires k < |Run(before).issued|
    ensures k in Run(before + [Timer(k)] + after).decisions
    ensures k in Run(before).decisions ==>
              Run(before + [Timer(k)] + after).decisions[k] == Run(before).decisions[k]
    ensures k !in Run(before).decisions ==> Run(before + [Timer(k)] + after).decisions[k] == Reject
  {
    RunValid(before);
    var fired := before + [Timer(k)];
    assert fired[..|before|] == before;
    DecidedOnce(fired, after, k);
    StepDecides(Run(before), Timer(k), k);
  }

  /** Inserting over a key is the same as removing it first. */
  lemma Overwritten(m: map<U64, nat>, id: U64, k: nat)
    ensures (m - {id})[id := k] == m[id := k]
  {
  }

  // ---- the bridge itself ----

  /** The shared map, the id counter, and (for the proofs) what has been answered. */
  class Bridge {
    var nextId: U64
    var pending: map<U64, nat>
    ghost var decisions: map<nat, Decision>
    ghost var issued: seq<U64>
    var received: nat

    ghost function State(): Prompts
      reads this
    {
      Prompts(nextId, pending, decisions, issued)
    }

    ghost predicate Sound()
      reads this
    {
      Valid(State()) && received == |issued|
    }

    constructor ()
      ensures State() == FRESH && Sound()
    {
      nextId, pending, decisions, issued, received := 1, map[], map[], [], 0;
    }

    /** The bridge takes a prompt off the queue. */
    method Receive() returns (id: U64)
      requires Sound()
      modifies this
      ensures Sound() && State() == Step(old(State()), Prompt) && id == old(nextId)
    {
      ghost var before := State();
      PromptValid(before);
      id := nextId;
      nextId := After(nextId);
      if id in pending {
        decisions := decisions[pending[id] := Reject];
        Overwritten(pending, id, received);
      }
      pending := pending[id := received];
      issued := issued + [id];
      received := received + 1;
      assert State() == AfterPrompt(before);
    }

    /** The user answers; `None` when the id is not pending any more. */
    method Respond(id: U64, approved: bool) returns (sent: Option<Decision>)
      requires Sound()
      modifies this
      ensures Sound() && State() == Step(old(State()), Answer(id, approved))
      ensures sent == if id in old(pending) then Some(if approved then Approve else Reject) else None
    {
      StepValid(State(), Answer(id, approved));
      if id !in pending { return None; }
      var decision := if approved then Approve else Reject;
      decisions := decisions[pending[id] := decision];
      pending := pending - {id};
      sent := Some(decision);
    }

    /** The timer started for a prompt's id runs out. */
    method Expire(id: U64, ghost k: nat) returns (existed: bool)
      requires Sound() && k < |issued| && issued[k] == id
      modifies this
      ensures Sound() && State() == Step(old(State()), Timer(k)) && existed == (id in old(pending))
    {
      StepValid(State(), Timer(k));
      existed := id in pending;
      if existed {
        decisions := decisions[pending[id] := Reject];
        pending := pending - {id};
      }
    }
  }
}

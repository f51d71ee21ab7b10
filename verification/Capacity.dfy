/** The capacity check is check-then-act; this is how far the queue can overshoot, and that it does. */
module Capacity {
  import opened Values
  import opened Faults
  import opened Admission
  import Steps

  /** Past the check and able to add a job. */
  predicate IsPast(q: Request) { q.Creating? || q.Enqueuing? }

  function Past(requests: map<nat, Request>): set<nat> {
    set r | r in requests && IsPast(requests[r])
  }

  predicate JobIdsDrawn(t: Tables) {
    forall j | j in t.jobs :: j < t.next
  }

  /** Queue depth and requests past the check are bounded together. */
  ghost predicate Inv(limit: nat, w: World) {
    && JobIdsDrawn(w.tables)
    && |Flying(w.requests)| <= limit
    && |OpenJobs(w.tables.jobs)| + |Past(w.requests)| <= MAX_QUEUE_DEPTH - 1 + limit
  }

  lemma PutRequest(requests: map<nat, Request>, r: nat, q: Request)
    ensures Flying(requests[r := q]) == if InFlight(q) then Flying(requests) + {r} else Flying(requests) - {r}
    ensures Past(requests[r := q]) == if IsPast(q) then Past(requests) + {r} else Past(requests) - {r}
    ensures Past(requests) <= Flying(requests)
  {
  }

  lemma SubsetSize(a: set<nat>, b: set<nat>)
    requires a <= b
    ensures |a| <= |b|
  {
    if a != {} {
      var x :| x in a;
      SubsetSize(a - {x}, b - {x});
    }
  }

  lemma PutJob(jobs: map<nat, Job>, j: nat, job: Job)
    ensures OpenJobs(jobs[j := job]) == if job.state != Finished then OpenJobs(jobs) + {j} else OpenJobs(jobs) - {j}
  {
  }

  /** How a request's step moves it with respect to the check, and what it does to the queue. */
  ghost predicate Passes(w: World, r: nat, w': World)
    requires r in w.requests && r in w'.requests
  {
    var q, q' := w.requests[r], w'.requests[r];
    && (InFlight(q') ==> InFlight(q))
    && (w'.tables.jobs == w.tables.jobs
        || (q.Enqueuing? && !IsPast(q') && w'.tables.jobs == w.tables.jobs[w.tables.next := Job(q.id, Waiting)]))
    && (IsPast(q') ==> IsPast(q) || (q.Checking? && HasCapacity(w.tables)))
    && w.tables.next <= w'.tables.next && (w'.tables.jobs != w.tables.jobs ==> w.tables.next < w'.tables.next)
  }

  lemma ArrivedPasses(w: World, r: nat, f: Fault)
    requires r in w.requests && w.requests[r].Arrived?
    ensures Passes(w, r, StepArrived(w, r, w.requests[r].call, f))
  {
  }

  lemma PlainPasses(w: World, r: nat, f: Fault, allowed: bool)
    requires r in w.requests && (w.requests[r].Limiting? || w.requests[r].Writing?)
    ensures Passes(w, r, StepRequest(w, r, f, allowed))
  {
  }

  lemma TicketPasses(w: World, r: nat, f: Fault, allowed: bool)
    requires r in w.requests && !(w.requests[r].Arrived? || w.requests[r].Limiting? || w.requests[r].Writing?)
    ensures Passes(w, r, StepRequest(w, r, f, allowed))
  {
  }

  lemma {:induction false} StepKeeps(limit: nat, w: World, r: nat, f: Fault, allowed: bool)
    requires Inv(limit, w) && r in w.requests
    ensures Inv(limit, StepRequest(w, r, f, allowed))
  {
    var w' := StepRequest(w, r, f, allowed);
    if w.requests[r].Arrived? {
      ArrivedPasses(w, r, f);
    } else if w.requests[r].Limiting? || w.requests[r].Writing? {
      PlainPasses(w, r, f, allowed);
    } else {
      TicketPasses(w, r, f, allowed);
    }
    var q, q' := w.requests[r], w'.requests[r];
    PutRequest(w.requests, r, q');
    assert InFlight(q) <==> r in Flying(w.requests);
    assert IsPast(q) <==> r in Past(w.requests);
    if IsPast(q') && !IsPast(q) {
      SubsetSize(Past(w'.requests), Flying(w'.requests));
      assert |OpenJobs(w.tables.jobs)| <= MAX_QUEUE_DEPTH - 1;
    }
    if w'.tables.jobs != w.tables.jobs {
      PutJob(w.tables.jobs, w.tables.next, Job(q.id, Waiting));
    }
  }

  lemma MoveKeeps(limit: nat, w: World, j: nat, to: JobState)
    requires Inv(limit, w)
    ensures Inv(limit, StepMove(w, j, to))
  {
    if j in w.tables.jobs {
      PutJob(w.tables.jobs, j, w.tables.jobs[j].(state := to));
      assert w.tables.jobs[j].state != Finished <==> j in OpenJobs(w.tables.jobs);
    }
  }

  lemma {:induction false} TickKeeps(limit: nat, w: World, e: Event)
    requires Inv(limit, w)
    ensures Inv(limit, Tick(limit, w, e))
  {
    match e
    case Arrive(r, call) =>
      if r !in w.requests && (IsAdmission(call) ==> |Flying(w.requests)| < limit) {
        PutRequest(w.requests, r, Arrived(call));
        assert r !in Flying(w.requests) && r !in Past(w.requests);
      }
    case Step(r, f, allowed) => if r in w.requests { StepKeeps(limit, w, r, f, allowed); }
    case MoveJob(j, to) => MoveKeeps(limit, w, j, to);
    case Work(_, _, _) =>
  }

  lemma {:induction false} RunKeeps(limit: nat, events: seq<Event>)
    ensures Inv(limit, Run(limit, EMPTY, events))
    decreases |events|
  {
    if events == [] {
      assert Flying(map[]) == {} && Past(map[]) == {} && OpenJobs(map[]) == {};
    } else {
      var n := |events| - 1;
      RunKeeps(limit, events[..n]);
      TickKeeps(limit, Run(limit, EMPTY, events[..n]), events[n]);
    }
  }

  /** Overshoot bound: with at most `limit` admissions in flight at a time, over both ways in, waiting, active
      and delayed jobs never number more than 999 + `limit`. */
  lemma {:induction false} QueueIsBounded(limit: nat, events: seq<Event>)
    ensures |OpenJobs(Run(limit, EMPTY, events).tables.jobs)| <= 999 + limit
  {
    RunKeeps(limit, events);
  }

  // ---------------------------------------------------------------- the bound is reached

  const USER := "user"
  const DEFINITION := Definition(Manual, [Steps.Step("step", Steps.Transform(map[]))])

  function TheTicket(): Ticket { Ticket(0, 1, DEFINITION, Manual, map[], None) }

  /** Requests `lo` up to `hi` have passed the check; no other is in flight; the queue is `depth` deep. */
  ghost predicate Stage(w: World, depth: nat, lo: nat, hi: nat) {
    && lo <= hi
    && 0 in w.tables.workflows
    && w.tables.workflows[0] == Workflow(USER, "", Active, DEFINITION, 1, None)
    && JobIdsDrawn(w.tables) && |OpenJobs(w.tables.jobs)| == depth
    && (forall r | r in w.requests :: r < hi)
    && (forall r | r in w.requests && r < lo :: !InFlight(w.requests[r]))
    && (forall r | lo <= r < hi :: r in w.requests && w.requests[r] == Creating(TheTicket()))
  }

  function Range(lo: nat, hi: nat): (s: set<nat>)
    ensures forall r | lo <= r < hi :: r in s
    ensures forall r | r in s :: lo <= r < hi
    ensures |s| == if lo <= hi then hi - lo else 0
  {
    if lo < hi then Range(lo, hi - 1) + {hi - 1} else {}
  }

  lemma StageFlying(w: World, depth: nat, lo: nat, hi: nat)
    requires Stage(w, depth, lo, hi)
    ensures |Flying(w.requests)| == hi - lo
  {
    assert Flying(w.requests) == Range(lo, hi);
  }

  lemma ReadFirst(w: World, r: nat)
    requires r in w.requests && w.requests[r] == Arrived(RunManual(USER, 0, Some(map[])))
    requires 0 in w.tables.workflows && w.tables.workflows[0] == Workflow(USER, "", Active, DEFINITION, 1, None)
    ensures StepRequest(w, r, Fine, true) == At(w, r, Checking(TheTicket()))
  {
  }

  lemma CheckNext(w: World, r: nat)
    requires r in w.requests && w.requests[r] == Checking(TheTicket()) && |OpenJobs(w.tables.jobs)| < MAX_QUEUE_DEPTH
    ensures StepRequest(w, r, Fine, true) == At(w, r, Creating(TheTicket()))
  {
  }

  lemma Enters(w: World, w3: World, depth: nat, lo: nat, hi: nat)
    requires Stage(w, depth, lo, hi) && w3.tables == w.tables
    requires w3.requests == w.requests[hi := Creating(TheTicket())]
    ensures Stage(w3, depth, lo, hi + 1)
  {
  }

  /** One more request arrives and passes the check. */
  lemma {:induction false} Enter(limit: nat, w: World, depth: nat, lo: nat, hi: nat) returns (events: seq<Event>)
    requires Stage(w, depth, lo, hi) && hi - lo < limit && depth < MAX_QUEUE_DEPTH
    ensures Stage(Run(limit, w, events), depth, lo, hi + 1)
  {
    StageFlying(w, depth, lo, hi);
    var call, e := RunManual(USER, 0, Some(map[])), Step(hi, Fine, true);
    events := [Arrive(hi, call), e, e];
    RunThree(limit, w, Arrive(hi, call), e, e);
    var w1 := Tick(limit, w, Arrive(hi, call));
    assert w1 == At(w, hi, Arrived(call));
    ReadFirst(w1, hi);
    var w2 := Tick(limit, w1, e);
    CheckNext(w2, hi);
    Enters(w, Tick(limit, w2, e), depth, lo, hi);
  }

  /** An insert without a key, and the job for it. */
  lemma CreateFirst(w: World, r: nat)
    requires r in w.requests && w.requests[r] == Creating(TheTicket())
    ensures var id := w.tables.next;
            StepRequest(w, r, Fine, true) == At(AddExecution(w, TheTicket()), r, Enqueuing(TheTicket(), id))
  {
  }

  lemma QueueAfter(w: World, r: nat, id: nat)
    requires r in w.requests && w.requests[r] == Enqueuing(TheTicket(), id)
    ensures StepRequest(w, r, Fine, true) == At(AddJob(w, id), r, Replied(Some(TheTicket()), Accepted(id)))
  {
  }

  /** What the two together change of a stage. */
  lemma Leaves(w: World, w2: World, depth: nat, lo: nat, hi: nat, q: Request)
    requires Stage(w, depth, lo, hi) && lo < hi && !InFlight(q)
    requires w2.requests == w.requests[lo := q]
    requires w2.tables.workflows == w.tables.workflows && w2.tables.next == w.tables.next + 2
    requires w2.tables.jobs == w.tables.jobs[w.tables.next + 1 := Job(w.tables.next, Waiting)]
    ensures Stage(w2, depth + 1, lo + 1, hi)
  {
    PutJob(w.tables.jobs, w.tables.next + 1, Job(w.tables.next, Waiting));
    assert w.tables.next + 1 !in OpenJobs(w.tables.jobs);
  }

  /** The first of the requests past the check creates its execution and queues it. */
  lemma {:induction false} Leave(limit: nat, w: World, depth: nat, lo: nat, hi: nat) returns (events: seq<Event>)
    requires Stage(w, depth, lo, hi) && lo < hi
    ensures Stage(Run(limit, w, events), depth + 1, lo + 1, hi)
  {
    var e := Step(lo, Fine, true);
    events := [e, e];
    RunTwo(limit, w, e, e);
    var w1 := Tick(limit, w, e);
    CreateFirst(w, lo);
    var w2 := Tick(limit, w1, e);
    QueueAfter(w1, lo, w.tables.next);
    assert w2.requests == w.requests[lo := Replied(Some(TheTicket()), Accepted(w.tables.next))];
    Leaves(w, w2, depth, lo, hi, w2.requests[lo]);
  }

  /** Admitted one after the other, requests fill the queue. */
  lemma {:induction false} Fill(limit: nat, w: World, depth: nat, hi: nat, target: nat)
    returns (events: seq<Event>, top: nat)
    requires Stage(w, depth, hi, hi) && 1 <= limit && depth <= target < MAX_QUEUE_DEPTH
    ensures Stage(Run(limit, w, events), target, top, top)
    decreases target - depth
  {
    if depth == target {
      events, top := [], hi;
    } else {
      var enter := Enter(limit, w, depth, hi, hi);
      var w1 := Run(limit, w, enter);
      var leave := Leave(limit, w1, depth, hi, hi + 1);
      var w2 := Run(limit, w1, leave);
      var tail;
      tail, top := Fill(limit, w2, depth + 1, hi + 1, target);
      RunAppend(limit, w, enter, leave);
      RunAppend(limit, w, enter + leave, tail);
      events := enter + leave + tail;
    }
  }

  lemma {:induction false} EnterAll(limit: nat, w: World, depth: nat, lo: nat, hi: nat) returns (events: seq<Event>)
    requires Stage(w, depth, lo, hi) && hi - lo <= limit && depth < MAX_QUEUE_DEPTH
    ensures Stage(Run(limit, w, events), depth, lo, lo + limit)
    decreases limit - (hi - lo)
  {
    if hi - lo == limit {
      events := [];
    } else {
      var enter := Enter(limit, w, depth, lo, hi);
      var tail := EnterAll(limit, Run(limit, w, enter), depth, lo, hi + 1);
      RunAppend(limit, w, enter, tail);
      events := enter + tail;
    }
  }

  lemma {:induction false} LeaveAll(limit: nat, w: World, depth: nat, lo: nat, hi: nat) returns (events: seq<Event>)
    requires Stage(w, depth, lo, hi)
    ensures Stage(Run(limit, w, events), depth + (hi - lo), hi, hi)
    decreases hi - lo
  {
    if lo == hi {
      events := [];
    } else {
      var leave := Leave(limit, w, depth, lo, hi);
      var tail := LeaveAll(limit, Run(limit, w, leave), depth + 1, lo + 1, hi);
      RunAppend(limit, w, leave, tail);
      events := leave + tail;
    }
  }

  lemma {:induction false} SetupCreate(limit: nat) returns (events: seq<Event>)
    ensures var w := Run(limit, EMPTY, events);
            && w.tables.workflows == map[0 := Workflow(USER, "", Draft, DEFINITION, 1, None)]
            && w.tables.executions == map[] && w.tables.jobs == map[]
            && w.requests == map[0 := Replied(None, Done)]
  {
    var create := Create(USER, "", Some(DEFINITION));
    var e := Step(0, Fine, true);
    events := [Arrive(0, create), e];
    RunTwo(limit, EMPTY, Arrive(0, create), e);
    var w1 := At(EMPTY, 0, Arrived(create));
    assert Tick(limit, EMPTY, Arrive(0, create)) == w1;
    assert Tick(limit, w1, e) == At(AddWorkflow(w1, USER, "", DEFINITION), 0, Replied(None, Done));
  }

  lemma {:induction false} SetupActivate(limit: nat, w: World) returns (events: seq<Event>)
    requires w.tables.workflows == map[0 := Workflow(USER, "", Draft, DEFINITION, 1, None)]
    requires w.tables.jobs == map[] && w.requests == map[0 := Replied(None, Done)]
    ensures Stage(Run(limit, w, events), 0, 2, 2)
  {
    var activate, e := SetStatus(USER, 0, Active), Step(1, Fine, true);
    events := [Arrive(1, activate), e, e];
    RunThree(limit, w, Arrive(1, activate), e, e);
    var w1 := At(w, 1, Arrived(activate));
    assert Tick(limit, w, Arrive(1, activate)) == w1;
    var change := Change(None, None, None, Some(Active));
    assert Tick(limit, w1, e) == At(w1, 1, Writing(0, change));
    assert OpenJobs(map[]) == {};
  }

  /** A workflow is created and activated. */
  lemma {:induction false} Setup(limit: nat) returns (events: seq<Event>)
    ensures Stage(Run(limit, EMPTY, events), 0, 2, 2)
  {
    var front := SetupCreate(limit);
    var back := SetupActivate(limit, Run(limit, EMPTY, front));
    events := front + back;
    RunAppend(limit, EMPTY, front, back);
  }

  /** The bound is exact: for every number of admissions in flight some run reaches it. One in flight means
      exactly 1000. */
  lemma {:induction false} BoundIsReached(limit: nat) returns (events: seq<Event>)
    requires limit >= 1
    ensures |OpenJobs(Run(limit, EMPTY, events).tables.jobs)| == 999 + limit
  {
    var setup := Setup(limit);
    var w0 := Run(limit, EMPTY, setup);
    var fill, top := Fill(limit, w0, 0, 2, 999);
    var w1 := Run(limit, w0, fill);
    var enter := EnterAll(limit, w1, 999, top, top);
    var w2 := Run(limit, w1, enter);
    var leave := LeaveAll(limit, w2, 999, top, top + limit);
    RunAppend(limit, EMPTY, setup, fill);
    RunAppend(limit, EMPTY, setup + fill, enter);
    RunAppend(limit, EMPTY, setup + fill + enter, leave);
    events := setup + fill + enter + leave;
  }
}

/** Executions that will never run, and the keys they use up. */
module Spent {
  import opened Values
  import opened Faults
  import opened Admission
  import opened Conservation
  import Idempotency

  /** The execution has a job, or a request is about to add it. */
  ghost predicate InReach(w: World, id: nat) {
    id in WithJob(w.tables.jobs) || exists r :: IsQueueing(w.requests, r, id)
  }

  ghost predicate IsQueueing(requests: map<nat, Request>, r: nat, id: nat) {
    r in requests && requests[r].Enqueuing? && requests[r].id == id
  }

  ghost predicate GetsJob(limit: nat, w: World, later: seq<Event>, id: nat) {
    id in WithJob(Run(limit, w, later).tables.jobs)
  }

  /** An execution there is, out of reach. */
  ghost predicate IsLeft(w: World, id: nat) {
    && id in w.tables.executions
    && (forall e | e in w.tables.executions :: e < w.tables.next)
    && id !in WithJob(w.tables.jobs)
    && forall r | r in w.requests :: !(w.requests[r].Enqueuing? && w.requests[r].id == id)
  }

  lemma LeftIsOutOfReach(w: World, id: nat)
    requires id in w.tables.executions && forall e | e in w.tables.executions :: e < w.tables.next
    ensures IsLeft(w, id) <==> !InReach(w, id)
  {
    if !InReach(w, id) {
      forall r | r in w.requests ensures !(w.requests[r].Enqueuing? && w.requests[r].id == id) {
        assert !IsQueueing(w.requests, r, id);
      }
    }
  }

  lemma CreatingLeaves(w: World, r: nat, ticket: Ticket, f: Fault, id: nat)
    requires IsLeft(w, id) && r in w.requests && w.requests[r] == Creating(ticket)
    ensures IsLeft(StepCreating(w, r, ticket, f), id)
  {
    CreatingMakes(w, r, ticket, f);
  }

  lemma EnqueuingLeaves(w: World, r: nat, ticket: Ticket, e: nat, f: Fault, id: nat)
    requires IsLeft(w, id) && e != id && r in w.requests
    ensures IsLeft(StepEnqueuing(w, r, ticket, e, f), id)
  {
    var jobs' := w.tables.jobs[w.tables.next := Job(e, Waiting)];
    forall j | j in jobs' ensures jobs'[j].executionId != id {
      if j in w.tables.jobs {
        assert w.tables.jobs[j].executionId in WithJob(w.tables.jobs);
      }
    }
  }

  lemma MarkingLeaves(w: World, r: nat, ticket: Ticket, e: nat, f: Fault, id: nat)
    requires IsLeft(w, id)
    ensures IsLeft(StepMarking(w, r, ticket, e, f), id)
  {
  }

  lemma RequestLeaves(w: World, r: nat, f: Fault, allowed: bool, id: nat)
    requires IsLeft(w, id) && r in w.requests
    ensures IsLeft(StepRequest(w, r, f, allowed), id)
  {
    match w.requests[r]
    case Creating(ticket) => CreatingLeaves(w, r, ticket, f, id);
    case Enqueuing(ticket, e) => EnqueuingLeaves(w, r, ticket, e, f, id);
    case Marking(ticket, e) => MarkingLeaves(w, r, ticket, e, f, id);
    case _ => QuietStep(w, r, f, allowed);
  }

  lemma LeftTick(limit: nat, w: World, e: Event, id: nat)
    requires IsLeft(w, id)
    ensures IsLeft(Tick(limit, w, e), id)
  {
    match e
    case Step(r, f, allowed) => if r in w.requests { RequestLeaves(w, r, f, allowed, id); }
    case MoveJob(j, to) =>
      var jobs' := StepMove(w, j, to).tables.jobs;
      forall i | i in jobs' ensures jobs'[i].executionId != id {
        assert w.tables.jobs[i].executionId in WithJob(w.tables.jobs);
      }
    case _ =>
  }

  lemma {:induction false} LeftRun(limit: nat, w: World, events: seq<Event>, id: nat)
    requires IsLeft(w, id)
    ensures IsLeft(Run(limit, w, events), id)
    decreases |events|
  {
    if events != [] {
      var n := |events| - 1;
      LeftRun(limit, w, events[..n], id);
      LeftTick(limit, Run(limit, w, events[..n]), events[n], id);
    }
  }

  lemma QueueingGetsJob(limit: nat, w: World, r: nat, id: nat)
    requires IsQueueing(w.requests, r, id)
    ensures GetsJob(limit, w, [Step(r, Fine, true)], id)
  {
    var e := Step(r, Fine, true);
    assert [e][..0] == [];
    var jobs' := Tick(limit, w, e).tables.jobs;
    assert jobs'[w.tables.next].executionId in WithJob(jobs');
  }

  /** Some continuation gives an execution a job if and only if it has one or a request is about to add it. */
  lemma {:induction false} GetsAJobIff(limit: nat, events: seq<Event>, id: nat)
    requires id in Run(limit, EMPTY, events).tables.executions
    ensures var w := Run(limit, EMPTY, events);
            (exists later :: GetsJob(limit, w, later, id)) <==> InReach(w, id)
  {
    var w := Run(limit, EMPTY, events);
    StartIsBalanced();
    RunKeeps(limit, EMPTY, events);
    LeftIsOutOfReach(w, id);
    if InReach(w, id) {
      if id in WithJob(w.tables.jobs) {
        assert GetsJob(limit, w, [], id);
      } else {
        var r :| IsQueueing(w.requests, r, id);
        QueueingGetsJob(limit, w, r, id);
      }
    } else if later :| GetsJob(limit, w, later, id) {
      LeftRun(limit, w, later, id);
    }
  }

  /** Out of reach are exactly the executions whose request stopped, or failed to queue them, without the job
      having been added after all. */
  lemma {:induction false} OutOfReachIff(limit: nat, events: seq<Event>, id: nat)
    requires id in Run(limit, EMPTY, events).tables.executions
    ensures var w := Run(limit, EMPTY, events);
            !InReach(w, id) <==>
              && id !in w.audit.lost
              && (id in w.audit.stranded || id in w.audit.marked || exists r :: IsMarking(w.requests, r, id))
  {
    var w := Run(limit, EMPTY, events);
    StartIsBalanced();
    RunKeeps(limit, EMPTY, events);
    var l := Books(w);
    if r :| IsQueueing(w.requests, r, id) {
      HeldHas(w.requests, r);
      assert NotYetQueued(w.requests[r], l.queued);
      forall s ensures !IsMarking(w.requests, s, id) {
        assert IsMarking(w.requests, s, id) ==> s == r;
      }
    } else if id in l.held {
      var r :| r in w.requests && Conservation.Holds(w.requests[r]) && w.requests[r].id == id;
      assert !IsQueueing(w.requests, r, id);
      assert IsMarking(w.requests, r, id);
    }
    if r :| IsMarking(w.requests, r, id) {
      HeldHas(w.requests, r);
    }
  }

  ghost predicate IsMarking(requests: map<nat, Request>, r: nat, id: nat) {
    r in requests && requests[r].Marking? && requests[r].id == id
  }

  /** The key of an execution out of reach is spent: every request with that key that is ever accepted is
      answered with it, and it never gets a job. */
  lemma {:induction false} KeyIsSpent(limit: nat, events: seq<Event>, later: seq<Event>, id: nat, r: nat)
    requires var w, w' := Run(limit, EMPTY, events), Run(limit, EMPTY, events + later);
             && id in w.tables.executions && !InReach(w, id)
             && r in w'.requests && w'.requests[r].Replied? && w'.requests[r].asked.Some?
                && w'.requests[r].answer.Accepted?
             && HasKey(w.tables, id, w'.requests[r].asked.value.workflowId, w'.requests[r].asked.value.key)
    ensures var w' := Run(limit, EMPTY, events + later);
            w'.requests[r].answer.id == id && id in w'.tables.executions && id !in WithJob(w'.tables.jobs)
  {
    var w, w' := Run(limit, EMPTY, events), Run(limit, EMPTY, events + later);
    StartIsBalanced();
    RunKeeps(limit, EMPTY, events);
    LeftIsOutOfReach(w, id);
    RunAppend(limit, EMPTY, events, later);
    LeftRun(limit, w, later, id);
    Idempotency.RunKeeps(limit, EMPTY, events);
    Idempotency.RunKeeps(limit, w, later);
    var ticket := w'.requests[r].asked.value;
    assert Idempotency.Named(w'.tables, ticket, w'.requests[r].answer.id);
    assert HasKey(w'.tables, w'.requests[r].answer.id, ticket.workflowId, ticket.key);
    assert HasKey(w'.tables, id, ticket.workflowId, ticket.key);
  }

  /** In particular the key of an execution marked as not queued, unless its add took effect after all: every
      later request with it is answered with the execution that failed. */
  lemma {:induction false} FailedKeyIsSpent(limit: nat, events: seq<Event>, later: seq<Event>, id: nat, r: nat)
    requires var w, w' := Run(limit, EMPTY, events), Run(limit, EMPTY, events + later);
             && id in w.audit.marked && id !in w.audit.lost && id in w.tables.executions
             && r in w'.requests && w'.requests[r].Replied? && w'.requests[r].asked.Some?
                && w'.requests[r].answer.Accepted?
             && HasKey(w.tables, id, w'.requests[r].asked.value.workflowId, w'.requests[r].asked.value.key)
    ensures var w' := Run(limit, EMPTY, events + later);
            && w'.requests[r].answer.id == id && id in w'.tables.executions && IsMarked(w'.tables.executions[id])
            && forall j | j in w'.tables.jobs :: w'.tables.jobs[j].executionId != id
  {
    MarkedForGood(limit, events, later, id);
    OutOfReachIff(limit, events, id);
    KeyIsSpent(limit, events, later, id, r);
  }

  // ---------------------------------------------------------------- QUEUED for ever

  predicate IsPristine(e: Execution) { e.status == Queued && e.error == None }

  /** Executions in a request's hands, or stranded, are as they were made, unless their job was added after
      all. */
  ghost predicate Pristine(w: World) {
    forall id | id in w.tables.executions && id !in w.audit.lost
                && (id in Held(w.requests) || id in w.audit.stranded) ::
      IsPristine(w.tables.executions[id])
  }

  /** What is stranded stays stranded, and can no longer be lost. */
  ghost predicate StaysStranded(w: World, w': World) {
    && w.audit.stranded <= w'.audit.stranded
    && (w.audit.stranded - w.audit.lost) !! w'.audit.lost
  }

  lemma PristineCreating(w: World, r: nat, ticket: Ticket, f: Fault)
    requires Conservation.Inv(w) && Pristine(w) && r in w.requests && w.requests[r] == Creating(ticket)
    ensures Pristine(StepCreating(w, r, ticket, f)) && StaysStranded(w, StepCreating(w, r, ticket, f))
  {
    var w' := StepCreating(w, r, ticket, f);
    assert w.tables.next !in Books(w).created && w.tables.next !in Books(w).queued;
    CreatingMakes(w, r, ticket, f);
    PutRequest(w.requests, r, w'.requests[r]);
  }

  lemma PristineEnqueuing(w: World, r: nat, ticket: Ticket, id: nat, f: Fault)
    requires Conservation.Inv(w) && Pristine(w) && r in w.requests && w.requests[r] == Enqueuing(ticket, id)
    ensures Pristine(StepEnqueuing(w, r, ticket, id, f)) && StaysStranded(w, StepEnqueuing(w, r, ticket, id, f))
  {
    HeldHas(w.requests, r);
    assert id !in Books(w).stranded;
    PutRequest(w.requests, r, StepEnqueuing(w, r, ticket, id, f).requests[r]);
  }

  lemma PristineMarking(w: World, r: nat, ticket: Ticket, id: nat, f: Fault)
    requires Conservation.Inv(w) && Pristine(w) && r in w.requests && w.requests[r] == Marking(ticket, id)
    ensures Pristine(StepMarking(w, r, ticket, id, f)) && StaysStranded(w, StepMarking(w, r, ticket, id, f))
  {
    HeldHas(w.requests, r);
    assert id !in Books(w).stranded;
    PutRequest(w.requests, r, StepMarking(w, r, ticket, id, f).requests[r]);
  }

  lemma PristineQuiet(w: World, r: nat, f: Fault, allowed: bool)
    requires Conservation.Inv(w) && Pristine(w) && r in w.requests
    requires !Conservation.Holds(w.requests[r]) && !w.requests[r].Creating?
    ensures Pristine(StepRequest(w, r, f, allowed)) && StaysStranded(w, StepRequest(w, r, f, allowed))
  {
    QuietStep(w, r, f, allowed);
    PutRequest(w.requests, r, StepRequest(w, r, f, allowed).requests[r]);
  }

  lemma PristineWork(w: World, j: nat, status: RunStatus, error: Option<string>)
    requires Conservation.Inv(w) && Pristine(w)
    ensures Pristine(StepWork(w, j, status, error))
  {
    if j in w.tables.jobs {
      var l := Books(w);
      assert w.tables.jobs[j].executionId in l.queued;
      assert w.tables.jobs[j].executionId !in (l.held + l.stranded) - l.lost;
    }
  }

  lemma PristineTick(limit: nat, w: World, e: Event)
    requires Conservation.Inv(w) && Pristine(w)
    ensures Pristine(Tick(limit, w, e)) && StaysStranded(w, Tick(limit, w, e))
  {
    match e
    case Arrive(r, call) => if r !in w.requests { PutRequest(w.requests, r, Arrived(call)); }
    case Step(r, f, allowed) =>
      if r in w.requests {
        var q := w.requests[r];
        if q.Creating? {
          PristineCreating(w, r, q.ticket, f);
        } else if q.Enqueuing? {
          PristineEnqueuing(w, r, q.ticket, q.id, f);
        } else if q.Marking? {
          PristineMarking(w, r, q.ticket, q.id, f);
        } else {
          PristineQuiet(w, r, f, allowed);
        }
      }
    case MoveJob(_, _) =>
    case Work(j, status, error) => PristineWork(w, j, status, error);
  }

  lemma {:induction false} PristineRun(limit: nat, w: World, events: seq<Event>)
    requires Conservation.Inv(w) && Pristine(w)
    ensures Pristine(Run(limit, w, events)) && StaysStranded(w, Run(limit, w, events))
    decreases |events|
  {
    if events != [] {
      var n := |events| - 1;
      PristineRun(limit, w, events[..n]);
      RunKeeps(limit, w, events[..n]);
      PristineTick(limit, Run(limit, w, events[..n]), events[n]);
    }
  }

  /** A stranded execution whose job was not added after all stays QUEUED, with no error to show, and never
      gets a job, whatever happens later. */
  lemma {:induction false} StrandedForGood(limit: nat, events: seq<Event>, later: seq<Event>, id: nat)
    requires var w := Run(limit, EMPTY, events); id in w.audit.stranded && id !in w.audit.lost
    ensures var w := Run(limit, EMPTY, events + later);
            && id in w.tables.executions && IsPristine(w.tables.executions[id])
            && id !in WithJob(w.tables.jobs)
  {
    var w := Run(limit, EMPTY, events);
    StartIsBalanced();
    RunKeeps(limit, EMPTY, events);
    PristineRun(limit, EMPTY, events);
    RunKeeps(limit, w, later);
    PristineRun(limit, w, later);
    RunAppend(limit, EMPTY, events, later);
    var w' := Run(limit, w, later);
    assert id in Books(w').stranded && id !in Books(w').lost;
  }
}

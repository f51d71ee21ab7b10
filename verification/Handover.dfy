/** From the API to the worker: what a job's execution looks like when its first delivery begins, and what a
    workflow that was asked to run comes to in the end. */
module Handover {
  import opened Values
  import opened Faults
  import opened Admission
  import opened Conservation
  import opened Spent
  import Versions
  import Origins
  import Machine
  import Resume
  import Steps
  import StopWindow

  /** No worker has written to the execution of job `j`. */
  ghost predicate NoWorkOn(j: nat, events: seq<Event>) {
    forall k | 0 <= k < |events| :: !(events[k].Work? && events[k].j == j)
  }

  /** The execution of job `j` is as it was made, unless the API was told that its add failed. */
  ghost predicate IsUntouched(w: World, j: nat) {
    j in w.tables.jobs && w.tables.jobs[j].executionId !in w.audit.lost ==>
      && w.tables.jobs[j].executionId in w.tables.executions
      && IsPristine(w.tables.executions[w.tables.jobs[j].executionId])
  }

  lemma EnqueuingHandsOver(w: World, r: nat, ticket: Ticket, id: nat, f: Fault, j: nat)
    requires Conservation.Inv(w) && Pristine(w) && IsUntouched(w, j)
    requires r in w.requests && w.requests[r] == Enqueuing(ticket, id)
    ensures IsUntouched(StepEnqueuing(w, r, ticket, id, f), j)
  {
    HeldHas(w.requests, r);
    assert id in Books(w).created && id !in Books(w).lost;
  }

  lemma MarkingHandsOver(w: World, r: nat, ticket: Ticket, id: nat, f: Fault, j: nat)
    requires Conservation.Inv(w) && IsUntouched(w, j)
    requires r in w.requests && w.requests[r] == Marking(ticket, id)
    ensures IsUntouched(StepMarking(w, r, ticket, id, f), j)
  {
    HeldHas(w.requests, r);
    if j in w.tables.jobs {
      assert w.tables.jobs[j].executionId in Books(w).queued;
    }
  }

  lemma CreatingHandsOver(w: World, r: nat, ticket: Ticket, f: Fault, j: nat)
    requires Conservation.Inv(w) && IsUntouched(w, j) && r in w.requests && w.requests[r] == Creating(ticket)
    ensures IsUntouched(StepCreating(w, r, ticket, f), j)
  {
    CreatingMakes(w, r, ticket, f);
  }

  lemma OtherWork(w: World, i: nat, status: RunStatus, error: Option<string>, j: nat)
    requires Conservation.Inv(w) && IsUntouched(w, j) && i != j
    ensures IsUntouched(StepWork(w, i, status, error), j)
  {
  }

  lemma HandsOverTick(limit: nat, w: World, e: Event, j: nat)
    requires Conservation.Inv(w) && Pristine(w) && IsUntouched(w, j) && !(e.Work? && e.j == j)
    ensures IsUntouched(Tick(limit, w, e), j)
  {
    match e
    case Arrive(_, _) =>
    case MoveJob(_, _) =>
    case Work(i, status, error) => OtherWork(w, i, status, error, j);
    case Step(r, f, allowed) =>
      if r in w.requests {
        var q := w.requests[r];
        if q.Creating? {
          CreatingHandsOver(w, r, q.ticket, f, j);
        } else if q.Enqueuing? {
          EnqueuingHandsOver(w, r, q.ticket, q.id, f, j);
        } else if q.Marking? {
          MarkingHandsOver(w, r, q.ticket, q.id, f, j);
        } else {
          QuietStep(w, r, f, allowed);
        }
      }
  }

  lemma StartIsUntouched(j: nat)
    ensures Conservation.Inv(EMPTY) && Pristine(EMPTY) && IsUntouched(EMPTY, j)
  {
    StartIsBalanced();
  }

  lemma {:induction false} HandsOverRun(limit: nat, events: seq<Event>, j: nat)
    requires NoWorkOn(j, events)
    ensures IsUntouched(Run(limit, EMPTY, events), j)
    decreases |events|
  {
    StartIsUntouched(j);
    if events != [] {
      var n := |events| - 1;
      RunKeeps(limit, EMPTY, events[..n]);
      PristineRun(limit, EMPTY, events[..n]);
      HandsOverRun(limit, events[..n], j);
      HandsOverTick(limit, Run(limit, EMPTY, events[..n]), events[n], j);
    }
  }

  // ---------------------------------------------------------------- the worker's side

  /** The plan a worker reads off an execution, whose id it knows as `name`. */
  function PlanOf(x: Execution, name: string, maxAttempts: nat, printer: Steps.Printer): Machine.Plan {
    Machine.Plan(name, x.snapshot.steps, x.payload, maxAttempts, printer)
  }

  function StatusOf(status: RunStatus): Machine.ExecutionStatus {
    match status
    case Queued => Machine.ExecutionStatus.Queued
    case Running => Machine.ExecutionStatus.Started
    case Succeeded => Machine.ExecutionStatus.Succeeded
    case Failed => Machine.ExecutionStatus.Failed
  }

  /** The execution, no step rows yet, and a worker that has done nothing. */
  function SystemOf(x: Execution, name: string): Machine.System {
    var row := Machine.Execution(StatusOf(x.status), x.error, x.status == Succeeded || x.status == Failed);
    Machine.System(Machine.Database(map[name := row], map[]),
                   Machine.Worker(Machine.Idle, 0, Machine.Open, 0, 0, false, false, [], []))
  }

  /** A job no worker has written for yet, and whose add did not throw after the fact, reaches the worker as
      its machine expects it; its plan is the definition its version names. */
  lemma {:induction false} ReachesWorkerAsInitial(limit: nat, events: seq<Event>, j: nat, name: string,
                                                  maxAttempts: nat, printer: Steps.Printer)
    requires var w := Run(limit, EMPTY, events);
             j in w.tables.jobs && w.tables.jobs[j].executionId !in w.audit.lost && NoWorkOn(j, events)
    ensures var w := Run(limit, EMPTY, events);
            var id := w.tables.jobs[j].executionId;
            && id in w.tables.executions
            && var x := w.tables.executions[id];
            && Machine.Initial(PlanOf(x, name, maxAttempts, printer), SystemOf(x, name))
            && Versions.Names(w.audit.history, x.workflowId, x.version, x.snapshot)
  {
    HandsOverRun(limit, events, j);
    Versions.SnapshotsAreFaithful(limit, events, Run(limit, EMPTY, events).tables.jobs[j].executionId);
  }

  /** End to end: whatever edits and requests were under way when a job was added, and wherever faults fall
      outside the stop window, if its execution succeeds then its rows are one uninterrupted walk over the
      steps of the version it was asked to run, on the payload its call came with. */
  lemma {:induction false} RunsWhatWasAsked(limit: nat, events: seq<Event>, j: nat, name: string, maxAttempts: nat,
                                            printer: Steps.Printer, deliveries: seq<Machine.Event>)
    returns (r: nat, k: nat)
    requires var w := Run(limit, EMPTY, events);
             j in w.tables.jobs && w.tables.jobs[j].executionId !in w.audit.lost && NoWorkOn(j, events)
             && w.tables.jobs[j].executionId in w.tables.executions
             && var x := w.tables.executions[w.tables.jobs[j].executionId];
             var p, s := PlanOf(x, name, maxAttempts, printer), SystemOf(x, name);
             p.DistinctIds() && StopWindow.OutsideWindow(p, s, deliveries)
             && Resume.HasSucceeded(p, Machine.Run(p, s, deliveries))
    ensures Origins.ArrivedAt(limit, events, r, k) && PayloadOf(events[k].call).Some?
    ensures var w := Run(limit, EMPTY, events);
            var x := w.tables.executions[w.tables.jobs[j].executionId];
            && Origins.Answers(w, events[k].call, x)
            && Versions.Names(w.audit.history, x.workflowId, x.version, x.snapshot)
            && var steps := w.audit.history[x.workflowId][x.version - 1].steps;
            var p := Machine.Plan(name, steps, PayloadOf(events[k].call).value, maxAttempts, printer);
            var rows := Machine.Run(p, SystemOf(x, name), deliveries).db.rows;
            Resume.Endings(p, rows) == Resume.Walk(p, Resume.Answers(p, rows))
  {
    ReachesWorkerAsInitial(limit, events, j, name, maxAttempts, printer);
    var w := Run(limit, EMPTY, events);
    var x := w.tables.executions[w.tables.jobs[j].executionId];
    r, k := Origins.EveryExecutionWasAsked(limit, events, w.tables.jobs[j].executionId);
    var p := PlanOf(x, name, maxAttempts, printer);
    StopWindow.ResumeRefinesWalk(p, SystemOf(x, name), deliveries);
  }

  /** The payload an admission call comes with. */
  function PayloadOf(call: Call): Option<WorkflowData> {
    match call
    case Receive(_, payload, _) => payload
    case RunManual(_, _, input) => input
    case _ => None
  }
}

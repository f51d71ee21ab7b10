/** The API's services in their own form, proved to do exactly what the machine does, whatever the rest of
    the system does between their calls. */
module AdmissionService {
  import opened Values
  import opened Faults
  import opened Trimming
  import opened Admission
  import Idempotency

  /** One request among others: which it is, the world it starts in, and what happens elsewhere after
      each of its awaited calls. */
  datatype Scene = Scene(limit: nat, r: nat, start: World, elsewhere: nat -> seq<Event>)

  /** How a call ends: with an answer, or with the death of its server. */
  datatype Outcome = Answered(answer: Answer) | Dead

  function Denial(problem: Problem): Outcome { Answered(Denied(problem)) }

  /** The tables with one more workflow; its id and its token are the next two of the supply. */
  function Stored(t: Tables, w: Workflow): Tables {
    t.(workflows := t.workflows[t.next := w], next := t.next + 2)
  }

  /** The tables with one more execution. */
  function Inserted(t: Tables, e: Execution): Tables {
    t.(executions := t.executions[t.next := e], next := t.next + 1)
  }

  /** The tables with one more job. */
  function Appended(t: Tables, executionId: nat): Tables {
    t.(jobs := t.jobs[t.next := Job(executionId, Waiting)], next := t.next + 1)
  }

  /** The tables and the queue as one request sees them. The `n`-th awaited call meets `faults(n)`; if it
      asks the rate limiter, it is told `verdicts(n)`; before the next one the tables have become
      `meanwhile(n)` of what it left. */
  class ApiDatabase {
    var workflows: map<nat, Workflow>
    var executions: map<nat, Execution>
    var jobs: map<nat, Job>
    var next: nat
    var clock: nat
    const faults: nat -> Fault
    const verdicts: nat -> bool
    const meanwhile: nat -> Tables -> Tables

    constructor (t: Tables, faults: nat -> Fault, verdicts: nat -> bool, meanwhile: nat -> Tables -> Tables)
      ensures Snapshot() == t && clock == 0
      ensures this.faults == faults && this.verdicts == verdicts && this.meanwhile == meanwhile
    {
      this.workflows, this.executions, this.jobs, this.next := t.workflows, t.executions, t.jobs, t.next;
      this.clock := 0;
      this.faults, this.verdicts, this.meanwhile := faults, verdicts, meanwhile;
    }

    function Snapshot(): Tables
      reads this
    {
      Tables(workflows, executions, jobs, next)
    }

    /** The machine after the `n`-th awaited call of the request, and after what happened elsewhere then. */
    ghost function After(x: Scene, n: nat): World
      decreases n, 1
    {
      Tick(x.limit, Machine(x, n), Step(x.r, faults(n), verdicts(n)))
    }

    ghost function Machine(x: Scene, n: nat): World
      decreases n, 0
    {
      if n == 0 then x.start else Run(x.limit, After(x, n - 1), x.elsewhere(n - 1))
    }

    /** `meanwhile` is what the machine's other events do, and they are not this request's. */
    ghost predicate FaithfulAt(x: Scene, n: nat) {
      var events := x.elsewhere(n);
      && meanwhile(n)(After(x, n).tables) == Run(x.limit, After(x, n), events).tables
      && NoStepOf(x.r, events)
    }

    ghost predicate Faithful(x: Scene) {
      x.r in x.start.requests && forall n: nat :: FaithfulAt(x, n)
    }

    /** The request stands at `q`, and the tables are those of the machine. */
    ghost predicate Stands(x: Scene, q: Request)
      reads this
    {
      Faithful(x) && Snapshot() == Machine(x, clock).tables && Lookup(Machine(x, clock).requests, x.r) == Some(q)
    }

    /** One awaited call is one step of the machine, whatever happens elsewhere. */
    lemma OneCall(x: Scene, n: nat, q: Request)
      requires Faithful(x) && Lookup(Machine(x, n).requests, x.r) == Some(q)
      ensures After(x, n) == StepRequest(Machine(x, n), x.r, faults(n), verdicts(n))
      ensures Machine(x, n + 1).tables == meanwhile(n)(After(x, n).tables)
      ensures Lookup(Machine(x, n + 1).requests, x.r) == Some(After(x, n).requests[x.r])
    {
      assert FaithfulAt(x, n);
      OthersLeaveIt(x.limit, After(x, n), x.r, x.elsewhere(n));
    }

    /** The request stands at `q` before its `n`-th call. */
    ghost predicate Before(x: Scene, n: nat, q: Request) {
      Faithful(x) && Lookup(Machine(x, n).requests, x.r) == Some(q)
    }

    /** The `n`-th call leaves the tables `t` and brings the request to `q`. */
    ghost predicate Leaves(x: Scene, n: nat, t: Tables, q: Request) {
      Machine(x, n + 1).tables == meanwhile(n)(t) && Lookup(Machine(x, n + 1).requests, x.r) == Some(q)
    }

    lemma ReadCall(x: Scene, n: nat, q: Request)
      requires Before(x, n, q)
      requires StepRequest(Machine(x, n), x.r, faults(n), verdicts(n)).tables == Machine(x, n).tables
      ensures Leaves(x, n, Machine(x, n).tables, StepRequest(Machine(x, n), x.r, faults(n), verdicts(n)).requests[x.r])
    {
      OneCall(x, n, q);
    }

    lemma FindCall(x: Scene, n: nat, call: Call)
      requires Before(x, n, Arrived(call)) && !call.Create? && !call.Update?
      ensures var t, f := Machine(x, n).tables, faults(n);
              Leaves(x, n, t, Onward(f,
                match call
                case Receive(token, payload, key) => ReadForWebhook(t, token, payload, key)
                case RunManual(userId, id, input) => ReadForManual(t, userId, id, input)
                case SetStatus(userId, id, status) => ReadForStatus(t, userId, id, status)))
    {
      ReadCall(x, n, Arrived(call));
    }

    lemma LimitingCall(x: Scene, n: nat, id: nat, w: Workflow, payload: Option<WorkflowData>, key: Option<string>)
      requires Before(x, n, Limiting(id, w, payload, key))
      ensures Leaves(x, n, Machine(x, n).tables, Onward(faults(n), AfterLimit(id, w, payload, key, verdicts(n))))
    {
      ReadCall(x, n, Limiting(id, w, payload, key));
    }

    lemma LookingUpCall(x: Scene, n: nat, ticket: Ticket)
      requires Before(x, n, LookingUp(ticket))
      ensures var t := Machine(x, n).tables;
              var found := FindByKey(t, ticket.workflowId, ticket.key);
              Leaves(x, n, t, Onward(faults(n), if found.Some? then Replied(Some(ticket), Accepted(found.value))
                                     else Checking(ticket)))
    {
      ReadCall(x, n, LookingUp(ticket));
    }

    lemma CreateCall(x: Scene, n: nat, userId: string, name: string, d: Definition)
      requires Before(x, n, Arrived(Call.Create(userId, name, Some(d))))
      ensures var t, f := Machine(x, n).tables, faults(n);
              var token := if d.trigger == Webhook then Some(t.next + 1) else None;
              Leaves(x, n, if Committed(f) then Stored(t, Workflow(userId, Trim(name), Draft, d, 1, token)) else t,
                     Onward(f, Replied(None, Done)))
    {
      OneCall(x, n, Arrived(Call.Create(userId, name, Some(d))));
    }

    lemma UpdateStep(w: World, r: nat, userId: string, id: nat, newName: Option<string>, d: Option<Option<Definition>>,
                     f: Fault)
      requires newName.Some? || d.Some?
      ensures var w' := StepArrived(w, r, Update(userId, id, newName, d), f);
              && w'.tables == (if f.Fine? then AfterDraw(w.tables, userId, id, d) else w.tables)
              && w'.requests[r] == Onward(f, ReadForUpdate(w.tables, userId, id, newName, d))
    {
    }

    lemma UpdateCall(x: Scene, n: nat, userId: string, id: nat, newName: Option<string>, d: Option<Option<Definition>>)
      requires Before(x, n, Arrived(Update(userId, id, newName, d))) && (newName.Some? || d.Some?)
      ensures var t, f := Machine(x, n).tables, faults(n);
              if !f.Fine? then Leaves(x, n, t, if Dies(f) then Gone else Deny(Internal))
              else if id !in t.workflows || t.workflows[id].userId != userId
              then Leaves(x, n, AfterDraw(t, userId, id, d), Deny(NotFound))
              else Leaves(x, n, AfterDraw(t, userId, id, d), EditOf(id, t.workflows[id], newName, d, t.next))
    {
      OneCall(x, n, Arrived(Update(userId, id, newName, d)));
      UpdateStep(Machine(x, n), x.r, userId, id, newName, d, faults(n));
    }

    lemma WritingCall(x: Scene, n: nat, id: nat, c: Change)
      requires Before(x, n, Writing(id, c))
      ensures var t, f := Machine(x, n).tables, faults(n);
              if id in t.workflows
              then Leaves(x, n, if Committed(f) then t.(workflows := t.workflows[id := Changed(t.workflows[id], c)])
                                else t,
                          Onward(f, Replied(None, Done)))
              else Leaves(x, n, t, Onward(f, Deny(Internal)))
    {
      OneCall(x, n, Writing(id, c));
    }

    lemma CheckingCall(x: Scene, n: nat, ticket: Ticket)
      requires Before(x, n, Checking(ticket))
      ensures var t := Machine(x, n).tables;
              Leaves(x, n, t, Onward(faults(n), if |OpenJobs(t.jobs)| < MAX_QUEUE_DEPTH then Creating(ticket)
                                     else Deny(AtCapacity)))
    {
      ReadCall(x, n, Checking(ticket));
    }

    lemma CreatingCall(x: Scene, n: nat, ticket: Ticket)
      requires Before(x, n, Creating(ticket))
      ensures var t, f := Machine(x, n).tables, faults(n);
              if FindByKey(t, ticket.workflowId, ticket.key).Some? then Leaves(x, n, t, Onward(f, FallingBack(ticket)))
              else Leaves(x, n, if Committed(f) then Inserted(t, NewExecution(ticket)) else t,
                          Onward(f, Enqueuing(ticket, t.next)))
    {
      OneCall(x, n, Creating(ticket));
    }

    lemma FallingBackCall(x: Scene, n: nat, ticket: Ticket)
      requires Before(x, n, FallingBack(ticket))
      ensures var t := Machine(x, n).tables;
              var found := FindByKey(t, ticket.workflowId, ticket.key);
              Leaves(x, n, t, Onward(faults(n), if found.Some? then Replied(Some(ticket), Accepted(found.value))
                                     else Deny(Internal)))
    {
      ReadCall(x, n, FallingBack(ticket));
    }

    lemma EnqueuingStep(w: World, r: nat, ticket: Ticket, id: nat, f: Fault)
      ensures var w', t := StepEnqueuing(w, r, ticket, id, f), w.tables;
              && w'.tables == (if Committed(f) then Appended(t, id) else t)
              && w'.requests[r] == if Dies(f) then Gone else if Throws(f) then Marking(ticket, id)
                 else Replied(Some(ticket), Accepted(id))
    {
    }

    lemma EnqueuingCall(x: Scene, n: nat, ticket: Ticket, id: nat)
      requires Before(x, n, Enqueuing(ticket, id))
      ensures var t, f := Machine(x, n).tables, faults(n);
              Leaves(x, n, if Committed(f) then Appended(t, id) else t,
                     if Dies(f) then Gone else if Throws(f) then Marking(ticket, id)
                       else Replied(Some(ticket), Accepted(id)))
    {
      OneCall(x, n, Enqueuing(ticket, id));
      EnqueuingStep(Machine(x, n), x.r, ticket, id, faults(n));
    }

    lemma MarkingCall(x: Scene, n: nat, ticket: Ticket, id: nat)
      requires Before(x, n, Marking(ticket, id))
      ensures var t, f := Machine(x, n).tables, faults(n);
              if Committed(f) && id in t.executions
              then
                var failed := t.executions[id].(status := Failed, error := Some(ENQUEUE_ERROR));
                Leaves(x, n, t.(executions := t.executions[id := failed]), Onward(f, Deny(NotQueued)))
              else Leaves(x, n, t, Onward(f, Deny(Internal)))
    {
      OneCall(x, n, Marking(ticket, id));
    }

    /** The call is over; the rest of the system goes on. */
    method Return(t: Tables)
      modifies this
      ensures clock == old(clock) + 1 && Snapshot() == meanwhile(old(clock))(t)
    {
      var t' := meanwhile(clock)(t);
      workflows, executions, jobs, next := t'.workflows, t'.executions, t'.jobs, t'.next;
      clock := clock + 1;
    }

    method FindWorkflowByToken(token: nat) returns (f: Fault, found: Option<(nat, Workflow)>)
      modifies this
      ensures clock == old(clock) + 1 && f == faults(old(clock)) && Snapshot() == meanwhile(old(clock))(old(Snapshot()))
      ensures var id := FindByToken(old(Snapshot()), token);
              found == if id.Some? then Some((id.value, old(workflows)[id.value])) else None
    {
      var id := FindByToken(Snapshot(), token);
      f, found := faults(clock), if id.Some? then Some((id.value, workflows[id.value])) else None;
      Return(Snapshot());
    }

    method FindWorkflow(userId: string, id: nat) returns (f: Fault, found: Option<Workflow>)
      modifies this
      ensures clock == old(clock) + 1 && f == faults(old(clock)) && Snapshot() == meanwhile(old(clock))(old(Snapshot()))
      ensures found == if id in old(workflows) && old(workflows)[id].userId == userId then Some(old(workflows)[id])
              else None
    {
      f, found := faults(clock), if id in workflows && workflows[id].userId == userId then Some(workflows[id])
        else None;
      Return(Snapshot());
    }

    /** Reads a workflow; the token an edit of it wants is drawn along with the read. */
    method FindForEdit(userId: string, id: nat, d: Option<Option<Definition>>)
      returns (f: Fault, found: Option<Workflow>, drawn: nat)
      modifies this
      ensures clock == old(clock) + 1 && f == faults(old(clock)) && drawn == old(next)
      ensures found == if id in old(workflows) && old(workflows)[id].userId == userId then Some(old(workflows)[id])
              else None
      ensures Snapshot() == meanwhile(old(clock))(
                if f.Fine? then AfterDraw(old(Snapshot()), userId, id, d) else old(Snapshot()))
    {
      f, drawn := faults(clock), next;
      found := if id in workflows && workflows[id].userId == userId then Some(workflows[id]) else None;
      if f.Fine? && found.Some? && WantsToken(found.value, d) {
        next := next + 1;
      }
      Return(Snapshot());
    }

    /** The rate limiter, on the workflow's own counter. */
    method Consume() returns (f: Fault, allowed: bool)
      modifies this
      ensures clock == old(clock) + 1 && f == faults(old(clock)) && Snapshot() == meanwhile(old(clock))(old(Snapshot()))
      ensures allowed == verdicts(old(clock))
    {
      f, allowed := faults(clock), verdicts(clock);
      Return(Snapshot());
    }

    method FindExecution(workflowId: nat, key: Option<string>) returns (f: Fault, found: Option<nat>)
      modifies this
      ensures clock == old(clock) + 1 && f == faults(old(clock)) && Snapshot() == meanwhile(old(clock))(old(Snapshot()))
      ensures found == FindByKey(old(Snapshot()), workflowId, key)
    {
      f, found := faults(clock), FindByKey(Snapshot(), workflowId, key);
      Return(Snapshot());
    }

    method GetJobCounts() returns (f: Fault, waiting: nat, active: nat, delayed: nat)
      modifies this
      ensures clock == old(clock) + 1 && f == faults(old(clock)) && Snapshot() == meanwhile(old(clock))(old(Snapshot()))
      ensures waiting == |InState(old(jobs), Waiting)| && active == |InState(old(jobs), Working)|
      ensures delayed == |InState(old(jobs), Delayed)|
    {
      f, waiting := faults(clock), |InState(jobs, Waiting)|;
      active, delayed := |InState(jobs, Working)|, |InState(jobs, Delayed)|;
      Return(Snapshot());
    }

    /** Inserts under the unique index on workflow and key. */
    method CreateExecution(e: Execution) returns (f: Fault, conflict: bool, id: nat)
      modifies this
      ensures clock == old(clock) + 1 && f == faults(old(clock)) && id == old(next)
      ensures conflict == FindByKey(old(Snapshot()), e.workflowId, e.key).Some?
      ensures Snapshot() == meanwhile(old(clock))(
                if !conflict && Committed(f) then Inserted(old(Snapshot()), e) else old(Snapshot()))
    {
      f, conflict, id := faults(clock), FindByKey(Snapshot(), e.workflowId, e.key).Some?, next;
      if !conflict && Committed(f) {
        executions, next := executions[next := e], next + 1;
      }
      Return(Snapshot());
    }

    method AddJob(executionId: nat) returns (f: Fault)
      modifies this
      ensures clock == old(clock) + 1 && f == faults(old(clock))
      ensures Snapshot() == meanwhile(old(clock))(
                if Committed(f) then Appended(old(Snapshot()), executionId) else old(Snapshot()))
    {
      f := faults(clock);
      if Committed(f) {
        jobs, next := jobs[next := Job(executionId, Waiting)], next + 1;
      }
      Return(Snapshot());
    }

    method FailExecution(id: nat, error: string) returns (f: Fault, found: bool)
      modifies this
      ensures clock == old(clock) + 1 && f == faults(old(clock)) && found == (id in old(executions))
      ensures Snapshot() == meanwhile(old(clock))(
                if Committed(f) && found
                then
                  var failed := old(executions)[id].(status := Failed, error := Some(error));
                  old(Snapshot()).(executions := old(executions)[id := failed])
                else old(Snapshot()))
    {
      f, found := faults(clock), id in executions;
      if Committed(f) && found {
        executions := executions[id := executions[id].(status := Failed, error := Some(error))];
      }
      Return(Snapshot());
    }

    method CreateWorkflow(w: Workflow) returns (f: Fault)
      modifies this
      ensures clock == old(clock) + 1 && f == faults(old(clock))
      ensures Snapshot() == meanwhile(old(clock))(
                if Committed(f) then Stored(old(Snapshot()), w) else old(Snapshot()))
    {
      f := faults(clock);
      if Committed(f) {
        workflows, next := workflows[next := w], next + 2;
      }
      Return(Snapshot());
    }

    method UpdateWorkflow(id: nat, change: Workflow -> Workflow) returns (f: Fault, found: bool)
      modifies this
      ensures clock == old(clock) + 1 && f == faults(old(clock)) && found == (id in old(workflows))
      ensures Snapshot() == meanwhile(old(clock))(
                if Committed(f) && found
                then old(Snapshot()).(workflows := old(workflows)[id := change(old(workflows)[id])])
                else old(Snapshot()))
    {
      f, found := faults(clock), id in workflows;
      if Committed(f) && found {
        workflows := workflows[id := change(workflows[id])];
      }
      Return(Snapshot());
    }
  }

  /** The request has ended as the machine's has. */
  ghost predicate Ended(database: ApiDatabase, x: Scene, asked: Option<Ticket>, out: Outcome)
    reads database
  {
    database.Stands(x, if out.Dead? then Gone else Replied(if out.answer.Accepted? then asked else None, out.answer))
  }

  /** From a world that keeps keys unique the machine only comes to such worlds. */
  lemma {:induction false} MachineKeeps(database: ApiDatabase, x: Scene, n: nat)
    requires Idempotency.Inv(x.start)
    ensures Idempotency.Inv(database.Machine(x, n))
  {
    if n > 0 {
      MachineKeeps(database, x, n - 1);
      var step := Step(x.r, database.faults(n - 1), database.verdicts(n - 1));
      Idempotency.TickKeeps(x.limit, database.Machine(x, n - 1), step);
      Idempotency.RunKeeps(x.limit, database.After(x, n - 1), x.elsewhere(n - 1));
    }
  }

  /** What a call answers with is in the tables, and it is what was asked for: the one execution its workflow
      has under its key. */
  lemma AnswersAreNamed(database: ApiDatabase, x: Scene, asked: Ticket, id: nat)
    requires Idempotency.Inv(x.start) && Ended(database, x, Some(asked), Answered(Accepted(id)))
    ensures Idempotency.Named(database.Snapshot(), asked, id)
    ensures forall other | HasKey(database.Snapshot(), other, asked.workflowId, asked.key) :: other == id
  {
    MachineKeeps(database, x, database.clock);
    var t := database.Snapshot();
    assert Idempotency.Named(t, asked, id);
    forall other | HasKey(t, other, asked.workflowId, asked.key) ensures other == id {
      assert HasKey(t, id, asked.workflowId, asked.key);
    }
  }

  /** What both ways in share: the capacity check, the insert and the queue. */
  class AdmissionTail {
    const database: ApiDatabase

    constructor (database: ApiDatabase)
      ensures this.database == database
    {
      this.database := database;
    }

    /** `hasCapacity`. */
    method HasCapacity(ticket: Ticket, ghost x: Scene) returns (out: Outcome, ok: bool)
      requires database.Stands(x, Checking(ticket))
      modifies database
      ensures ok ==> database.Stands(x, Creating(ticket))
      ensures !ok ==> Ended(database, x, None, out) && out != Answered(Done) && (out.Answered? ==> out.answer.Denied?)
    {
      database.CheckingCall(x, database.clock, ticket);
      CountsAddUp(database.jobs);
      var f, waiting, active, delayed := database.GetJobCounts();
      var queueDepth := waiting + active + delayed;
      ok := f.Fine? && queueDepth < MAX_QUEUE_DEPTH;
      out := if Dies(f) then Dead else if Throws(f) then Denial(Internal) else Denial(AtCapacity);
    }

    /** Creates the execution; a conflict on its key is answered with the execution that holds it. */
    method Create(ticket: Ticket, ghost x: Scene) returns (out: Outcome, id: nat, created: bool)
      requires database.Stands(x, Creating(ticket))
      modifies database
      ensures created ==> database.Stands(x, Enqueuing(ticket, id))
      ensures !created ==> Ended(database, x, Some(ticket), out)
    {
      database.CreatingCall(x, database.clock, ticket);
      var f, conflict;
      f, conflict, id := database.CreateExecution(NewExecution(ticket));
      created := f.Fine? && !conflict;
      out := if Dies(f) then Dead else Denial(Internal);
      if f.Fine? && conflict {
        out := FallBack(ticket, x);
      }
    }

    method FallBack(ticket: Ticket, ghost x: Scene) returns (out: Outcome)
      requires database.Stands(x, FallingBack(ticket))
      modifies database
      ensures Ended(database, x, Some(ticket), out)
    {
      database.FallingBackCall(x, database.clock, ticket);
      var f, found := database.FindExecution(ticket.workflowId, ticket.key);
      out := if Dies(f) then Dead else if f.Fine? && found.Some? then Answered(Accepted(found.value))
        else Denial(Internal);
    }

    /** Queues the execution, or marks it as not queued. */
    method Enqueue(ticket: Ticket, id: nat, ghost x: Scene) returns (out: Outcome)
      requires database.Stands(x, Enqueuing(ticket, id))
      modifies database
      ensures Ended(database, x, Some(ticket), out)
    {
      database.EnqueuingCall(x, database.clock, ticket, id);
      var f := database.AddJob(id);
      out := if Dies(f) then Dead else Answered(Accepted(id));
      if Throws(f) {
        out := MarkAsNotQueued(ticket, id, x);
      }
    }

    method MarkAsNotQueued(ticket: Ticket, id: nat, ghost x: Scene) returns (out: Outcome)
      requires database.Stands(x, Marking(ticket, id))
      modifies database
      ensures Ended(database, x, Some(ticket), out)
    {
      database.MarkingCall(x, database.clock, ticket, id);
      var f, found := database.FailExecution(id, ENQUEUE_ERROR);
      out := if Dies(f) then Dead else if Throws(f) || !found then Denial(Internal) else Denial(NotQueued);
    }

    method Admit(ticket: Ticket, ghost x: Scene) returns (out: Outcome)
      requires database.Stands(x, Checking(ticket))
      modifies database
      ensures Ended(database, x, Some(ticket), out)
    {
      var ok, created, id;
      out, ok := HasCapacity(ticket, x);
      if ok {
        out, id, created := Create(ticket, x);
        if created {
          out := Enqueue(ticket, id, x);
        }
      }
    }
  }

  class WebhooksService {
    const database: ApiDatabase
    const admissions: AdmissionTail

    constructor (database: ApiDatabase)
      ensures this.database == database && admissions.database == database
    {
      this.database := database;
      this.admissions := new AdmissionTail(database);
    }

    /** `receive`: one webhook call. It ends, and leaves the tables, as the machine's request does. */
    method Receive(token: nat, payload: Option<WorkflowData>, key: Option<string>, ghost x: Scene)
      returns (out: Outcome, ghost asked: Option<Ticket>)
      requires admissions.database == database
      requires database.Stands(x, Arrived(Call.Receive(token, payload, key)))
      modifies database
      ensures Ended(database, x, asked, out)
      ensures asked.Some? ==> KeyFor(key, asked.value.key) && Some(asked.value.payload) == payload
      ensures asked.Some? && (key.None? || Blank(key.value)) ==> asked.value.key == None
      ensures out.Answered? && out.answer.Accepted? ==> asked.Some?
    {
      asked := None;
      database.FindCall(x, database.clock, Call.Receive(token, payload, key));
      var f, found := database.FindWorkflowByToken(token);
      if !f.Fine? {
        return if Dies(f) then Dead else Denial(Internal), None;
      }
      if found.None? {
        return Denial(NotFound), None;
      }
      out, asked := ReceiveFor(found.value.0, found.value.1, payload, key, x);
    }

    method ReceiveFor(id: nat, workflow: Workflow, payload: Option<WorkflowData>, key: Option<string>, ghost x: Scene)
      returns (out: Outcome, ghost asked: Option<Ticket>)
      requires admissions.database == database
      requires database.Stands(x, Limiting(id, workflow, payload, key))
      modifies database
      ensures Ended(database, x, asked, out)
      ensures asked.Some? ==> KeyFor(key, asked.value.key) && Some(asked.value.payload) == payload
      ensures asked.Some? && (key.None? || Blank(key.value)) ==> asked.value.key == None
      ensures out.Answered? && out.answer.Accepted? ==> asked.Some?
    {
      database.LimitingCall(x, database.clock, id, workflow, payload, key);
      var f, allowed := database.Consume();
      if !f.Fine? {
        return if Dies(f) then Dead else Denial(Internal), None;
      }
      if !allowed {
        return Denial(RateLimited), None;
      }
      if workflow.status != Active || workflow.definition.trigger != Webhook || payload.None? {
        return Denial(BadRequest), None;
      }
      NormalizeIsKeyFor(key);
      var ticket := TicketFor(id, workflow, payload.value, Normalize(key));
      asked := Some(ticket);
      if ticket.key.Some? {
        var absent;
        out, absent := LookUp(ticket, x);
        if !absent {
          return;
        }
      }
      out := admissions.Admit(ticket, x);
    }

    /** The optimistic lookup. */
    method LookUp(ticket: Ticket, ghost x: Scene) returns (out: Outcome, absent: bool)
      requires database.Stands(x, LookingUp(ticket))
      modifies database
      ensures if absent then database.Stands(x, Checking(ticket)) else Ended(database, x, Some(ticket), out)
    {
      database.LookingUpCall(x, database.clock, ticket);
      var f, existing := database.FindExecution(ticket.workflowId, ticket.key);
      absent := f.Fine? && existing.None?;
      out := if Dies(f) then Dead else if Throws(f) || existing.None? then Denial(Internal)
        else Answered(Accepted(existing.value));
    }
  }

  class ExecutionsService {
    const database: ApiDatabase
    const admissions: AdmissionTail

    constructor (database: ApiDatabase)
      ensures this.database == database && admissions.database == database
    {
      this.database := database;
      this.admissions := new AdmissionTail(database);
    }

    /** `runManual`: one manual run. It ends, and leaves the tables, as the machine's request does. */
    method RunManual(userId: string, id: nat, input: Option<WorkflowData>, ghost x: Scene)
      returns (out: Outcome, ghost asked: Option<Ticket>)
      requires admissions.database == database
      requires database.Stands(x, Arrived(Call.RunManual(userId, id, input)))
      modifies database
      ensures Ended(database, x, asked, out)
      ensures asked.Some? ==>
                asked.value.key == None && asked.value.workflowId == id && Some(asked.value.payload) == input
      ensures out.Answered? && out.answer.Accepted? ==> asked.Some?
    {
      database.FindCall(x, database.clock, Call.RunManual(userId, id, input));
      var f, workflow := database.FindWorkflow(userId, id);
      if !f.Fine? {
        return if Dies(f) then Dead else Denial(Internal), None;
      }
      if workflow.None? {
        return Denial(NotFound), None;
      }
      if workflow.value.status != Active || workflow.value.definition.trigger != Manual || input.None? {
        return Denial(BadRequest), None;
      }
      var ticket := TicketFor(id, workflow.value, input.value, None);
      asked := Some(ticket);
      out := admissions.Admit(ticket, x);
    }
  }

  class WorkflowsService {
    const database: ApiDatabase

    constructor (database: ApiDatabase)
      ensures this.database == database
    {
      this.database := database;
    }

    /** The request was turned away before any call, or has ended as the machine's has. */
    twostate predicate Done(call: Call, x: Scene, out: Outcome)
      reads database
    {
      if IsMalformed(call) then out == Denial(BadRequest) && unchanged(database) else Ended(database, x, None, out)
    }

    /** `create`. */
    method Create(userId: string, name: string, definition: Option<Definition>, ghost x: Scene) returns (out: Outcome)
      requires database.Stands(x, Arrived(Call.Create(userId, name, definition)))
      modifies database
      ensures Done(Call.Create(userId, name, definition), x, out)
    {
      if definition.None? {
        return Denial(BadRequest);
      }
      out := Insert(userId, name, definition.value, x);
    }

    method Insert(userId: string, name: string, definition: Definition, ghost x: Scene) returns (out: Outcome)
      requires database.Stands(x, Arrived(Call.Create(userId, name, Some(definition))))
      modifies database
      ensures Ended(database, x, None, out)
    {
      database.CreateCall(x, database.clock, userId, name, definition);
      var webhookToken := if definition.trigger == Webhook then Some(database.next + 1) else None;
      var f := database.CreateWorkflow(Workflow(userId, Trim(name), Draft, definition, 1, webhookToken));
      out := if Dies(f) then Dead else if Throws(f) then Denial(Internal) else Answered(Answer.Done);
    }

    /** `update`: reads the workflow, compares, and writes what changed. */
    method Update(userId: string, id: nat, newName: Option<string>, definition: Option<Option<Definition>>,
                  ghost x: Scene)
      returns (out: Outcome)
      requires database.Stands(x, Arrived(Call.Update(userId, id, newName, definition)))
      modifies database
      ensures Done(Call.Update(userId, id, newName, definition), x, out)
    {
      if newName.None? && definition.None? {
        return Denial(BadRequest);
      }
      out := FindAndEdit(userId, id, newName, definition, x);
    }

    method FindAndEdit(userId: string, id: nat, newName: Option<string>, definition: Option<Option<Definition>>,
                       ghost x: Scene)
      returns (out: Outcome)
      requires database.Stands(x, Arrived(Call.Update(userId, id, newName, definition)))
      requires newName.Some? || definition.Some?
      modifies database
      ensures Ended(database, x, None, out)
    {
      database.UpdateCall(x, database.clock, userId, id, newName, definition);
      var f, found, drawn := database.FindForEdit(userId, id, definition);
      if !f.Fine? {
        return if Dies(f) then Dead else Denial(Internal);
      }
      if found.None? {
        return Denial(NotFound);
      }
      out := Edit(id, found.value, newName, definition, drawn, x);
    }

    /** Writes what an edit changes of the workflow it read. */
    method Edit(id: nat, workflow: Workflow, newName: Option<string>, definition: Option<Option<Definition>>,
                drawn: nat, ghost x: Scene)
      returns (out: Outcome)
      requires database.Stands(x, EditOf(id, workflow, newName, definition, drawn))
      modifies database
      ensures Ended(database, x, None, out)
    {
      if definition == Some(None) {
        return Denial(BadRequest);
      }
      var definitionChanged := definition.Some? && definition.value.value != workflow.definition;
      var webhookToken := workflow.webhookToken;
      if definition.Some? {
        if definition.value.value.trigger == Webhook {
          webhookToken := if webhookToken.None? then Some(drawn) else webhookToken;
        } else {
          webhookToken := None;
        }
      }
      var nameChanged := newName.Some? && Trim(newName.value) != workflow.name;
      if !nameChanged && !definitionChanged {
        return Answered(Answer.Done);
      }
      out := Write(id, Change(if nameChanged then Some(Trim(newName.value)) else None,
                              if definitionChanged then definition.value else None,
                              if definitionChanged then webhookToken else None, None), x);
    }

    method Write(id: nat, change: Change, ghost x: Scene) returns (out: Outcome)
      requires database.Stands(x, Writing(id, change))
      modifies database
      ensures Ended(database, x, None, out)
    {
      database.WritingCall(x, database.clock, id, change);
      var f, found := database.UpdateWorkflow(id, w => Changed(w, change));
      out := if Dies(f) then Dead else if Throws(f) || !found then Denial(Internal) else Answered(Answer.Done);
    }

    /** `activate`. */
    method Activate(userId: string, id: nat, ghost x: Scene) returns (out: Outcome)
      requires database.Stands(x, Arrived(SetStatus(userId, id, Active)))
      modifies database
      ensures Ended(database, x, None, out)
    {
      database.FindCall(x, database.clock, SetStatus(userId, id, Active));
      var f, workflow := database.FindWorkflow(userId, id);
      if !f.Fine? {
        return if Dies(f) then Dead else Denial(Internal);
      }
      if workflow.None? {
        return Denial(NotFound);
      }
      if workflow.value.status == Active || |workflow.value.definition.steps| == 0 {
        return Denial(BadRequest);
      }
      out := Write(id, Change(None, None, None, Some(Active)), x);
    }

    /** `pause`. */
    method Pause(userId: string, id: nat, ghost x: Scene) returns (out: Outcome)
      requires database.Stands(x, Arrived(SetStatus(userId, id, Paused)))
      modifies database
      ensures Ended(database, x, None, out)
    {
      database.FindCall(x, database.clock, SetStatus(userId, id, Paused));
      var f, workflow := database.FindWorkflow(userId, id);
      if !f.Fine? {
        return if Dies(f) then Dead else Denial(Internal);
      }
      if workflow.None? {
        return Denial(NotFound);
      }
      if workflow.value.status != Active {
        return Denial(BadRequest);
      }
      out := Write(id, Change(None, None, None, Some(Paused)), x);
    }
  }
}

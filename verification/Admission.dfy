/** The API over its shared tables: webhook and manual runs being admitted, workflows being edited. Each
    request in flight is a program counter; one step is one awaited call. */
module Admission {
  import opened Values
  import opened Faults
  import opened Trimming
  import Steps

  // ---------------------------------------------------------------- tables

  datatype Trigger = Manual | Webhook

  datatype Definition = Definition(trigger: Trigger, steps: seq<Steps.Step>)

  datatype WorkflowStatus = Draft | Active | Paused

  /** Tokens are random; they are drawn here from the same supply as ids, so no two are equal. */
  datatype Workflow = Workflow(userId: string, name: string, status: WorkflowStatus, definition: Definition,
                               version: nat, webhookToken: Option<nat>)

  datatype RunStatus = Queued | Running | Succeeded | Failed

  datatype Execution = Execution(workflowId: nat, version: nat, snapshot: Definition, trigger: Trigger,
                                 payload: WorkflowData, key: Option<string>, status: RunStatus, error: Option<string>)

  datatype JobState = Waiting | Working | Delayed | Finished

  datatype Job = Job(executionId: nat, state: JobState)

  datatype Tables = Tables(workflows: map<nat, Workflow>, executions: map<nat, Execution>, jobs: map<nat, Job>,
                           next: nat)

  const ENQUEUE_ERROR := "Failed to enqueue execution"
  const MAX_QUEUE_DEPTH := 1000

  // ---------------------------------------------------------------- requests

  /** A call as it arrives. An argument that does not parse is `None`. */
  datatype Call =
    | Receive(token: nat, payload: Option<WorkflowData>, key: Option<string>)
    | RunManual(userId: string, workflowId: nat, input: Option<WorkflowData>)
    | Create(userId: string, name: string, definition: Option<Definition>)
    | Update(userId: string, workflowId: nat, newName: Option<string>, newDefinition: Option<Option<Definition>>)
    | SetStatus(userId: string, workflowId: nat, status: WorkflowStatus)

  /** Turned away before anything is awaited. */
  predicate IsMalformed(call: Call) {
    match call
    case Create(_, _, d) => d.None?
    case Update(_, _, newName, newDefinition) => newName.None? && newDefinition.None?
    case _ => false
  }

  predicate IsAdmission(call: Call) { call.Receive? || call.RunManual? }

  /** What a run is made of, once the workflow was read. */
  datatype Ticket = Ticket(workflowId: nat, version: nat, snapshot: Definition, trigger: Trigger,
                           payload: WorkflowData, key: Option<string>)

  /** The fields an edit writes; the token goes with the definition. */
  datatype Change = Change(name: Option<string>, definition: Option<Definition>, token: Option<nat>,
                           status: Option<WorkflowStatus>)

  datatype Problem = NotFound | BadRequest | RateLimited | AtCapacity | NotQueued | Internal

  datatype Answer = Accepted(id: nat) | Done | Denied(problem: Problem)

  datatype Request =
    | Arrived(call: Call)
    | Limiting(workflowId: nat, workflow: Workflow, payload: Option<WorkflowData>, key: Option<string>)
    | LookingUp(ticket: Ticket)
    | Checking(ticket: Ticket)
    | Creating(ticket: Ticket)
    | FallingBack(ticket: Ticket)
    | Enqueuing(ticket: Ticket, id: nat)
    | Marking(ticket: Ticket, id: nat)
    | Writing(workflowId: nat, change: Change)
    | Replied(asked: Option<Ticket>, answer: Answer)
    | Gone

  /** Observers, read by no step: the definitions each workflow had, version by version; whose tokens are
      whose; executions marked as not queued; those whose request stopped between creating and queueing
      them; and those whose queueing threw although the job was added. */
  datatype Audit = Audit(history: map<nat, seq<Definition>>, owners: map<nat, nat>,
                         marked: set<nat>, stranded: set<nat>, lost: set<nat>)

  datatype World = World(tables: Tables, requests: map<nat, Request>, audit: Audit)

  // ---------------------------------------------------------------- reads

  predicate IsLeast(ids: set<nat>, id: nat) { id in ids && forall i | i in ids :: id <= i }

  /** A unique index names at most one row; the model takes the least, so that it need not know that. */
  function Least(ids: set<nat>): (id: nat)
    requires ids != {}
    ensures IsLeast(ids, id)
  {
    HasLeast(ids);
    var id :| id in ids && IsLeast(ids, id);
    id
  }

  lemma {:induction false} HasLeast(ids: set<nat>)
    requires ids != {}
    ensures exists id :: IsLeast(ids, id)
  {
    var id :| id in ids;
    var rest := ids - {id};
    assert forall i | i in ids :: i == id || i in rest;
    if rest == {} {
      assert IsLeast(ids, id);
    } else {
      HasLeast(rest);
      var least :| IsLeast(rest, least);
      assert IsLeast(ids, if id < least then id else least);
    }
  }

  predicate HasToken(t: Tables, id: nat, token: nat) {
    id in t.workflows && t.workflows[id].webhookToken == Some(token)
  }

  function FindByToken(t: Tables, token: nat): (found: Option<nat>)
    ensures found.Some? ==> HasToken(t, found.value, token)
    ensures found.None? ==> forall id :: !HasToken(t, id, token)
  {
    var ids := set id | id in t.workflows && HasToken(t, id, token);
    assert forall id | HasToken(t, id, token) :: id in ids;
    if ids == {} then None else Some(Least(ids))
  }

  predicate HasKey(t: Tables, id: nat, workflowId: nat, key: Option<string>) {
    key.Some? && id in t.executions && t.executions[id].workflowId == workflowId && t.executions[id].key == key
  }

  function FindByKey(t: Tables, workflowId: nat, key: Option<string>): (found: Option<nat>)
    ensures found.Some? ==> HasKey(t, found.value, workflowId, key)
    ensures found.None? ==> forall id :: !HasKey(t, id, workflowId, key)
  {
    var ids := set id | id in t.executions && HasKey(t, id, workflowId, key);
    assert forall id | HasKey(t, id, workflowId, key) :: id in ids;
    if ids == {} then None else Some(Least(ids))
  }

  function OpenJobs(jobs: map<nat, Job>): set<nat> {
    set j | j in jobs && jobs[j].state != Finished
  }

  function InState(jobs: map<nat, Job>, state: JobState): set<nat> {
    set j | j in jobs && jobs[j].state == state
  }

  /** `hasCapacity` adds up the waiting, active and delayed jobs; no job is in two of the counts. */
  function HasCapacity(t: Tables): (ok: bool)
    ensures ok <==> |OpenJobs(t.jobs)| < MAX_QUEUE_DEPTH
  {
    CountsAddUp(t.jobs);
    |InState(t.jobs, Waiting)| + |InState(t.jobs, Working)| + |InState(t.jobs, Delayed)| < MAX_QUEUE_DEPTH
  }

  lemma CountsAddUp(jobs: map<nat, Job>)
    ensures |InState(jobs, Waiting)| + |InState(jobs, Working)| + |InState(jobs, Delayed)| == |OpenJobs(jobs)|
  {
    var waiting, working, delayed := InState(jobs, Waiting), InState(jobs, Working), InState(jobs, Delayed);
    assert OpenJobs(jobs) == waiting + working + delayed;
    assert waiting !! working && (waiting + working) !! delayed;
  }

  function TicketFor(id: nat, w: Workflow, payload: WorkflowData, key: Option<string>): Ticket {
    Ticket(id, w.version, w.definition, w.definition.trigger, payload, key)
  }

  function NewExecution(ticket: Ticket): Execution {
    Execution(ticket.workflowId, ticket.version, ticket.snapshot, ticket.trigger, ticket.payload, ticket.key, Queued,
              None)
  }

  function Deny(problem: Problem): Request { Replied(None, Denied(problem)) }

  // ---------------------------------------------------------------- moves of one request

  function At(w: World, r: nat, q: Request): World {
    w.(requests := w.requests[r := q])
  }

  /** A step of request `r` leaves the other requests alone. */
  ghost predicate Only(w: World, r: nat, w': World) {
    r in w'.requests && w'.requests == w.requests[r := w'.requests[r]]
  }

  /** After a read: the worker dies, the call throws, or the request goes on. */
  function Onward(f: Fault, fine: Request): Request {
    if Dies(f) then Gone else if Throws(f) then Deny(Internal) else fine
  }

  function ReadForWebhook(t: Tables, token: nat, payload: Option<WorkflowData>, key: Option<string>): Request {
    match FindByToken(t, token)
    case None => Deny(NotFound)
    case Some(id) => Limiting(id, t.workflows[id], payload, key)
  }

  /** The checks behind the rate limiter. */
  function AfterLimit(id: nat, w: Workflow, payload: Option<WorkflowData>, key: Option<string>,
                      allowed: bool): Request {
    if !allowed then Deny(RateLimited)
    else if w.status != Active || w.definition.trigger != Webhook then Deny(BadRequest)
    else if payload.None? then Deny(BadRequest)
    else
      var ticket := TicketFor(id, w, payload.value, Normalize(key));
      if ticket.key.Some? then LookingUp(ticket) else Checking(ticket)
  }

  function ReadForManual(t: Tables, userId: string, id: nat, input: Option<WorkflowData>): Request {
    if id !in t.workflows || t.workflows[id].userId != userId then Deny(NotFound)
    else if t.workflows[id].status != Active then Deny(BadRequest)
    else if t.workflows[id].definition.trigger != Manual then Deny(BadRequest)
    else if input.None? then Deny(BadRequest)
    else Checking(TicketFor(id, t.workflows[id], input.value, None))
  }

  function Renamed(w: Workflow, newName: Option<string>): Option<string> {
    if newName.Some? && Trim(newName.value) != w.name then Some(Trim(newName.value)) else None
  }

  /** The token an edit would store: a webhook keeps the one it has or draws a new one. */
  function TokenFor(w: Workflow, d: Definition, drawn: nat): Option<nat> {
    if d.trigger != Webhook then None
    else if w.webhookToken.Some? then w.webhookToken
    else Some(drawn)
  }

  /** What an edit of the workflow `w` it read comes to. */
  function EditOf(id: nat, w: Workflow, newName: Option<string>, newDefinition: Option<Option<Definition>>,
                  drawn: nat): Request {
    if newDefinition == Some(None) then Deny(BadRequest)
    else
      var d := if newDefinition.Some? && newDefinition.value != Some(w.definition) then newDefinition.value else None;
      var name := Renamed(w, newName);
      if name.None? && d.None? then Replied(None, Done)
      else Writing(id, Change(name, d, if d.Some? then TokenFor(w, d.value, drawn) else None, None))
  }

  function ReadForUpdate(t: Tables, userId: string, id: nat, newName: Option<string>,
                         newDefinition: Option<Option<Definition>>): Request {
    if id !in t.workflows || t.workflows[id].userId != userId then Deny(NotFound)
    else EditOf(id, t.workflows[id], newName, newDefinition, t.next)
  }

  /** Whether the edit draws a token: it makes a workflow without one a webhook. */
  function WantsToken(w: Workflow, newDefinition: Option<Option<Definition>>): bool {
    && newDefinition.Some? && newDefinition.value.Some? && newDefinition.value.value != w.definition
    && newDefinition.value.value.trigger == Webhook && w.webhookToken.None?
  }

  function Draws(t: Tables, userId: string, id: nat, newDefinition: Option<Option<Definition>>): bool {
    id in t.workflows && t.workflows[id].userId == userId && WantsToken(t.workflows[id], newDefinition)
  }

  /** The supply after an edit's read. */
  function AfterDraw(t: Tables, userId: string, id: nat, newDefinition: Option<Option<Definition>>): Tables {
    if Draws(t, userId, id, newDefinition) then t.(next := t.next + 1) else t
  }

  function ReadForStatus(t: Tables, userId: string, id: nat, status: WorkflowStatus): Request {
    if id !in t.workflows || t.workflows[id].userId != userId then Deny(NotFound)
    else if status == Active && (t.workflows[id].status == Active || t.workflows[id].definition.steps == [])
      then Deny(BadRequest)
    else if status == Paused && t.workflows[id].status != Active then Deny(BadRequest)
    else if status == Draft then Deny(BadRequest)
    else Writing(id, Change(None, None, None, Some(status)))
  }

  // ---------------------------------------------------------------- writes

  function Drawn(w: World, workflowId: nat): World {
    w.(tables := w.tables.(next := w.tables.next + 1),
       audit := w.audit.(owners := w.audit.owners[w.tables.next := workflowId]))
  }

  function AddWorkflow(w: World, userId: string, name: string, d: Definition): World {
    var id, token := w.tables.next, w.tables.next + 1;
    var stored := Workflow(userId, Trim(name), Draft, d, 1, if d.trigger == Webhook then Some(token) else None);
    w.(tables := w.tables.(workflows := w.tables.workflows[id := stored], next := w.tables.next + 2),
       audit := w.audit.(history := w.audit.history[id := [d]], owners := w.audit.owners[token := id]))
  }

  function Changed(w: Workflow, c: Change): Workflow {
    Workflow(w.userId,
             if c.name.Some? then c.name.value else w.name,
             if c.status.Some? then c.status.value else w.status,
             if c.definition.Some? then c.definition.value else w.definition,
             if c.definition.Some? then w.version + 1 else w.version,
             if c.definition.Some? then c.token else w.webhookToken)
  }

  function WriteWorkflow(w: World, id: nat, c: Change): World
    requires id in w.tables.workflows
  {
    w.(tables := w.tables.(workflows := w.tables.workflows[id := Changed(w.tables.workflows[id], c)]),
       audit := if c.definition.Some? && id in w.audit.history
                then w.audit.(history := w.audit.history[id := w.audit.history[id] + [c.definition.value]])
                else w.audit)
  }

  function AddExecution(w: World, ticket: Ticket): World {
    var executions := w.tables.executions[w.tables.next := NewExecution(ticket)];
    w.(tables := w.tables.(executions := executions, next := w.tables.next + 1))
  }

  function Strand(w: World, id: nat): World {
    w.(audit := w.audit.(stranded := w.audit.stranded + {id}))
  }

  function AddJob(w: World, id: nat): World {
    w.(tables := w.tables.(jobs := w.tables.jobs[w.tables.next := Job(id, Waiting)], next := w.tables.next + 1))
  }

  function MarkFailed(w: World, id: nat): World
    requires id in w.tables.executions
  {
    var failed := w.tables.executions[id].(status := Failed, error := Some(ENQUEUE_ERROR));
    w.(tables := w.tables.(executions := w.tables.executions[id := failed]),
       audit := w.audit.(marked := w.audit.marked + {id}))
  }

  // ---------------------------------------------------------------- steps

  function StepArrived(w: World, r: nat, call: Call, f: Fault): (w': World)
    ensures Only(w, r, w')
  {
    if IsMalformed(call) then At(w, r, Deny(BadRequest)) else
    match call
    case Receive(token, payload, key) => At(w, r, Onward(f, ReadForWebhook(w.tables, token, payload, key)))
    case RunManual(userId, id, input) => At(w, r, Onward(f, ReadForManual(w.tables, userId, id, input)))
    case Create(userId, name, d) =>
      At(if Committed(f) then AddWorkflow(w, userId, name, d.value) else w, r, Onward(f, Replied(None, Done)))
    case Update(userId, id, newName, d) =>
      At(if f.Fine? && Draws(w.tables, userId, id, d) then Drawn(w, id) else w, r,
         Onward(f, ReadForUpdate(w.tables, userId, id, newName, d)))
    case SetStatus(userId, id, status) => At(w, r, Onward(f, ReadForStatus(w.tables, userId, id, status)))
  }

  function StepLookingUp(w: World, r: nat, ticket: Ticket, f: Fault): (w': World)
    ensures Only(w, r, w')
  {
    var found := FindByKey(w.tables, ticket.workflowId, ticket.key);
    At(w, r, Onward(f, if found.Some? then Replied(Some(ticket), Accepted(found.value)) else Checking(ticket)))
  }

  function StepChecking(w: World, r: nat, ticket: Ticket, f: Fault): (w': World)
    ensures Only(w, r, w')
  {
    At(w, r, Onward(f, if HasCapacity(w.tables) then Creating(ticket) else Deny(AtCapacity)))
  }

  /** The insert meets the unique index on workflow and key. */
  function StepCreating(w: World, r: nat, ticket: Ticket, f: Fault): (w': World)
    ensures Only(w, r, w')
  {
    if FindByKey(w.tables, ticket.workflowId, ticket.key).Some? then
      At(w, r, Onward(f, FallingBack(ticket)))
    else
      var id := w.tables.next;
      var w' := if Committed(f) then AddExecution(w, ticket) else w;
      At(if Committed(f) && !f.Fine? then Strand(w', id) else w', r, Onward(f, Enqueuing(ticket, id)))
  }

  function StepFallingBack(w: World, r: nat, ticket: Ticket, f: Fault): (w': World)
    ensures Only(w, r, w')
  {
    var found := FindByKey(w.tables, ticket.workflowId, ticket.key);
    At(w, r, Onward(f, if found.Some? then Replied(Some(ticket), Accepted(found.value)) else Deny(Internal)))
  }

  function StepEnqueuing(w: World, r: nat, ticket: Ticket, id: nat, f: Fault): (w': World)
    ensures Only(w, r, w')
  {
    var w' := if Committed(f) then AddJob(w, id) else w;
    match f
    case Fine => At(w', r, Replied(Some(ticket), Accepted(id)))
    case Refused => At(w', r, Marking(ticket, id))
    case Lost => At(w'.(audit := w'.audit.(lost := w'.audit.lost + {id})), r, Marking(ticket, id))
    case DiesBefore => At(Strand(w', id), r, Gone)
    case DiesAfter => At(w', r, Gone)
  }

  function StepMarking(w: World, r: nat, ticket: Ticket, id: nat, f: Fault): (w': World)
    ensures Only(w, r, w')
  {
    if Committed(f) && id in w.tables.executions
    then At(MarkFailed(w, id), r, Onward(f, Deny(NotQueued)))
    else At(Strand(w, id), r, Onward(f, Deny(Internal)))
  }

  function StepWriting(w: World, r: nat, id: nat, c: Change, f: Fault): (w': World)
    ensures Only(w, r, w')
  {
    if id in w.tables.workflows
    then At(if Committed(f) then WriteWorkflow(w, id, c) else w, r, Onward(f, Replied(None, Done)))
    else At(w, r, Onward(f, Deny(Internal)))
  }

  /** How the queue moves a job: it starts, retries later, becomes due, stalls, or ends. */
  predicate Moves(from: JobState, to: JobState) {
    match from
    case Waiting => to == Working
    case Working => to == Delayed || to == Waiting || to == Finished
    case Delayed => to == Waiting
    case Finished => false
  }

  /** What can happen next: a call arrives, a request makes its awaited call, the queue moves a job, or a
      worker writes to the execution of the job it works on. */
  datatype Event =
    | Arrive(r: nat, call: Call)
    | Step(r: nat, fault: Fault, allowed: bool)
    | MoveJob(j: nat, to: JobState)
    | Work(j: nat, status: RunStatus, error: Option<string>)

  predicate InFlight(q: Request) {
    match q
    case Arrived(call) => IsAdmission(call)
    case Limiting(_, _, _, _) => true
    case LookingUp(_) => true
    case Checking(_) => true
    case Creating(_) => true
    case FallingBack(_) => true
    case Enqueuing(_, _) => true
    case Marking(_, _) => true
    case Writing(_, _) => false
    case Replied(_, _) => false
    case Gone => false
  }

  function Flying(requests: map<nat, Request>): set<nat> {
    set r | r in requests && InFlight(requests[r])
  }

  function StepRequest(w: World, r: nat, f: Fault, allowed: bool): (w': World)
    requires r in w.requests
    ensures Only(w, r, w')
  {
    match w.requests[r]
    case Arrived(call) => StepArrived(w, r, call, f)
    case Limiting(id, workflow, payload, key) => At(w, r, Onward(f, AfterLimit(id, workflow, payload, key, allowed)))
    case LookingUp(ticket) => StepLookingUp(w, r, ticket, f)
    case Checking(ticket) => StepChecking(w, r, ticket, f)
    case Creating(ticket) => StepCreating(w, r, ticket, f)
    case FallingBack(ticket) => StepFallingBack(w, r, ticket, f)
    case Enqueuing(ticket, id) => StepEnqueuing(w, r, ticket, id, f)
    case Marking(ticket, id) => StepMarking(w, r, ticket, id, f)
    case Writing(id, change) => StepWriting(w, r, id, change, f)
    case Replied(_, _) => w
    case Gone => w
  }

  function StepMove(w: World, j: nat, to: JobState): World {
    if j in w.tables.jobs && Moves(w.tables.jobs[j].state, to)
    then w.(tables := w.tables.(jobs := w.tables.jobs[j := w.tables.jobs[j].(state := to)]))
    else w
  }

  function StepWork(w: World, j: nat, status: RunStatus, error: Option<string>): World {
    if j in w.tables.jobs && w.tables.jobs[j].state == Working && w.tables.jobs[j].executionId in w.tables.executions
    then
      var e := w.tables.jobs[j].executionId;
      var written := w.tables.executions[e].(status := status, error := error);
      w.(tables := w.tables.(executions := w.tables.executions[e := written]))
    else w
  }

  /** One event; at most `limit` admissions are let in at a time. An event that does not apply changes
      nothing. */
  function Tick(limit: nat, w: World, e: Event): World {
    match e
    case Arrive(r, call) =>
      if r !in w.requests && (IsAdmission(call) ==> |Flying(w.requests)| < limit) then At(w, r, Arrived(call)) else w
    case Step(r, f, allowed) => if r in w.requests then StepRequest(w, r, f, allowed) else w
    case MoveJob(j, to) => StepMove(w, j, to)
    case Work(j, status, error) => StepWork(w, j, status, error)
  }

  function Run(limit: nat, w: World, events: seq<Event>): World
    decreases |events|
  {
    if events == [] then w
    else Tick(limit, Run(limit, w, events[..|events| - 1]), events[|events| - 1])
  }

  const EMPTY := World(Tables(map[], map[], map[], 0), map[], Audit(map[], map[], {}, {}, {}))

  lemma {:induction false} RunAppend(limit: nat, w: World, front: seq<Event>, back: seq<Event>)
    ensures Run(limit, w, front + back) == Run(limit, Run(limit, w, front), back)
    decreases |back|
  {
    if back == [] {
      assert front + back == front;
    } else {
      var n := |back| - 1;
      RunAppend(limit, w, front, back[..n]);
      assert (front + back)[..|front + back| - 1] == front + back[..n];
    }
  }

  lemma RunTwo(limit: nat, w: World, a: Event, b: Event)
    ensures Run(limit, w, [a, b]) == Tick(limit, Tick(limit, w, a), b)
  {
    assert [a, b][..1] == [a] && [a][..0] == [];
    assert Run(limit, w, [a]) == Tick(limit, w, a);
  }

  lemma RunThree(limit: nat, w: World, a: Event, b: Event, c: Event)
    ensures Run(limit, w, [a, b, c]) == Tick(limit, Tick(limit, Tick(limit, w, a), b), c)
  {
    RunTwo(limit, w, a, b);
    assert [a, b, c][..2] == [a, b];
  }

  /** The request itself makes no call in these events. */
  ghost predicate NoStepOf(r: nat, events: seq<Event>) {
    forall k | 0 <= k < |events| :: !(events[k].Step? && events[k].r == r)
  }

  lemma TickLeavesIt(limit: nat, w: World, r: nat, e: Event)
    requires r in w.requests && !(e.Step? && e.r == r)
    ensures Lookup(Tick(limit, w, e).requests, r) == Some(w.requests[r])
  {
  }

  /** Whatever others do, a request stays where it is. */
  lemma {:induction false} OthersLeaveIt(limit: nat, w: World, r: nat, events: seq<Event>)
    requires r in w.requests && NoStepOf(r, events)
    ensures Lookup(Run(limit, w, events).requests, r) == Some(w.requests[r])
    decreases |events|
  {
    if events != [] {
      var n := |events| - 1;
      OthersLeaveIt(limit, w, r, events[..n]);
      TickLeavesIt(limit, Run(limit, w, events[..n]), r, events[n]);
    }
  }
}

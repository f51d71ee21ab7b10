/** Who is let in, and what an edit leaves stored: each said of the call and the tables alone. */
module Edits {
  import opened Values
  import opened Faults
  import opened Trimming
  import opened Admission
  import Versions

  // ---------------------------------------------------------------- who is let in

  /** A manual run goes on to the queue check exactly when its user has the workflow, it is active, its trigger
      is manual and the input parses. */
  lemma {:induction false} ManualGate(w: World, r: nat, userId: string, id: nat, input: Option<WorkflowData>,
                                      allowed: bool)
    requires r in w.requests && w.requests[r] == Arrived(RunManual(userId, id, input))
    ensures var q, t := StepRequest(w, r, Fine, allowed).requests[r], w.tables.workflows;
            var has := id in t && t[id].userId == userId;
            && (q == Replied(None, Denied(NotFound)) <==> !has)
            && (q.Checking? <==> has && t[id].status == Active && t[id].definition.trigger == Manual && input.Some?)
            && (q.Checking? ==> q.ticket.version == t[id].version && q.ticket.snapshot == t[id].definition)
            && (has && !q.Checking? ==> q == Replied(None, Denied(BadRequest)))
  {
  }

  /** A webhook call finds the workflow that has its token, or none does. */
  lemma {:induction false} WebhookFinds(w: World, r: nat, token: nat, payload: Option<WorkflowData>,
                                        key: Option<string>, allowed: bool)
    requires r in w.requests && w.requests[r] == Arrived(Receive(token, payload, key))
    ensures var q, t := StepRequest(w, r, Fine, allowed).requests[r], w.tables.workflows;
            && (q == Replied(None, Denied(NotFound)) <==> forall id | id in t :: t[id].webhookToken != Some(token))
            && (q.Limiting? <==> exists id :: id in t && t[id].webhookToken == Some(token))
            && (q.Limiting? ==> q.workflowId in t && t[q.workflowId] == q.workflow
                                && q.workflow.webhookToken == Some(token) && q.payload == payload && q.key == key)
  {
    var found := FindByToken(w.tables, token);
    if found.Some? {
      assert HasToken(w.tables, found.value, token);
    } else {
      forall id | id in w.tables.workflows ensures w.tables.workflows[id].webhookToken != Some(token) {
        assert !HasToken(w.tables, id, token);
      }
    }
  }

  /** Behind the limiter it goes on exactly when the limiter allows it, the workflow it read is active with a
      webhook trigger, and the payload parses; with a key to the lookup, without one to the queue check. */
  lemma {:induction false} WebhookGate(w: World, r: nat, id: nat, workflow: Workflow, payload: Option<WorkflowData>,
                                       key: Option<string>, allowed: bool)
    requires r in w.requests && w.requests[r] == Limiting(id, workflow, payload, key)
    ensures var q := StepRequest(w, r, Fine, allowed).requests[r];
            var fits := workflow.status == Active && workflow.definition.trigger == Webhook && payload.Some?;
            var keyed := key.Some? && !Blank(key.value);
            && (q == Replied(None, Denied(RateLimited)) <==> !allowed)
            && (q.LookingUp? <==> allowed && fits && keyed)
            && (q.Checking? <==> allowed && fits && !keyed)
            && (q.LookingUp? || q.Checking? ==>
                  q.ticket.workflowId == id && q.ticket.version == workflow.version
                  && q.ticket.snapshot == workflow.definition)
            && (allowed && !fits ==> q == Replied(None, Denied(BadRequest)))
  {
    NormalizeIsKeyFor(key);
  }

  /** A lookup that finds answers with what it found; else the request goes on. */
  lemma LookupGate(w: World, r: nat, ticket: Ticket, allowed: bool)
    requires r in w.requests && (w.requests[r] == LookingUp(ticket) || w.requests[r] == FallingBack(ticket))
    ensures var q := StepRequest(w, r, Fine, allowed).requests[r];
            if exists id :: HasKey(w.tables, id, ticket.workflowId, ticket.key)
            then q.Replied? && q.asked == Some(ticket) && q.answer.Accepted?
                 && HasKey(w.tables, q.answer.id, ticket.workflowId, ticket.key)
            else q == if w.requests[r].LookingUp? then Checking(ticket) else Replied(None, Denied(Internal))
  {
  }

  /** The queue check lets go on exactly while fewer than 1000 jobs are waiting, active or delayed. */
  lemma CapacityGate(w: World, r: nat, ticket: Ticket, allowed: bool)
    requires r in w.requests && w.requests[r] == Checking(ticket)
    ensures var q := StepRequest(w, r, Fine, allowed).requests[r];
            var open := set j | j in w.tables.jobs && w.tables.jobs[j].state in {Waiting, Working, Delayed};
            q == if |open| < 1000 then Creating(ticket) else Replied(None, Denied(AtCapacity))
  {
    var open := set j | j in w.tables.jobs && w.tables.jobs[j].state in {Waiting, Working, Delayed};
    assert open == OpenJobs(w.tables.jobs);
  }

  /** Only a queued execution is answered with; one that could not be queued is FAILED with its error, and the
      call is told so. */
  lemma QueueGate(w: World, r: nat, ticket: Ticket, id: nat, f: Fault, allowed: bool)
    requires r in w.requests && id in w.tables.executions
    ensures w.requests[r] == Enqueuing(ticket, id) ==>
              var q := StepRequest(w, r, f, allowed).requests[r];
              q == if Dies(f) then Gone else if Throws(f) then Marking(ticket, id)
                   else Replied(Some(ticket), Accepted(id))
    ensures w.requests[r] == Marking(ticket, id) ==>
              var w' := StepRequest(w, r, f, allowed);
              && (Committed(f) ==>
                    w'.tables.executions[id] ==
                    w.tables.executions[id].(status := Failed, error := Some("Failed to enqueue execution")))
              && (f.Fine? ==> w'.requests[r] == Replied(None, Denied(NotQueued)))
              && (Throws(f) ==> w'.requests[r] == Replied(None, Denied(Internal)))
  {
  }

  // ---------------------------------------------------------------- what is stored

  /** A created workflow is its user's, named by the text of the given name, a draft of version 1. */
  lemma {:induction false} CreateStores(w: World, r: nat, userId: string, name: string, d: Definition, f: Fault)
    requires r in w.requests && w.requests[r] == Arrived(Create(userId, name, Some(d)))
    ensures var t, t' := w.tables.workflows, StepRequest(w, r, f, true).tables.workflows;
            if !Committed(f) then t' == t
            else
              && w.tables.next in t'
              && (forall id | id != w.tables.next :: Lookup(t', id) == Lookup(t, id))
              && var stored := t'[w.tables.next];
              && stored.userId == userId && IsCore(name, stored.name) && stored.status == Draft
              && stored.definition == d && stored.version == 1
  {
    TrimIsCore(name);
  }

  /** The stored workflow after the write of request `r` that others come before. */
  ghost function Left(limit: nat, w: World, r: nat, between: seq<Event>, f: Fault): World {
    Tick(limit, Run(limit, Tick(limit, w, Step(r, Fine, true)), between), Step(r, f, true))
  }

  lemma BringsWrite(limit: nat, w: World, r: nat, between: seq<Event>, f: Fault, id: nat, c: Change)
    requires Versions.Inv(w) && r in w.requests && NoStepOf(r, between) && Committed(f) && id in w.tables.workflows
    requires Tick(limit, w, Step(r, Fine, true)).requests[r] == Writing(id, c)
    ensures var w2 := Run(limit, Tick(limit, w, Step(r, Fine, true)), between);
            && id in w2.tables.workflows && id in Left(limit, w, r, between, f).tables.workflows
            && Left(limit, w, r, between, f).tables.workflows[id] == Changed(w2.tables.workflows[id], c)
  {
    var w1 := Tick(limit, w, Step(r, Fine, true));
    Versions.TickKeeps(limit, w, Step(r, Fine, true));
    OthersLeaveIt(limit, w1, r, between);
    Versions.RunKeeps(limit, w1, between);
    var w2 := Run(limit, w1, between);
    assert id in w2.audit.history;
    assert Tick(limit, w2, Step(r, f, true)) == StepWriting(w2, r, id, c, f);
  }

  /** Activating and pausing store just that. They are let through exactly when the user has the workflow and it
      is, to be activated, not active yet and has a step, or, to be paused, active; and whatever others do in
      between, the write changes the status and nothing else. */
  lemma {:induction false} StatusIsStored(limit: nat, w: World, r: nat, userId: string, id: nat, status: WorkflowStatus,
                                          between: seq<Event>, f: Fault)
    requires Versions.Inv(w) && status != Draft && NoStepOf(r, between) && Committed(f)
    requires r in w.requests && w.requests[r] == Arrived(SetStatus(userId, id, status))
    ensures var t, q := w.tables.workflows, Tick(limit, w, Step(r, Fine, true)).requests[r];
            && (q.Writing? <==>
                  && id in t && t[id].userId == userId
                  && (if status == Active then t[id].status != Active && t[id].definition.steps != []
                      else t[id].status == Active))
            && (q.Writing? ==>
                  var t2 := Run(limit, Tick(limit, w, Step(r, Fine, true)), between).tables.workflows;
                  var t3 := Left(limit, w, r, between, f).tables.workflows;
                  id in t2 && id in t3 && t3[id] == t2[id].(status := status))
  {
    var q := Tick(limit, w, Step(r, Fine, true)).requests[r];
    StatusRead(limit, w, r, userId, id, status);
    if q.Writing? {
      BringsWrite(limit, w, r, between, f, id, q.change);
    }
  }

  lemma StatusRead(limit: nat, w: World, r: nat, userId: string, id: nat, status: WorkflowStatus)
    requires status != Draft && r in w.requests && w.requests[r] == Arrived(SetStatus(userId, id, status))
    ensures var t, q := w.tables.workflows, Tick(limit, w, Step(r, Fine, true)).requests[r];
            && (q.Writing? <==>
                  && id in t && t[id].userId == userId
                  && (if status == Active then t[id].status != Active && t[id].definition.steps != []
                      else t[id].status == Active))
            && (q.Writing? ==> q == Writing(id, Change(None, None, None, Some(status))))
  {
  }

  /** An edit stores what it was given and leaves the rest: the name's text if that differs from the name it
      read, the definition if that differs from the one it read, and then one version more. It is let through
      exactly when its user has the workflow, the definition parses and one of the two differs. */
  lemma {:induction false} EditIsStored(limit: nat, w: World, r: nat, userId: string, id: nat, newName: Option<string>,
                                        d: Option<Option<Definition>>, between: seq<Event>, f: Fault)
    requires Versions.Inv(w) && NoStepOf(r, between) && Committed(f)
    requires r in w.requests && w.requests[r] == Arrived(Update(userId, id, newName, d))
    ensures var t, q := w.tables.workflows, Tick(limit, w, Step(r, Fine, true)).requests[r];
            && (q.Writing? <==>
                  && id in t && t[id].userId == userId && d != Some(None)
                  && (Renames(t[id], newName) || Redefines(t[id], d)))
            && (q.Writing? ==>
                  var t2 := Run(limit, Tick(limit, w, Step(r, Fine, true)), between).tables.workflows;
                  var t3 := Left(limit, w, r, between, f).tables.workflows;
                  id in t2 && id in t3 && IsEdited(t[id], newName, d, t2[id], t3[id]))
  {
    EditRead(limit, w, r, userId, id, newName, d);
    var q := Tick(limit, w, Step(r, Fine, true)).requests[r];
    if q.Writing? {
      BringsWrite(limit, w, r, between, f, id, q.change);
    }
  }

  /** The text of the new name is not the name there is. */
  ghost predicate Renames(w: Workflow, newName: Option<string>) {
    newName.Some? && !IsCore(newName.value, w.name)
  }

  ghost predicate Redefines(w: Workflow, d: Option<Option<Definition>>) {
    d.Some? && d.value.Some? && d.value.value != w.definition
  }

  ghost predicate IsEdited(read: Workflow, newName: Option<string>, d: Option<Option<Definition>>, stored: Workflow,
                           left: Workflow) {
    && left.userId == stored.userId && left.status == stored.status
    && (if Renames(read, newName) then IsCore(newName.value, left.name) else left.name == stored.name)
    && (if Redefines(read, d) then left.definition == d.value.value && left.version == stored.version + 1
        else left.definition == stored.definition && left.version == stored.version
             && left.webhookToken == stored.webhookToken)
  }

  lemma EditRead(limit: nat, w: World, r: nat, userId: string, id: nat, newName: Option<string>,
                 d: Option<Option<Definition>>)
    requires r in w.requests && w.requests[r] == Arrived(Update(userId, id, newName, d))
    ensures var t, q := w.tables.workflows, Tick(limit, w, Step(r, Fine, true)).requests[r];
            && (q.Writing? <==>
                  && id in t && t[id].userId == userId && d != Some(None)
                  && (Renames(t[id], newName) || Redefines(t[id], d)))
            && (q.Writing? ==>
                  && q.workflowId == id && q.change.status == None
                  && (q.change.name.Some? <==> Renames(t[id], newName))
                  && (q.change.name.Some? ==> IsCore(newName.value, q.change.name.value))
                  && (q.change.definition.Some? <==> Redefines(t[id], d))
                  && (q.change.definition.Some? ==> q.change.definition == d.value))
  {
    if newName.Some? {
      TrimIsCore(newName.value);
      if id in w.tables.workflows && IsCore(newName.value, w.tables.workflows[id].name) {
        CoreIsTrim(newName.value, w.tables.workflows[id].name);
      }
    }
  }

  // ---------------------------------------------------------------- what the caller is told

  /** An edit that gives neither name nor definition is turned away before anything is awaited; a workflow that is
      not the user's is not found; a definition that does not parse is refused; an edit that changes nothing
      is done. */
  lemma {:induction false} EditAnswers(w: World, r: nat, userId: string, id: nat, newName: Option<string>,
                                       d: Option<Option<Definition>>, f: Fault, allowed: bool)
    requires r in w.requests && w.requests[r] == Arrived(Update(userId, id, newName, d))
    ensures var q, t := StepRequest(w, r, f, allowed).requests[r], w.tables.workflows;
            var has := id in t && t[id].userId == userId;
            && (newName.None? && d.None? ==> q == Replied(None, Denied(BadRequest)))
            && (f.Fine? && (newName.Some? || d.Some?) ==>
                  && (q == Replied(None, Denied(NotFound)) <==> !has)
                  && (has && d == Some(None) ==> q == Replied(None, Denied(BadRequest)))
                  && (has && d != Some(None) && !Renames(t[id], newName) && !Redefines(t[id], d) ==>
                        q == Replied(None, Done)))
  {
    if newName.Some? {
      TrimIsCore(newName.value);
      if id in w.tables.workflows && IsCore(newName.value, w.tables.workflows[id].name) {
        CoreIsTrim(newName.value, w.tables.workflows[id].name);
      }
    }
  }

  /** A definition that does not parse is refused before anything is awaited. */
  lemma {:induction false} CreateAnswers(w: World, r: nat, userId: string, name: string, d: Option<Definition>,
                                         f: Fault, allowed: bool)
    requires r in w.requests && w.requests[r] == Arrived(Create(userId, name, d))
    ensures var w' := StepRequest(w, r, f, allowed);
            && (d.None? ==> w'.requests[r] == Replied(None, Denied(BadRequest)) && w'.tables == w.tables)
            && (d.Some? && f.Fine? ==> w'.requests[r] == Replied(None, Done))
  {
  }

  /** Activating and pausing are refused where they do not apply. */
  lemma {:induction false} StatusAnswers(w: World, r: nat, userId: string, id: nat, status: WorkflowStatus,
                                         allowed: bool)
    requires status != Draft && r in w.requests && w.requests[r] == Arrived(SetStatus(userId, id, status))
    ensures var q, t := StepRequest(w, r, Fine, allowed).requests[r], w.tables.workflows;
            var has := id in t && t[id].userId == userId;
            && (q == Replied(None, Denied(NotFound)) <==> !has)
            && (has && !q.Writing? ==> q == Replied(None, Denied(BadRequest)))
  {
  }

  /** A write that works is done. A call that throws is answered with an internal error, except that a refused
      add goes on to mark the execution; one whose server dies is not answered. */
  lemma {:induction false} FaultsEndCalls(w: World, r: nat, f: Fault, allowed: bool)
    requires r in w.requests && !w.requests[r].Replied? && !w.requests[r].Gone?
    requires !w.requests[r].Enqueuing? && !(w.requests[r].Arrived? && IsMalformed(w.requests[r].call))
    ensures var q, q' := w.requests[r], StepRequest(w, r, f, allowed).requests[r];
            && (Dies(f) ==> q' == Gone)
            && (Throws(f) ==> q' == Replied(None, Denied(Internal)))
            && (f.Fine? && q.Writing? && q.workflowId in w.tables.workflows ==> q' == Replied(None, Done))
  {
  }
}

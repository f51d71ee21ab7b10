/** Versions, snapshots and webhook tokens stay coherent while edits and runs interleave. */
module Versions {
  import opened Values
  import opened Faults
  import opened Trimming
  import opened Admission
  import Idempotency

  type History = map<nat, seq<Definition>>

  /** The version names this definition of the workflow. */
  ghost predicate Names(h: History, id: nat, version: nat, d: Definition) {
    id in h && 1 <= version <= |h[id]| && h[id][version - 1] == d
  }

  ghost predicate TokenFits(a: Audit, id: nat, d: Definition, token: Option<nat>) {
    && (token.Some? <==> d.trigger == Webhook)
    && (token.Some? ==> token.value in a.owners && a.owners[token.value] == id)
  }

  ghost predicate Coherent(a: Audit, id: nat, w: Workflow) {
    && id in a.history && w.version == |a.history[id]| && Names(a.history, id, w.version, w.definition)
    && TokenFits(a, id, w.definition, w.webhookToken)
  }

  ghost predicate Fits(a: Audit, ticket: Ticket) {
    Names(a.history, ticket.workflowId, ticket.version, ticket.snapshot) && ticket.trigger == ticket.snapshot.trigger
  }

  ghost predicate Faithful(a: Audit, e: Execution) {
    Names(a.history, e.workflowId, e.version, e.snapshot) && e.trigger == e.snapshot.trigger
  }

  ghost predicate Holds(a: Audit, q: Request) {
    match q
    case Limiting(id, w, _, _) => Names(a.history, id, w.version, w.definition) && w.definition.trigger == Webhook
    case LookingUp(ticket) => Fits(a, ticket)
    case Checking(ticket) => Fits(a, ticket)
    case Creating(ticket) => Fits(a, ticket)
    case FallingBack(ticket) => Fits(a, ticket)
    case Enqueuing(ticket, _) => Fits(a, ticket)
    case Marking(ticket, _) => Fits(a, ticket)
    case Writing(id, c) => id in a.history && (c.definition.Some? ==> TokenFits(a, id, c.definition.value, c.token))
    case _ => true
  }

  ghost predicate StoreInv(t: Tables, a: Audit) {
    && t.workflows.Keys == a.history.Keys
    && (forall id | id in t.workflows :: id < t.next && Coherent(a, id, t.workflows[id]))
    && (forall token | token in a.owners :: token < t.next)
  }

  ghost predicate Inv(w: World) {
    && StoreInv(w.tables, w.audit)
    && (forall e | e in w.tables.executions :: Faithful(w.audit, w.tables.executions[e]))
    && (forall r | r in w.requests :: Holds(w.audit, w.requests[r]))
  }

  /** Histories only grow at their end, and tokens keep their owners. */
  ghost predicate Grows(a: Audit, b: Audit) {
    && (forall id | id in a.history :: id in b.history && a.history[id] <= b.history[id])
    && (forall token | token in a.owners :: token in b.owners && b.owners[token] == a.owners[token])
  }

  lemma HoldsStays(a: Audit, b: Audit, q: Request)
    requires Grows(a, b) && Holds(a, q)
    ensures Holds(b, q)
  {
  }

  /** The step keeps the stored workflows coherent and leaves the request with something true. */
  ghost predicate Keeps(w: World, r: nat, w': World) {
    && Only(w, r, w')
    && StoreInv(w'.tables, w'.audit) && Grows(w.audit, w'.audit)
    && Holds(w'.audit, w'.requests[r])
  }

  lemma ReceiveReads(w: World, token: nat, payload: Option<WorkflowData>, key: Option<string>)
    requires StoreInv(w.tables, w.audit)
    ensures Holds(w.audit, ReadForWebhook(w.tables, token, payload, key))
  {
    if FindByToken(w.tables, token).Some? {
      var id := FindByToken(w.tables, token).value;
      assert HasToken(w.tables, id, token);
      assert Coherent(w.audit, id, w.tables.workflows[id]);
    }
  }

  lemma ManualReads(w: World, userId: string, id: nat, input: Option<WorkflowData>)
    requires StoreInv(w.tables, w.audit)
    ensures Holds(w.audit, ReadForManual(w.tables, userId, id, input))
  {
    if id in w.tables.workflows {
      assert Coherent(w.audit, id, w.tables.workflows[id]);
    }
  }

  lemma ArrivedReads(w: World, r: nat, call: Call, f: Fault)
    requires Inv(w) && r in w.requests && (call.Receive? || call.RunManual? || call.SetStatus?)
    ensures Keeps(w, r, StepArrived(w, r, call, f))
  {
    match call
    case Receive(token, payload, key) => ReceiveReads(w, token, payload, key);
    case RunManual(userId, id, input) => ManualReads(w, userId, id, input);
    case SetStatus(userId, id, status) => assert Holds(w.audit, ReadForStatus(w.tables, userId, id, status));
  }

  lemma CreateKeeps(w: World, r: nat, userId: string, name: string, d: Definition)
    requires Inv(w)
    ensures var w' := AddWorkflow(w, userId, name, d);
            StoreInv(w'.tables, w'.audit) && Grows(w.audit, w'.audit)
  {
    var w' := AddWorkflow(w, userId, name, d);
    assert w.tables.next !in w.tables.workflows;
    forall id | id in w'.tables.workflows
      ensures id < w'.tables.next && Coherent(w'.audit, id, w'.tables.workflows[id])
    {
      if id != w.tables.next {
        assert Coherent(w.audit, id, w.tables.workflows[id]);
      }
    }
  }

  lemma DrawKeeps(w: World, id: nat)
    requires Inv(w)
    ensures var w' := Drawn(w, id); StoreInv(w'.tables, w'.audit) && Grows(w.audit, w'.audit)
  {
    var w' := Drawn(w, id);
    forall i | i in w'.tables.workflows ensures Coherent(w'.audit, i, w'.tables.workflows[i]) {
      assert Coherent(w.audit, i, w.tables.workflows[i]);
    }
  }

  /** What an edit will write fits the workflow it read; a token it drew is owned once it is drawn. */
  lemma UpdateReads(w: World, userId: string, id: nat, newName: Option<string>, d: Option<Option<Definition>>)
    requires StoreInv(w.tables, w.audit)
    ensures var q := ReadForUpdate(w.tables, userId, id, newName, d);
            q.Writing? ==> q.workflowId == id && Holds(Drawn(w, id).audit, q)
                           && (!Draws(w.tables, userId, id, d) ==> Holds(w.audit, q))
    ensures var q := ReadForUpdate(w.tables, userId, id, newName, d);
            !q.Writing? ==> Holds(w.audit, q)
  {
    if id in w.tables.workflows {
      assert Coherent(w.audit, id, w.tables.workflows[id]);
    }
  }

  lemma UpdateKeeps(w: World, r: nat, userId: string, id: nat, newName: Option<string>, d: Option<Option<Definition>>,
                    f: Fault)
    requires Inv(w) && r in w.requests
    ensures Keeps(w, r, StepArrived(w, r, Update(userId, id, newName, d), f))
  {
    DrawKeeps(w, id);
    UpdateReads(w, userId, id, newName, d);
    var q := Onward(f, ReadForUpdate(w.tables, userId, id, newName, d));
    var w' := StepArrived(w, r, Update(userId, id, newName, d), f);
    assert !IsMalformed(Update(userId, id, newName, d)) ==>
             w' == At(if f.Fine? && Draws(w.tables, userId, id, d) then Drawn(w, id) else w, r, q);
  }

  lemma ArrivedKeeps(w: World, r: nat, call: Call, f: Fault)
    requires Inv(w) && r in w.requests
    ensures Keeps(w, r, StepArrived(w, r, call, f))
  {
    match call
    case Create(userId, name, d) => if d.Some? { CreateKeeps(w, r, userId, name, d.value); }
    case Update(userId, id, newName, d) => UpdateKeeps(w, r, userId, id, newName, d, f);
    case _ => ArrivedReads(w, r, call, f);
  }

  lemma WritingKeeps(w: World, r: nat, id: nat, c: Change, f: Fault)
    requires Inv(w) && r in w.requests && Holds(w.audit, Writing(id, c))
    ensures Keeps(w, r, StepWriting(w, r, id, c, f))
  {
    var w' := StepWriting(w, r, id, c, f);
    if Committed(f) {
      forall i | i in w'.tables.workflows ensures Coherent(w'.audit, i, w'.tables.workflows[i]) {
        assert Coherent(w.audit, i, w.tables.workflows[i]);
      }
    }
  }

  ghost predicate CarriesTicket(q: Request) {
    !q.Arrived? && !q.Writing?
  }

  ghost predicate Acts(q: Request) {
    q.Creating? || q.Enqueuing? || q.Marking?
  }

  ghost predicate SameStore(w: World, w': World) {
    && w'.tables.workflows == w.tables.workflows && w.tables.next <= w'.tables.next
    && w'.audit.history == w.audit.history && w'.audit.owners == w.audit.owners
  }

  lemma ReadFrame(w: World, r: nat, f: Fault, allowed: bool)
    requires r in w.requests && CarriesTicket(w.requests[r]) && !Acts(w.requests[r])
    ensures SameStore(w, StepRequest(w, r, f, allowed))
  {
  }

  lemma ActFrame(w: World, r: nat, f: Fault, allowed: bool)
    requires r in w.requests && Acts(w.requests[r])
    ensures SameStore(w, StepRequest(w, r, f, allowed))
  {
  }

  lemma LimitHolds(a: Audit, id: nat, w: Workflow, payload: Option<WorkflowData>, key: Option<string>, allowed: bool)
    requires Holds(a, Limiting(id, w, payload, key))
    ensures Holds(a, AfterLimit(id, w, payload, key, allowed))
  {
  }

  lemma ReadHolds(w: World, r: nat, f: Fault, allowed: bool)
    requires r in w.requests && CarriesTicket(w.requests[r]) && !Acts(w.requests[r]) && Holds(w.audit, w.requests[r])
    ensures Holds(w.audit, StepRequest(w, r, f, allowed).requests[r])
  {
    var q := w.requests[r];
    if q.Limiting? {
      LimitHolds(w.audit, q.workflowId, q.workflow, q.payload, q.key, allowed);
    }
  }

  lemma CreatingHolds(w: World, r: nat, ticket: Ticket, f: Fault)
    requires Fits(w.audit, ticket)
    ensures Holds(w.audit, StepCreating(w, r, ticket, f).requests[r])
  {
  }

  lemma EnqueuingHolds(w: World, r: nat, ticket: Ticket, id: nat, f: Fault)
    requires Fits(w.audit, ticket)
    ensures Holds(w.audit, StepEnqueuing(w, r, ticket, id, f).requests[r])
    ensures Holds(w.audit, StepMarking(w, r, ticket, id, f).requests[r])
  {
  }

  lemma ActHolds(w: World, r: nat, f: Fault, allowed: bool)
    requires r in w.requests && Acts(w.requests[r]) && Holds(w.audit, w.requests[r])
    ensures Holds(w.audit, StepRequest(w, r, f, allowed).requests[r])
  {
    match w.requests[r]
    case Creating(ticket) => CreatingHolds(w, r, ticket, f);
    case Enqueuing(ticket, id) => EnqueuingHolds(w, r, ticket, id, f);
    case Marking(ticket, id) => EnqueuingHolds(w, r, ticket, id, f);
  }

  lemma SameAudit(a: Audit, b: Audit, q: Request)
    requires a.history == b.history && a.owners == b.owners
    ensures Holds(a, q) <==> Holds(b, q)
  {
  }

  lemma StoreStays(t: Tables, a: Audit, t': Tables, a': Audit)
    requires StoreInv(t, a) && t'.workflows == t.workflows && t.next <= t'.next
    requires a'.history == a.history && a'.owners == a.owners
    ensures StoreInv(t', a') && Grows(a, a')
  {
    forall i | i in t.workflows ensures Coherent(a', i, t.workflows[i]) {
      assert Coherent(a, i, t.workflows[i]);
    }
  }

  lemma TicketKeeps(w: World, r: nat, f: Fault, allowed: bool)
    requires Inv(w) && r in w.requests && CarriesTicket(w.requests[r])
    ensures Keeps(w, r, StepRequest(w, r, f, allowed))
  {
    var w' := StepRequest(w, r, f, allowed);
    if Acts(w.requests[r]) {
      ActFrame(w, r, f, allowed);
      ActHolds(w, r, f, allowed);
    } else {
      ReadFrame(w, r, f, allowed);
      ReadHolds(w, r, f, allowed);
    }
    SameAudit(w.audit, w'.audit, w'.requests[r]);
    StoreStays(w.tables, w.audit, w'.tables, w'.audit);
  }

  lemma RequestKeeps(w: World, r: nat, f: Fault, allowed: bool)
    requires Inv(w) && r in w.requests
    ensures Keeps(w, r, StepRequest(w, r, f, allowed))
  {
    match w.requests[r]
    case Arrived(call) => ArrivedKeeps(w, r, call, f);
    case Writing(id, c) => WritingKeeps(w, r, id, c, f);
    case _ => TicketKeeps(w, r, f, allowed);
  }

  /** A new execution takes over what its request read; the others keep what they have. */
  lemma ExecutionsFrom(w: World, r: nat, f: Fault, allowed: bool, e: nat)
    requires r in w.requests && e in StepRequest(w, r, f, allowed).tables.executions
    ensures var e' := StepRequest(w, r, f, allowed).tables.executions[e];
            || (e in w.tables.executions && e'.workflowId == w.tables.executions[e].workflowId
                && e'.version == w.tables.executions[e].version && e'.snapshot == w.tables.executions[e].snapshot
                && e'.trigger == w.tables.executions[e].trigger)
            || (w.requests[r].Creating? && e' == NewExecution(w.requests[r].ticket))
  {
  }

  lemma StepKeeps(w: World, r: nat, f: Fault, allowed: bool)
    requires Inv(w) && r in w.requests
    ensures var w' := StepRequest(w, r, f, allowed); Inv(w') && Grows(w.audit, w'.audit)
  {
    var w' := StepRequest(w, r, f, allowed);
    RequestKeeps(w, r, f, allowed);
    forall x | x in w'.tables.executions ensures Faithful(w'.audit, w'.tables.executions[x]) {
      ExecutionsFrom(w, r, f, allowed, x);
      if w.requests[r].Creating? {
        assert Fits(w.audit, w.requests[r].ticket);
      }
    }
    forall q | q in w'.requests ensures Holds(w'.audit, w'.requests[q]) {
      if q != r {
        HoldsStays(w.audit, w'.audit, w.requests[q]);
      }
    }
  }

  lemma {:induction false} TickKeeps(limit: nat, w: World, e: Event)
    requires Inv(w)
    ensures Inv(Tick(limit, w, e)) && Grows(w.audit, Tick(limit, w, e).audit)
  {
    if e.Step? && e.r in w.requests {
      StepKeeps(w, e.r, e.fault, e.allowed);
    } else {
      var w' := Tick(limit, w, e);
      StoreStays(w.tables, w.audit, w'.tables, w'.audit);
    }
  }

  lemma {:induction false} RunKeeps(limit: nat, w: World, events: seq<Event>)
    requires Inv(w)
    ensures Inv(Run(limit, w, events)) && Grows(w.audit, Run(limit, w, events).audit)
    decreases |events|
  {
    if events != [] {
      var n := |events| - 1;
      RunKeeps(limit, w, events[..n]);
      TickKeeps(limit, Run(limit, w, events[..n]), events[n]);
      GrowsOn(w.audit, Run(limit, w, events[..n]).audit, Run(limit, w, events).audit);
    }
  }

  lemma GrowsOn(a: Audit, b: Audit, c: Audit)
    requires Grows(a, b) && Grows(b, c)
    ensures Grows(a, c)
  {
  }

  // ---------------------------------------------------------------- what runs and readers see

  /** Snapshot fidelity: at any time, every execution's snapshot is the definition its version names. */
  lemma {:induction false} SnapshotsAreFaithful(limit: nat, events: seq<Event>, e: nat)
    requires e in Run(limit, EMPTY, events).tables.executions
    ensures var w := Run(limit, EMPTY, events);
            var x := w.tables.executions[e];
            Names(w.audit.history, x.workflowId, x.version, x.snapshot) && x.trigger == x.snapshot.trigger
  {
    RunKeeps(limit, EMPTY, events);
    assert Faithful(Run(limit, EMPTY, events).audit, Run(limit, EMPTY, events).tables.executions[e]);
  }

  /** One version, one definition: two executions of a workflow that record the same version, read at
      whatever times, carry the same snapshot; and no later event changes what an execution runs. */
  lemma {:induction false} VersionNamesOneDefinition(limit: nat, events: seq<Event>, later: seq<Event>, e1: nat,
                                                     e2: nat)
    requires var w1, w2 := Run(limit, EMPTY, events), Run(limit, EMPTY, events + later);
             && e1 in w1.tables.executions && e2 in w2.tables.executions
             && w1.tables.executions[e1].workflowId == w2.tables.executions[e2].workflowId
             && w1.tables.executions[e1].version == w2.tables.executions[e2].version
    ensures var w1, w2 := Run(limit, EMPTY, events), Run(limit, EMPTY, events + later);
            && w1.tables.executions[e1].snapshot == w2.tables.executions[e2].snapshot
            && e1 in w2.tables.executions
            && w2.tables.executions[e1].snapshot == w1.tables.executions[e1].snapshot
            && w2.tables.executions[e1].payload == w1.tables.executions[e1].payload
  {
    var w1 := Run(limit, EMPTY, events);
    RunKeeps(limit, EMPTY, events);
    RunAppend(limit, EMPTY, events, later);
    RunKeeps(limit, w1, later);
    Idempotency.RunKeeps(limit, EMPTY, events);
    Idempotency.RunKeeps(limit, w1, later);
    SnapshotsAreFaithful(limit, events, e1);
    SnapshotsAreFaithful(limit, events + later, e2);
  }

  /** The event writes a definition of workflow `id`. */
  ghost predicate WritesDefinition(w: World, e: Event, id: nat) {
    && e.Step? && e.r in w.requests && Committed(e.fault)
    && w.requests[e.r].Writing? && w.requests[e.r].workflowId == id && w.requests[e.r].change.definition.Some?
  }

  /** How often definitions of workflow `id` were written in a run. */
  ghost function DefinitionWrites(limit: nat, events: seq<Event>, id: nat): nat
    decreases |events|
  {
    if events == [] then 0
    else
      var n := |events| - 1;
      var writes := WritesDefinition(Run(limit, EMPTY, events[..n]), events[n], id);
      DefinitionWrites(limit, events[..n], id) + (if writes then 1 else 0)
  }

  lemma VersionArrived(w: World, r: nat, call: Call, f: Fault, id: nat)
    requires Inv(w)
    ensures var t, t' := w.tables.workflows, StepArrived(w, r, call, f).tables.workflows;
            if id in t then id in t' && t'[id] == t[id] else id in t' ==> t'[id].version == 1
  {
  }

  lemma VersionWriting(w: World, r: nat, x: nat, c: Change, f: Fault, id: nat)
    requires x in w.tables.workflows
    ensures var t, t' := w.tables.workflows, StepWriting(w, r, x, c, f).tables.workflows;
            && t'.Keys == t.Keys
            && (id in t ==>
                  t'[id].version == t[id].version + (if Committed(f) && x == id && c.definition.Some? then 1 else 0))
  {
  }

  lemma VersionTick(limit: nat, w: World, e: Event, id: nat)
    requires Inv(w)
    ensures var t, t' := w.tables.workflows, Tick(limit, w, e).tables.workflows;
            if id in t then id in t' && t'[id].version == t[id].version + (if WritesDefinition(w, e, id) then 1 else 0)
            else !WritesDefinition(w, e, id) && (id in t' ==> t'[id].version == 1)
  {
    if e.Step? && e.r in w.requests {
      assert Holds(w.audit, w.requests[e.r]);
      match w.requests[e.r]
      case Arrived(call) => VersionArrived(w, e.r, call, e.fault, id);
      case Writing(x, c) => VersionWriting(w, e.r, x, c, e.fault, id);
      case Creating(_) | Enqueuing(_, _) | Marking(_, _) => ActFrame(w, e.r, e.fault, e.allowed);
      case _ => ReadFrame(w, e.r, e.fault, e.allowed);
    }
  }

  /** A workflow's version counts the definitions written since it was created, whatever stale reads the
      edits were based on. */
  lemma {:induction false} VersionCountsWrites(limit: nat, events: seq<Event>, id: nat)
    ensures var w := Run(limit, EMPTY, events);
            if id in w.tables.workflows then w.tables.workflows[id].version == 1 + DefinitionWrites(limit, events, id)
            else DefinitionWrites(limit, events, id) == 0
    decreases |events|
  {
    if events != [] {
      var n := |events| - 1;
      VersionCountsWrites(limit, events[..n], id);
      RunKeeps(limit, EMPTY, events[..n]);
      VersionTick(limit, Run(limit, EMPTY, events[..n]), events[n], id);
    }
  }
}

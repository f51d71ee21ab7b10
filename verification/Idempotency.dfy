/** Keyed admissions, however they interleave, act like one atomic put-if-absent. */
module Idempotency {
  import opened Values
  import opened Faults
  import opened Admission

  /** No two executions of a workflow carry the same key, and ids come from the supply. */
  ghost predicate Unique(t: Tables) {
    && (forall id | id in t.executions :: id < t.next)
    && (forall a, b, workflowId, key | HasKey(t, a, workflowId, key) && HasKey(t, b, workflowId, key) :: a == b)
  }

  ghost predicate Named(t: Tables, ticket: Ticket, id: nat) {
    id in t.executions && t.executions[id].workflowId == ticket.workflowId && t.executions[id].key == ticket.key
  }

  /** What a request holds is true of the tables: an execution it created or answers with carries its key,
      and the execution it fell back to is there. */
  ghost predicate Grounded(t: Tables, q: Request) {
    match q
    case LookingUp(ticket) => ticket.key.Some?
    case FallingBack(ticket) => ticket.key.Some? && FindByKey(t, ticket.workflowId, ticket.key).Some?
    case Enqueuing(ticket, id) => Named(t, ticket, id)
    case Marking(ticket, id) => Named(t, ticket, id)
    case Replied(Some(ticket), Accepted(id)) => Named(t, ticket, id)
    case _ => true
  }

  ghost predicate Inv(w: World) {
    Unique(w.tables) && forall r | r in w.requests :: Grounded(w.tables, w.requests[r])
  }

  /** Executions are never removed and never change their workflow, version, snapshot,
      trigger, payload or key. */
  ghost predicate Extends(t: Tables, t': Tables) {
    && t.next <= t'.next
    && forall id | id in t.executions ::
         && id in t'.executions
         && t'.executions[id].workflowId == t.executions[id].workflowId
         && t'.executions[id].key == t.executions[id].key
         && t'.executions[id].version == t.executions[id].version
         && t'.executions[id].snapshot == t.executions[id].snapshot
         && t'.executions[id].payload == t.executions[id].payload
         && t'.executions[id].trigger == t.executions[id].trigger
  }

  lemma GroundedStays(t: Tables, t': Tables, q: Request)
    requires Extends(t, t') && Grounded(t, q)
    ensures Grounded(t', q)
  {
    if q.FallingBack? {
      var id := FindByKey(t, q.ticket.workflowId, q.ticket.key).value;
      assert HasKey(t', id, q.ticket.workflowId, q.ticket.key);
    }
  }

  /** Only a request that creates adds an execution. */
  ghost predicate SameExecutions(t: Tables, t': Tables) {
    Extends(t, t') && t'.executions.Keys == t.executions.Keys
  }

  lemma SameIsUnique(t: Tables, t': Tables)
    requires Unique(t) && SameExecutions(t, t')
    ensures Unique(t')
  {
    forall a, b, workflowId, key | HasKey(t', a, workflowId, key) && HasKey(t', b, workflowId, key) ensures a == b {
      assert HasKey(t, a, workflowId, key) && HasKey(t, b, workflowId, key);
    }
  }

  lemma {:induction false} CreatingKeeps(w: World, r: nat, ticket: Ticket, f: Fault)
    requires Inv(w) && r in w.requests
    ensures var w' := StepCreating(w, r, ticket, f);
            Extends(w.tables, w'.tables) && Unique(w'.tables) && Grounded(w'.tables, w'.requests[r])
  {
    var w' := StepCreating(w, r, ticket, f);
    var t, t' := w.tables, w'.tables;
    if FindByKey(t, ticket.workflowId, ticket.key).None? && Committed(f) {
      assert t.next !in t.executions;
      forall a, b, workflowId, key | HasKey(t', a, workflowId, key) && HasKey(t', b, workflowId, key) ensures a == b {
        if a != t.next && b != t.next {
          assert HasKey(t, a, workflowId, key) && HasKey(t, b, workflowId, key);
        } else if a != t.next {
          assert HasKey(t, a, ticket.workflowId, ticket.key);
        } else if b != t.next {
          assert HasKey(t, b, ticket.workflowId, ticket.key);
        }
      }
    }
  }

  lemma ArrivedKeeps(w: World, r: nat, call: Call, f: Fault)
    ensures var w' := StepArrived(w, r, call, f);
            && w'.tables.executions == w.tables.executions && w.tables.next <= w'.tables.next
            && !w'.requests[r].LookingUp? && !w'.requests[r].FallingBack? && !w'.requests[r].Enqueuing?
            && !w'.requests[r].Marking? && !(w'.requests[r].Replied? && w'.requests[r].asked.Some?)
  {
  }

  lemma EnqueueKeeps(w: World, r: nat, ticket: Ticket, id: nat, f: Fault)
    requires Named(w.tables, ticket, id)
    ensures var w' := StepEnqueuing(w, r, ticket, id, f);
            && w'.tables.executions == w.tables.executions && w.tables.next <= w'.tables.next
            && Grounded(w'.tables, w'.requests[r])
  {
  }

  lemma MarkingKeeps(w: World, r: nat, ticket: Ticket, id: nat, f: Fault)
    ensures var w' := StepMarking(w, r, ticket, id, f);
            && SameExecutions(w.tables, w'.tables)
            && (w'.requests[r] == Gone || w'.requests[r] == Deny(NotQueued) || w'.requests[r] == Deny(Internal))
  {
  }

  lemma ReadKeeps(w: World, r: nat, f: Fault, allowed: bool)
    requires r in w.requests && Grounded(w.tables, w.requests[r])
    requires var q := w.requests[r];
             q.Limiting? || q.LookingUp? || q.Checking? || q.FallingBack? || q.Writing? || q.Replied? || q.Gone?
    ensures var w' := StepRequest(w, r, f, allowed);
            && w'.tables.executions == w.tables.executions && w.tables.next <= w'.tables.next
            && Grounded(w'.tables, w'.requests[r])
  {
  }

  /** Every step but an insert keeps the executions there are, and what it leaves the request with is
      grounded. */
  lemma QuietKeeps(w: World, r: nat, f: Fault, allowed: bool)
    requires r in w.requests && Grounded(w.tables, w.requests[r]) && !w.requests[r].Creating?
    ensures var w' := StepRequest(w, r, f, allowed);
            SameExecutions(w.tables, w'.tables) && Grounded(w'.tables, w'.requests[r])
  {
    match w.requests[r]
    case Arrived(call) => ArrivedKeeps(w, r, call, f);
    case Enqueuing(ticket, id) => EnqueueKeeps(w, r, ticket, id, f);
    case Marking(ticket, id) => MarkingKeeps(w, r, ticket, id, f);
    case _ => ReadKeeps(w, r, f, allowed);
  }

  lemma {:induction false} RequestKeeps(w: World, r: nat, f: Fault, allowed: bool)
    requires Inv(w) && r in w.requests
    ensures var w' := StepRequest(w, r, f, allowed);
            && Extends(w.tables, w'.tables) && Unique(w'.tables) && Grounded(w'.tables, w'.requests[r])
            && (SameExecutions(w.tables, w'.tables) || w.requests[r].Creating?)
  {
    if w.requests[r].Creating? {
      CreatingKeeps(w, r, w.requests[r].ticket, f);
    } else {
      QuietKeeps(w, r, f, allowed);
      SameIsUnique(w.tables, StepRequest(w, r, f, allowed).tables);
    }
  }

  lemma {:induction false} TickKeeps(limit: nat, w: World, e: Event)
    requires Inv(w)
    ensures Inv(Tick(limit, w, e)) && Extends(w.tables, Tick(limit, w, e).tables)
  {
    var w' := Tick(limit, w, e);
    if e.Step? && e.r in w.requests {
      RequestKeeps(w, e.r, e.fault, e.allowed);
    } else {
      assert SameExecutions(w.tables, w'.tables);
      SameIsUnique(w.tables, w'.tables);
    }
    forall r | r in w'.requests ensures Grounded(w'.tables, w'.requests[r]) {
      if r in w.requests && w'.requests[r] == w.requests[r] {
        GroundedStays(w.tables, w'.tables, w.requests[r]);
      }
    }
  }

  lemma {:induction false} RunKeeps(limit: nat, w: World, events: seq<Event>)
    requires Inv(w)
    ensures Inv(Run(limit, w, events)) && Extends(w.tables, Run(limit, w, events).tables)
    decreases |events|
  {
    if events != [] {
      var n := |events| - 1;
      RunKeeps(limit, w, events[..n]);
      TickKeeps(limit, Run(limit, w, events[..n]), events[n]);
    }
  }

  // ---------------------------------------------------------------- put-if-absent

  /** The abstract object: which execution a workflow's key stands for. */
  ghost function Registry(t: Tables): imap<(nat, string), nat> {
    imap k: (nat, string) | FindByKey(t, k.0, Some(k.1)).Some? :: FindByKey(t, k.0, Some(k.1)).value
  }

  ghost function PutIfAbsent(registry: imap<(nat, string), nat>, k: (nat, string), id: nat): imap<(nat, string), nat> {
    if k in registry then registry else registry[k := id]
  }

  lemma FindIs(t: Tables, workflowId: nat, key: Option<string>, id: nat)
    requires Unique(t) && HasKey(t, id, workflowId, key)
    ensures FindByKey(t, workflowId, key) == Some(id)
  {
  }

  lemma SameRegistry(t: Tables, t': Tables)
    requires Unique(t) && Unique(t') && SameExecutions(t, t')
    ensures Registry(t') == Registry(t)
  {
    forall k: (nat, string) ensures FindByKey(t', k.0, Some(k.1)) == FindByKey(t, k.0, Some(k.1)) {
      forall id ensures HasKey(t', id, k.0, Some(k.1)) <==> HasKey(t, id, k.0, Some(k.1)) {}
      if id :| HasKey(t, id, k.0, Some(k.1)) {
        FindIs(t, k.0, Some(k.1), id);
        FindIs(t', k.0, Some(k.1), id);
      }
    }
  }

  /** The insert of a keyed request is an atomic put-if-absent on (workflow, key); where the key is
      already there, the request falls back and the registry stays. */
  lemma {:induction false} CreatingPutsIfAbsent(w: World, r: nat, ticket: Ticket, f: Fault)
    requires Inv(w) && w.requests.Keys >= {r} && ticket.key.Some?
    ensures var w' := StepCreating(w, r, ticket, f);
            var k := (ticket.workflowId, ticket.key.value);
            && Registry(w'.tables) ==
               (if Committed(f) then PutIfAbsent(Registry(w.tables), k, w.tables.next) else Registry(w.tables))
            && (f.Fine? ==> w'.requests[r] == if k in Registry(w.tables) then FallingBack(ticket)
                else Enqueuing(ticket, Registry(w'.tables)[k]))
  {
    var w' := StepCreating(w, r, ticket, f);
    var t, t' := w.tables, w'.tables;
    CreatingKeeps(w, r, ticket, f);
    if FindByKey(t, ticket.workflowId, ticket.key).None? && Committed(f) {
      assert HasKey(t', t.next, ticket.workflowId, ticket.key);
      forall k: (nat, string)
        ensures FindByKey(t', k.0, Some(k.1)) ==
                if k == (ticket.workflowId, ticket.key.value) then Some(t.next) else FindByKey(t, k.0, Some(k.1))
      {
        forall id ensures HasKey(t', id, k.0, Some(k.1)) <==>
                          HasKey(t, id, k.0, Some(k.1))
                            || (id == t.next && k == (ticket.workflowId, ticket.key.value)) {}
        if id :| HasKey(t', id, k.0, Some(k.1)) {
          FindIs(t', k.0, Some(k.1), id);
          if id != t.next {
            FindIs(t, k.0, Some(k.1), id);
          }
        }
      }
    }
  }

  /** Nothing but the insert of a keyed request changes the registry. */
  lemma {:induction false} OnlyCreatingPuts(limit: nat, w: World, e: Event)
    requires Inv(w)
    requires !(e.Step? && e.r in w.requests && w.requests[e.r].Creating? && w.requests[e.r].ticket.key.Some?)
    ensures Registry(Tick(limit, w, e).tables) == Registry(w.tables)
  {
    var w' := Tick(limit, w, e);
    TickKeeps(limit, w, e);
    if e.Step? && e.r in w.requests && w.requests[e.r].Creating? {
      UnkeyedCreates(w, e.r, w.requests[e.r].ticket, e.fault);
    } else {
      if e.Step? && e.r in w.requests {
        RequestKeeps(w, e.r, e.fault, e.allowed);
      }
      SameRegistry(w.tables, w'.tables);
    }
  }

  /** Requests without a key, or with a blank one, never collide: their insert finds no conflict, makes a new
      execution, and leaves the registry alone. */
  lemma {:induction false} UnkeyedCreates(w: World, r: nat, ticket: Ticket, f: Fault)
    requires Inv(w) && r in w.requests && ticket.key.None?
    ensures var w' := StepCreating(w, r, ticket, f);
            && Registry(w'.tables) == Registry(w.tables)
            && w.tables.next !in w.tables.executions
            && (Committed(f) ==> w'.tables.executions == w.tables.executions[w.tables.next := NewExecution(ticket)])
            && (f.Fine? ==> w'.requests[r] == Enqueuing(ticket, w.tables.next))
  {
    var w' := StepCreating(w, r, ticket, f);
    var t, t' := w.tables, w'.tables;
    CreatingKeeps(w, r, ticket, f);
    forall k: (nat, string) ensures FindByKey(t', k.0, Some(k.1)) == FindByKey(t, k.0, Some(k.1)) {
      forall id ensures HasKey(t', id, k.0, Some(k.1)) <==> HasKey(t, id, k.0, Some(k.1)) {}
      if id :| HasKey(t, id, k.0, Some(k.1)) {
        FindIs(t, k.0, Some(k.1), id);
        FindIs(t', k.0, Some(k.1), id);
      }
    }
  }

  /** The lookup behind a unique-constraint error always finds the execution. */
  lemma {:induction false} FallbackFinds(limit: nat, events: seq<Event>, r: nat, allowed: bool)
    requires var w := Run(limit, EMPTY, events); r in w.requests && w.requests[r].FallingBack?
    ensures var w := Run(limit, EMPTY, events);
            var q := Tick(limit, w, Step(r, Fine, allowed)).requests[r];
            q.Replied? && q.asked == Some(w.requests[r].ticket) && q.answer.Accepted?
  {
    RunKeeps(limit, EMPTY, events);
  }

  /** One key, one execution: over every interleaving of any number of requests, all that are answered with
      an execution for a workflow and key, at whatever time, are answered with the same one. */
  lemma {:induction false} OneAnswerPerKey(limit: nat, events: seq<Event>, later: seq<Event>, r1: nat, r2: nat)
    requires var w1, w2 := Run(limit, EMPTY, events), Run(limit, EMPTY, events + later);
             && r1 in w1.requests && w1.requests[r1].Replied? && w1.requests[r1].asked.Some?
                && w1.requests[r1].answer.Accepted?
             && r2 in w2.requests && w2.requests[r2].Replied? && w2.requests[r2].asked.Some?
                && w2.requests[r2].answer.Accepted?
             && w1.requests[r1].asked.value.workflowId == w2.requests[r2].asked.value.workflowId
             && w1.requests[r1].asked.value.key == w2.requests[r2].asked.value.key
             && w1.requests[r1].asked.value.key.Some?
    ensures Run(limit, EMPTY, events).requests[r1].answer == Run(limit, EMPTY, events + later).requests[r2].answer
  {
    var w1, w2 := Run(limit, EMPTY, events), Run(limit, EMPTY, events + later);
    RunKeeps(limit, EMPTY, events);
    RunAppend(limit, EMPTY, events, later);
    RunKeeps(limit, w1, later);
    var q1, q2 := w1.requests[r1], w2.requests[r2];
    assert Named(w1.tables, q1.asked.value, q1.answer.id);
    assert HasKey(w2.tables, q1.answer.id, q1.asked.value.workflowId, q1.asked.value.key);
    assert HasKey(w2.tables, q2.answer.id, q1.asked.value.workflowId, q1.asked.value.key);
  }
}

/** Where executions come from: each is what some call asked for, and a call without a key is only ever answered
    with one of its own. */
module Origins {
  import opened Values
  import opened Faults
  import opened Trimming
  import opened Admission
  import Idempotency
  import Versions

  /** Request `r` arrives with the `k`-th event. */
  ghost predicate ArrivedAt(limit: nat, events: seq<Event>, r: nat, k: nat) {
    && k < |events| && events[k].Arrive? && events[k].r == r
    && r !in Run(limit, EMPTY, events[..k]).requests
    && r in Run(limit, EMPTY, events[..k + 1]).requests
  }

  /** The first id that can be drawn after the `k`-th event. */
  ghost function FloorAt(limit: nat, events: seq<Event>, k: nat): nat
    requires k <= |events|
  {
    Run(limit, EMPTY, events[..k]).tables.next
  }

  /** The ticket is what the call asks for. */
  ghost predicate Carries(a: Audit, call: Call, ticket: Ticket) {
    match call
    case Receive(token, payload, key) =>
      && payload == Some(ticket.payload) && KeyFor(key, ticket.key) && ticket.trigger == Webhook
      && token in a.owners && a.owners[token] == ticket.workflowId
    case RunManual(_, id, input) =>
      input == Some(ticket.payload) && ticket.key == None && ticket.trigger == Manual && ticket.workflowId == id
    case _ => false
  }

  /** The execution is what the ticket stands for. */
  ghost predicate IsMade(t: Tables, ticket: Ticket, id: nat) {
    && id in t.executions
    && var e := t.executions[id];
    && e.workflowId == ticket.workflowId && e.version == ticket.version && e.snapshot == ticket.snapshot
    && e.trigger == ticket.trigger && e.payload == ticket.payload && e.key == ticket.key
  }

  /** A request's state, against the call it arrived with and the ids there were then. */
  ghost predicate Tracks(w: World, call: Call, floor: nat, q: Request) {
    match q
    case Arrived(c) => c == call
    case Limiting(id, _, payload, key) =>
      && call.Receive? && call.payload == payload && call.key == key
      && call.token in w.audit.owners && w.audit.owners[call.token] == id
    case LookingUp(ticket) => Carries(w.audit, call, ticket) && ticket.key.Some?
    case Checking(ticket) => Carries(w.audit, call, ticket)
    case Creating(ticket) => Carries(w.audit, call, ticket)
    case FallingBack(ticket) => Carries(w.audit, call, ticket) && ticket.key.Some?
    case Enqueuing(ticket, id) => Carries(w.audit, call, ticket) && IsMade(w.tables, ticket, id) && id >= floor
    case Marking(ticket, id) => Carries(w.audit, call, ticket) && IsMade(w.tables, ticket, id) && id >= floor
    case Replied(asked, Accepted(id)) =>
      && asked.Some? && Carries(w.audit, call, asked.value)
      && (asked.value.key.None? ==> IsMade(w.tables, asked.value, id) && id >= floor)
    case _ => true
  }

  lemma TracksOn(w: World, w': World, call: Call, floor: nat, q: Request)
    requires Tracks(w, call, floor, q)
    requires Idempotency.Extends(w.tables, w'.tables) && Versions.Grows(w.audit, w'.audit)
    ensures Tracks(w', call, floor, q)
  {
  }

  lemma ReceiveTracks(w: World, token: nat, payload: Option<WorkflowData>, key: Option<string>, floor: nat)
    requires Versions.Inv(w)
    ensures Tracks(w, Receive(token, payload, key), floor, ReadForWebhook(w.tables, token, payload, key))
  {
    var found := FindByToken(w.tables, token);
    if found.Some? {
      assert HasToken(w.tables, found.value, token);
      assert Versions.Coherent(w.audit, found.value, w.tables.workflows[found.value]);
    }
  }

  lemma ArrivedTracks(w: World, r: nat, call: Call, f: Fault, floor: nat)
    requires Versions.Inv(w)
    ensures var w' := StepArrived(w, r, call, f); Tracks(w', call, floor, w'.requests[r])
  {
    if call.Receive? {
      ReceiveTracks(w, call.token, call.payload, call.key, floor);
    } else {
      OthersTrack(w, r, call, f, floor);
    }
  }

  lemma OthersTrack(w: World, r: nat, call: Call, f: Fault, floor: nat)
    requires !call.Receive?
    ensures var w' := StepArrived(w, r, call, f); Tracks(w', call, floor, w'.requests[r])
  {
  }

  lemma LimitingTracks(w: World, call: Call, floor: nat, q: Request, f: Fault, allowed: bool)
    requires q.Limiting? && Tracks(w, call, floor, q)
    ensures Tracks(w, call, floor, Onward(f, AfterLimit(q.workflowId, q.workflow, q.payload, q.key, allowed)))
  {
    NormalizeIsKeyFor(q.key);
  }

  lemma CreatingTracks(w: World, r: nat, ticket: Ticket, f: Fault, call: Call, floor: nat)
    requires Carries(w.audit, call, ticket) && floor <= w.tables.next
    ensures var w' := StepCreating(w, r, ticket, f); Tracks(w', call, floor, w'.requests[r])
  {
  }

  lemma TailTracks(w: World, r: nat, f: Fault, allowed: bool, call: Call, floor: nat)
    requires r in w.requests && Tracks(w, call, floor, w.requests[r])
    requires var q := w.requests[r];
             q.LookingUp? || q.Checking? || q.FallingBack? || q.Writing? || q.Replied? || q.Gone?
    ensures var w' := StepRequest(w, r, f, allowed); Tracks(w', call, floor, w'.requests[r])
  {
  }

  lemma QueueingTracks(w: World, r: nat, f: Fault, allowed: bool, call: Call, floor: nat)
    requires r in w.requests && Tracks(w, call, floor, w.requests[r])
    requires w.requests[r].Enqueuing? || w.requests[r].Marking?
    ensures var w' := StepRequest(w, r, f, allowed); Tracks(w', call, floor, w'.requests[r])
  {
  }

  lemma StepTracks(w: World, r: nat, f: Fault, allowed: bool, call: Call, floor: nat)
    requires Versions.Inv(w) && r in w.requests && Tracks(w, call, floor, w.requests[r]) && floor <= w.tables.next
    ensures var w' := StepRequest(w, r, f, allowed); Tracks(w', call, floor, w'.requests[r])
  {
    match w.requests[r]
    case Arrived(_) => ArrivedTracks(w, r, call, f, floor);
    case Limiting(_, _, _, _) => LimitingTracks(w, call, floor, w.requests[r], f, allowed);
    case Creating(ticket) => CreatingTracks(w, r, ticket, f, call, floor);
    case Enqueuing(_, _) | Marking(_, _) => QueueingTracks(w, r, f, allowed, call, floor);
    case _ => TailTracks(w, r, f, allowed, call, floor);
  }

  lemma TickTracks(limit: nat, w: World, e: Event, r: nat, call: Call, floor: nat)
    requires Versions.Inv(w) && Idempotency.Inv(w)
    requires r in w.requests && Tracks(w, call, floor, w.requests[r]) && floor <= w.tables.next
    ensures var w' := Tick(limit, w, e);
            r in w'.requests && Tracks(w', call, floor, w'.requests[r]) && floor <= w'.tables.next
  {
    Idempotency.TickKeeps(limit, w, e);
    Versions.TickKeeps(limit, w, e);
    if e.Step? && e.r == r {
      StepTracks(w, r, e.fault, e.allowed, call, floor);
    } else {
      TickLeavesIt(limit, w, r, e);
      TracksOn(w, Tick(limit, w, e), call, floor, w.requests[r]);
    }
  }

  lemma Sound(limit: nat, events: seq<Event>)
    ensures Idempotency.Inv(Run(limit, EMPTY, events)) && Versions.Inv(Run(limit, EMPTY, events))
  {
    Idempotency.RunKeeps(limit, EMPTY, events);
    Versions.RunKeeps(limit, EMPTY, events);
  }

  /** Whatever happens, a request does what its call asked for. */
  lemma {:induction false} Tracked(limit: nat, events: seq<Event>, r: nat, k: nat)
    requires ArrivedAt(limit, events, r, k)
    ensures var w := Run(limit, EMPTY, events);
            r in w.requests && Tracks(w, events[k].call, FloorAt(limit, events, k), w.requests[r])
            && FloorAt(limit, events, k) <= w.tables.next
    decreases |events|
  {
    var n := |events| - 1;
    if k == n {
      assert events[..k + 1] == events;
    } else {
      ArrivedEarlier(limit, events, r, k);
      Tracked(limit, events[..n], r, k);
      Sound(limit, events[..n]);
      TickTracks(limit, Run(limit, EMPTY, events[..n]), events[n], r, events[k].call, FloorAt(limit, events, k));
    }
  }

  lemma ArrivedEarlier(limit: nat, events: seq<Event>, r: nat, k: nat)
    requires k < |events| - 1
    ensures ArrivedAt(limit, events[..|events| - 1], r, k) <==> ArrivedAt(limit, events, r, k)
    ensures FloorAt(limit, events[..|events| - 1], k) == FloorAt(limit, events, k)
  {
    var front := events[..|events| - 1];
    assert front[..k] == events[..k] && front[..k + 1] == events[..k + 1];
  }

  lemma {:induction false} HasArrived(limit: nat, events: seq<Event>, r: nat) returns (k: nat)
    requires r in Run(limit, EMPTY, events).requests
    ensures ArrivedAt(limit, events, r, k)
    decreases |events|
  {
    var n := |events| - 1;
    if r in Run(limit, EMPTY, events[..n]).requests {
      k := HasArrived(limit, events[..n], r);
      ArrivedEarlier(limit, events, r, k);
    } else {
      k := n;
      assert events[..n + 1] == events;
    }
  }

  // ---------------------------------------------------------------- what follows

  /** What a request queues, or marks as not queued, is what it asked for: the payload is the one its call came
      with, the key the text of its header, the workflow the one its token or id names. */
  lemma {:induction false} CreatesWhatWasAsked(limit: nat, events: seq<Event>, r: nat, k: nat)
    requires ArrivedAt(limit, events, r, k)
    requires var q := Run(limit, EMPTY, events).requests; r in q && (q[r].Enqueuing? || q[r].Marking?)
    ensures var w := Run(limit, EMPTY, events);
            var q := w.requests[r];
            && q.id in w.tables.executions && q.id !in Run(limit, EMPTY, events[..k]).tables.executions
            && Answers(w, events[k].call, w.tables.executions[q.id])
  {
    Tracked(limit, events, r, k);
    Sound(limit, events[..k]);
  }

  /** The execution is what the call asks for. */
  ghost predicate Answers(w: World, call: Call, e: Execution) {
    match call
    case Receive(token, payload, key) =>
      && payload == Some(e.payload) && KeyFor(key, e.key) && e.trigger == Webhook
      && token in w.audit.owners && w.audit.owners[token] == e.workflowId
    case RunManual(_, id, input) =>
      input == Some(e.payload) && e.key == None && e.trigger == Manual && e.workflowId == id
    case _ => false
  }

  ghost predicate IsUnkeyed(call: Call) {
    call.RunManual? || (call.Receive? && (call.key.None? || Blank(call.key.value)))
  }

  /** A call without a key, or with a blank one, that is accepted is answered with an execution that was not
      there when it arrived, and that is what it asked for. */
  lemma {:induction false} UnkeyedIsNew(limit: nat, events: seq<Event>, r: nat, k: nat)
    requires ArrivedAt(limit, events, r, k) && IsUnkeyed(events[k].call)
    requires var q := Run(limit, EMPTY, events).requests; r in q && q[r].Replied? && q[r].answer.Accepted?
    ensures var w := Run(limit, EMPTY, events);
            var q := w.requests[r];
            && q.asked.Some? && q.asked.value.key == None
            && q.answer.id in w.tables.executions
            && q.answer.id !in Run(limit, EMPTY, events[..k]).tables.executions
            && w.tables.executions[q.answer.id].key == None
            && Answers(w, events[k].call, w.tables.executions[q.answer.id])
  {
    Tracked(limit, events, r, k);
    Sound(limit, events[..k]);
  }

  /** A keyed call that is accepted is answered with an execution of its workflow under its key. */
  lemma {:induction false} KeyedIsNamed(limit: nat, events: seq<Event>, r: nat, k: nat)
    requires ArrivedAt(limit, events, r, k) && events[k].call.Receive? && !IsUnkeyed(events[k].call)
    requires var q := Run(limit, EMPTY, events).requests; r in q && q[r].Replied? && q[r].answer.Accepted?
    ensures var w, call := Run(limit, EMPTY, events), events[k].call;
            var id := w.requests[r].answer.id;
            && id in w.tables.executions && KeyFor(call.key, w.tables.executions[id].key)
            && call.token in w.audit.owners && w.audit.owners[call.token] == w.tables.executions[id].workflowId
  {
    Tracked(limit, events, r, k);
    Sound(limit, events);
    var w := Run(limit, EMPTY, events);
    assert Idempotency.Grounded(w.tables, w.requests[r]);
  }

  /** Every execution there is was asked for by a call that arrived. */
  lemma {:induction false} EveryExecutionWasAsked(limit: nat, events: seq<Event>, x: nat) returns (r: nat, k: nat)
    requires x in Run(limit, EMPTY, events).tables.executions
    ensures ArrivedAt(limit, events, r, k)
    ensures var w := Run(limit, EMPTY, events); Answers(w, events[k].call, w.tables.executions[x])
    decreases |events|
  {
    var n := |events| - 1;
    var w, e := Run(limit, EMPTY, events[..n]), events[n];
    Sound(limit, events[..n]);
    Idempotency.TickKeeps(limit, w, e);
    Versions.TickKeeps(limit, w, e);
    if x in w.tables.executions {
      r, k := EveryExecutionWasAsked(limit, events[..n], x);
    } else {
      OnlyCreatingMakes(limit, w, e, x);
      r := e.r;
      k := HasArrived(limit, events[..n], r);
      Tracked(limit, events[..n], r, k);
    }
    ArrivedEarlier(limit, events, r, k);
  }

  lemma OnlyCreatingMakes(limit: nat, w: World, e: Event, x: nat)
    requires Idempotency.Inv(w) && x !in w.tables.executions && x in Tick(limit, w, e).tables.executions
    ensures e.Step? && e.r in w.requests && w.requests[e.r].Creating?
    ensures Tick(limit, w, e).tables.executions[x] == NewExecution(w.requests[e.r].ticket)
  {
    if e.Step? && e.r in w.requests {
      Idempotency.RequestKeeps(w, e.r, e.fault, e.allowed);
    }
  }

  // ---------------------------------------------------------------- one each

  /** The execution is the request's own: it made it, without a key. */
  ghost predicate IsOwn(q: Request, id: nat) {
    || ((q.Enqueuing? || q.Marking?) && q.ticket.key.None? && q.id == id)
    || (q.Replied? && q.asked.Some? && q.asked.value.key.None? && q.answer == Accepted(id))
  }

  ghost predicate OneOwner(w: World) {
    && (forall r, id | r in w.requests && IsOwn(w.requests[r], id) :: id in w.tables.executions)
    && (forall r, s, id | r in w.requests && s in w.requests && IsOwn(w.requests[r], id) && IsOwn(w.requests[s], id) ::
          r == s)
  }

  /** A step leaves a request's own execution with it, or gives it the one it makes. */
  lemma OwnStep(w: World, r: nat, f: Fault, allowed: bool, id: nat)
    requires Idempotency.Inv(w) && r in w.requests && IsOwn(StepRequest(w, r, f, allowed).requests[r], id)
    ensures IsOwn(w.requests[r], id) || (w.requests[r].Creating? && id == w.tables.next)
  {
    match w.requests[r]
    case Creating(ticket) => OwnCreating(w, r, ticket, f, id);
    case Enqueuing(_, _) =>
    case Arrived(call) => Idempotency.ArrivedKeeps(w, r, call, f);
    case _ => OwnElsewhere(w, r, f, allowed, id);
  }

  lemma OwnCreating(w: World, r: nat, ticket: Ticket, f: Fault, id: nat)
    requires IsOwn(StepCreating(w, r, ticket, f).requests[r], id)
    ensures id == w.tables.next
  {
  }

  lemma OwnElsewhere(w: World, r: nat, f: Fault, allowed: bool, id: nat)
    requires Idempotency.Inv(w) && r in w.requests && IsOwn(StepRequest(w, r, f, allowed).requests[r], id)
    requires var q := w.requests[r]; !q.Creating? && !q.Enqueuing? && !q.Arrived?
    ensures IsOwn(w.requests[r], id)
  {
    assert Idempotency.Grounded(w.tables, w.requests[r]);
  }

  /** An own execution was the request's own before, or is the one it just made. */
  lemma OwnFrom(limit: nat, w: World, e: Event, r: nat, id: nat)
    requires Idempotency.Inv(w) && r in Tick(limit, w, e).requests && IsOwn(Tick(limit, w, e).requests[r], id)
    ensures || (r in w.requests && IsOwn(w.requests[r], id))
            || (e.Step? && r == e.r && id == w.tables.next && id in Tick(limit, w, e).tables.executions)
  {
    if e.Step? && e.r in w.requests && r == e.r {
      OwnStep(w, r, e.fault, e.allowed, id);
      if w.requests[r].Creating? {
        MadeIsThere(w, r, e.fault, e.allowed, id);
      }
    } else if r in w.requests {
      TickLeavesIt(limit, w, r, e);
    }
  }

  lemma {:induction false} OwnTick(limit: nat, w: World, e: Event)
    requires Idempotency.Inv(w) && OneOwner(w)
    ensures OneOwner(Tick(limit, w, e))
  {
    Idempotency.TickKeeps(limit, w, e);
    OwnersFollow(w, Tick(limit, w, e), limit, e);
  }

  lemma OwnersFollow(w: World, w': World, limit: nat, e: Event)
    requires Idempotency.Inv(w) && OneOwner(w) && w' == Tick(limit, w, e) && Idempotency.Extends(w.tables, w'.tables)
    ensures OneOwner(w')
  {
    forall r, id | r in w'.requests && IsOwn(w'.requests[r], id) ensures id in w'.tables.executions {
      OwnFrom(limit, w, e, r, id);
    }
    forall r, s, id | r in w'.requests && s in w'.requests && IsOwn(w'.requests[r], id) && IsOwn(w'.requests[s], id)
      ensures r == s
    {
      OwnFrom(limit, w, e, r, id);
      OwnFrom(limit, w, e, s, id);
    }
  }

  lemma MadeIsThere(w: World, r: nat, f: Fault, allowed: bool, id: nat)
    requires r in w.requests && w.requests[r].Creating? && IsOwn(StepRequest(w, r, f, allowed).requests[r], id)
    ensures id in StepRequest(w, r, f, allowed).tables.executions
  {
  }

  lemma {:induction false} OwnRun(limit: nat, events: seq<Event>)
    ensures OneOwner(Run(limit, EMPTY, events))
    decreases |events|
  {
    if events != [] {
      var n := |events| - 1;
      OwnRun(limit, events[..n]);
      Sound(limit, events[..n]);
      OwnTick(limit, Run(limit, EMPTY, events[..n]), events[n]);
    }
  }

  /** Calls without a key never share an execution. */
  lemma {:induction false} UnkeyedNeverShare(limit: nat, events: seq<Event>, r1: nat, k1: nat, r2: nat, k2: nat)
    requires ArrivedAt(limit, events, r1, k1) && ArrivedAt(limit, events, r2, k2) && r1 != r2
    requires IsUnkeyed(events[k1].call) && IsUnkeyed(events[k2].call)
    requires var q := Run(limit, EMPTY, events).requests;
             && r1 in q && q[r1].Replied? && q[r1].answer.Accepted?
             && r2 in q && q[r2].Replied? && q[r2].answer.Accepted?
    ensures var q := Run(limit, EMPTY, events).requests; q[r1].answer.id != q[r2].answer.id
  {
    UnkeyedIsNew(limit, events, r1, k1);
    UnkeyedIsNew(limit, events, r2, k2);
    OwnRun(limit, events);
    var q := Run(limit, EMPTY, events).requests;
    assert IsOwn(q[r1], q[r1].answer.id) && IsOwn(q[r2], q[r2].answer.id);
  }
}

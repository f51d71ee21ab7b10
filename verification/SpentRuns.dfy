/** Runs that spend a key: its execution never gets a job, and the next request with the key is answered with
    it all the same. */
module SpentRuns {
  import opened Values
  import opened Faults
  import opened Trimming
  import opened Admission
  import opened Conservation
  import opened Spent
  import Idempotency
  import Steps

  lemma RunSnoc(limit: nat, w: World, events: seq<Event>, e: Event)
    ensures Run(limit, w, events + [e]) == Tick(limit, Run(limit, w, events), e)
  {
    assert (events + [e])[..|events + [e]| - 1] == events;
  }

  /** A keyed webhook call can come in: the token leads to an active workflow, and the request is new. */
  ghost predicate CanAsk(limit: nat, w: World, r: nat, id: nat, token: nat, key: string) {
    && FindByToken(w.tables, token) == Some(id) && id in w.tables.workflows
    && w.tables.workflows[id].status == Active && w.tables.workflows[id].definition.trigger == Webhook
    && r !in w.requests && |Flying(w.requests)| < limit
    && Normalize(Some(key)).Some?
  }

  ghost function Asked(w: World, id: nat, payload: WorkflowData, key: string): Ticket
    requires id in w.tables.workflows
  {
    TicketFor(id, w.tables.workflows[id], payload, Normalize(Some(key)))
  }

  ghost function Asking(r: nat, token: nat, payload: WorkflowData, key: string): seq<Event> {
    [Arrive(r, Receive(token, Some(payload), Some(key)))] + [Step(r, Fine, true)] + [Step(r, Fine, true)]
  }

  lemma TakesTicket(w: World, r: nat, id: nat, payload: WorkflowData, key: string)
    requires id in w.tables.workflows && w.tables.workflows[id].status == Active
    requires w.tables.workflows[id].definition.trigger == Webhook && Normalize(Some(key)).Some?
    requires r in w.requests
    requires w.requests[r] == Limiting(id, w.tables.workflows[id], Some(payload), Some(key))
    ensures StepRequest(w, r, Fine, true) == At(w, r, LookingUp(Asked(w, id, payload, key)))
  {
  }

  /** The first calls of such a request: it is about to look its key up. */
  lemma Asks(limit: nat, w: World, r: nat, id: nat, token: nat, payload: WorkflowData, key: string)
    requires CanAsk(limit, w, r, id, token, key)
    ensures Run(limit, w, Asking(r, token, payload, key)) == At(w, r, LookingUp(Asked(w, id, payload, key)))
  {
    var call := Receive(token, Some(payload), Some(key));
    var arrive, e := Arrive(r, call), Step(r, Fine, true);
    RunSnoc(limit, w, [], arrive);
    assert [] + [arrive] == [arrive];
    RunSnoc(limit, w, [arrive], e);
    RunSnoc(limit, w, [arrive] + [e], e);
    var w1 := At(w, r, Arrived(call));
    assert Run(limit, w, [arrive]) == w1;
    var w2 := At(w, r, Limiting(id, w.tables.workflows[id], Some(payload), Some(key)));
    assert StepArrived(w1, r, call, Fine) == w2;
    assert Run(limit, w, [arrive] + [e]) == w2;
    TakesTicket(w2, r, id, payload, key);
  }

  /** A request whose key has an execution is answered with it. */
  lemma {:induction false} IsAnswered(limit: nat, w: World, r: nat, id: nat, token: nat, payload: WorkflowData,
                                      key: string)
    returns (events: seq<Event>)
    requires CanAsk(limit, w, r, id, token, key)
    requires FindByKey(w.tables, id, Normalize(Some(key))).Some?
    ensures var x := FindByKey(w.tables, id, Normalize(Some(key))).value;
            Run(limit, w, events) == At(w, r, Replied(Some(Asked(w, id, payload, key)), Accepted(x)))
  {
    var e, ticket := Step(r, Fine, true), Asked(w, id, payload, key);
    events := Asking(r, token, payload, key) + [e];
    Asks(limit, w, r, id, token, payload, key);
    RunSnoc(limit, w, Asking(r, token, payload, key), e);
    var w1 := At(w, r, LookingUp(ticket));
    assert Tick(limit, w1, e) == StepLookingUp(w1, r, ticket, Fine);
  }

  /** A request with a new key gets to its insert. */
  lemma {:induction false} ComesToCreate(limit: nat, w: World, r: nat, id: nat, token: nat, payload: WorkflowData,
                                         key: string)
    returns (events: seq<Event>)
    requires CanAsk(limit, w, r, id, token, key) && HasCapacity(w.tables)
    requires FindByKey(w.tables, id, Normalize(Some(key))).None?
    ensures Run(limit, w, events) == At(w, r, Creating(Asked(w, id, payload, key)))
  {
    var e, ticket := Step(r, Fine, true), Asked(w, id, payload, key);
    var asking := Asking(r, token, payload, key);
    events := asking + [e] + [e];
    Asks(limit, w, r, id, token, payload, key);
    RunSnoc(limit, w, asking, e);
    RunSnoc(limit, w, asking + [e], e);
    var w1 := At(w, r, LookingUp(ticket));
    var w2 := At(w, r, Checking(ticket));
    assert StepLookingUp(w1, r, ticket, Fine) == w2;
    assert Run(limit, w, asking + [e]) == w2;
    assert Tick(limit, w2, e) == StepChecking(w2, r, ticket, Fine);
  }

  /** How the request that made the execution ends: its server dies after the insert, or the queue refuses the
      job and the execution is marked. */
  datatype Ending = ServerDies | QueueRefuses

  ghost function Last(r: nat, ending: Ending): seq<Event> {
    match ending
    case ServerDies => [Step(r, DiesAfter, true)]
    case QueueRefuses => [Step(r, Fine, true)] + [Step(r, Refused, true)] + [Step(r, Fine, true)]
  }

  /** The world after that: one more execution, without a job, and a request that is over. */
  ghost predicate Spends(w: World, w': World, r: nat, ticket: Ticket) {
    && w.tables.next in w'.tables.executions
    && w'.tables.executions.Keys == w.tables.executions.Keys + {w.tables.next}
    && (forall e | e in w.tables.executions :: w'.tables.executions[e] == w.tables.executions[e])
    && w'.tables.executions[w.tables.next].workflowId == ticket.workflowId
    && w'.tables.executions[w.tables.next].key == ticket.key
    && w'.tables.workflows == w.tables.workflows && w'.tables.jobs == w.tables.jobs
    && Only(w, r, w') && (w'.requests[r] == Gone || w'.requests[r] == Deny(NotQueued))
  }

  lemma SpendsByDeath(limit: nat, w: World, r: nat, ticket: Ticket)
    requires r in w.requests && w.requests[r] == Creating(ticket)
    requires FindByKey(w.tables, ticket.workflowId, ticket.key).None? && w.tables.next !in w.tables.executions
    ensures var w' := Run(limit, w, Last(r, ServerDies));
            && Spends(w, w', r, ticket)
            && w.tables.next in w'.audit.stranded && w'.audit.lost == w.audit.lost
            && w'.tables.executions[w.tables.next] == NewExecution(ticket)
  {
    var e := Step(r, DiesAfter, true);
    RunSnoc(limit, w, [], e);
    assert [] + [e] == [e];
    assert Tick(limit, w, e) == StepCreating(w, r, ticket, DiesAfter);
  }

  lemma SpendsByRefusal(limit: nat, w: World, r: nat, ticket: Ticket)
    requires r in w.requests && w.requests[r] == Creating(ticket)
    requires FindByKey(w.tables, ticket.workflowId, ticket.key).None? && w.tables.next !in w.tables.executions
    ensures var w' := Run(limit, w, Last(r, QueueRefuses));
            && Spends(w, w', r, ticket)
            && w.tables.next in w'.audit.marked && w'.audit.lost == w.audit.lost
            && IsMarked(w'.tables.executions[w.tables.next])
  {
    var ok, refused, id := Step(r, Fine, true), Step(r, Refused, true), w.tables.next;
    RunSnoc(limit, w, [], ok);
    assert [] + [ok] == [ok];
    RunSnoc(limit, w, [ok], refused);
    RunSnoc(limit, w, [ok] + [refused], ok);
    var w1 := At(AddExecution(w, ticket), r, Enqueuing(ticket, id));
    assert StepCreating(w, r, ticket, Fine) == w1;
    assert Run(limit, w, [ok]) == w1;
    var w2 := At(w1, r, Marking(ticket, id));
    assert StepEnqueuing(w1, r, ticket, id, Refused) == w2;
    assert Run(limit, w, [ok] + [refused]) == w2;
    assert Tick(limit, w2, ok) == StepMarking(w2, r, ticket, id, Fine);
  }

  lemma SameToken(t: Tables, t': Tables, token: nat)
    requires t'.workflows == t.workflows
    ensures FindByToken(t', token) == FindByToken(t, token)
  {
    assert (set id | id in t.workflows && HasToken(t, id, token)) ==
           (set id | id in t'.workflows && HasToken(t', id, token));
  }

  /** After a spending request that is over, the next one can come in. */
  lemma NextCanAsk(limit: nat, w: World, w1: World, r1: nat, r2: nat, id: nat, token: nat, key: string, ticket: Ticket)
    requires CanAsk(limit, w, r1, id, token, key) && r2 !in w.requests && r2 != r1
    requires Spends(At(w, r1, Creating(ticket)), w1, r1, ticket)
    ensures CanAsk(limit, w1, r2, id, token, key)
  {
    SameToken(w.tables, w1.tables, token);
    assert w1.requests == w.requests[r1 := w1.requests[r1]];
    assert Flying(w1.requests) == Flying(w.requests);
  }

  lemma SpentIsOutOfReach(limit: nat, events: seq<Event>, x: nat, lost: set<nat>)
    requires var w := Run(limit, EMPTY, events);
             && x in w.tables.executions && w.audit.lost == lost && x !in lost
             && (x in w.audit.stranded || x in w.audit.marked)
    ensures !InReach(Run(limit, EMPTY, events), x)
  {
    OutOfReachIff(limit, events, x);
  }

  lemma NewIsNotLost(limit: nat, events: seq<Event>)
    ensures var w := Run(limit, EMPTY, events); w.tables.next !in w.audit.lost && w.tables.next !in w.tables.executions
  {
    StartIsBalanced();
    RunKeeps(limit, EMPTY, events);
    assert Balanced(Books(Run(limit, EMPTY, events)));
  }

  /** A key can be spent, in either way, wherever a call with a new key can come in and the queue has room: the
      call makes an execution that no continuation gives a job, and the next call with the key is accepted
      and answered with it. */
  lemma {:induction false} KeyCanBeSpent(limit: nat, before: seq<Event>, r1: nat, r2: nat, id: nat, token: nat,
                                         payload: WorkflowData, key: string, ending: Ending)
    returns (events: seq<Event>, more: seq<Event>)
    requires var w := Run(limit, EMPTY, before);
             && CanAsk(limit, w, r1, id, token, key) && HasCapacity(w.tables)
             && FindByKey(w.tables, id, Normalize(Some(key))).None?
             && r2 !in w.requests && r2 != r1
    ensures var w1, w2 := Run(limit, EMPTY, before + events), Run(limit, EMPTY, before + events + more);
            var x := Run(limit, EMPTY, before).tables.next;
            && HasKey(w1.tables, x, id, Normalize(Some(key))) && !InReach(w1, x)
            && (if ending.ServerDies? then IsPristine(w1.tables.executions[x]) else IsMarked(w1.tables.executions[x]))
            && r2 in w2.requests && w2.requests[r2].Replied? && w2.requests[r2].answer == Accepted(x)
  {
    var w := Run(limit, EMPTY, before);
    var x, ticket := w.tables.next, Asked(w, id, payload, key);
    NewIsNotLost(limit, before);
    var front := ComesToCreate(limit, w, r1, id, token, payload, key);
    var w0 := At(w, r1, Creating(ticket));
    if ending.ServerDies? {
      SpendsByDeath(limit, w0, r1, ticket);
    } else {
      SpendsByRefusal(limit, w0, r1, ticket);
    }
    events := front + Last(r1, ending);
    RunAppend(limit, w, front, Last(r1, ending));
    RunAppend(limit, EMPTY, before, events);
    var w1 := Run(limit, w, events);
    SpentIsOutOfReach(limit, before + events, x, w.audit.lost);
    NextCanAsk(limit, w, w1, r1, r2, id, token, key, ticket);
    Idempotency.RunKeeps(limit, EMPTY, before + events);
    Idempotency.FindIs(w1.tables, id, Normalize(Some(key)), x);
    more := IsAnswered(limit, w1, r2, id, token, payload, key);
    RunAppend(limit, EMPTY, before + events, more);
  }

  // ---------------------------------------------------------------- from the beginning

  const USER := "user"
  const KEY := "k"
  const DEFINITION := Definition(Webhook, [Steps.Step("step", Steps.Transform(map[]))])

  /** A webhook workflow is created. */
  lemma {:induction false} SetupCreate(limit: nat) returns (events: seq<Event>)
    ensures var w := Run(limit, EMPTY, events);
            && w.tables.workflows == map[0 := Workflow(USER, "", Draft, DEFINITION, 1, Some(1))]
            && w.tables.executions == map[] && w.tables.jobs == map[]
            && w.requests == map[0 := Replied(None, Done)]
  {
    var create, e := Create(USER, "", Some(DEFINITION)), Step(0, Fine, true);
    events := [Arrive(0, create), e];
    RunTwo(limit, EMPTY, Arrive(0, create), e);
    var w1 := At(EMPTY, 0, Arrived(create));
    assert Tick(limit, EMPTY, Arrive(0, create)) == w1;
    assert Tick(limit, w1, e) == At(AddWorkflow(w1, USER, "", DEFINITION), 0, Replied(None, Done));
  }

  /** It is activated. */
  lemma {:induction false} SetupActivate(limit: nat, w: World) returns (events: seq<Event>)
    requires w.tables.workflows == map[0 := Workflow(USER, "", Draft, DEFINITION, 1, Some(1))]
    requires w.requests == map[0 := Replied(None, Done)]
    ensures var w' := Run(limit, w, events);
            && w'.tables == w.tables.(workflows := map[0 := Workflow(USER, "", Active, DEFINITION, 1, Some(1))])
            && w'.requests == map[0 := Replied(None, Done), 1 := Replied(None, Done)]
  {
    var activate, e := SetStatus(USER, 0, Active), Step(1, Fine, true);
    events := [Arrive(1, activate), e, e];
    RunThree(limit, w, Arrive(1, activate), e, e);
    var w1 := At(w, 1, Arrived(activate));
    assert Tick(limit, w, Arrive(1, activate)) == w1;
    var change := Change(None, None, None, Some(Active));
    assert Tick(limit, w1, e) == At(w1, 1, Writing(0, change));
  }

  lemma ReadyToAsk(limit: nat, w: World, r: nat)
    requires limit >= 1 && r >= 2
    requires w.tables.workflows == map[0 := Workflow(USER, "", Active, DEFINITION, 1, Some(1))]
    requires w.tables.executions == map[] && w.tables.jobs == map[]
    requires w.requests == map[0 := Replied(None, Done), 1 := Replied(None, Done)]
    ensures CanAsk(limit, w, r, 0, 1, KEY) && HasCapacity(w.tables)
    ensures FindByKey(w.tables, 0, Normalize(Some(KEY))).None?
  {
    assert HasToken(w.tables, 0, 1);
    assert Flying(w.requests) == {} && OpenJobs(w.tables.jobs) == {};
    KeyIsTight();
  }

  /** From nothing: create a webhook workflow, activate it, call it with a key, and let the server die after the
      insert, or the queue refuse the job. The key is spent, and the next call with it gets the execution
      that will never run. */
  lemma {:induction false} SomeKeyIsSpent(limit: nat, ending: Ending)
    returns (events: seq<Event>, more: seq<Event>, x: nat)
    requires limit >= 1
    ensures var w1, w2 := Run(limit, EMPTY, events), Run(limit, EMPTY, events + more);
            && HasKey(w1.tables, x, 0, Some(KEY)) && !InReach(w1, x)
            && 3 in w2.requests && w2.requests[3].Replied? && w2.requests[3].answer == Accepted(x)
  {
    var create := SetupCreate(limit);
    var activate := SetupActivate(limit, Run(limit, EMPTY, create));
    RunAppend(limit, EMPTY, create, activate);
    var before := create + activate;
    var w := Run(limit, EMPTY, before);
    ReadyToAsk(limit, w, 2);
    KeyIsTight();
    var spending;
    spending, more := KeyCanBeSpent(limit, before, 2, 3, 0, 1, map[], KEY, ending);
    events, x := before + spending, w.tables.next;
  }

  lemma KeyIsTight()
    ensures Normalize(Some(KEY)) == Some(KEY)
  {
    TrimKeeps("", KEY, "");
    assert "" + (KEY + "") == KEY;
  }
}

/** Webhook tokens: who has one, and exactly when an edit keeps it. */
module Tokens {
  import opened Values
  import opened Faults
  import opened Trimming
  import opened Admission
  import opened Versions

  /** Token coherence: at any time a workflow has a token exactly when its definition has a webhook trigger,
      no two workflows share one, and whoever was found by a token has a webhook trigger. */
  lemma {:induction false} TokensAreCoherent(limit: nat, events: seq<Event>)
    ensures var w := Run(limit, EMPTY, events);
            && (forall id | id in w.tables.workflows ::
                  w.tables.workflows[id].webhookToken.Some? <==> w.tables.workflows[id].definition.trigger == Webhook)
            && (forall a, b | a in w.tables.workflows && b in w.tables.workflows
                && w.tables.workflows[a].webhookToken.Some?
                  && w.tables.workflows[a].webhookToken == w.tables.workflows[b].webhookToken :: a == b)
            && (forall r | r in w.requests && w.requests[r].Limiting? ::
                w.requests[r].workflow.definition.trigger == Webhook)
  {
    RunKeeps(limit, EMPTY, events);
    var w := Run(limit, EMPTY, events);
    forall id | id in w.tables.workflows ensures Coherent(w.audit, id, w.tables.workflows[id]) {}
    forall r | r in w.requests && w.requests[r].Limiting? ensures w.requests[r].workflow.definition.trigger == Webhook {
      assert Holds(w.audit, w.requests[r]);
    }
  }

  // ---------------------------------------------------------------- what the others do to a token

  lemma ArrivedLeavesWorkflows(w: World, r: nat, call: Call, f: Fault, id: nat)
    requires Inv(w) && id in w.tables.workflows
    ensures var t' := StepArrived(w, r, call, f).tables.workflows; id in t' && t'[id] == w.tables.workflows[id]
  {
  }

  lemma WritingLeavesToken(w: World, r: nat, x: nat, c: Change, f: Fault, id: nat)
    requires id in w.tables.workflows && (x != id || c.definition.None? || !Committed(f))
    ensures var t' := StepWriting(w, r, x, c, f).tables.workflows;
            id in t' && t'[id].definition == w.tables.workflows[id].definition
            && t'[id].webhookToken == w.tables.workflows[id].webhookToken
  {
  }

  /** Only a definition write changes a workflow's definition or its token. */
  lemma TokenTick(limit: nat, w: World, e: Event, id: nat)
    requires Inv(w) && id in w.tables.workflows && !WritesDefinition(w, e, id)
    ensures var t' := Tick(limit, w, e).tables.workflows;
            id in t' && t'[id].definition == w.tables.workflows[id].definition
            && t'[id].webhookToken == w.tables.workflows[id].webhookToken
  {
    if e.Step? && e.r in w.requests {
      match w.requests[e.r]
      case Arrived(call) => ArrivedLeavesWorkflows(w, e.r, call, e.fault, id);
      case Writing(x, c) => WritingLeavesToken(w, e.r, x, c, e.fault, id);
      case Creating(_) | Enqueuing(_, _) | Marking(_, _) => ActFrame(w, e.r, e.fault, e.allowed);
      case _ => ReadFrame(w, e.r, e.fault, e.allowed);
    }
  }

  ghost predicate NoDefinitionWrite(limit: nat, w: World, events: seq<Event>, id: nat)
    decreases |events|
  {
    events == [] ||
    (NoDefinitionWrite(limit, w, events[..|events| - 1], id)
     && !WritesDefinition(Run(limit, w, events[..|events| - 1]), events[|events| - 1], id))
  }

  lemma {:induction false} TokenRun(limit: nat, w: World, events: seq<Event>, id: nat)
    requires Inv(w) && id in w.tables.workflows && NoDefinitionWrite(limit, w, events, id)
    ensures var t' := Run(limit, w, events).tables.workflows;
            id in t' && t'[id].definition == w.tables.workflows[id].definition
            && t'[id].webhookToken == w.tables.workflows[id].webhookToken
    decreases |events|
  {
    if events != [] {
      var n := |events| - 1;
      TokenRun(limit, w, events[..n], id);
      RunKeeps(limit, w, events[..n]);
      TokenTick(limit, Run(limit, w, events[..n]), events[n], id);
    }
  }

  // ---------------------------------------------------------------- a drawn token

  ghost predicate Carries(q: Request, token: nat) {
    q.Writing? && q.change.definition.Some? && q.change.token == Some(token)
  }

  /** The token is stored nowhere, and nobody but request `r` may be about to store it. */
  ghost predicate Unshared(w: World, r: nat, token: nat) {
    && token < w.tables.next
    && (forall id | id in w.tables.workflows :: w.tables.workflows[id].webhookToken != Some(token))
    && (forall q | q in w.requests && q != r :: !Carries(w.requests[q], token))
  }

  lemma ReadCarriesNot(t: Tables, userId: string, id: nat, newName: Option<string>, d: Option<Option<Definition>>,
                       token: nat)
    requires token < t.next && forall i | i in t.workflows :: t.workflows[i].webhookToken != Some(token)
    ensures !Carries(ReadForUpdate(t, userId, id, newName, d), token)
  {
  }

  lemma UnsharedArrived(w: World, r: nat, q: nat, call: Call, f: Fault, token: nat)
    requires Unshared(w, r, token) && q != r
    ensures Unshared(StepArrived(w, q, call, f), r, token)
  {
    if call.Update? {
      ReadCarriesNot(w.tables, call.userId, call.workflowId, call.newName, call.newDefinition, token);
    }
  }

  lemma UnsharedWriting(w: World, r: nat, q: nat, f: Fault, token: nat)
    requires Unshared(w, r, token) && q != r && q in w.requests && w.requests[q].Writing?
    ensures Unshared(StepWriting(w, q, w.requests[q].workflowId, w.requests[q].change, f), r, token)
  {
    assert !Carries(w.requests[q], token);
  }

  lemma TicketNeverWrites(w: World, q: nat, f: Fault, allowed: bool)
    requires q in w.requests && CarriesTicket(w.requests[q])
    ensures !StepRequest(w, q, f, allowed).requests[q].Writing?
  {
  }

  lemma UnsharedTick(limit: nat, w: World, r: nat, e: Event, token: nat)
    requires Unshared(w, r, token) && !(e.Step? && e.r == r)
    ensures Unshared(Tick(limit, w, e), r, token)
  {
    if e.Step? && e.r in w.requests {
      match w.requests[e.r]
      case Arrived(call) => UnsharedArrived(w, r, e.r, call, e.fault, token);
      case Writing(_, _) => UnsharedWriting(w, r, e.r, e.fault, token);
      case Creating(_) | Enqueuing(_, _) | Marking(_, _) =>
        ActFrame(w, e.r, e.fault, e.allowed);
        TicketNeverWrites(w, e.r, e.fault, e.allowed);
      case _ =>
        ReadFrame(w, e.r, e.fault, e.allowed);
        TicketNeverWrites(w, e.r, e.fault, e.allowed);
    }
  }

  lemma {:induction false} UnsharedRun(limit: nat, w: World, r: nat, events: seq<Event>, token: nat)
    requires Unshared(w, r, token) && NoStepOf(r, events)
    ensures Unshared(Run(limit, w, events), r, token)
    decreases |events|
  {
    if events != [] {
      var n := |events| - 1;
      UnsharedRun(limit, w, r, events[..n], token);
      UnsharedTick(limit, Run(limit, w, events[..n]), r, events[n], token);
    }
  }

  // ---------------------------------------------------------------- when an edit keeps the token

  /** What an edit of a webhook, or into one, carries to its write: the token it read, or a fresh one. */
  lemma EditCarries(w: World, r: nat, userId: string, id: nat, newName: Option<string>, d: Definition)
    requires Inv(w) && id in w.tables.workflows && w.tables.workflows[id].userId == userId
    requires d.trigger == Webhook && d != w.tables.workflows[id].definition
    ensures var read := w.tables.workflows[id].webhookToken;
            var w1 := StepArrived(w, r, Update(userId, id, newName, Some(Some(d))), Fine);
            && w1.requests[r].Writing? && w1.requests[r].workflowId == id
            && w1.requests[r].change.definition == Some(d)
            && w1.requests[r].change.token == (if read.Some? then read else Some(w.tables.next))
            && w1.tables.workflows == w.tables.workflows
            && w1.tables.next == w.tables.next + (if read.Some? then 0 else 1)
  {
  }

  lemma FreshIsUnshared(w: World, w1: World, r: nat)
    requires Inv(w) && Only(w, r, w1) && w1.tables.workflows == w.tables.workflows
             && w1.tables.next == w.tables.next + 1
    ensures Unshared(w1, r, w.tables.next)
  {
    forall id | id in w.tables.workflows ensures w.tables.workflows[id].webhookToken != Some(w.tables.next) {
      assert Coherent(w.audit, id, w.tables.workflows[id]);
    }
    forall q | q in w.requests ensures !Carries(w.requests[q], w.tables.next) {
      assert Holds(w.audit, w.requests[q]);
    }
  }

  lemma WriteCarries(limit: nat, w: World, r: nat, id: nat, f: Fault)
    requires r in w.requests && id in w.tables.workflows && Committed(f)
    requires var q := w.requests[r]; q.Writing? && q.workflowId == id && q.change.definition.Some?
    ensures var t' := Tick(limit, w, Step(r, f, true)).tables.workflows;
            id in t' && t'[id].webhookToken == w.requests[r].change.token
  {
  }

  /** Exactly when an edit keeps a webhook's token. Take an edit that stores a new webhook definition, with
      anything at all by others between its read and its write. Its write keeps the token it finds stored
      if and only if that is the token it read; so an edit that read a manual workflow, and drew a token,
      always replaces one that was stored meanwhile. */
  lemma {:induction false} EditKeepsTokenIff(limit: nat, w: World, r: nat, userId: string, id: nat,
                                             newName: Option<string>, d: Definition, between: seq<Event>, f: Fault)
    requires Inv(w) && r in w.requests && w.requests[r] == Arrived(Update(userId, id, newName, Some(Some(d))))
    requires id in w.tables.workflows && w.tables.workflows[id].userId == userId
    requires d.trigger == Webhook && d != w.tables.workflows[id].definition
    requires NoStepOf(r, between) && Committed(f)
    ensures var read := w.tables.workflows[id].webhookToken;
            var w2 := Run(limit, Tick(limit, w, Step(r, Fine, true)), between);
            var w3 := Tick(limit, w2, Step(r, f, true));
            && id in w2.tables.workflows && id in w3.tables.workflows
            && var stored, left := w2.tables.workflows[id].webhookToken, w3.tables.workflows[id].webhookToken;
            && left.Some?
            && (left == stored <==> read.Some? && stored == read)
  {
    EditCarries(w, r, userId, id, newName, d);
    var w1 := Tick(limit, w, Step(r, Fine, true));
    TickKeeps(limit, w, Step(r, Fine, true));
    OthersLeaveIt(limit, w1, r, between);
    RunKeeps(limit, w1, between);
    var w2 := Run(limit, w1, between);
    assert id in w2.audit.history;
    WriteCarries(limit, w2, r, id, f);
    if w.tables.workflows[id].webhookToken.None? {
      FreshIsUnshared(w, w1, r);
      UnsharedRun(limit, w1, r, between, w.tables.next);
    }
  }

  /** What an edit of a webhook brings to its write, if it gets there. */
  ghost predicate BringsToken(q: Request, id: nat, token: Option<nat>) {
    || q.Replied?
    || q.Gone?
    || (q.Writing? && q.workflowId == id
        && (q.change.definition.Some? && q.change.definition.value.trigger == Webhook ==> q.change.token == token))
  }

  lemma EditReads(w: World, r: nat, userId: string, id: nat, newName: Option<string>, d: Option<Option<Definition>>,
                  f: Fault)
    requires Inv(w) && id in w.tables.workflows && w.tables.workflows[id].definition.trigger == Webhook
    ensures var w1 := StepArrived(w, r, Update(userId, id, newName, d), f);
            && w1.tables.workflows == w.tables.workflows
            && BringsToken(w1.requests[r], id, w.tables.workflows[id].webhookToken)
  {
    assert Coherent(w.audit, id, w.tables.workflows[id]);
  }

  lemma EditWrites(limit: nat, w: World, r: nat, id: nat, f: Fault, token: Option<nat>)
    requires r in w.requests && id in w.tables.workflows && w.tables.workflows[id].webhookToken == token
    requires BringsToken(w.requests[r], id, token)
    ensures var t' := Tick(limit, w, Step(r, f, true)).tables.workflows;
            id in t' && (t'[id].definition.trigger == Webhook ==> t'[id].webhookToken == token)
  {
  }

  /** The token of a webhook survives every edit, whatever fails in it and whatever others do, as long as
      nobody else writes a definition of that workflow between its read and its write. */
  lemma {:induction false} TokenSurvivesEdit(limit: nat, w: World, r: nat, userId: string, id: nat,
                                             newName: Option<string>, d: Option<Option<Definition>>,
                                             f: Fault, between: seq<Event>, g: Fault)
    requires Inv(w) && r in w.requests && w.requests[r] == Arrived(Update(userId, id, newName, d))
    requires id in w.tables.workflows && w.tables.workflows[id].definition.trigger == Webhook
    requires NoStepOf(r, between)
    requires NoDefinitionWrite(limit, Tick(limit, w, Step(r, f, true)), between, id)
    ensures var w3 := Tick(limit, Run(limit, Tick(limit, w, Step(r, f, true)), between), Step(r, g, true));
            && id in w3.tables.workflows
            && (w3.tables.workflows[id].definition.trigger == Webhook ==>
                  w3.tables.workflows[id].webhookToken == w.tables.workflows[id].webhookToken)
  {
    EditReads(w, r, userId, id, newName, d, f);
    var w1 := Tick(limit, w, Step(r, f, true));
    TickKeeps(limit, w, Step(r, f, true));
    OthersLeaveIt(limit, w1, r, between);
    TokenRun(limit, w1, between, id);
    EditWrites(limit, Run(limit, w1, between), r, id, g, w.tables.workflows[id].webhookToken);
  }

  /** The read of an edit that makes a manual workflow a webhook draws a token. */
  lemma ReadDraws(w: World, r: nat, userId: string, id: nat, d: Definition)
    requires id in w.tables.workflows && w.tables.workflows[id].userId == userId
    requires w.tables.workflows[id].definition.trigger == Manual && w.tables.workflows[id].webhookToken == None
    requires d.trigger == Webhook
    ensures StepArrived(w, r, Update(userId, id, None, Some(Some(d))), Fine) ==
            At(Drawn(w, id), r, Writing(id, Change(None, Some(d), Some(w.tables.next), None)))
  {
    var stored := w.tables.workflows[id];
    assert stored.definition != d;
    assert TokenFor(stored, d, w.tables.next) == Some(w.tables.next);
  }

  lemma WriteStores(w: World, r: nat, id: nat, c: Change)
    requires id in w.tables.workflows && c.definition.Some?
    ensures var w' := StepWriting(w, r, id, c, Fine);
            && id in w'.tables.workflows && w'.tables.workflows[id].webhookToken == c.token
            && w'.requests == w.requests[r := Replied(None, Done)]
  {
  }

  /** Edits that read before either wrote do not keep it: when two of them turn a manual workflow into two
      different webhooks, the second write replaces the token the first one stored. */
  lemma {:induction false} StaleEditsReplaceToken(limit: nat, w: World, r1: nat, r2: nat, userId: string, id: nat,
                                                  d1: Definition, d2: Definition) returns (first: World, second: World)
    requires Inv(w) && r1 in w.requests && r2 in w.requests && r1 != r2
    requires w.requests[r1] == Arrived(Update(userId, id, None, Some(Some(d1))))
    requires w.requests[r2] == Arrived(Update(userId, id, None, Some(Some(d2))))
    requires id in w.tables.workflows && w.tables.workflows[id].userId == userId
    requires w.tables.workflows[id].definition.trigger == Manual && d1.trigger == Webhook && d2.trigger == Webhook
    ensures first == Run(limit, w, [Step(r1, Fine, true), Step(r2, Fine, true), Step(r1, Fine, true)])
    ensures second == Tick(limit, first, Step(r2, Fine, true))
    ensures id in first.tables.workflows && id in second.tables.workflows
    ensures first.tables.workflows[id].webhookToken.Some? && second.tables.workflows[id].webhookToken.Some?
    ensures first.tables.workflows[id].webhookToken != second.tables.workflows[id].webhookToken
  {
    var e1, e2 := Step(r1, Fine, true), Step(r2, Fine, true);
    var stored, t := w.tables.workflows[id], w.tables.next;
    assert Coherent(w.audit, id, stored) && stored.webhookToken == None;
    var c1, c2 := Change(None, Some(d1), Some(t), None), Change(None, Some(d2), Some(t + 1), None);
    ReadDraws(w, r1, userId, id, d1);
    var w1 := At(Drawn(w, id), r1, Writing(id, c1));
    assert Tick(limit, w, e1) == w1;
    ReadDraws(w1, r2, userId, id, d2);
    var w2 := At(Drawn(w1, id), r2, Writing(id, c2));
    assert Tick(limit, w1, e2) == w2;
    WriteStores(w2, r1, id, c1);
    first := StepWriting(w2, r1, id, c1, Fine);
    assert Tick(limit, w2, e1) == first;
    WriteStores(first, r2, id, c2);
    second := StepWriting(first, r2, id, c2, Fine);
    RunThree(limit, w, e1, e2, e1);
  }
}

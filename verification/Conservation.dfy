/** Where every execution is: queued, marked as not queued, in a request's hands, or stranded. */
module Conservation {
  import opened Values
  import opened Faults
  import opened Admission

  /** Executions made; those with a job; those a request is about to queue or mark; those marked as not
      queued; those whose request stopped; those whose queueing threw although the job was added. */
  datatype Ledger = Ledger(created: set<nat>, queued: set<nat>, held: set<nat>, marked: set<nat>,
                           stranded: set<nat>, lost: set<nat>)

  predicate Holds(q: Request) { q.Enqueuing? || q.Marking? }

  function Held(requests: map<nat, Request>): set<nat> {
    set r | r in requests && Holds(requests[r]) :: requests[r].id
  }

  function WithJob(jobs: map<nat, Job>): set<nat> {
    set j | j in jobs :: jobs[j].executionId
  }

  function Books(w: World): Ledger {
    Ledger(w.tables.executions.Keys, WithJob(w.tables.jobs), Held(w.requests), w.audit.marked, w.audit.stranded,
           w.audit.lost)
  }

  /** Every execution is in exactly one place. */
  predicate Balanced(l: Ledger) {
    && l.lost <= l.queued <= l.created
    && l.created == (l.queued - l.lost) + l.marked + l.held + l.stranded
    && (l.queued - l.lost) !! l.marked !! l.held !! l.stranded
  }

  /** Each execution has at most one job. */
  ghost predicate OneJobEach(t: Tables) {
    && (forall j | j in t.jobs :: j < t.next)
    && (forall i, j | i in t.jobs && j in t.jobs && t.jobs[i].executionId == t.jobs[j].executionId :: i == j)
  }

  ghost predicate OneHolderEach(requests: map<nat, Request>) {
    forall r, s | r in requests && s in requests && Holds(requests[r]) && Holds(requests[s])
                  && requests[r].id == requests[s].id :: r == s
  }

  predicate NotYetQueued(q: Request, queued: set<nat>) {
    q.Enqueuing? ==> q.id !in queued
  }

  predicate IsMarked(e: Execution) { e.status == Failed && e.error == Some(ENQUEUE_ERROR) }

  ghost predicate Marks(executions: map<nat, Execution>, clean: set<nat>) {
    forall id | id in clean :: id in executions && IsMarked(executions[id])
  }

  ghost predicate Inv(w: World) {
    && Balanced(Books(w))
    && (forall id | id in w.tables.executions :: id < w.tables.next)
    && OneJobEach(w.tables)
    && OneHolderEach(w.requests)
    && (forall r | r in w.requests :: NotYetQueued(w.requests[r], WithJob(w.tables.jobs)))
    && Marks(w.tables.executions, w.audit.marked - w.audit.lost)
  }

  // ---------------------------------------------------------------- one request

  /** What a request held it lets go of, and what it now holds nobody else does. */
  lemma PutRequest(requests: map<nat, Request>, r: nat, q: Request)
    requires OneHolderEach(requests)
    requires Holds(q) ==> q.id !in Held(requests) || (r in requests && Holds(requests[r]) && requests[r].id == q.id)
    ensures OneHolderEach(requests[r := q])
    ensures Held(requests[r := q]) ==
            Held(requests) - (if r in requests && Holds(requests[r]) then {requests[r].id} else {})
            + (if Holds(q) then {q.id} else {})
  {
    var requests' := requests[r := q];
    forall s | s in requests && Holds(requests[s]) ensures requests[s].id in Held(requests) {}
    var kept := Held(requests) - (if r in requests && Holds(requests[r]) then {requests[r].id} else {});
    forall id | id in kept ensures id in Held(requests') {
      var s :| s in requests && Holds(requests[s]) && requests[s].id == id;
      assert s in requests' && requests'[s] == requests[s];
    }
    if Holds(q) {
      assert requests'[r].id in Held(requests');
    }
  }

  lemma PutJob(t: Tables, id: nat)
    requires OneJobEach(t) && id !in WithJob(t.jobs)
    ensures var t' := t.(jobs := t.jobs[t.next := Job(id, Waiting)], next := t.next + 1);
            OneJobEach(t') && WithJob(t'.jobs) == WithJob(t.jobs) + {id}
  {
    var jobs' := t.jobs[t.next := Job(id, Waiting)];
    forall j | j in t.jobs ensures t.jobs[j].executionId in WithJob(t.jobs) && j in jobs' && jobs'[j] == t.jobs[j] {}
    assert jobs'[t.next].executionId in WithJob(jobs');
    forall e | e in WithJob(t.jobs) ensures e in WithJob(jobs') {
      var j :| j in t.jobs && t.jobs[j].executionId == e;
      assert j in jobs';
    }
  }

  /** Steps that touch neither executions nor jobs nor the observers here, and pick up nothing. */
  ghost predicate Quiet(w: World, r: nat, w': World) {
    && w'.tables.executions == w.tables.executions && w'.tables.jobs == w.tables.jobs
    && w.tables.next <= w'.tables.next && Only(w, r, w') && !Holds(w'.requests[r])
    && w'.audit.marked == w.audit.marked && w'.audit.stranded == w.audit.stranded && w'.audit.lost == w.audit.lost
  }

  lemma QuietArrived(w: World, r: nat, call: Call, f: Fault)
    ensures Quiet(w, r, StepArrived(w, r, call, f))
  {
  }

  lemma QuietWriting(w: World, r: nat, id: nat, c: Change, f: Fault)
    ensures Quiet(w, r, StepWriting(w, r, id, c, f))
  {
  }

  lemma QuietRead(w: World, r: nat, f: Fault, allowed: bool)
    requires r in w.requests
    requires var q := w.requests[r];
             q.Limiting? || q.LookingUp? || q.Checking? || q.FallingBack? || q.Replied? || q.Gone?
    ensures Quiet(w, r, StepRequest(w, r, f, allowed))
  {
  }

  lemma QuietStep(w: World, r: nat, f: Fault, allowed: bool)
    requires r in w.requests && !Holds(w.requests[r]) && !w.requests[r].Creating?
    ensures Quiet(w, r, StepRequest(w, r, f, allowed))
  {
    match w.requests[r]
    case Arrived(call) => QuietArrived(w, r, call, f);
    case Writing(id, change) => QuietWriting(w, r, id, change, f);
    case _ => QuietRead(w, r, f, allowed);
  }

  lemma QuietKeeps(w: World, r: nat, f: Fault, allowed: bool)
    requires Inv(w) && r in w.requests && !Holds(w.requests[r]) && !w.requests[r].Creating?
    ensures Inv(StepRequest(w, r, f, allowed)) && Books(StepRequest(w, r, f, allowed)) == Books(w)
  {
    var w' := StepRequest(w, r, f, allowed);
    QuietStep(w, r, f, allowed);
    PutRequest(w.requests, r, w'.requests[r]);
  }

  /** An insert that takes effect makes one execution: its request holds it, or it is stranded. */
  lemma CreatingMakes(w: World, r: nat, ticket: Ticket, f: Fault)
    requires r in w.requests && w.requests[r] == Creating(ticket)
    ensures var w', id := StepCreating(w, r, ticket, f), w.tables.next;
            && w'.tables.jobs == w.tables.jobs && w.tables.next <= w'.tables.next
            && w'.audit.marked == w.audit.marked && w'.audit.lost == w.audit.lost
            && ((w'.tables.executions == w.tables.executions && w'.audit.stranded == w.audit.stranded
                 && !Holds(w'.requests[r]))
                || (w'.tables.executions == w.tables.executions[id := NewExecution(ticket)] && w'.tables.next == id + 1
                    && if f.Fine? then w'.requests[r] == Enqueuing(ticket, id) && w'.audit.stranded == w.audit.stranded
                       else !Holds(w'.requests[r]) && w'.audit.stranded == w.audit.stranded + {id}))
  {
  }

  lemma {:induction false} CreatingKeeps(w: World, r: nat, ticket: Ticket, f: Fault)
    requires Inv(w) && r in w.requests && w.requests[r] == Creating(ticket)
    ensures Inv(StepCreating(w, r, ticket, f))
  {
    var w' := StepCreating(w, r, ticket, f);
    var id := w.tables.next;
    var l := Books(w);
    assert id !in l.created && id !in l.queued;
    CreatingMakes(w, r, ticket, f);
    PutRequest(w.requests, r, w'.requests[r]);
    if w'.tables.executions != w.tables.executions {
      if f.Fine? {
        assert Books(w') == l.(created := l.created + {id}, held := l.held + {id});
      } else {
        assert Books(w') == l.(created := l.created + {id}, stranded := l.stranded + {id});
      }
    }
  }

  /** The queue takes the execution over, refuses it, or does one and answers the other. */
  lemma {:induction false} EnqueuingKeeps(w: World, r: nat, ticket: Ticket, id: nat, f: Fault)
    requires Inv(w) && r in w.requests && w.requests[r] == Enqueuing(ticket, id)
    ensures Inv(StepEnqueuing(w, r, ticket, id, f))
  {
    var w' := StepEnqueuing(w, r, ticket, id, f);
    var l, l' := Books(w), Books(w');
    HeldHas(w.requests, r);
    assert id in l.held && id !in l.queued;
    PutRequest(w.requests, r, w'.requests[r]);
    PutJob(w.tables, id);
    OthersHoldOthers(w.requests, r);
    match f
    case Fine => assert l' == l.(queued := l.queued + {id}, held := l.held - {id});
    case Refused => assert l' == l;
    case Lost => assert l' == l.(queued := l.queued + {id}, lost := l.lost + {id});
    case DiesBefore => assert l' == l.(held := l.held - {id}, stranded := l.stranded + {id});
    case DiesAfter => assert l' == l.(queued := l.queued + {id}, held := l.held - {id});
  }

  lemma HeldHas(requests: map<nat, Request>, r: nat)
    requires r in requests && Holds(requests[r])
    ensures requests[r].id in Held(requests)
  {
  }

  lemma OthersHoldOthers(requests: map<nat, Request>, r: nat)
    requires OneHolderEach(requests) && r in requests && Holds(requests[r])
    ensures forall s | s in requests && s != r && requests[s].Enqueuing? :: requests[s].id != requests[r].id
  {
  }

  lemma {:induction false} MarkingKeeps(w: World, r: nat, ticket: Ticket, id: nat, f: Fault)
    requires Inv(w) && r in w.requests && w.requests[r] == Marking(ticket, id)
    ensures Inv(StepMarking(w, r, ticket, id, f))
  {
    var w' := StepMarking(w, r, ticket, id, f);
    var l, l' := Books(w), Books(w');
    HeldHas(w.requests, r);
    PutRequest(w.requests, r, w'.requests[r]);
    if Committed(f) {
      assert l' == l.(held := l.held - {id}, marked := l.marked + {id});
    } else {
      assert l' == l.(held := l.held - {id}, stranded := l.stranded + {id});
    }
  }

  lemma {:induction false} RequestKeeps(w: World, r: nat, f: Fault, allowed: bool)
    requires Inv(w) && r in w.requests
    ensures Inv(StepRequest(w, r, f, allowed))
  {
    var q := w.requests[r];
    if q.Creating? {
      CreatingKeeps(w, r, q.ticket, f);
    } else if q.Enqueuing? {
      EnqueuingKeeps(w, r, q.ticket, q.id, f);
    } else if q.Marking? {
      MarkingKeeps(w, r, q.ticket, q.id, f);
    } else {
      QuietKeeps(w, r, f, allowed);
    }
  }

  // ---------------------------------------------------------------- the queue and its workers

  lemma {:induction false} MoveKeeps(w: World, j: nat, to: JobState)
    requires Inv(w)
    ensures Inv(StepMove(w, j, to)) && Books(StepMove(w, j, to)) == Books(w)
  {
    var w' := StepMove(w, j, to);
    forall e ensures e in WithJob(w'.tables.jobs) <==> e in WithJob(w.tables.jobs) {
      if i :| i in w.tables.jobs && w.tables.jobs[i].executionId == e {
        assert i in w'.tables.jobs && w'.tables.jobs[i].executionId == e;
      }
      if i :| i in w'.tables.jobs && w'.tables.jobs[i].executionId == e {
        assert i in w.tables.jobs && w.tables.jobs[i].executionId == e;
      }
    }
  }

  /** A worker only writes to executions that have a job. */
  lemma {:induction false} WorkKeeps(w: World, j: nat, status: RunStatus, error: Option<string>)
    requires Inv(w)
    ensures Inv(StepWork(w, j, status, error)) && Books(StepWork(w, j, status, error)) == Books(w)
  {
    if j in w.tables.jobs {
      var l := Books(w);
      assert w.tables.jobs[j].executionId in l.queued;
      assert w.tables.jobs[j].executionId !in l.marked - l.lost;
    }
  }

  /** Marks are kept, and what is marked cleanly can no longer be lost. */
  ghost predicate Settled(w: World, w': World) {
    && w.audit.marked <= w'.audit.marked
    && (w.audit.marked - w.audit.lost) !! w'.audit.lost
  }

  lemma {:induction false} RequestSettles(w: World, r: nat, f: Fault, allowed: bool)
    requires Inv(w) && r in w.requests
    ensures Settled(w, StepRequest(w, r, f, allowed))
  {
    match w.requests[r]
    case Creating(ticket) =>
    case Enqueuing(ticket, id) => HeldHas(w.requests, r);
      assert id !in Books(w).marked;
    case Marking(ticket, id) =>
    case _ => QuietStep(w, r, f, allowed);
  }

  lemma {:induction false} TickKeeps(limit: nat, w: World, e: Event)
    requires Inv(w)
    ensures Inv(Tick(limit, w, e)) && Settled(w, Tick(limit, w, e))
  {
    match e
    case Arrive(r, call) => if r !in w.requests { PutRequest(w.requests, r, Arrived(call)); }
    case Step(r, f, allowed) =>
      if r in w.requests {
        RequestKeeps(w, r, f, allowed);
        RequestSettles(w, r, f, allowed);
      }
    case MoveJob(j, to) => MoveKeeps(w, j, to);
    case Work(j, status, error) => WorkKeeps(w, j, status, error);
  }

  lemma {:induction false} RunKeeps(limit: nat, w: World, events: seq<Event>)
    requires Inv(w)
    ensures Inv(Run(limit, w, events)) && Settled(w, Run(limit, w, events))
    decreases |events|
  {
    if events != [] {
      var n := |events| - 1;
      RunKeeps(limit, w, events[..n]);
      TickKeeps(limit, Run(limit, w, events[..n]), events[n]);
    }
  }

  lemma StartIsBalanced()
    ensures Inv(EMPTY)
  {
    assert Held(map[]) == {} && WithJob(map[]) == {};
  }

  // ---------------------------------------------------------------- what follows for every run

  lemma QueuedButOne(jobs: map<nat, Job>, j: nat)
    requires j in jobs
    requires forall i | i in jobs && jobs[i].executionId == jobs[j].executionId :: i == j
    ensures WithJob(jobs - {j}) == WithJob(jobs) - {jobs[j].executionId} && jobs[j].executionId in WithJob(jobs)
  {
    var rest := jobs - {j};
    forall e | e in WithJob(jobs) && e != jobs[j].executionId ensures e in WithJob(rest) {
      var i :| i in jobs && jobs[i].executionId == e;
      assert i in rest;
    }
  }

  lemma {:induction false} AsManyAsJobs(jobs: map<nat, Job>)
    requires forall i, j | i in jobs && j in jobs && jobs[i].executionId == jobs[j].executionId :: i == j
    ensures |WithJob(jobs)| == |jobs|
    decreases |jobs|
  {
    if j :| j in jobs {
      QueuedButOne(jobs, j);
      AsManyAsJobs(jobs - {j});
    } else {
      assert WithJob(jobs) == {};
    }
  }

  lemma Sizes(l: Ledger)
    requires Balanced(l)
    ensures |l.created| + |l.lost| == |l.queued| + |l.marked| + |l.held| + |l.stranded|
  {
    assert l.queued == (l.queued - l.lost) + l.lost;
  }

  ghost predicate Conserved(w: World) {
    && (forall j | j in w.tables.jobs :: w.tables.jobs[j].executionId in w.tables.executions)
    && |w.tables.executions| + |w.audit.lost| ==
       |w.tables.jobs| + |w.audit.marked| + |Held(w.requests)| + |w.audit.stranded|
  }

  lemma BalancedIsConserved(w: World)
    requires Balanced(Books(w)) && OneJobEach(w.tables)
    ensures Conserved(w)
  {
    AsManyAsJobs(w.tables.jobs);
    Sizes(Books(w));
    assert |w.tables.executions| == |w.tables.executions.Keys|;
    forall j | j in w.tables.jobs ensures w.tables.jobs[j].executionId in w.tables.executions {
      assert w.tables.jobs[j].executionId in WithJob(w.tables.jobs);
    }
  }

  /** Enqueue conservation, over every interleaving and every fault: each execution has at most one job, each
      job's execution exists, and executions made and adds that threw after the fact balance jobs ever
      added, executions marked as not queued, those in a request's hands and those stranded. */
  lemma {:induction false} ExecutionsAreConserved(limit: nat, events: seq<Event>)
    ensures Conserved(Run(limit, EMPTY, events)) && OneJobEach(Run(limit, EMPTY, events).tables)
  {
    StartIsBalanced();
    RunKeeps(limit, EMPTY, events);
    BalancedIsConserved(Run(limit, EMPTY, events));
  }

  /** Where no add throws after the fact, every execution is in exactly one of the four places. */
  lemma {:induction false} EveryExecutionIsSomewhere(limit: nat, events: seq<Event>)
    requires Run(limit, EMPTY, events).audit.lost == {}
    ensures var w := Run(limit, EMPTY, events);
            var queued, held := WithJob(w.tables.jobs), Held(w.requests);
            && w.tables.executions.Keys == queued + w.audit.marked + held + w.audit.stranded
            && queued !! w.audit.marked !! held !! w.audit.stranded
  {
    var w := Run(limit, EMPTY, events);
    StartIsBalanced();
    RunKeeps(limit, EMPTY, events);
    assert WithJob(w.tables.jobs) - w.audit.lost == WithJob(w.tables.jobs);
  }

  /** An execution marked as not queued, whose add did not take effect after all, stays FAILED with that
      error and never gets a job, whatever happens later. */
  lemma {:induction false} MarkedForGood(limit: nat, events: seq<Event>, later: seq<Event>, id: nat)
    requires var w := Run(limit, EMPTY, events); id in w.audit.marked && id !in w.audit.lost
    ensures var w := Run(limit, EMPTY, events + later);
            && id in w.tables.executions && IsMarked(w.tables.executions[id])
            && forall j | j in w.tables.jobs :: w.tables.jobs[j].executionId != id
  {
    var w := Run(limit, EMPTY, events);
    var w' := Run(limit, w, later);
    StartIsBalanced();
    RunKeeps(limit, EMPTY, events);
    RunKeeps(limit, w, later);
    RunAppend(limit, EMPTY, events, later);
    assert id in w'.audit.marked - w'.audit.lost;
    assert id !in Books(w').queued;
    forall j | j in w'.tables.jobs ensures w'.tables.jobs[j].executionId != id {
      assert w'.tables.jobs[j].executionId in WithJob(w'.tables.jobs);
    }
  }

  /** A marked execution has a job after all if and only if its add threw after the fact. */
  lemma {:induction false} MarkedHasJobIff(limit: nat, events: seq<Event>, id: nat)
    requires id in Run(limit, EMPTY, events).audit.marked
    ensures var w := Run(limit, EMPTY, events);
            id in WithJob(w.tables.jobs) <==> id in w.audit.lost
  {
    StartIsBalanced();
    RunKeeps(limit, EMPTY, events);
    assert Balanced(Books(Run(limit, EMPTY, events)));
  }
}

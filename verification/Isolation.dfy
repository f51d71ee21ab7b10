/** Many workers on one database: executions do not disturb each other. */
module Isolation {
  import opened Values
  import opened Steps
  import opened Faults
  import opened Machine
  import opened Invariant
  import opened Resume

  /** What belongs to one execution. */
  ghost predicate SameView(id: string, a: Database, b: Database) {
    && (id in a.executions <==> id in b.executions)
    && (id in a.executions ==> a.executions[id] == b.executions[id])
    && (forall sid: string :: (id, sid) in a.rows <==> (id, sid) in b.rows)
    && (forall sid: string :: (id, sid) in a.rows ==> a.rows[(id, sid)] == b.rows[(id, sid)])
  }

  ghost predicate SameWorld(p: Plan, a: System, b: System) {
    a.worker == b.worker && SameView(p.executionId, a.db, b.db)
  }

  lemma KeysAreOwn(p: Plan, from: nat)
    ensures forall key | key in Keys(p, from) :: key.0 == p.executionId
  {
  }

  // ---------------------------------------------------------------- a step touches its own records only

  ghost predicate Frame(id: string, a: Database, b: Database) {
    && (forall other | other != id :: other in a.executions <==> other in b.executions)
    && (forall other | other != id && other in a.executions :: a.executions[other] == b.executions[other])
    && (forall key: Key | key.0 != id :: key in a.rows <==> key in b.rows)
    && (forall key: Key | key.0 != id && key in a.rows :: a.rows[key] == b.rows[key])
  }

  /** One step on two databases that agree on the execution: the results agree, and each leaves the
      other executions of its own database alone. */
  ghost predicate Local(p: Plan, a: System, b: System, a': System, b': System) {
    SameWorld(p, a', b') && Frame(p.executionId, a.db, a'.db)
  }

  lemma {:induction false} FrontierLocal(p: Plan, a: Database, b: Database, from: nat)
    requires SameView(p.executionId, a, b) && from <= p.Size()
    ensures Frontier(p, a.rows, from) == Frontier(p, b.rows, from)
    decreases p.Size() - from
  {
    if from < p.Size() {
      FrontierLocal(p, a, b, from + 1);
    }
  }

  lemma StopLocal(p: Plan, a: Database, b: Database, k: nat)
    requires SameView(p.executionId, a, b) && k <= p.Size()
    ensures StopRecorded(p, a.rows, k) <==> StopRecorded(p, b.rows, k)
  {
    forall i | 0 <= i < k ensures StopsAt(p, a.rows, i) <==> StopsAt(p, b.rows, i) {
      assert p.KeyOf(i) == (p.executionId, p.steps[i].id);
    }
  }

  lemma LocalLoading(p: Plan, a: System, b: System, f: Fault)
    requires SameWorld(p, a, b)
    ensures Local(p, a, b, StepLoading(p, a, f), StepLoading(p, b, f))
  {
  }

  lemma LocalFinishing(p: Plan, a: System, b: System, f: Fault)
    requires SameWorld(p, a, b)
    ensures Local(p, a, b, StepFinishing(p, a, f), StepFinishing(p, b, f))
  {
  }

  lemma LocalReporting(p: Plan, a: System, b: System, f: Fault, message: string)
    requires SameWorld(p, a, b)
    ensures Local(p, a, b, StepReporting(p, a, f, message), StepReporting(p, b, f, message))
  {
  }

  lemma LocalStarting(p: Plan, a: System, b: System, f: Fault)
    requires SameWorld(p, a, b)
    ensures Local(p, a, b, StepStarting(p, a, f), StepStarting(p, b, f))
  {
    FrontierLocal(p, a.db, b.db, 0);
    StopLocal(p, a.db, b.db, Frontier(p, a.db.rows));
  }

  lemma LocalSeeding(p: Plan, a: System, b: System, f: Fault)
    requires SameWorld(p, a, b)
    ensures Local(p, a, b, StepSeeding(p, a, f), StepSeeding(p, b, f))
  {
    KeysAreOwn(p, 0);
  }

  lemma LocalSkipping(p: Plan, a: System, b: System, f: Fault, i: nat)
    requires SameWorld(p, a, b)
    ensures Local(p, a, b, StepSkipping(p, a, f, i), StepSkipping(p, b, f, i))
  {
    KeysAreOwn(p, i + 1);
  }

  lemma LocalLooking(p: Plan, a: System, b: System, f: Fault, i: nat, data: WorkflowData)
    requires SameWorld(p, a, b) && i < p.Size()
    ensures Local(p, a, b, StepLooking(p, a, f, i, data), StepLooking(p, b, f, i, data))
  {
    assert p.KeyOf(i) == (p.executionId, p.steps[i].id);
  }

  lemma LocalMarking(p: Plan, a: System, b: System, f: Fault, i: nat, data: WorkflowData, first: bool)
    requires SameWorld(p, a, b) && i < p.Size()
    ensures Local(p, a, b, StepMarking(p, a, f, i, data, first), StepMarking(p, b, f, i, data, first))
  {
    assert p.KeyOf(i) == (p.executionId, p.steps[i].id);
  }

  lemma LocalCalling(p: Plan, a: System, b: System, f: Fault, reply: Reply, i: nat, data: WorkflowData)
    requires SameWorld(p, a, b) && i < p.Size()
    ensures Local(p, a, b, StepCalling(p, a, f, reply, i, data), StepCalling(p, b, f, reply, i, data))
  {
  }

  lemma LocalSaving(p: Plan, a: System, b: System, f: Fault, i: nat, output: WorkflowData, goOn: bool)
    requires SameWorld(p, a, b) && i < p.Size()
    ensures Local(p, a, b, StepSaving(p, a, f, i, output, goOn), StepSaving(p, b, f, i, output, goOn))
  {
    assert p.KeyOf(i) == (p.executionId, p.steps[i].id);
  }

  lemma LocalFailing(p: Plan, a: System, b: System, f: Fault, i: nat, message: string)
    requires SameWorld(p, a, b) && i < p.Size()
    ensures Local(p, a, b, StepFailing(p, a, f, i, message), StepFailing(p, b, f, i, message))
  {
    assert p.KeyOf(i) == (p.executionId, p.steps[i].id);
  }

  lemma {:induction false} LocalTick(p: Plan, a: System, b: System, e: Event)
    requires SameWorld(p, a, b)
    ensures Local(p, a, b, Tick(p, a, e), Tick(p, b, e))
  {
    match e
    case Deliver =>
    case Await(f, reply) =>
      match a.worker.phase
      case Idle =>
      case Loading => LocalLoading(p, a, b, f);
      case Starting => LocalStarting(p, a, b, f);
      case Seeding => LocalSeeding(p, a, b, f);
      case Looking(i, data) => if i < p.Size() { LocalLooking(p, a, b, f, i, data); }
      case Marking(i, data, first) => if i < p.Size() { LocalMarking(p, a, b, f, i, data, first); }
      case Calling(i, data) => if i < p.Size() { LocalCalling(p, a, b, f, reply, i, data); }
      case Saving(i, _, output, goOn) => if i < p.Size() { LocalSaving(p, a, b, f, i, output, goOn); }
      case Skipping(i) => LocalSkipping(p, a, b, f, i);
      case Failing(i, message) => if i < p.Size() { LocalFailing(p, a, b, f, i, message); }
      case Finishing => LocalFinishing(p, a, b, f);
      case Reporting(message) => LocalReporting(p, a, b, f, message);
  }

  // ---------------------------------------------------------------- many workers

  /** One worker for each execution, all on one database. */
  datatype Cluster = Cluster(db: Database, workers: map<string, Worker>)

  /** Whose turn it is, and what happens to the call it makes. */
  datatype Turn = Turn(id: string, event: Event)

  ghost predicate Staffed(plans: map<string, Plan>, c: Cluster) {
    && plans.Keys == c.workers.Keys
    && forall id | id in plans :: plans[id].executionId == id
  }

  function SystemOf(c: Cluster, id: string): System
    requires id in c.workers
  {
    System(c.db, c.workers[id])
  }

  ghost function ClusterTick(plans: map<string, Plan>, c: Cluster, turn: Turn): (c': Cluster)
    requires Staffed(plans, c)
    ensures Staffed(plans, c')
  {
    if turn.id !in plans then c
    else
      var t := Tick(plans[turn.id], SystemOf(c, turn.id), turn.event);
      Cluster(t.db, c.workers[turn.id := t.worker])
  }

  ghost function ClusterRun(plans: map<string, Plan>, c: Cluster, turns: seq<Turn>): (c': Cluster)
    requires Staffed(plans, c)
    ensures Staffed(plans, c')
    decreases |turns|
  {
    if turns == [] then c
    else ClusterTick(plans, ClusterRun(plans, c, turns[..|turns| - 1]), turns[|turns| - 1])
  }

  /** The events of one execution, in order. */
  ghost function Events(turns: seq<Turn>, id: string): seq<Event>
    decreases |turns|
  {
    if turns == [] then []
    else
      var front, last := Events(turns[..|turns| - 1], id), turns[|turns| - 1];
      if last.id == id then front + [last.event] else front
  }

  /** Worker isolation: however the calls of many workers interleave, each execution's records and worker
      end as if it had been alone on the database with just its own events. */
  lemma {:induction false} RunsAreIsolated(plans: map<string, Plan>, c: Cluster, turns: seq<Turn>, id: string)
    requires Staffed(plans, c) && id in plans
    ensures SameWorld(plans[id], SystemOf(ClusterRun(plans, c, turns), id),
                      Run(plans[id], SystemOf(c, id), Events(turns, id)))
    decreases |turns|
  {
    if turns != [] {
      var n := |turns| - 1;
      var turn := turns[n];
      RunsAreIsolated(plans, c, turns[..n], id);
      var mid := ClusterRun(plans, c, turns[..n]);
      var solo := Run(plans[id], SystemOf(c, id), Events(turns[..n], id));
      if turn.id == id {
        LocalTick(plans[id], SystemOf(mid, id), solo, turn.event);
        assert Events(turns, id)[..|Events(turns, id)| - 1] == Events(turns[..n], id);
      } else if turn.id in plans {
        var p := plans[turn.id];
        LocalTick(p, SystemOf(mid, turn.id), SystemOf(mid, turn.id), turn.event);
        OthersStay(p, id, mid.db, Tick(p, SystemOf(mid, turn.id), turn.event).db, solo.db);
      }
    }
  }

  lemma OthersStay(p: Plan, id: string, a: Database, a': Database, b: Database)
    requires Frame(p.executionId, a, a') && id != p.executionId && SameView(id, a, b)
    ensures SameView(id, a', b)
  {
    forall sid: string
      ensures (id, sid) in a'.rows <==> (id, sid) in b.rows
      ensures (id, sid) in a'.rows ==> a'.rows[(id, sid)] == b.rows[(id, sid)]
    {
      assert (id, sid).0 != p.executionId;
    }
  }

  lemma ViewEndings(p: Plan, a: Database, b: Database)
    requires SameView(p.executionId, a, b)
    ensures Endings(p, a.rows) == Endings(p, b.rows) && Answers(p, a.rows) == Answers(p, b.rows)
  {
    forall i | 0 <= i < p.Size()
      ensures Lookup(a.rows, p.KeyOf(i)) == Lookup(b.rows, p.KeyOf(i))
      ensures Flow(p, a.rows, i + 1) == Flow(p, b.rows, i + 1)
    {
      assert p.KeyOf(i) == (p.executionId, p.steps[i].id);
    }
  }

  /** The refinement holds inside a cluster: under every interleaving with other executions, an execution
      that succeeds ends in its own uninterrupted walk exactly when its last delivery did not get under
      way past a recorded stop. */
  lemma {:induction false} ClusterAgreesIff(plans: map<string, Plan>, c: Cluster, turns: seq<Turn>, id: string)
    requires Staffed(plans, c) && id in plans && plans[id].DistinctIds() && Initial(plans[id], SystemOf(c, id))
    requires HasSucceeded(plans[id], SystemOf(ClusterRun(plans, c, turns), id))
    ensures var p, t := plans[id], SystemOf(ClusterRun(plans, c, turns), id);
            Endings(p, t.db.rows) == Walk(p, Answers(p, t.db.rows)) <==> !t.worker.crossed
  {
    var p := plans[id];
    RunsAreIsolated(plans, c, turns, id);
    AgreesIff(p, SystemOf(c, id), Events(turns, id));
    ViewEndings(p, ClusterRun(plans, c, turns).db, Run(p, SystemOf(c, id), Events(turns, id)).db);
  }
}

/** One execution on one worker, as a machine whose steps are the awaited calls of
    `WorkflowExecutionProcessor.process` and `WorkflowEngineService.execute`. */
module Machine {
  import opened Values
  import opened Steps
  import opened Faults

  // ---------------------------------------------------------------- database

  datatype RowStatus = PENDING | RUNNING | SUCCEEDED | FAILED | SKIPPED

  /** A `StepExecution` row. `finished` tells whether `finishedAt` is set. */
  datatype Row = Row(status: RowStatus, input: Option<WorkflowData>, output: Option<WorkflowData>,
                     error: Option<string>, attempt: nat, finished: bool)

  datatype ExecutionStatus = Queued | Started | Succeeded | Failed

  /** An `Execution` row; its snapshot and payload never change and are part of the plan. */
  datatype Execution = Execution(status: ExecutionStatus, error: Option<string>, finished: bool)

  type Key = (string, string)

  datatype Database = Database(executions: map<string, Execution>, rows: map<Key, Row>)

  const NEW_ROW := Row(PENDING, None, None, None, 1, false)

  // ---------------------------------------------------------------- one job

  /** What never changes while an execution is processed: the snapshot, the trigger payload and the
      number of attempts its job was given. */
  datatype Plan = Plan(executionId: string, steps: seq<Step>, payload: WorkflowData, maxAttempts: nat, printer: Printer)
  {
    function Size(): nat { |steps| }

    function KeyOf(i: nat): Key
      requires i < Size()
    {
      (executionId, steps[i].id)
    }

    function Produce(i: nat, input: WorkflowData, answer: WorkflowData): Outcome
      requires i < Size()
    {
      Evaluate(printer, steps[i].action, input, answer)
    }

    ghost predicate DistinctIds() {
      forall i, j | 0 <= i < j < Size() :: steps[i].id != steps[j].id
    }
  }

  /** The awaited call the worker is at. `Idle` is between two deliveries of the job. */
  datatype Phase =
    | Idle
    | Loading
    | Starting
    | Seeding
    | Looking(i: nat, data: WorkflowData)
    | Marking(i: nat, data: WorkflowData, first: bool)
    | Calling(i: nat, data: WorkflowData)
    | Saving(i: nat, data: WorkflowData, output: WorkflowData, goOn: bool)
    | Skipping(i: nat)
    | Failing(i: nat, message: string)
    | Finishing
    | Reporting(message: string)

  datatype JobState = Open | Completed | Exhausted

  datatype Call = Call(i: nat, input: WorkflowData, output: WorkflowData)

  /** The worker's control point and the job's counters. The last six fields are observers: they
      record the history of the run and no step reads them. */
  datatype Worker = Worker(phase: Phase, attemptsMade: nat, job: JobState,
                           deliveries: nat, base: nat, crossed: bool, everCrossed: bool,
                           starts: seq<nat>, calls: seq<Call>)

  datatype System = System(db: Database, worker: Worker)

  // ---------------------------------------------------------------- faults

  datatype Reply = Answer(data: WorkflowData) | Trouble(message: string)

  datatype Event = Deliver | Await(fault: Fault, reply: Reply)

  const DATABASE_ERROR := "Database error"
  const INVALID_OUTPUT := "Stored output is invalid"

  /** An update of a record that is not there throws and changes nothing. */
  function Missing(f: Fault): Fault {
    if Dies(f) then DiesBefore else Refused
  }

  function Reach(f: Fault, present: bool): Fault {
    if present then f else Missing(f)
  }

  /** Where control goes after an awaited call. */
  function Branch(f: Fault, fine: Phase, thrown: Phase): Phase {
    if Dies(f) then Idle else if Throws(f) then thrown else fine
  }

  // ---------------------------------------------------------------- writes

  function PutRow(db: Database, key: Key, row: Row): Database {
    db.(rows := db.rows[key := row])
  }

  function PutExecution(db: Database, id: string, execution: Execution): Database {
    db.(executions := db.executions[id := execution])
  }

  function Keys(p: Plan, from: nat): set<Key> {
    set i | from <= i < p.Size() :: p.KeyOf(i)
  }

  /** `createMany` with `skipDuplicates`. */
  function Seeded(p: Plan, db: Database): Database {
    db.(rows := (map key | key in Keys(p, 0) :: NEW_ROW) + db.rows)
  }

  function Begun(row: Row, data: WorkflowData, first: bool): Row {
    row.(status := RUNNING, error := None, input := Some(data), finished := false,
         attempt := if first then row.attempt else row.attempt + 1)
  }

  function Saved(row: Row, output: WorkflowData): Row {
    row.(status := SUCCEEDED, output := Some(output), finished := true)
  }

  function Broken(row: Row, message: string): Row {
    row.(status := FAILED, error := Some(message), finished := true)
  }

  function SkippedIfPending(row: Row): Row {
    if row.status == PENDING then row.(status := SKIPPED, finished := true) else row
  }

  /** `updateMany` over the steps after `i` whose rows are PENDING. */
  function SkipRest(p: Plan, db: Database, i: nat): Database {
    db.(rows := map key | key in db.rows ::
                  if key in Keys(p, i + 1) then SkippedIfPending(db.rows[key]) else db.rows[key])
  }

  function Reported(p: Plan, attemptsMade: nat, message: string): Execution {
    if attemptsMade + 1 >= p.maxAttempts then Execution(Failed, Some(message), true)
    else Execution(Started, Some(message), false)
  }

  // ---------------------------------------------------------------- steps

  /** `process` throws: the queue counts the attempt and retries while attempts are left. */
  function Rejected(p: Plan, w: Worker): Worker {
    w.(phase := Idle, attemptsMade := w.attemptsMade + 1,
       job := if w.attemptsMade + 1 >= p.maxAttempts then Exhausted else Open)
  }

  /** The head of the loop over the steps, or its end. */
  function AtStep(p: Plan, i: nat, data: WorkflowData): Phase {
    if i < p.Size() then Looking(i, data) else Finishing
  }

  /** How many leading steps have a SUCCEEDED row. */
  function Frontier(p: Plan, rows: map<Key, Row>, from: nat := 0): (k: nat)
    requires from <= p.Size()
    ensures from <= k <= p.Size()
    ensures forall i | from <= i < k :: p.KeyOf(i) in rows && rows[p.KeyOf(i)].status == SUCCEEDED
    ensures k < p.Size() ==> p.KeyOf(k) !in rows || rows[p.KeyOf(k)].status != SUCCEEDED
    decreases p.Size() - from
  {
    if from < p.Size() && p.KeyOf(from) in rows && rows[p.KeyOf(from)].status == SUCCEEDED
    then Frontier(p, rows, from + 1)
    else from
  }

  /** The row of step `i` is SUCCEEDED. */
  ghost predicate IsSucceeded(p: Plan, rows: map<Key, Row>, i: nat)
    requires i < p.Size()
  {
    p.KeyOf(i) in rows && rows[p.KeyOf(i)].status == SUCCEEDED
  }

  /** A filter among the first `k` steps stopped on the input recorded for it, with steps behind it. */
  ghost predicate StopRecorded(p: Plan, rows: map<Key, Row>, k: nat)
    requires k <= p.Size()
  {
    exists i | 0 <= i < k && i + 1 < p.Size() :: StopsAt(p, rows, i)
  }

  ghost predicate StopsAt(p: Plan, rows: map<Key, Row>, i: nat)
    requires i < p.Size()
  {
    && p.KeyOf(i) in rows
    && rows[p.KeyOf(i)].input.Some?
    && !p.Produce(i, rows[p.KeyOf(i)].input.value, map[]).goOn
  }

  /** The execution row turns RUNNING: the delivery is under way. */
  ghost function UnderWay(p: Plan, w: Worker, db: Database): Worker {
    var k := Frontier(p, db.rows);
    var crossed := StopRecorded(p, db.rows, k);
    w.(base := k, crossed := crossed, everCrossed := w.everCrossed || crossed)
  }

  ghost function StepLoading(p: Plan, s: System, f: Fault): System {
    var w := s.worker;
    if Dies(f) then s.(worker := w.(phase := Idle))
    else if Throws(f) || p.executionId !in s.db.executions then s.(worker := Rejected(p, w))
    else s.(worker := w.(phase := Starting))
  }

  ghost function StepStarting(p: Plan, s: System, f0: Fault): System {
    var f := Reach(f0, p.executionId in s.db.executions);
    var db := if Committed(f) then PutExecution(s.db, p.executionId, Execution(Started, None, false)) else s.db;
    var w := if Committed(f) then UnderWay(p, s.worker, s.db) else s.worker;
    System(db, if Throws(f) then Rejected(p, w) else w.(phase := Branch(f, Seeding, Seeding)))
  }

  ghost function StepSeeding(p: Plan, s: System, f: Fault): System {
    var db := if Committed(f) then Seeded(p, s.db) else s.db;
    System(db, s.worker.(phase := Branch(f, AtStep(p, 0, p.payload), Reporting(DATABASE_ERROR))))
  }

  ghost function StepLooking(p: Plan, s: System, f: Fault, i: nat, data: WorkflowData): System
    requires i < p.Size()
  {
    var found := Lookup(s.db.rows, p.KeyOf(i));
    var next :=
      if found.Some? && found.value.status == SUCCEEDED then
        if found.value.output.Some? then AtStep(p, i + 1, found.value.output.value)
        else Reporting(INVALID_OUTPUT)
      else Marking(i, data, found.Some? && found.value.status == PENDING);
    s.(worker := s.worker.(phase := Branch(f, next, Reporting(DATABASE_ERROR))))
  }

  ghost function StepMarking(p: Plan, s: System, f0: Fault, i: nat, data: WorkflowData, first: bool): System
    requires i < p.Size()
  {
    var key := p.KeyOf(i);
    var f := Reach(f0, key in s.db.rows);
    var db := if Committed(f) && key in s.db.rows then PutRow(s.db, key, Begun(s.db.rows[key], data, first)) else s.db;
    var w := if Committed(f) then s.worker.(starts := s.worker.starts + [i]) else s.worker;
    System(db, w.(phase := Branch(f, Calling(i, data), Reporting(DATABASE_ERROR))))
  }

  /** The step itself runs. A reply lost or refused is an error the step throws; a worker that dies
      after the step ran leaves its effect on the outside. */
  ghost function StepCalling(p: Plan, s: System, f: Fault, reply: Reply, i: nat, data: WorkflowData): System
    requires i < p.Size()
  {
    if p.steps[i].action.HttpRequest? && reply.Trouble? then
      s.(worker := s.worker.(phase := Branch(f, Failing(i, reply.message), Failing(i, DATABASE_ERROR))))
    else
      var o := p.Produce(i, data, if reply.Answer? then reply.data else map[]);
      var w := if f.Fine? || f.DiesAfter? then s.worker.(calls := s.worker.calls + [Call(i, data, o.output)])
        else s.worker;
      s.(worker := w.(phase := Branch(f, Saving(i, data, o.output, o.goOn), Failing(i, DATABASE_ERROR))))
  }

  ghost function StepSaving(p: Plan, s: System, f0: Fault, i: nat, output: WorkflowData, goOn: bool): System
    requires i < p.Size()
  {
    var key := p.KeyOf(i);
    var f := Reach(f0, key in s.db.rows);
    var db := if Committed(f) && key in s.db.rows then PutRow(s.db, key, Saved(s.db.rows[key], output)) else s.db;
    var next := if goOn then AtStep(p, i + 1, output) else if i + 1 < p.Size() then Skipping(i) else Finishing;
    System(db, s.worker.(phase := Branch(f, next, Failing(i, DATABASE_ERROR))))
  }

  ghost function StepSkipping(p: Plan, s: System, f: Fault, i: nat): System {
    var db := if Committed(f) then SkipRest(p, s.db, i) else s.db;
    System(db, s.worker.(phase := Branch(f, Finishing, Failing(i, DATABASE_ERROR))))
  }

  ghost function StepFailing(p: Plan, s: System, f0: Fault, i: nat, message: string): System
    requires i < p.Size()
  {
    var key := p.KeyOf(i);
    var f := Reach(f0, key in s.db.rows);
    var db := if Committed(f) && key in s.db.rows then PutRow(s.db, key, Broken(s.db.rows[key], message)) else s.db;
    System(db, s.worker.(phase := Branch(f, Reporting(message), Reporting(DATABASE_ERROR))))
  }

  ghost function StepFinishing(p: Plan, s: System, f0: Fault): System {
    var f := Reach(f0, p.executionId in s.db.executions);
    var db := if Committed(f) && p.executionId in s.db.executions
              then PutExecution(s.db, p.executionId,
                                s.db.executions[p.executionId].(status := Succeeded, finished := true))
              else s.db;
    System(db, s.worker.(phase := Branch(f, Idle, Reporting(DATABASE_ERROR)),
                         job := if f.Fine? then Completed else s.worker.job))
  }

  ghost function StepReporting(p: Plan, s: System, f0: Fault, message: string): System {
    var f := Reach(f0, p.executionId in s.db.executions);
    var db := if Committed(f) then PutExecution(s.db, p.executionId, Reported(p, s.worker.attemptsMade, message))
      else s.db;
    System(db, if Dies(f) then s.worker.(phase := Idle) else Rejected(p, s.worker))
  }

  /** One event. An event that does not apply changes nothing. */
  ghost function Tick(p: Plan, s: System, e: Event): System {
    match e
    case Deliver =>
      if s.worker.phase.Idle? && s.worker.job.Open?
      then s.(worker := s.worker.(phase := Loading, deliveries := s.worker.deliveries + 1))
      else s
    case Await(f, reply) =>
      match s.worker.phase
      case Idle => s
      case Loading => StepLoading(p, s, f)
      case Starting => StepStarting(p, s, f)
      case Seeding => StepSeeding(p, s, f)
      case Looking(i, data) => if i < p.Size() then StepLooking(p, s, f, i, data) else s
      case Marking(i, data, first) => if i < p.Size() then StepMarking(p, s, f, i, data, first) else s
      case Calling(i, data) => if i < p.Size() then StepCalling(p, s, f, reply, i, data) else s
      case Saving(i, _, output, goOn) => if i < p.Size() then StepSaving(p, s, f, i, output, goOn) else s
      case Skipping(i) => StepSkipping(p, s, f, i)
      case Failing(i, message) => if i < p.Size() then StepFailing(p, s, f, i, message) else s
      case Finishing => StepFinishing(p, s, f)
      case Reporting(message) => StepReporting(p, s, f, message)
  }

  /** A run: events in the order they happen. */
  ghost function Run(p: Plan, s: System, events: seq<Event>): System
    decreases |events|
  {
    if events == [] then s
    else Tick(p, Run(p, s, events[..|events| - 1]), events[|events| - 1])
  }

  lemma {:induction false} RunAppend(p: Plan, s: System, front: seq<Event>, back: seq<Event>)
    ensures Run(p, s, front + back) == Run(p, Run(p, s, front), back)
    decreases |back|
  {
    if back == [] {
      assert front + back == front;
    } else {
      var n := |back| - 1;
      RunAppend(p, s, front, back[..n]);
      assert (front + back)[..|front + back| - 1] == front + back[..n];
    }
  }

  lemma RunOne(p: Plan, s: System, e: Event)
    ensures Run(p, s, [e]) == Tick(p, s, e)
  {
    assert [e][..0] == [];
  }

  /** The execution was just created and its job queued; the tables may hold other executions. */
  ghost predicate Initial(p: Plan, s: System) {
    && p.executionId in s.db.executions
    && s.db.executions[p.executionId] == Execution(Queued, None, false)
    && (forall i | 0 <= i < p.Size() :: p.KeyOf(i) !in s.db.rows)
    && s.worker == Worker(Idle, 0, Open, 0, 0, false, false, [], [])
  }
}

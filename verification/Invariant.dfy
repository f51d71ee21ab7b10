/** What every reachable state of the machine satisfies, after every single awaited call and under
    every fault. */
module Invariant {
  import opened Values
  import opened Steps
  import opened Faults
  import opened Machine

  // ---------------------------------------------------------------- data flow

  /** What step `i` is fed: the output recorded for the step before it, or the trigger payload. */
  ghost function Flow(p: Plan, rows: map<Key, Row>, i: nat): WorkflowData
    requires i <= p.Size()
  {
    if i == 0 then p.payload
    else match Lookup(rows, p.KeyOf(i - 1))
      case Some(row) => if row.output.Some? then row.output.value else map[]
      case None => map[]
  }

  /** Step `i` lets its flow through: it is no filter that stops there. */
  ghost predicate Goes(p: Plan, rows: map<Key, Row>, i: nat)
    requires i < p.Size()
  {
    p.Produce(i, Flow(p, rows, i), map[]).goOn
  }

  lemma GoOnIgnoresAnswer(p: Plan, i: nat, data: WorkflowData, answer: WorkflowData)
    requires i < p.Size()
    ensures p.Produce(i, data, answer).goOn == p.Produce(i, data, map[]).goOn
    ensures p.Produce(i, data, p.Produce(i, data, answer).output).output == p.Produce(i, data, answer).output
  {
  }

  // ---------------------------------------------------------------- rows

  /** A finished step: fed by the chain, its output is what the step made of that, and a call that
      really happened returned it. */
  ghost predicate Recorded(p: Plan, rows: map<Key, Row>, calls: seq<Call>, i: nat)
    requires i < p.Size()
  {
    && p.KeyOf(i) in rows
    && var row := rows[p.KeyOf(i)];
    && row.status == SUCCEEDED
    && row.input == Some(Flow(p, rows, i))
    && row.output.Some?
    && row.error == None
    && row.finished
    && p.Produce(i, Flow(p, rows, i), row.output.value).output == row.output.value
    && Call(i, Flow(p, rows, i), row.output.value) in calls
  }

  /** A step that was started on its flow and is not recorded as finished. */
  ghost predicate Touched(p: Plan, rows: map<Key, Row>, i: nat)
    requires i < p.Size()
  {
    && p.KeyOf(i) in rows
    && var row := rows[p.KeyOf(i)];
    && (row.status == RUNNING || row.status == FAILED)
    && row.input == Some(Flow(p, rows, i))
    && (row.finished <==> row.status == FAILED)
    && (row.error.Some? <==> row.status == FAILED)
  }

  /** A step that was never started. */
  ghost predicate Untouched(p: Plan, rows: map<Key, Row>, i: nat, rest: RowStatus)
    requires i < p.Size()
  {
    p.KeyOf(i) in rows && rows[p.KeyOf(i)] == NEW_ROW.(status := rest, finished := rest == SKIPPED)
  }

  /** The shape of the rows: `k` finished steps, then at most one that was started, then steps never
      started, which are all PENDING or all SKIPPED. */
  ghost predicate Shape(p: Plan, rows: map<Key, Row>, calls: seq<Call>, k: nat, rest: RowStatus) {
    && k <= p.Size()
    && (rest == PENDING || rest == SKIPPED)
    && (forall i | 0 <= i < k :: Recorded(p, rows, calls, i))
    && (k < p.Size() ==> Touched(p, rows, k) || Untouched(p, rows, k, rest))
    && (forall i | k < i < p.Size() :: Untouched(p, rows, i, rest))
  }

  ghost predicate Unborn(p: Plan, rows: map<Key, Row>) {
    forall i | 0 <= i < p.Size() :: p.KeyOf(i) !in rows
  }

  ghost predicate BeforeSeeding(phase: Phase) {
    phase.Idle? || phase.Loading? || phase.Starting? || phase.Seeding? || phase.Reporting?
  }

  ghost predicate Table(p: Plan, rows: map<Key, Row>, calls: seq<Call>, phase: Phase, k: nat, rest: RowStatus) {
    || Shape(p, rows, calls, k, rest)
    || (Unborn(p, rows) && k == 0 && rest == PENDING && BeforeSeeding(phase))
  }

  // ---------------------------------------------------------------- control

  ghost predicate AllGo(p: Plan, rows: map<Key, Row>, from: nat, to: nat)
    requires to <= p.Size()
  {
    forall i | from <= i < to :: Goes(p, rows, i)
  }

  /** Among the first `k` steps one stops although steps follow it. */
  ghost predicate StopBefore(p: Plan, rows: map<Key, Row>, k: nat)
    requires k <= p.Size()
  {
    exists i | 0 <= i < k && i + 1 < p.Size() :: !Goes(p, rows, i)
  }

  ghost predicate IsRunning(p: Plan, rows: map<Key, Row>, i: nat)
    requires i < p.Size()
  {
    Touched(p, rows, i) && rows[p.KeyOf(i)].status == RUNNING
  }

  /** The walk over the steps is over: all are finished, or one stopped and the rest is SKIPPED. */
  ghost predicate Walked(p: Plan, rows: map<Key, Row>, base: nat, k: nat, rest: RowStatus)
    requires base <= k <= p.Size()
  {
    || (k == p.Size() && (k > base ==> AllGo(p, rows, base, k - 1)))
    || (k > base && AllGo(p, rows, base, k - 1) && !Goes(p, rows, k - 1)
        && rest == SKIPPED && (k < p.Size() ==> Untouched(p, rows, k, rest)))
  }

  /** Where the worker is, against what is recorded. */
  ghost predicate Control(p: Plan, rows: map<Key, Row>, calls: seq<Call>, phase: Phase, base: nat, k: nat,
                          rest: RowStatus)
    requires base <= k <= p.Size()
  {
    match phase
    case Idle => true
    case Loading => true
    case Starting => true
    case Seeding => k == base
    case Looking(i, data) =>
      i < p.Size() && k == (if i < base then base else i) && data == Flow(p, rows, i) && AllGo(p, rows, base, i)
    case Marking(i, data, first) =>
      && i == k < p.Size() && data == Flow(p, rows, i) && AllGo(p, rows, base, i)
      && (first <==> p.KeyOf(i) in rows && rows[p.KeyOf(i)].status == PENDING)
    case Calling(i, data) =>
      i == k < p.Size() && data == Flow(p, rows, i) && AllGo(p, rows, base, i) && IsRunning(p, rows, i)
    case Saving(i, data, output, goOn) =>
      && i == k < p.Size() && data == Flow(p, rows, i) && AllGo(p, rows, base, i) && IsRunning(p, rows, i)
      && p.Produce(i, data, output).output == output && Call(i, data, output) in calls
      && (goOn <==> Goes(p, rows, i))
    case Skipping(i) =>
      k == i + 1 < p.Size() && base <= i && AllGo(p, rows, base, i) && !Goes(p, rows, i)
      && Untouched(p, rows, k, rest)
    case Failing(i, message) =>
      && base <= i < p.Size() && AllGo(p, rows, base, i)
      && ((k == i && IsRunning(p, rows, i)) || (k == i + 1 && (k < p.Size() ==> Untouched(p, rows, k, rest))))
    case Finishing => Walked(p, rows, base, k, rest)
    case Reporting(message) => true
  }

  /** Skipped steps are owed to a stop: one just recorded, one whose filter runs again, or one that an
      earlier delivery went past. */
  ghost predicate SkipsOwed(p: Plan, rows: map<Key, Row>, everCrossed: bool, k: nat, rest: RowStatus)
    requires k <= p.Size()
  {
    rest == SKIPPED ==>
      || everCrossed
      || (k > 0 && !Goes(p, rows, k - 1) && (k < p.Size() ==> Untouched(p, rows, k, rest)))
      || (k < p.Size() && Touched(p, rows, k) && !Goes(p, rows, k))
  }

  ghost predicate InTry(phase: Phase) {
    !phase.Idle? && !phase.Loading? && !phase.Starting? && !phase.Reporting?
  }

  /** The execution row and the job. */
  ghost predicate Ledger(e: Execution, phase: Phase, job: JobState) {
    && (e.finished <==> e.status == Succeeded || e.status == Failed)
    && (e.status == Succeeded ==> e.error == None)
    && (e.status == Failed ==> e.error.Some?)
    && (InTry(phase) ==> e == Execution(Started, None, false))
    && (!job.Open? ==> phase.Idle?)
    && (job.Completed? ==> e.status == Succeeded)
  }

  ghost predicate InvAt(p: Plan, s: System, k: nat, rest: RowStatus) {
    && p.DistinctIds()
    && s.worker.base <= k <= p.Size()
    && Table(p, s.db.rows, s.worker.calls, s.worker.phase, k, rest)
    && Control(p, s.db.rows, s.worker.calls, s.worker.phase, s.worker.base, k, rest)
    && p.executionId in s.db.executions
    && Ledger(s.db.executions[p.executionId], s.worker.phase, s.worker.job)
    && (s.db.executions[p.executionId].status == Succeeded ==> Walked(p, s.db.rows, s.worker.base, k, rest))
    && SkipsOwed(p, s.db.rows, s.worker.everCrossed, k, rest)
    && (s.worker.crossed <==> StopBefore(p, s.db.rows, s.worker.base))
    && (s.worker.crossed ==> s.worker.everCrossed)
  }

  /** The invariant of every reachable state. */
  ghost predicate Inv(p: Plan, s: System) {
    exists k, rest :: InvAt(p, s, k, rest)
  }

  // ---------------------------------------------------------------- preservation

  /** How an event moves the number of finished steps: saving adds one, failing takes back the step
      whose SUCCEEDED write or whose SKIPPED writes threw. */
  ghost function NextK(s: System, e: Event, k: nat): nat {
    if e.Deliver? || !Committed(e.fault) then k
    else if s.worker.phase.Saving? then k + 1
    else if s.worker.phase.Failing? then s.worker.phase.i
    else k
  }

  ghost function NextRest(s: System, e: Event, rest: RowStatus): RowStatus {
    if e.Await? && s.worker.phase.Skipping? && Committed(e.fault) then SKIPPED else rest
  }

  lemma InitialInv(p: Plan, s: System)
    requires p.DistinctIds() && Initial(p, s)
    ensures InvAt(p, s, 0, PENDING)
  {
  }

  /** The computed frontier is the number of finished steps. */
  lemma FrontierIs(p: Plan, s: System, k: nat, rest: RowStatus)
    requires p.DistinctIds() && Table(p, s.db.rows, s.worker.calls, s.worker.phase, k, rest)
    ensures Frontier(p, s.db.rows) == k
  {
    forall i | 0 <= i < k
      ensures p.KeyOf(i) in s.db.rows && s.db.rows[p.KeyOf(i)].status == SUCCEEDED
    {
      assert Recorded(p, s.db.rows, s.worker.calls, i);
    }
    assert k < p.Size() ==> p.KeyOf(k) !in s.db.rows || s.db.rows[p.KeyOf(k)].status != SUCCEEDED;
  }

  lemma ShapeDomain(p: Plan, rows: map<Key, Row>, calls: seq<Call>, k: nat, rest: RowStatus)
    requires Shape(p, rows, calls, k, rest)
    ensures forall i | 0 <= i < p.Size() :: p.KeyOf(i) in rows
  {
    forall i | 0 <= i < p.Size() ensures p.KeyOf(i) in rows {
      if i < k {
        assert Recorded(p, rows, calls, i);
      } else if i > k {
        assert Untouched(p, rows, i, rest);
      }
    }
  }

  lemma SameFlow(p: Plan, rows: map<Key, Row>, rows': map<Key, Row>)
    requires forall i | 0 <= i <= p.Size() :: Flow(p, rows', i) == Flow(p, rows, i)
    ensures forall i | 0 <= i < p.Size() :: Goes(p, rows', i) <==> Goes(p, rows, i)
    ensures forall k | 0 <= k <= p.Size() :: StopBefore(p, rows', k) <==> StopBefore(p, rows, k)
  {
    assert forall i | 0 <= i < p.Size() :: Goes(p, rows', i) <==> Goes(p, rows, i);
  }

  lemma KeysDiffer(p: Plan, i: nat, j: nat)
    requires p.DistinctIds() && i < p.Size() && j < p.Size() && i != j
    ensures p.KeyOf(i) != p.KeyOf(j)
  {
    if i < j {
      assert p.steps[i].id != p.steps[j].id;
    } else {
      assert p.steps[j].id != p.steps[i].id;
    }
  }

  /** Writing row `i` leaves the other rows, and the flow up to step `i`, as they were. */
  lemma PutFrame(p: Plan, rows: map<Key, Row>, i: nat, row: Row)
    requires p.DistinctIds() && i < p.Size() && p.KeyOf(i) in rows
    ensures forall j | 0 <= j < p.Size() && j != i ::
              p.KeyOf(j) in rows[p.KeyOf(i) := row] <==> p.KeyOf(j) in rows
    ensures forall j | 0 <= j < p.Size() && j != i && p.KeyOf(j) in rows ::
              rows[p.KeyOf(i) := row][p.KeyOf(j)] == rows[p.KeyOf(j)]
    ensures forall j | 0 <= j <= p.Size() && j != i + 1 ::
              Flow(p, rows[p.KeyOf(i) := row], j) == Flow(p, rows, j)
    ensures row.output == rows[p.KeyOf(i)].output ==>
              forall j | 0 <= j <= p.Size() :: Flow(p, rows[p.KeyOf(i) := row], j) == Flow(p, rows, j)
  {
    forall j | 0 <= j < p.Size() && j != i ensures p.KeyOf(j) != p.KeyOf(i) {
      KeysDiffer(p, i, j);
    }
  }

  lemma KeepsLoading(p: Plan, s: System, f: Fault, k: nat, rest: RowStatus)
    requires InvAt(p, s, k, rest) && s.worker.phase.Loading?
    ensures InvAt(p, StepLoading(p, s, f), k, rest)
  {
  }

  lemma StopRecordedIsStopBefore(p: Plan, s: System, k: nat, rest: RowStatus)
    requires p.DistinctIds() && Table(p, s.db.rows, s.worker.calls, s.worker.phase, k, rest) && k <= p.Size()
    ensures StopRecorded(p, s.db.rows, k) <==> StopBefore(p, s.db.rows, k)
  {
    forall i | 0 <= i < k ensures StopsAt(p, s.db.rows, i) <==> !Goes(p, s.db.rows, i) {
      assert Recorded(p, s.db.rows, s.worker.calls, i);
    }
  }

  lemma KeepsStarting(p: Plan, s: System, f: Fault, k: nat, rest: RowStatus)
    requires InvAt(p, s, k, rest) && s.worker.phase.Starting?
    ensures InvAt(p, StepStarting(p, s, f), k, rest)
  {
    FrontierIs(p, s, k, rest);
    StopRecordedIsStopBefore(p, s, k, rest);
  }

  lemma KeepsReporting(p: Plan, s: System, f: Fault, k: nat, rest: RowStatus)
    requires InvAt(p, s, k, rest) && s.worker.phase.Reporting?
    ensures InvAt(p, StepReporting(p, s, f, s.worker.phase.message), k, rest)
  {
  }

  lemma KeepsFinishing(p: Plan, s: System, f: Fault, k: nat, rest: RowStatus)
    requires InvAt(p, s, k, rest) && s.worker.phase.Finishing?
    ensures InvAt(p, StepFinishing(p, s, f), k, rest)
  {
  }

  lemma SeededRows(p: Plan, db: Database)
    requires p.DistinctIds()
    ensures forall i | 0 <= i < p.Size() :: p.KeyOf(i) in Seeded(p, db).rows &&
              Seeded(p, db).rows[p.KeyOf(i)] == if p.KeyOf(i) in db.rows then db.rows[p.KeyOf(i)] else NEW_ROW
  {
    forall i | 0 <= i < p.Size() ensures p.KeyOf(i) in Keys(p, 0) {}
  }

  lemma KeepsSeeding(p: Plan, s: System, f: Fault, k: nat, rest: RowStatus)
    requires InvAt(p, s, k, rest) && s.worker.phase.Seeding?
    ensures InvAt(p, StepSeeding(p, s, f), k, rest)
  {
    SeededRows(p, s.db);
    var t := StepSeeding(p, s, f);
    if Committed(f) {
      if Shape(p, s.db.rows, s.worker.calls, k, rest) {
        ShapeDomain(p, s.db.rows, s.worker.calls, k, rest);
        SameRows(p, s.db.rows, t.db.rows, s.worker.calls, k, rest);
        SameFlow(p, s.db.rows, t.db.rows);
      } else {
        assert forall i | 0 <= i < p.Size() :: Untouched(p, t.db.rows, i, PENDING);
      }
    }
  }

  /** Rows that agree on the plan's keys have the same flow and the same shape. */
  lemma SameRows(p: Plan, rows: map<Key, Row>, rows': map<Key, Row>, calls: seq<Call>, k: nat, rest: RowStatus)
    requires Shape(p, rows, calls, k, rest)
    requires forall i | 0 <= i < p.Size() ::
               p.KeyOf(i) in rows && p.KeyOf(i) in rows' && rows'[p.KeyOf(i)] == rows[p.KeyOf(i)]
    ensures Shape(p, rows', calls, k, rest)
    ensures forall i | 0 <= i <= p.Size() :: Flow(p, rows', i) == Flow(p, rows, i)
  {
    forall i | 0 <= i <= p.Size() ensures Flow(p, rows', i) == Flow(p, rows, i) {}
    forall i | 0 <= i < k ensures Recorded(p, rows', calls, i) {
      assert Recorded(p, rows, calls, i);
    }
    forall i | k < i < p.Size() ensures Untouched(p, rows', i, rest) {
      assert Untouched(p, rows, i, rest);
    }
  }

  lemma KeepsLooking(p: Plan, s: System, f: Fault, k: nat, rest: RowStatus)
    requires InvAt(p, s, k, rest) && s.worker.phase.Looking?
    ensures InvAt(p, StepLooking(p, s, f, s.worker.phase.i, s.worker.phase.data), k, rest)
  {
    var i := s.worker.phase.i;
    if i < k {
      assert Recorded(p, s.db.rows, s.worker.calls, i);
    }
    var t := StepLooking(p, s, f, i, s.worker.phase.data);
    assert t.db == s.db && t.worker.base == s.worker.base;
    if t.worker.phase.Marking? {
      assert i == k && (t.worker.phase.first <==> s.db.rows[p.KeyOf(i)].status == PENDING);
    }
  }

  lemma KeepsMarking(p: Plan, s: System, f: Fault, k: nat, rest: RowStatus)
    requires InvAt(p, s, k, rest) && s.worker.phase.Marking?
    ensures InvAt(p, StepMarking(p, s, f, s.worker.phase.i, s.worker.phase.data, s.worker.phase.first), k, rest)
  {
    var t := StepMarking(p, s, f, s.worker.phase.i, s.worker.phase.data, s.worker.phase.first);
    var i := s.worker.phase.i;
    var row := s.db.rows[p.KeyOf(i)];
    PutFrame(p, s.db.rows, i, Begun(row, s.worker.phase.data, s.worker.phase.first));
    StepsAround(p, s, t, k, rest, i);
    if Committed(f) {
      assert IsRunning(p, t.db.rows, i);
    }
  }

  lemma StepsAround(p: Plan, s: System, t: System, k: nat, rest: RowStatus, i: nat)
    requires Shape(p, s.db.rows, s.worker.calls, k, rest)
    requires i < p.Size() && s.worker.calls <= t.worker.calls
    requires forall j | 0 <= j < p.Size() && j != i && p.KeyOf(j) in s.db.rows ::
               p.KeyOf(j) in t.db.rows && t.db.rows[p.KeyOf(j)] == s.db.rows[p.KeyOf(j)]
    requires forall j | 0 <= j <= p.Size() && j != i + 1 :: Flow(p, t.db.rows, j) == Flow(p, s.db.rows, j)
    ensures forall j | 0 <= j < k && j < i :: Recorded(p, t.db.rows, t.worker.calls, j)
    ensures forall j | k <= j < p.Size() && j != i && Untouched(p, s.db.rows, j, rest) ::
              Untouched(p, t.db.rows, j, rest)
    ensures forall j | 0 <= j < p.Size() && j <= i :: Goes(p, t.db.rows, j) <==> Goes(p, s.db.rows, j)
  {
    forall j | 0 <= j < k && j < i ensures Recorded(p, t.db.rows, t.worker.calls, j) {
      assert Recorded(p, s.db.rows, s.worker.calls, j);
    }
  }

  /** The shape does not mind further calls. */
  lemma ShapeMoreCalls(p: Plan, rows: map<Key, Row>, calls: seq<Call>, c: Call, k: nat, rest: RowStatus)
    requires Shape(p, rows, calls, k, rest)
    ensures Shape(p, rows, calls + [c], k, rest)
  {
    forall i | 0 <= i < k ensures Recorded(p, rows, calls + [c], i) {
      assert Recorded(p, rows, calls, i);
    }
  }

  lemma KeepsCalling(p: Plan, s: System, f: Fault, reply: Reply, k: nat, rest: RowStatus)
    requires InvAt(p, s, k, rest) && s.worker.phase.Calling?
    ensures InvAt(p, StepCalling(p, s, f, reply, s.worker.phase.i, s.worker.phase.data), k, rest)
  {
    var i, data := s.worker.phase.i, s.worker.phase.data;
    var answer := if reply.Answer? then reply.data else map[];
    GoOnIgnoresAnswer(p, i, data, answer);
    ShapeMoreCalls(p, s.db.rows, s.worker.calls, Call(i, data, p.Produce(i, data, answer).output), k, rest);
    var t := StepCalling(p, s, f, reply, i, data);
    assert t.db == s.db && t.worker.base == s.worker.base;
    assert Shape(p, t.db.rows, t.worker.calls, k, rest);
  }

  lemma KeepsSaving(p: Plan, s: System, f: Fault, k: nat, rest: RowStatus)
    requires InvAt(p, s, k, rest) && s.worker.phase.Saving?
    ensures InvAt(p, StepSaving(p, s, f, s.worker.phase.i, s.worker.phase.output, s.worker.phase.goOn),
                  if Committed(f) then k + 1 else k, rest)
  {
    if Committed(f) {
      SavedShape(p, s, k, rest);
    }
  }

  lemma SavedShape(p: Plan, s: System, k: nat, rest: RowStatus)
    requires InvAt(p, s, k, rest) && s.worker.phase.Saving?
    ensures var rows := s.db.rows[p.KeyOf(k) := Saved(s.db.rows[p.KeyOf(k)], s.worker.phase.output)];
            && Shape(p, rows, s.worker.calls, k + 1, rest)
            && (k + 1 < p.Size() ==> Untouched(p, rows, k + 1, rest))
            && Flow(p, rows, k + 1) == s.worker.phase.output
            && (forall j | 0 <= j <= k :: Goes(p, rows, j) <==> Goes(p, s.db.rows, j))
            && (StopBefore(p, rows, s.worker.base) <==> StopBefore(p, s.db.rows, s.worker.base))
  {
    var row := Saved(s.db.rows[p.KeyOf(k)], s.worker.phase.output);
    var t := s.(db := PutRow(s.db, p.KeyOf(k), row));
    PutFrame(p, s.db.rows, k, row);
    StepsAround(p, s, t, k, rest, k);
    assert Recorded(p, t.db.rows, t.worker.calls, k);
  }

  lemma SkippedRows(p: Plan, db: Database, i: nat)
    requires p.DistinctIds() && i < p.Size()
    ensures forall j | 0 <= j < p.Size() && p.KeyOf(j) in db.rows ::
              p.KeyOf(j) in SkipRest(p, db, i).rows &&
              SkipRest(p, db, i).rows[p.KeyOf(j)] == if i < j then SkippedIfPending(db.rows[p.KeyOf(j)])
                else db.rows[p.KeyOf(j)]
    ensures forall j | 0 <= j <= p.Size() :: Flow(p, SkipRest(p, db, i).rows, j) == Flow(p, db.rows, j)
  {
    forall j | 0 <= j < p.Size() ensures p.KeyOf(j) in Keys(p, i + 1) <==> i < j {
      if p.KeyOf(j) in Keys(p, i + 1) {
        var m :| i + 1 <= m < p.Size() && p.KeyOf(m) == p.KeyOf(j);
        if m != j {
          KeysDiffer(p, m, j);
        }
      }
    }
    forall j | 0 <= j <= p.Size() ensures Flow(p, SkipRest(p, db, i).rows, j) == Flow(p, db.rows, j) {
      if j > 0 && p.KeyOf(j - 1) in db.rows {
        assert p.KeyOf(j - 1) in SkipRest(p, db, i).rows;
      }
    }
  }

  lemma KeepsSkipping(p: Plan, s: System, f: Fault, k: nat, rest: RowStatus)
    requires InvAt(p, s, k, rest) && s.worker.phase.Skipping?
    ensures InvAt(p, StepSkipping(p, s, f, s.worker.phase.i), k, if Committed(f) then SKIPPED else rest)
  {
    var t := StepSkipping(p, s, f, s.worker.phase.i);
    var i := s.worker.phase.i;
    SkippedRows(p, s.db, i);
    if Committed(f) {
      SameFlow(p, s.db.rows, t.db.rows);
      forall j | 0 <= j < k ensures Recorded(p, t.db.rows, t.worker.calls, j) {
        assert Recorded(p, s.db.rows, s.worker.calls, j);
      }
      forall j | k <= j < p.Size() ensures Untouched(p, t.db.rows, j, SKIPPED) {
        assert Untouched(p, s.db.rows, j, rest);
      }
    }
  }

  lemma KeepsFailing(p: Plan, s: System, f: Fault, k: nat, rest: RowStatus)
    requires InvAt(p, s, k, rest) && s.worker.phase.Failing?
    ensures InvAt(p, StepFailing(p, s, f, s.worker.phase.i, s.worker.phase.message),
                  if Committed(f) then s.worker.phase.i else k, rest)
  {
    var t := StepFailing(p, s, f, s.worker.phase.i, s.worker.phase.message);
    var i, message := s.worker.phase.i, s.worker.phase.message;
    if k == i + 1 {
      assert Recorded(p, s.db.rows, s.worker.calls, i);
    }
    var row := Broken(s.db.rows[p.KeyOf(i)], message);
    PutFrame(p, s.db.rows, i, row);
    StepsAround(p, s, t, k, rest, i);
    if Committed(f) {
      assert t.db.rows == s.db.rows[p.KeyOf(i) := row];
      SameFlow(p, s.db.rows, t.db.rows);
      assert Touched(p, t.db.rows, i);
      assert Shape(p, t.db.rows, t.worker.calls, i, rest);
      assert SkipsOwed(p, t.db.rows, t.worker.everCrossed, i, rest);
    }
  }

  lemma TickKeepsQueue(p: Plan, s: System, f: Fault, reply: Reply, k: nat, rest: RowStatus)
    requires InvAt(p, s, k, rest)
    requires s.worker.phase.Loading? || s.worker.phase.Starting? || s.worker.phase.Reporting?
    ensures InvAt(p, Tick(p, s, Await(f, reply)), k, rest)
  {
    match s.worker.phase
    case Loading => KeepsLoading(p, s, f, k, rest);
    case Starting => KeepsStarting(p, s, f, k, rest);
    case Reporting(_) => KeepsReporting(p, s, f, k, rest);
  }

  lemma TickKeepsAround(p: Plan, s: System, f: Fault, reply: Reply, k: nat, rest: RowStatus)
    requires InvAt(p, s, k, rest)
    requires s.worker.phase.Seeding? || s.worker.phase.Skipping? || s.worker.phase.Finishing?
    ensures var e := Await(f, reply); InvAt(p, Tick(p, s, e), k, NextRest(s, e, rest))
  {
    match s.worker.phase
    case Seeding => KeepsSeeding(p, s, f, k, rest);
    case Skipping(_) => KeepsSkipping(p, s, f, k, rest);
    case Finishing => KeepsFinishing(p, s, f, k, rest);
  }

  lemma TickKeepsStep(p: Plan, s: System, f: Fault, reply: Reply, k: nat, rest: RowStatus)
    requires InvAt(p, s, k, rest)
    requires !BeforeSeeding(s.worker.phase) && !s.worker.phase.Finishing? && !s.worker.phase.Skipping?
    ensures var e := Await(f, reply); InvAt(p, Tick(p, s, e), NextK(s, e, k), NextRest(s, e, rest))
  {
    match s.worker.phase
    case Looking(_, _) => KeepsLooking(p, s, f, k, rest);
    case Marking(_, _, _) => KeepsMarking(p, s, f, k, rest);
    case Calling(_, _) => KeepsCalling(p, s, f, reply, k, rest);
    case Saving(_, _, _, _) => KeepsSaving(p, s, f, k, rest);
    case Failing(_, _) => KeepsFailing(p, s, f, k, rest);
  }

  /** Every event keeps the invariant. */
  lemma {:induction false} TickKeeps(p: Plan, s: System, e: Event, k: nat, rest: RowStatus)
    requires InvAt(p, s, k, rest)
    ensures InvAt(p, Tick(p, s, e), NextK(s, e, k), NextRest(s, e, rest))
  {
    match e
    case Deliver =>
    case Await(f, reply) =>
      match s.worker.phase
      case Idle =>
      case Loading | Starting | Reporting(_) => TickKeepsQueue(p, s, f, reply, k, rest);
      case Seeding | Skipping(_) | Finishing => TickKeepsAround(p, s, f, reply, k, rest);
      case _ => TickKeepsStep(p, s, f, reply, k, rest);
  }

  /** The invariant holds after every prefix of every run, whatever failed in it. */
  lemma {:induction false} RunKeeps(p: Plan, s: System, events: seq<Event>)
    requires Inv(p, s)
    ensures Inv(p, Run(p, s, events))
    decreases |events|
  {
    if events != [] {
      var n := |events| - 1;
      RunKeeps(p, s, events[..n]);
      var t := Run(p, s, events[..n]);
      var k, rest :| InvAt(p, t, k, rest);
      TickKeeps(p, t, events[n], k, rest);
    }
  }

  lemma {:induction false} Reachable(p: Plan, s: System, events: seq<Event>)
    requires p.DistinctIds() && Initial(p, s)
    ensures Inv(p, Run(p, s, events))
  {
    InitialInv(p, s);
    RunKeeps(p, s, events);
  }
}

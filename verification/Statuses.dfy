/** The statuses of the rows in step order, at any moment and after a final failure. */
module Statuses {
  import opened Values
  import opened Steps
  import opened Faults
  import opened Machine
  import opened Invariant
  import opened StopWindow

  ghost function StatusOf(p: Plan, rows: map<Key, Row>, i: nat): RowStatus
    requires i < p.Size() && p.KeyOf(i) in rows
  {
    rows[p.KeyOf(i)].status
  }

  // ---------------------------------------------------------------- skipped rows outside the stop window

  /** Rows are SKIPPED only behind a step that stopped, and only while its walk is being finished or after. */
  ghost predicate Tidy(p: Plan, s: System, k: nat, rest: RowStatus) {
    rest == SKIPPED ==>
      && 0 < k < p.Size() && !Goes(p, s.db.rows, k - 1) && Untouched(p, s.db.rows, k, SKIPPED)
      && (s.worker.phase.Finishing? || s.worker.job.Completed?)
  }

  lemma SkippingIsFine(p: Plan, s: System, e: Event, k: nat, rest: RowStatus)
    requires InvAt(p, s, k, rest) && e.Await? && s.worker.phase.Skipping? && !FaultInWindow(p, s, e)
    ensures e.fault.Fine?
  {
    SkippingIsOpen(p, s, k, rest);
    OpenIsStopBefore(p, s, k, rest);
  }

  lemma TidySkipping(p: Plan, s: System, e: Event, k: nat, rest: RowStatus)
    requires InvAt(p, s, k, rest) && e.Await? && s.worker.phase.Skipping? && e.fault.Fine?
    ensures Tidy(p, Tick(p, s, e), k, SKIPPED)
  {
    var t := StepSkipping(p, s, Fine, s.worker.phase.i);
    SkippedRows(p, s.db, s.worker.phase.i);
    SameFlow(p, s.db.rows, t.db.rows);
    assert Tick(p, s, e) == t;
  }

  lemma TidyFinishing(p: Plan, s: System, e: Event, k: nat, rest: RowStatus)
    requires InvAt(p, s, k, rest) && Tidy(p, s, k, rest)
    requires e.Await? && s.worker.phase.Finishing? && !FaultInWindow(p, s, e)
    ensures Tidy(p, Tick(p, s, e), NextK(s, e, k), NextRest(s, e, rest))
  {
    OpenIsStopBefore(p, s, k, rest);
  }

  lemma TidyTick(p: Plan, s: System, e: Event, k: nat, rest: RowStatus)
    requires InvAt(p, s, k, rest) && Tidy(p, s, k, rest) && !FaultInWindow(p, s, e)
    ensures Tidy(p, Tick(p, s, e), NextK(s, e, k), NextRest(s, e, rest))
  {
    if e.Await? && s.worker.phase.Skipping? {
      SkippingIsFine(p, s, e, k, rest);
      TidySkipping(p, s, e, k, rest);
    } else if e.Await? && s.worker.phase.Finishing? {
      TidyFinishing(p, s, e, k, rest);
    } else if rest == SKIPPED {
      assert Tick(p, s, e) == s;
    }
  }

  lemma {:induction false} TidyRun(p: Plan, s: System, events: seq<Event>) returns (k: nat, rest: RowStatus)
    requires p.DistinctIds() && Initial(p, s) && OutsideWindow(p, s, events)
    ensures InvAt(p, Run(p, s, events), k, rest) && Tidy(p, Run(p, s, events), k, rest)
    decreases |events|
  {
    if events == [] {
      k, rest := 0, PENDING;
      InitialInv(p, s);
    } else {
      var n := |events| - 1;
      k, rest := TidyRun(p, s, events[..n]);
      var t := Run(p, s, events[..n]);
      TickKeeps(p, t, events[n], k, rest);
      TidyTick(p, t, events[n], k, rest);
      k, rest := NextK(t, events[n], k), NextRest(t, events[n], rest);
    }
  }

  // ---------------------------------------------------------------- rows at any moment

  /** Status shape: SUCCEEDED rows first, then at most one that is RUNNING or FAILED, then rows that are
      all PENDING or all SKIPPED. SKIPPED rows stand only behind a filter that stopped, unless a delivery
      went past a recorded stop; and outside the stop window only SUCCEEDED rows stand before them. */
  lemma {:induction false} StatusShape(p: Plan, s: System, events: seq<Event>)
    returns (k: nat, rest: RowStatus)
    requires p.DistinctIds() && Initial(p, s)
    requires var rows := Run(p, s, events).db.rows; p.Size() > 0 ==> p.KeyOf(0) in rows
    ensures k <= p.Size() && (rest == PENDING || rest == SKIPPED)
    ensures var t := Run(p, s, events);
            var rows := t.db.rows;
            && (forall i | 0 <= i < p.Size() :: p.KeyOf(i) in rows)
            && (forall i | 0 <= i < k :: StatusOf(p, rows, i) == SUCCEEDED)
            && (k < p.Size() ==> StatusOf(p, rows, k) in {RUNNING, FAILED, rest})
            && (forall i | k < i < p.Size() :: StatusOf(p, rows, i) == rest)
            && (rest == SKIPPED && !t.worker.everCrossed ==>
                  if k < p.Size() && StatusOf(p, rows, k) != SKIPPED then !Goes(p, rows, k)
                  else k > 0 && !Goes(p, rows, k - 1))
            && (rest == SKIPPED && OutsideWindow(p, s, events) ==>
                  0 < k < p.Size() && StatusOf(p, rows, k) == SKIPPED && !Goes(p, rows, k - 1))
  {
    var t := Run(p, s, events);
    if OutsideWindow(p, s, events) {
      k, rest := TidyRun(p, s, events);
    } else {
      Reachable(p, s, events);
      k, rest :| InvAt(p, t, k, rest);
    }
    var rows := t.db.rows;
    if p.Size() > 0 {
      assert p.KeyOf(0) in rows;
      assert Shape(p, rows, t.worker.calls, k, rest);
      ShapeStatuses(p, rows, t.worker.calls, k, rest);
      assert SkipsOwed(p, rows, t.worker.everCrossed, k, rest);
    }
  }

  /** Outside the stop window nothing unfinished stands before a SKIPPED row. */
  lemma {:induction false} BeforeSkipped(p: Plan, s: System, events: seq<Event>, i: nat, j: nat)
    requires p.DistinctIds() && Initial(p, s) && OutsideWindow(p, s, events) && i < j < p.Size()
    requires var rows := Run(p, s, events).db.rows; p.KeyOf(j) in rows && StatusOf(p, rows, j) == SKIPPED
    ensures var rows := Run(p, s, events).db.rows;
            p.KeyOf(i) in rows && StatusOf(p, rows, i) in {SUCCEEDED, SKIPPED}
  {
    var k, rest := TidyRun(p, s, events);
    TidyBeforeSkipped(p, Run(p, s, events), k, rest, i, j);
  }

  lemma TidyBeforeSkipped(p: Plan, t: System, k: nat, rest: RowStatus, i: nat, j: nat)
    requires InvAt(p, t, k, rest) && Tidy(p, t, k, rest) && i < j < p.Size()
    requires p.KeyOf(j) in t.db.rows && StatusOf(p, t.db.rows, j) == SKIPPED
    ensures p.KeyOf(i) in t.db.rows && StatusOf(p, t.db.rows, i) in {SUCCEEDED, SKIPPED}
  {
    assert Shape(p, t.db.rows, t.worker.calls, k, rest);
    ShapeStatuses(p, t.db.rows, t.worker.calls, k, rest);
    assert rest == SKIPPED;
  }

  lemma ShapeStatuses(p: Plan, rows: map<Key, Row>, calls: seq<Call>, k: nat, rest: RowStatus)
    requires Shape(p, rows, calls, k, rest)
    ensures forall i | 0 <= i < p.Size() :: p.KeyOf(i) in rows
    ensures forall i | 0 <= i < k :: StatusOf(p, rows, i) == SUCCEEDED
    ensures forall i | k < i < p.Size() :: StatusOf(p, rows, i) == rest
    ensures k < p.Size() ==> StatusOf(p, rows, k) in {RUNNING, FAILED, rest}
  {
    ShapeDomain(p, rows, calls, k, rest);
    forall i | 0 <= i < k ensures StatusOf(p, rows, i) == SUCCEEDED {
      assert Recorded(p, rows, calls, i);
    }
    forall i | k < i < p.Size() ensures StatusOf(p, rows, i) == rest {
      assert Untouched(p, rows, i, rest);
    }
  }

  // ---------------------------------------------------------------- a final failure

  /** A failing step that may not stop the walk leaves SKIPPED rows behind it only after a crossing. */
  lemma PendingBehind(p: Plan, s: System, k: nat, rest: RowStatus)
    requires InvAt(p, s, k, rest) && s.worker.phase.Failing? && !s.worker.everCrossed
    requires !p.steps[s.worker.phase.i].action.Filter?
    ensures rest == PENDING
  {
    var i := s.worker.phase.i;
    assert Goes(p, s.db.rows, i);
  }

  /** A failure of step `i` on the last attempt, when its two records can be written, leaves exactly one FAILED
      row, that of step `i`, with its message; SUCCEEDED rows before it; and behind it rows never started:
      all PENDING outside the stop window, and inside it unless `i` is a filter or a delivery went past a
      recorded stop. */
  lemma {:induction false} FinalFailure(p: Plan, s0: System, before: seq<Event>, a: Reply, b: Reply)
    requires p.DistinctIds() && Initial(p, s0)
    requires var s := Run(p, s0, before); s.worker.phase.Failing? && s.worker.attemptsMade + 1 >= p.maxAttempts
    ensures var s := Run(p, s0, before);
            var i, message := s.worker.phase.i, s.worker.phase.message;
            var t := Tick(p, Tick(p, s, Await(Fine, a)), Await(Fine, b));
            var rows := t.db.rows;
            && t.worker.job.Exhausted?
            && p.executionId in t.db.executions
            && t.db.executions[p.executionId] == Execution(ExecutionStatus.Failed, Some(message), true)
            && i < p.Size()
            && (forall j | 0 <= j < p.Size() :: p.KeyOf(j) in rows)
            && (forall j | 0 <= j < i :: StatusOf(p, rows, j) == SUCCEEDED)
            && StatusOf(p, rows, i) == FAILED && rows[p.KeyOf(i)].error == Some(message)
            && (forall j | i < j < p.Size() :: StatusOf(p, rows, j) in {PENDING, SKIPPED})
            && (OutsideWindow(p, s0, before) || (!p.steps[i].action.Filter? && !s.worker.everCrossed) ==>
                  forall j | i < j < p.Size() :: StatusOf(p, rows, j) == PENDING)
  {
    var s := Run(p, s0, before);
    var i := s.worker.phase.i;
    var k, rest;
    if OutsideWindow(p, s0, before) {
      k, rest := TidyRun(p, s0, before);
    } else {
      Reachable(p, s0, before);
      k, rest :| InvAt(p, s, k, rest);
    }
    if !p.steps[i].action.Filter? && !s.worker.everCrossed {
      PendingBehind(p, s, k, rest);
    }
    FailedRow(p, s, a, k, rest);
    var u := Tick(p, s, Await(Fine, a));
    ShapeStatuses(p, u.db.rows, u.worker.calls, i, rest);
    LastReport(p, u, b);
  }

  lemma LastReport(p: Plan, u: System, b: Reply)
    requires u.worker.phase.Reporting? && p.executionId in u.db.executions && u.worker.attemptsMade + 1 >= p.maxAttempts
    ensures var t := Tick(p, u, Await(Fine, b));
            && t.db.rows == u.db.rows && t.worker.job.Exhausted? && p.executionId in t.db.executions
            && t.db.executions[p.executionId] == Execution(ExecutionStatus.Failed, Some(u.worker.phase.message), true)
  {
  }

  lemma FailedRow(p: Plan, s: System, a: Reply, k: nat, rest: RowStatus)
    requires InvAt(p, s, k, rest) && s.worker.phase.Failing?
    ensures var i, u := s.worker.phase.i, Tick(p, s, Await(Fine, a));
            && p.KeyOf(i) in u.db.rows && u.db.rows[p.KeyOf(i)].status == FAILED
            && u.db.rows[p.KeyOf(i)].error == Some(s.worker.phase.message)
            && u.worker.phase == Reporting(s.worker.phase.message) && u.worker.attemptsMade == s.worker.attemptsMade
            && p.executionId in u.db.executions
            && Shape(p, u.db.rows, u.worker.calls, i, rest)
  {
    TickKeeps(p, s, Await(Fine, a), k, rest);
    if k == s.worker.phase.i + 1 {
      assert Recorded(p, s.db.rows, s.worker.calls, s.worker.phase.i);
    }
  }
}

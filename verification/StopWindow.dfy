/** The stop window: without a fault in it a run is never led past a stop, and runs that show why that and
    distinct step ids are needed. */
module StopWindow {
  import opened Values
  import opened Steps
  import opened Faults
  import opened Machine
  import opened Invariant
  import opened Resume
  import Retry

  // ---------------------------------------------------------------- no fault in the window

  /** A stop is recorded and the job is not complete: nothing but the worker's own position tells that the
      walk is over. */
  ghost predicate IsOpen(p: Plan, s: System) {
    s.worker.job.Open? && StopRecorded(p, s.db.rows, Frontier(p, s.db.rows))
  }

  ghost predicate FaultInWindow(p: Plan, s: System, e: Event) {
    e.Await? && !e.fault.Fine? && (IsOpen(p, s) || IsOpen(p, Tick(p, s, e)))
  }

  ghost predicate OutsideWindow(p: Plan, s: System, events: seq<Event>)
    decreases |events|
  {
    events == [] ||
    (OutsideWindow(p, s, events[..|events| - 1])
     && !FaultInWindow(p, Run(p, s, events[..|events| - 1]), events[|events| - 1]))
  }

  lemma OpenIsStopBefore(p: Plan, s: System, k: nat, rest: RowStatus)
    requires InvAt(p, s, k, rest)
    ensures IsOpen(p, s) <==> s.worker.job.Open? && StopBefore(p, s.db.rows, k)
  {
    FrontierIs(p, s, k, rest);
    StopRecordedIsStopBefore(p, s, k, rest);
  }

  /** Writing a row without touching its output records no new stop. */
  lemma PutRecordsNoStop(p: Plan, s: System, e: Event, k: nat, rest: RowStatus)
    requires InvAt(p, s, k, rest) && e.Await? && (s.worker.phase.Marking? || s.worker.phase.Failing?)
    ensures StopBefore(p, Tick(p, s, e).db.rows, NextK(s, e, k)) ==> StopBefore(p, s.db.rows, k)
  {
    var i := s.worker.phase.i;
    var t := Tick(p, s, e);
    if t.db.rows != s.db.rows {
      assert p.KeyOf(i) in s.db.rows;
      PutFrame(p, s.db.rows, i, t.db.rows[p.KeyOf(i)]);
      SameFlow(p, s.db.rows, t.db.rows);
    }
  }

  lemma SeedingRecordsNoStop(p: Plan, s: System, f: Fault, k: nat, rest: RowStatus)
    requires InvAt(p, s, k, rest) && s.worker.phase.Seeding?
    ensures StopBefore(p, StepSeeding(p, s, f).db.rows, k) ==> StopBefore(p, s.db.rows, k)
  {
    var t := StepSeeding(p, s, f);
    if Committed(f) && Shape(p, s.db.rows, s.worker.calls, k, rest) {
      SeededRows(p, s.db);
      ShapeDomain(p, s.db.rows, s.worker.calls, k, rest);
      SameRows(p, s.db.rows, t.db.rows, s.worker.calls, k, rest);
      SameFlow(p, s.db.rows, t.db.rows);
    }
  }

  /** Saving records one stop at most, its own, and then goes on to skip the rest. */
  lemma SavingRecordsItsStop(p: Plan, s: System, e: Event, k: nat, rest: RowStatus)
    requires InvAt(p, s, k, rest) && e.Await? && s.worker.phase.Saving?
    ensures var t := Tick(p, s, e);
            StopBefore(p, t.db.rows, NextK(s, e, k)) ==>
              StopBefore(p, s.db.rows, k) || (Committed(e.fault) && (e.fault.Fine? ==> t.worker.phase == Skipping(k)))
  {
    if Committed(e.fault) {
      SavedShape(p, s, k, rest);
    }
  }

  lemma ReadRecordsNoStop(p: Plan, s: System, e: Event, k: nat)
    requires k <= p.Size() && (e.Deliver? || s.worker.phase.Idle? || s.worker.phase.Loading? || s.worker.phase.Starting?
                               || s.worker.phase.Looking? || s.worker.phase.Calling? || s.worker.phase.Finishing?
                               || s.worker.phase.Reporting?)
    ensures Tick(p, s, e).db.rows == s.db.rows && NextK(s, e, k) == k
  {
  }

  /** An open window is being closed. */
  ghost predicate Closing(p: Plan, s: System) {
    && !s.worker.everCrossed
    && (IsOpen(p, s) ==> s.worker.phase.Skipping? || s.worker.phase.Finishing?)
  }

  lemma SkippingIsOpen(p: Plan, s: System, k: nat, rest: RowStatus)
    requires InvAt(p, s, k, rest) && s.worker.phase.Skipping?
    ensures StopBefore(p, s.db.rows, k)
  {
  }

  lemma OpensBySaving(p: Plan, s: System, e: Event, k: nat, rest: RowStatus)
    requires InvAt(p, s, k, rest) && !StopBefore(p, s.db.rows, k) && !FaultInWindow(p, s, e)
             && !s.worker.phase.Skipping?
    requires StopBefore(p, Tick(p, s, e).db.rows, NextK(s, e, k)) && Tick(p, s, e).worker.job.Open?
    ensures Tick(p, s, e).worker.phase.Skipping?
  {
    TickKeeps(p, s, e, k, rest);
    OpenIsStopBefore(p, Tick(p, s, e), NextK(s, e, k), NextRest(s, e, rest));
    match s.worker.phase
    case Saving(_, _, _, _) => if e.Await? { SavingRecordsItsStop(p, s, e, k, rest); }
    case Marking(_, _, _) | Failing(_, _) => if e.Await? { PutRecordsNoStop(p, s, e, k, rest); }
    case Seeding => if e.Await? { SeedingRecordsNoStop(p, s, e.fault, k, rest); }
    case _ => ReadRecordsNoStop(p, s, e, k);
  }

  lemma CrossesInWindow(p: Plan, s: System, e: Event)
    requires Tick(p, s, e).worker.everCrossed && !s.worker.everCrossed
    ensures s.worker.phase.Starting? && StopRecorded(p, s.db.rows, Frontier(p, s.db.rows))
  {
  }

  lemma {:induction false} ClosingTick(p: Plan, s: System, e: Event, k: nat, rest: RowStatus)
    requires InvAt(p, s, k, rest) && Closing(p, s) && !FaultInWindow(p, s, e)
    ensures Closing(p, Tick(p, s, e))
  {
    var t := Tick(p, s, e);
    TickKeeps(p, s, e, k, rest);
    OpenIsStopBefore(p, s, k, rest);
    OpenIsStopBefore(p, t, NextK(s, e, k), NextRest(s, e, rest));
    if t.worker.everCrossed {
      CrossesInWindow(p, s, e);
    }
    if s.worker.phase.Skipping? {
      SkippingIsOpen(p, s, k, rest);
    }
    if IsOpen(p, t) {
      if IsOpen(p, s) {
        ClosesFurther(p, s, e);
      } else {
        OpensBySaving(p, s, e, k, rest);
      }
    }
  }

  lemma ClosesFurther(p: Plan, s: System, e: Event)
    requires s.worker.phase.Skipping? || s.worker.phase.Finishing?
    requires e.Await? ==> e.fault.Fine?
    requires p.executionId in s.db.executions
    ensures var t := Tick(p, s, e); t.worker.job.Open? ==> t.worker.phase.Skipping? || t.worker.phase.Finishing?
  {
  }

  /** Without a fault in the stop window no delivery ever gets past a recorded stop. */
  lemma {:induction false} OutsideWindowNeverCrosses(p: Plan, s: System, events: seq<Event>)
    requires p.DistinctIds() && Initial(p, s) && OutsideWindow(p, s, events)
    ensures !Run(p, s, events).worker.everCrossed && !Run(p, s, events).worker.crossed
    ensures Closing(p, Run(p, s, events))
    decreases |events|
  {
    Reachable(p, s, events);
    if events == [] {
      InitialInv(p, s);
      OpenIsStopBefore(p, s, 0, PENDING);
    } else {
      var n := |events| - 1;
      OutsideWindowNeverCrosses(p, s, events[..n]);
      Reachable(p, s, events[..n]);
      var k: nat, rest :| InvAt(p, Run(p, s, events[..n]), k, rest);
      ClosingTick(p, Run(p, s, events[..n]), events[n], k, rest);
    }
  }

  /** Resume refinement: with distinct step ids, and faults at any call but in the stop window, every run
      that succeeds ends in the rows of one uninterrupted walk over the steps. */
  lemma {:induction false} ResumeRefinesWalk(p: Plan, s: System, events: seq<Event>)
    requires p.DistinctIds() && Initial(p, s) && OutsideWindow(p, s, events) && HasSucceeded(p, Run(p, s, events))
    ensures var rows := Run(p, s, events).db.rows; Endings(p, rows) == Walk(p, Answers(p, rows))
  {
    OutsideWindowNeverCrosses(p, s, events);
    AgreesIff(p, s, events);
  }

  // ---------------------------------------------------------------- faults in the window

  const OK := Await(Fine, Answer(map[]))

  lemma RunFour(p: Plan, s: System, a: Event, b: Event, c: Event, d: Event)
    ensures Run(p, s, [a, b, c, d]) == Tick(p, Tick(p, Tick(p, Tick(p, s, a), b), c), d)
  {
    RunTwo(p, s, a, b);
    RunTwo(p, Run(p, s, [a, b]), c, d);
    assert [a, b, c, d] == [a, b] + [c, d];
    RunAppend(p, s, [a, b], [c, d]);
  }

  lemma RunTwo(p: Plan, s: System, a: Event, b: Event)
    ensures Run(p, s, [a, b]) == Tick(p, Tick(p, s, a), b)
  {
    RunOne(p, s, a);
    assert [a, b][..1] == [a];
  }

  /** Three calls into a delivery, at the head of the loop. */
  lemma Opening(p: Plan, s: System)
    requires Initial(p, s) && p.Size() > 0
    ensures var t := Run(p, s, [Deliver, OK, OK, OK]);
            && t.worker.phase == Looking(0, p.payload) && t.worker.job.Open?
            && p.executionId in t.db.executions
            && p.KeyOf(0) in t.db.rows && t.db.rows[p.KeyOf(0)] == NEW_ROW
            && t.worker.starts == []
  {
    RunFour(p, s, Deliver, OK, OK, OK);
    assert p.KeyOf(0) in Keys(p, 0);
  }

  /** Four more calls: the first step is marked, run and saved; the last call ends as `f` says. */
  lemma FirstStep(p: Plan, s: System, f: Fault)
    requires p.Size() > 0 && !p.steps[0].action.HttpRequest? && Committed(f) && !f.Lost?
    requires s.worker.phase == Looking(0, p.payload) && s.worker.job.Open? && s.worker.starts == []
    requires p.KeyOf(0) in s.db.rows && s.db.rows[p.KeyOf(0)] == NEW_ROW
    ensures var t := Run(p, s, [OK, OK, OK, Await(f, Answer(map[]))]);
            var o := p.Produce(0, p.payload, map[]);
            && p.KeyOf(0) in t.db.rows && t.db.rows[p.KeyOf(0)].status == SUCCEEDED
            && t.db.rows[p.KeyOf(0)].output == Some(o.output)
            && t.worker.job.Open? && t.worker.starts == [0] && t.db.executions == s.db.executions
            && t.worker.phase == Branch(f, if o.goOn then AtStep(p, 1, o.output)
                                           else if 1 < p.Size() then Skipping(0) else Finishing, Idle)
  {
    var o := p.Produce(0, p.payload, map[]);
    var s1 := StepLooking(p, s, Fine, 0, p.payload);
    assert s1.worker.phase == Marking(0, p.payload, true) && s1.db == s.db;
    var s2 := StepMarking(p, s1, Fine, 0, p.payload, true);
    assert s2.worker.phase == Calling(0, p.payload) && s2.worker.starts == [0];
    var s3 := StepCalling(p, s2, Fine, Answer(map[]), 0, p.payload);
    assert s3.worker.phase == Saving(0, p.payload, o.output, o.goOn) && s3.db == s2.db;
    RunFour(p, s, OK, OK, OK, Await(f, Answer(map[])));
    assert Run(p, s, [OK, OK, OK, Await(f, Answer(map[]))]) == StepSaving(p, s3, f, 0, o.output, o.goOn);
  }

  /** The stop window is real. Take any workflow whose first step is a filter that stops on the trigger
      payload with steps behind it. One worker death right after that filter is saved, and one fault-free
      retry, end in SUCCEEDED with the second step run, which the uninterrupted walk leaves out. */
  lemma {:induction false} StopIsForgotten(p: Plan, s: System) returns (events: seq<Event>)
    requires p.DistinctIds() && Initial(p, s) && p.Size() >= 2
    requires p.steps[0].action.Filter? && !p.Produce(0, p.payload, map[]).goOn
    ensures var t := Run(p, s, events);
            && HasSucceeded(p, t)
            && Endings(p, t.db.rows)[1].Ran?
            && Walk(p, Answers(p, t.db.rows))[1] == NotRun
  {
    Opening(p, s);
    var opening, step := [Deliver, OK, OK, OK], [OK, OK, OK, Await(DiesAfter, Answer(map[]))];
    FirstStep(p, Run(p, s, opening), DiesAfter);
    RunAppend(p, s, opening, step);
    var before := opening + step;
    var retry := Retry.CleanDelivery(p, s, before, []);
    events := before + retry;
    var t := Run(p, s, events);
    assert Frontier(p, Run(p, s, before).db.rows) >= 1;
    GoOnIgnoresAnswer(p, 0, p.payload, Answers(p, t.db.rows)[0]);
  }

  /** Distinct step ids are needed. When the second of two steps repeats the id of the first, a
      fault-free delivery succeeds without ever starting it. */
  lemma {:induction false} RepeatedIdSucceeds(p: Plan, s: System) returns (events: seq<Event>)
    requires p.Size() == 2 && p.steps[0].id == p.steps[1].id && p.steps[0].action.Transform?
    requires Initial(p, s)
    ensures var t := Run(p, s, events);
            HasSucceeded(p, t) && t.worker.job.Completed? && t.worker.starts == [0]
  {
    var opening, step := [Deliver, OK, OK, OK], [OK, OK, OK, OK];
    Opening(p, s);
    var s1 := Run(p, s, opening);
    FirstStep(p, s1, Fine);
    var s2 := Run(p, s1, step);
    assert p.KeyOf(1) == p.KeyOf(0);
    assert Tick(p, s2, OK).worker.phase == Finishing;
    RunTwo(p, s2, OK, OK);
    RunAppend(p, s, opening, step);
    events := opening + step + [OK, OK];
    RunAppend(p, s, opening + step, [OK, OK]);
  }
}

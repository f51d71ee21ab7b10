/** When a step is executed again: exactly when no earlier delivery ended with its success recorded. */
module Again {
  import opened Values
  import opened Steps
  import opened Faults
  import opened Machine
  import opened Invariant
  import opened Resume
  import Once
  import Retry
  import StopWindow

  /** Step `i` was executed among the calls of `t` that `s` had not made yet. */
  ghost predicate CalledSince(s: System, t: System, i: nat) {
    exists j | |s.worker.calls| <= j < |t.worker.calls| :: t.worker.calls[j].i == i
  }

  /** A success that is recorded, or about to be, was returned by a call made since `s`. */
  ghost predicate Earned(p: Plan, s: System, t: System, i: nat)
    requires i < p.Size()
  {
    && |s.worker.calls| <= |t.worker.calls|
    && (IsSucceeded(p, t.db.rows, i) || (t.worker.phase.Saving? && t.worker.phase.i == i) ==> CalledSince(s, t, i))
  }

  lemma EarnedByCall(p: Plan, s: System, t: System, f: Fault, reply: Reply, i: nat)
    requires i < p.Size() && Earned(p, s, t, i) && t.worker.phase.Calling? && t.worker.phase.i < p.Size()
    ensures Earned(p, s, StepCalling(p, t, f, reply, t.worker.phase.i, t.worker.phase.data), i)
  {
    var u := StepCalling(p, t, f, reply, t.worker.phase.i, t.worker.phase.data);
    if CalledSince(s, t, i) {
      var j :| |s.worker.calls| <= j < |t.worker.calls| && t.worker.calls[j].i == i;
      assert u.worker.calls[j].i == i;
    } else if u.worker.phase.Saving? && u.worker.phase.i == i {
      assert u.worker.calls[|t.worker.calls|].i == i;
    }
  }

  lemma EarnedByPut(p: Plan, s: System, t: System, e: Event, i: nat)
    requires p.DistinctIds() && i < p.Size() && Earned(p, s, t, i) && e.Await?
    requires t.worker.phase.Marking? || t.worker.phase.Saving? || t.worker.phase.Failing?
    ensures Earned(p, s, Tick(p, t, e), i)
  {
    var j := t.worker.phase.i;
    if j < p.Size() && j != i {
      KeysDiffer(p, i, j);
    }
  }

  lemma EarnedElsewhere(p: Plan, s: System, t: System, e: Event, i: nat)
    requires i < p.Size() && Earned(p, s, t, i)
    requires var phase := t.worker.phase;
             e.Deliver? || phase.Idle? || phase.Loading? || phase.Starting? || phase.Looking? || phase.Finishing?
             || phase.Reporting?
    ensures Earned(p, s, Tick(p, t, e), i)
  {
  }

  lemma EarnedAround(p: Plan, s: System, t: System, f: Fault, reply: Reply, i: nat)
    requires i < p.Size() && Earned(p, s, t, i) && (t.worker.phase.Seeding? || t.worker.phase.Skipping?)
    ensures Earned(p, s, Tick(p, t, Await(f, reply)), i)
  {
  }

  lemma EarnedTick(p: Plan, s: System, t: System, e: Event, i: nat)
    requires p.DistinctIds() && i < p.Size() && Earned(p, s, t, i)
    ensures Earned(p, s, Tick(p, t, e), i)
  {
    if e.Deliver? {
      EarnedElsewhere(p, s, t, e, i);
    } else {
      match t.worker.phase
      case Calling(j, _) => if j < p.Size() { EarnedByCall(p, s, t, e.fault, e.reply, i); }
      case Marking(_, _, _) | Saving(_, _, _, _) | Failing(_, _) => EarnedByPut(p, s, t, e, i);
      case Seeding | Skipping(_) => EarnedAround(p, s, t, e.fault, e.reply, i);
      case _ => EarnedElsewhere(p, s, t, e, i);
    }
  }

  lemma {:induction false} EarnedRun(p: Plan, s: System, events: seq<Event>, i: nat)
    requires p.DistinctIds() && i < p.Size() && s.worker.phase.Idle? && !IsSucceeded(p, s.db.rows, i)
    ensures Earned(p, s, Run(p, s, events), i)
    decreases |events|
  {
    if events != [] {
      var n := |events| - 1;
      EarnedRun(p, s, events[..n], i);
      EarnedTick(p, s, Run(p, s, events[..n]), events[n], i);
    }
  }

  /** Take any step that has succeeded in the end, and any moment between two deliveries before. The step is
      executed after that moment if and only if its row was not SUCCEEDED then. */
  lemma {:induction false} ExecutedAgainIff(p: Plan, s0: System, before: seq<Event>, after: seq<Event>, i: nat)
    requires p.DistinctIds() && Initial(p, s0) && i < p.Size()
    requires Run(p, s0, before).worker.phase.Idle? && IsSucceeded(p, Run(p, s0, before + after).db.rows, i)
    ensures var s, t := Run(p, s0, before), Run(p, s0, before + after);
            CalledSince(s, t, i) <==> !IsSucceeded(p, s.db.rows, i)
  {
    var s := Run(p, s0, before);
    if IsSucceeded(p, s.db.rows, i) {
      Once.FinishedStepsStay(p, s0, before, after, i);
    } else {
      EarnedRun(p, s, after, i);
      RunAppend(p, s0, before, after);
    }
  }

  // ---------------------------------------------------------------- a step that ran, and runs again

  const OK := Await(Fine, Answer(map[]))
  const REFUSED := Await(Refused, Answer(map[]))

  /** From the head of the loop: the first step runs, its SUCCEEDED write is refused, and its row turns FAILED. */
  lemma LostSuccess(p: Plan, s: System)
    requires p.Size() > 0 && s.worker.phase == Looking(0, p.payload)
    requires p.KeyOf(0) in s.db.rows && s.db.rows[p.KeyOf(0)] == NEW_ROW
    ensures var t := Run(p, s, [OK, OK, OK, REFUSED]);
            && t.worker.phase == Failing(0, DATABASE_ERROR) && t.worker.attemptsMade == s.worker.attemptsMade
            && t.worker.job == s.worker.job && t.db.executions == s.db.executions
            && p.KeyOf(0) in t.db.rows
            && |t.worker.calls| == |s.worker.calls| + 1 && t.worker.calls[|s.worker.calls|].i == 0
  {
    var s1 := StepLooking(p, s, Fine, 0, p.payload);
    assert s1.worker.phase == Marking(0, p.payload, true) && s1.db == s.db;
    var s2 := StepMarking(p, s1, Fine, 0, p.payload, true);
    assert s2.worker.phase == Calling(0, p.payload);
    var o := p.Produce(0, p.payload, map[]);
    var s3 := StepCalling(p, s2, Fine, Answer(map[]), 0, p.payload);
    assert s3.worker.phase == Saving(0, p.payload, o.output, o.goOn) && s3.db == s2.db;
    StopWindow.RunFour(p, s, OK, OK, OK, REFUSED);
    assert Run(p, s, [OK, OK, OK, REFUSED]) == StepSaving(p, s3, Refused, 0, o.output, o.goOn);
  }

  lemma FailsAndReports(p: Plan, s: System)
    requires p.Size() > 0 && s.worker.phase.Failing? && s.worker.phase.i == 0 && p.KeyOf(0) in s.db.rows
    requires p.executionId in s.db.executions && s.worker.job.Open? && s.worker.attemptsMade + 1 < p.maxAttempts
    ensures var t := Run(p, s, [OK, OK]);
            && t.worker.phase.Idle? && t.worker.job.Open? && t.worker.calls == s.worker.calls
            && p.KeyOf(0) in t.db.rows && t.db.rows[p.KeyOf(0)].status == FAILED
  {
    StopWindow.RunTwo(p, s, OK, OK);
    var s1 := StepFailing(p, s, Fine, 0, s.worker.phase.message);
    assert Tick(p, s, OK) == s1 && s1.worker.phase.Reporting? && s1.worker.attemptsMade == s.worker.attemptsMade;
  }

  /** Done, recorded FAILED, and done again. In any workflow with a retry left there is a run whose first
      delivery gets the result of the first step, is refused the SUCCEEDED write, and records FAILED; and
      whose second delivery executes the step again and succeeds. */
  lemma {:induction false} DoneTwice(p: Plan, s: System) returns (before: seq<Event>, after: seq<Event>)
    requires p.DistinctIds() && Initial(p, s) && p.Size() > 0 && p.maxAttempts >= 2
    ensures var s1, t := Run(p, s, before), Run(p, s, before + after);
            && s1.worker.phase.Idle? && CalledSince(s, s1, 0)
            && p.KeyOf(0) in s1.db.rows && s1.db.rows[p.KeyOf(0)].status == FAILED
            && HasSucceeded(p, t) && CalledSince(s1, t, 0)
  {
    var opening, step, end := [Deliver, OK, OK, OK], [OK, OK, OK, REFUSED], [OK, OK];
    StopWindow.Opening(p, s);
    OpeningCallsNothing(p, s);
    var u := Run(p, s, opening);
    LostSuccess(p, u);
    FailsAndReports(p, Run(p, u, step));
    RunAppend(p, s, opening, step);
    RunAppend(p, s, opening + step, end);
    before := opening + step + end;
    var s1 := Run(p, s, before);
    assert s1.worker.calls[|u.worker.calls|].i == 0;
    after := Retry.CleanDelivery(p, s, before, []);
    var t := Run(p, s, before + after);
    SuccessIsFold(p, s, before + after);
    assert Endings(p, t.db.rows)[0] != Unfinished && Endings(p, t.db.rows)[0] != NotRun;
    ExecutedAgainIff(p, s, before, after, 0);
  }

  lemma OpeningCallsNothing(p: Plan, s: System)
    requires Initial(p, s) && p.Size() > 0
    ensures Run(p, s, [Deliver, OK, OK, OK]).worker.attemptsMade == 0
    ensures Run(p, s, [Deliver, OK, OK, OK]).worker.calls == []
  {
    StopWindow.RunFour(p, s, Deliver, OK, OK, OK);
  }
}

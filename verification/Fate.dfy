/** What the execution row tells of its job: when the row of a job that ended says FAILED or SUCCEEDED, and
    when it goes on saying QUEUED or RUNNING for ever. */
module Fate {
  import opened Values
  import opened Steps
  import opened Faults
  import opened Machine
  import opened Invariant
  import Retry

  ghost predicate Kept(p: Plan, s: System) {
    p.executionId in s.db.executions && (!s.worker.job.Open? ==> s.worker.phase.Idle?)
  }

  ghost function Status(p: Plan, s: System): ExecutionStatus
    requires p.executionId in s.db.executions
  {
    s.db.executions[p.executionId].status
  }

  /** The delivery under way is the job's last attempt. */
  ghost predicate IsFinal(p: Plan, w: Worker) { w.attemptsMade + 1 >= p.maxAttempts }

  /** The status after a call that was made at the given phase. */
  ghost function Written(p: Plan, w: Worker, e: Event, status: ExecutionStatus): ExecutionStatus {
    if e.Deliver? || !Committed(e.fault) then status
    else if w.phase.Starting? then Started
    else if w.phase.Finishing? then Succeeded
    else if w.phase.Reporting? then (if IsFinal(p, w) then ExecutionStatus.Failed else Started)
    else status
  }

  /** The three ways in which `process` can throw on the last attempt, and so use the job up. */
  ghost predicate GivesUp(p: Plan, w: Worker, e: Event) {
    && e.Await? && IsFinal(p, w)
    && if w.phase.Reporting? then !Dies(e.fault) else Throws(e.fault) && (w.phase.Loading? || w.phase.Starting?)
  }

  lemma EdgeTick(p: Plan, s: System, e: Event)
    requires Kept(p, s)
    requires e.Deliver? || s.worker.phase.Idle? || Retry.AtEdge(s.worker.phase)
    ensures var t := Tick(p, s, e);
            && Kept(p, t) && Status(p, t) == Written(p, s.worker, e, Status(p, s))
            && (t.worker.job.Exhausted? <==> s.worker.job.Exhausted? || GivesUp(p, s.worker, e))
  {
  }

  lemma InsideTick(p: Plan, s: System, f: Fault, reply: Reply)
    requires Kept(p, s) && !s.worker.phase.Idle? && !Retry.AtEdge(s.worker.phase)
    ensures var t := Tick(p, s, Await(f, reply));
            && t.db.executions == s.db.executions && t.worker.job == s.worker.job
            && t.worker.attemptsMade == s.worker.attemptsMade
  {
  }

  /** Three calls write the status, and three throws use the job up. */
  lemma StatusTick(p: Plan, s: System, e: Event)
    requires Kept(p, s)
    ensures var t := Tick(p, s, e);
            && Kept(p, t) && Status(p, t) == Written(p, s.worker, e, Status(p, s))
            && (t.worker.job.Exhausted? <==> s.worker.job.Exhausted? || GivesUp(p, s.worker, e))
  {
    if e.Await? && !s.worker.phase.Idle? && !Retry.AtEdge(s.worker.phase) {
      InsideTick(p, s, e.fault, e.reply);
    } else {
      EdgeTick(p, s, e);
    }
  }

  // ---------------------------------------------------------------- exhausted and FAILED

  /** A job that is over stays as it is. */
  lemma {:induction false} OverIsOver(p: Plan, s: System, later: seq<Event>)
    requires !s.worker.job.Open? && s.worker.phase.Idle?
    ensures Run(p, s, later) == s
    decreases |later|
  {
    if later != [] {
      OverIsOver(p, s, later[..|later| - 1]);
    }
  }

  /** When a throw uses the job up, the row says FAILED exactly when the throw came out of the report and
      the report was written, or when the row already said so and was not just set to RUNNING again.
      Whatever it says, it says for ever. */
  lemma {:induction false} ExhaustedIsFailedIff(p: Plan, s: System, f: Fault, reply: Reply, later: seq<Event>)
    requires Kept(p, s) && s.worker.job.Open? && GivesUp(p, s.worker, Await(f, reply))
    ensures var t := Tick(p, s, Await(f, reply));
            && t.worker.job.Exhausted? && Kept(p, t)
            && (Status(p, t) == ExecutionStatus.Failed <==>
                  || (s.worker.phase.Reporting? && Committed(f))
                  || (Status(p, s) == ExecutionStatus.Failed && !(s.worker.phase.Starting? && Committed(f))))
            && Run(p, t, later) == t
  {
    StatusTick(p, s, Await(f, reply));
    OverIsOver(p, Tick(p, s, Await(f, reply)), later);
  }

  /** The last write of the status: none yet; RUNNING; SUCCEEDED, and whether it was answered; or a report,
      whether it was that of a last attempt, and its error. */
  datatype Write = Nothing | Began | Finished(answered: bool) | Reported(last: bool, message: string)

  ghost function Wrote(p: Plan, w: Worker, e: Event, before: Write): Write {
    if e.Deliver? || !Committed(e.fault) then before
    else if w.phase.Starting? then Began
    else if w.phase.Finishing? then Finished(e.fault.Fine?)
    else if w.phase.Reporting? then Reported(IsFinal(p, w), w.phase.message)
    else before
  }

  ghost function LastWrite(p: Plan, s: System, events: seq<Event>): Write
    decreases |events|
  {
    if events == [] then Nothing
    else
      var n := |events| - 1;
      Wrote(p, Run(p, s, events[..n]).worker, events[n], LastWrite(p, s, events[..n]))
  }

  /** The report of a last attempt was the last write. */
  ghost predicate ReportStands(p: Plan, s: System, events: seq<Event>) {
    LastWrite(p, s, events).Reported? && LastWrite(p, s, events).last
  }

  ghost function ShownBy(write: Write): ExecutionStatus {
    match write
    case Nothing => Queued
    case Began => Started
    case Finished(_) => Succeeded
    case Reported(last, _) => if last then ExecutionStatus.Failed else Started
  }

  ghost predicate NoDeaths(events: seq<Event>) {
    forall i | 0 <= i < |events| && events[i].Await? :: !Dies(events[i].fault)
  }

  /** A job completes by a SUCCEEDED write that is answered, and by nothing else. */
  lemma CompletedTick(p: Plan, s: System, e: Event)
    requires Kept(p, s)
    ensures var w := s.worker;
            Tick(p, s, e).worker.job.Completed? <==>
              w.job.Completed? || (e.Await? && w.phase.Finishing? && e.fault.Fine?)
  {
    if e.Await? && !s.worker.phase.Idle? && !Retry.AtEdge(s.worker.phase) {
      InsideTick(p, s, e.fault, e.reply);
    }
  }

  /** After every run the row shows the last write there was, and the job is complete exactly when that was an
      answered SUCCEEDED write. */
  lemma {:induction false} StatusIsLastWrite(p: Plan, s: System, events: seq<Event>)
    requires Initial(p, s)
    ensures var t := Run(p, s, events);
            && Kept(p, t)
            && Status(p, t) == ShownBy(LastWrite(p, s, events))
            && (t.worker.job.Completed? <==> LastWrite(p, s, events) == Finished(true))
    decreases |events|
  {
    if events != [] {
      var n := |events| - 1;
      StatusIsLastWrite(p, s, events[..n]);
      StatusTick(p, Run(p, s, events[..n]), events[n]);
      CompletedTick(p, Run(p, s, events[..n]), events[n]);
    }
  }

  /** While a delivery is inside the `try`, the row is as its RUNNING write left it. */
  ghost predicate IsOpened(p: Plan, s: System) {
    && Kept(p, s)
    && (InTry(s.worker.phase) ==> s.db.executions[p.executionId] == Execution(Started, None, false))
  }

  /** The whole row, by the last write: the error of the last report while no other write came since, and a
      finishing time exactly when it says SUCCEEDED or FAILED. */
  ghost function RowShownBy(write: Write): Execution {
    match write
    case Nothing => Execution(Queued, None, false)
    case Began => Execution(Started, None, false)
    case Finished(_) => Execution(Succeeded, None, true)
    case Reported(last, message) => Execution(if last then ExecutionStatus.Failed else Started, Some(message), last)
  }

  lemma RowTick(p: Plan, s: System, e: Event, before: Write)
    requires IsOpened(p, s) && s.db.executions[p.executionId] == RowShownBy(before)
    ensures var t := Tick(p, s, e);
            IsOpened(p, t) && t.db.executions[p.executionId] == RowShownBy(Wrote(p, s.worker, e, before))
  {
    if e.Await? && !s.worker.phase.Idle? && !Retry.AtEdge(s.worker.phase) {
      InsideTick(p, s, e.fault, e.reply);
    }
  }

  lemma {:induction false} RowIsLastWrite(p: Plan, s: System, events: seq<Event>)
    requires Initial(p, s)
    ensures var t := Run(p, s, events);
            IsOpened(p, t) && t.db.executions[p.executionId] == RowShownBy(LastWrite(p, s, events))
    decreases |events|
  {
    if events != [] {
      var n := |events| - 1;
      RowIsLastWrite(p, s, events[..n]);
      RowTick(p, Run(p, s, events[..n]), events[n], LastWrite(p, s, events[..n]));
    }
  }

  /** A report that is written keeps its error: on an attempt that is not the last the execution goes on as
      RUNNING with it, on the last it is FAILED with it. */
  lemma {:induction false} ReportKeepsError(p: Plan, s: System, events: seq<Event>, f: Fault, reply: Reply)
    requires Initial(p, s) && Run(p, s, events).worker.phase.Reporting? && Committed(f)
    ensures var t := Run(p, s, events);
            var u := Tick(p, t, Await(f, reply));
            && p.executionId in u.db.executions
            && var row := u.db.executions[p.executionId];
            && row.error == Some(t.worker.phase.message)
            && (t.worker.attemptsMade + 1 < p.maxAttempts ==> row.status == Started && !row.finished)
            && (t.worker.attemptsMade + 1 >= p.maxAttempts ==> row.status == ExecutionStatus.Failed && row.finished)
  {
    RowIsLastWrite(p, s, events);
    RowTick(p, Run(p, s, events), Await(f, reply), LastWrite(p, s, events));
  }

  /** An execution is SUCCEEDED exactly when the last write was that of SUCCEEDED, and then its job is complete
      if and only if the write was answered: not if it threw, or its worker died, after the effect. */
  lemma {:induction false} SucceededIff(p: Plan, s: System, events: seq<Event>)
    requires Initial(p, s)
    ensures var t, last := Run(p, s, events), LastWrite(p, s, events);
            && Kept(p, t)
            && (Status(p, t) == Succeeded <==> last.Finished?)
            && (t.worker.job.Completed? ==> Status(p, t) == Succeeded)
            && (Status(p, t) == Succeeded ==> (t.worker.job.Completed? <==> last.answered))
  {
    StatusIsLastWrite(p, s, events);
  }

  /** An execution is FAILED exactly when the last status written was the report of a last attempt; while
      no worker dies, its job is over then. */
  lemma {:induction false} FailedIff(p: Plan, s: System, events: seq<Event>)
    requires Initial(p, s)
    ensures var t := Run(p, s, events);
            && Kept(p, t)
            && (Status(p, t) == ExecutionStatus.Failed <==> ReportStands(p, s, events))
            && (NoDeaths(events) && Status(p, t) == ExecutionStatus.Failed ==> t.worker.job.Exhausted?)
    decreases |events|
  {
    StatusIsLastWrite(p, s, events);
    if events != [] {
      var n := |events| - 1;
      FailedIff(p, s, events[..n]);
      StatusTick(p, Run(p, s, events[..n]), events[n]);
    }
  }

  /** A job that was used up was used up by one call of the run, and nothing happened after it. */
  lemma {:induction false} FindExit(p: Plan, s: System, events: seq<Event>) returns (n: nat)
    requires Initial(p, s) && Run(p, s, events).worker.job.Exhausted?
    ensures n < |events| && events[n].Await?
    ensures var u := Run(p, s, events[..n]);
            u.worker.job.Open? && GivesUp(p, u.worker, events[n]) && Run(p, s, events) == Tick(p, u, events[n])
    decreases |events|
  {
    var m := |events| - 1;
    var u := Run(p, s, events[..m]);
    FailedIff(p, s, events[..m]);
    StatusTick(p, u, events[m]);
    if u.worker.job.Exhausted? {
      n := FindExit(p, s, events[..m]);
      assert events[..m][..n] == events[..n];
    } else {
      n := m;
    }
  }

  /** The same over runs. The row of a job that was used up says FAILED exactly when the call that used it up
      was the report, and was written, or when an earlier such report still stood. While no worker dies
      the second cannot be. */
  lemma {:induction false} ExhaustedRunIsFailedIff(p: Plan, s: System, events: seq<Event>) returns (n: nat)
    requires Initial(p, s) && Run(p, s, events).worker.job.Exhausted?
    ensures n < |events| && events[n].Await? && GivesUp(p, Run(p, s, events[..n]).worker, events[n])
    ensures p.executionId in Run(p, s, events).db.executions
    ensures var w := Run(p, s, events[..n]).worker;
            var reported := w.phase.Reporting? && Committed(events[n].fault);
            var failed := Status(p, Run(p, s, events)) == ExecutionStatus.Failed;
            && (failed <==> reported || (ReportStands(p, s, events[..n])
                                         && !(w.phase.Starting? && Committed(events[n].fault))))
            && (NoDeaths(events) ==> (failed <==> reported))
  {
    n := FindExit(p, s, events);
    var u := Run(p, s, events[..n]);
    FailedIff(p, s, events[..n]);
    ExhaustedIsFailedIff(p, u, events[n].fault, events[n].reply, []);
    assert NoDeaths(events) ==> NoDeaths(events[..n]);
  }

  /** What the row of a job that was used up says for ever, by the call that used it up and the last write
      before it. QUEUED: no write ever took effect. RUNNING: this was the RUNNING write, or one or an earlier
      report was the last write. SUCCEEDED: a SUCCEEDED write that threw, or whose worker died, was the last
      write, and neither the RUNNING write nor the report took effect since. FAILED: the report was written,
      or an earlier one of a last attempt still stands. */
  lemma {:induction false} ExhaustedRunShows(p: Plan, s: System, events: seq<Event>) returns (n: nat)
    requires Initial(p, s) && Run(p, s, events).worker.job.Exhausted?
    ensures n < |events| && events[n].Await? && GivesUp(p, Run(p, s, events[..n]).worker, events[n])
    ensures p.executionId in Run(p, s, events).db.executions
    ensures var w, last := Run(p, s, events[..n]).worker, LastWrite(p, s, events[..n]);
            var status := Status(p, Run(p, s, events));
            var began := w.phase.Starting? && Committed(events[n].fault);
            var reported := w.phase.Reporting? && Committed(events[n].fault);
            && (status == Queued <==> last == Nothing && !began && !reported)
            && (status == Started <==> began || (!reported && (last == Began || (last.Reported? && !last.last))))
            && (status == Succeeded <==> last == Finished(false) && !began && !reported)
            && (status == ExecutionStatus.Failed <==> reported || (last.Reported? && last.last && !began))
  {
    n := FindExit(p, s, events);
    var u := Run(p, s, events[..n]);
    StatusIsLastWrite(p, s, events[..n]);
    StatusTick(p, u, events[n]);
  }

  // ---------------------------------------------------------------- when the row can be trusted

  /** The worker survives; on the last attempt the calls that open and report the delivery work, and so does
      a report that has to take back a SUCCEEDED write that threw. */
  ghost predicate Healthy(p: Plan, s: System, e: Event) {
    e.Await? ==>
      && !Dies(e.fault)
      && (IsFinal(p, s.worker) && (s.worker.phase.Loading? || s.worker.phase.Starting?) ==> e.fault.Fine?)
      && (s.worker.phase.Reporting? ==>
            || Committed(e.fault)
            || (!IsFinal(p, s.worker) && p.executionId in s.db.executions && Status(p, s) != Succeeded))
  }

  ghost predicate HealthyRun(p: Plan, s: System, events: seq<Event>)
    decreases |events|
  {
    events == [] ||
    (HealthyRun(p, s, events[..|events| - 1]) && Healthy(p, Run(p, s, events[..|events| - 1]), events[|events| - 1]))
  }

  ghost function Allowed(p: Plan): nat { if p.maxAttempts == 0 then 1 else p.maxAttempts }

  /** Between deliveries the execution row tells the job's fate, and every failed delivery is an
      attempt made. */
  ghost predicate Truthful(p: Plan, s: System) {
    && p.executionId in s.db.executions
    && var status := Status(p, s);
    && var w := s.worker;
    && (w.phase.Idle? ==> (w.job.Completed? <==> status == Succeeded))
    && (w.phase.Loading? || w.phase.Starting? ==> status != Succeeded)
    && (w.job.Exhausted? <==> status == ExecutionStatus.Failed)
    && w.deliveries == w.attemptsMade + (if w.phase.Idle? && !w.job.Completed? then 0 else 1)
    && (w.job.Exhausted? ==> w.attemptsMade == Allowed(p))
    && (!w.job.Exhausted? ==> w.attemptsMade < Allowed(p))
  }

  lemma TruthfulTick(p: Plan, s: System, e: Event)
    requires Inv(p, s) && Truthful(p, s) && Healthy(p, s, e)
    ensures Truthful(p, Tick(p, s, e))
  {
    Retry.InvReady(p, s);
    StatusTick(p, s, e);
    if e.Await? && !s.worker.phase.Idle? {
      Retry.LeavesDelivery(p, s, e.fault, e.reply);
      StatusStays(p, s, e);
    }
  }

  lemma StatusStays(p: Plan, s: System, e: Event)
    requires e.Await? && !s.worker.phase.Idle?
    ensures var phase := Tick(p, s, e).worker.phase;
            && !phase.Loading? && (phase.Starting? ==> s.worker.phase.Loading?)
            && (phase.Idle? && s.worker.phase.Finishing? ==> !Throws(e.fault) || p.executionId !in s.db.executions)
  {
  }

  /** While no worker dies and the last attempt can open and report, an execution is FAILED exactly when all
      its deliveries were used up and failed, and SUCCEEDED exactly when its job completed. */
  lemma {:induction false} StatusTellsFate(p: Plan, s: System, events: seq<Event>)
    requires p.DistinctIds() && Initial(p, s) && HealthyRun(p, s, events)
    ensures Truthful(p, Run(p, s, events))
    decreases |events|
  {
    if events != [] {
      var n := |events| - 1;
      StatusTellsFate(p, s, events[..n]);
      Reachable(p, s, events[..n]);
      TruthfulTick(p, Run(p, s, events[..n]), events[n]);
    }
  }
}

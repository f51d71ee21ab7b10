/** Runs that use a job up and leave its execution row saying something else than FAILED, for any number of
    attempts: QUEUED, RUNNING, and even SUCCEEDED. */
module Strands {
  import opened Values
  import opened Faults
  import opened Machine
  import opened Invariant
  import opened Fate
  import Retry

  ghost predicate Stranded(p: Plan, t: System, status: ExecutionStatus) {
    Kept(p, t) && t.worker.job.Exhausted? && t.worker.attemptsMade == Allowed(p) && Status(p, t) == status
  }

  /** Where a delivery throws: at the read, at the RUNNING write, or, with the trouble that the rows could not
      be created, at the report. */
  datatype Exit = AtRead | AtBegin | AtReport

  ghost function FailingDelivery(exit: Exit, reply: Reply): seq<Event> {
    var ok, refused := Await(Fine, reply), Await(Refused, reply);
    match exit
    case AtRead => [Deliver] + [refused]
    case AtBegin => [Deliver] + [ok] + [refused]
    case AtReport => [Deliver] + [ok] + [ok] + [refused] + [refused]
  }

  ghost function Repeated(delivery: seq<Event>, n: nat): seq<Event> {
    if n == 0 then [] else Repeated(delivery, n - 1) + delivery
  }

  /** Between deliveries, with attempts left. */
  ghost predicate Waiting(p: Plan, s: System) {
    Kept(p, s) && s.worker.phase.Idle? && s.worker.job.Open?
  }

  /** The delivery made its attempt and changed the status to the given one. */
  ghost predicate FailedOnce(p: Plan, s: System, t: System, status: ExecutionStatus) {
    && Kept(p, t) && t.worker.phase.Idle? && Status(p, t) == status
    && t.worker.attemptsMade == s.worker.attemptsMade + 1
    && t.worker.job == if t.worker.attemptsMade >= p.maxAttempts then Exhausted else Open
  }

  lemma RunSnoc(p: Plan, s: System, events: seq<Event>, e: Event)
    ensures Run(p, s, events + [e]) == Tick(p, Run(p, s, events), e)
  {
    assert (events + [e])[..|events + [e]| - 1] == events;
  }

  lemma ReadRefused(p: Plan, s: System, reply: Reply)
    requires Waiting(p, s)
    ensures FailedOnce(p, s, Run(p, s, FailingDelivery(AtRead, reply)), Status(p, s))
  {
    RunOne(p, s, Deliver);
    RunSnoc(p, s, [Deliver], Await(Refused, reply));
  }

  lemma Loads(p: Plan, s: System, reply: Reply)
    requires Waiting(p, s)
    ensures var t := Run(p, s, [Deliver] + [Await(Fine, reply)]);
            && t.worker.phase == Starting && t.db == s.db && t.worker.job.Open?
            && t.worker.attemptsMade == s.worker.attemptsMade
  {
    RunOne(p, s, Deliver);
    RunSnoc(p, s, [Deliver], Await(Fine, reply));
  }

  lemma BeginRefused(p: Plan, s: System, reply: Reply)
    requires Waiting(p, s)
    ensures FailedOnce(p, s, Run(p, s, FailingDelivery(AtBegin, reply)), Status(p, s))
  {
    Loads(p, s, reply);
    RunSnoc(p, s, [Deliver] + [Await(Fine, reply)], Await(Refused, reply));
  }

  lemma Begins(p: Plan, s: System, reply: Reply)
    requires Waiting(p, s)
    ensures var t := Run(p, s, [Deliver] + [Await(Fine, reply)] + [Await(Fine, reply)]);
            && t.worker.phase == Seeding && t.worker.job.Open?
            && t.worker.attemptsMade == s.worker.attemptsMade
            && Kept(p, t) && Status(p, t) == Started
  {
    Loads(p, s, reply);
    RunSnoc(p, s, [Deliver] + [Await(Fine, reply)], Await(Fine, reply));
  }

  /** A report that throws without effect ends the delivery and leaves the status. */
  lemma ReportRefused(p: Plan, s: System, reply: Reply)
    requires Kept(p, s) && s.worker.phase.Reporting? && s.worker.job.Open?
    ensures FailedOnce(p, s, Tick(p, s, Await(Refused, reply)), Status(p, s))
  {
  }

  lemma SeedingAndReportRefused(p: Plan, s: System, reply: Reply)
    requires Waiting(p, s)
    ensures FailedOnce(p, s, Run(p, s, FailingDelivery(AtReport, reply)), Started)
  {
    var ok, refused := Await(Fine, reply), Await(Refused, reply);
    var begun := [Deliver] + [ok] + [ok];
    Begins(p, s, reply);
    RunSnoc(p, s, begun, refused);
    RunSnoc(p, s, begun + [refused], refused);
    var t := StepSeeding(p, Run(p, s, begun), Refused);
    assert Tick(p, Run(p, s, begun), refused) == t && t.worker.phase.Reporting?;
    ReportRefused(p, t, reply);
  }

  /** One delivery that fails like this. */
  lemma FailsOnce(p: Plan, s: System, exit: Exit, reply: Reply)
    requires Waiting(p, s)
    ensures var t := Run(p, s, FailingDelivery(exit, reply));
            FailedOnce(p, s, t, if exit.AtReport? then Started else Status(p, s))
  {
    match exit
    case AtRead => ReadRefused(p, s, reply);
    case AtBegin => BeginRefused(p, s, reply);
    case AtReport => SeedingAndReportRefused(p, s, reply);
  }

  /** `n` deliveries that fail like this. */
  lemma {:induction false} FailsRepeatedly(p: Plan, s: System, exit: Exit, reply: Reply, n: nat)
    requires Initial(p, s) && n <= Allowed(p)
    ensures var t := Run(p, s, Repeated(FailingDelivery(exit, reply), n));
            && Kept(p, t) && t.worker.phase.Idle? && t.worker.attemptsMade == n
            && t.worker.job == (if n == Allowed(p) then Exhausted else Open)
            && Status(p, t) == if exit.AtReport? && n > 0 then Started else Queued
    decreases n
  {
    if n > 0 {
      var delivery := FailingDelivery(exit, reply);
      var front := Repeated(delivery, n - 1);
      FailsRepeatedly(p, s, exit, reply, n - 1);
      FailsOnce(p, Run(p, s, front), exit, reply);
      RunAppend(p, s, front, delivery);
    }
  }

  /** However many attempts a job has: if in each of them the read of the execution throws, or its RUNNING
      write, the job is used up and the execution says QUEUED. */
  lemma {:induction false} NeverBegunStrands(p: Plan, s: System, reply: Reply)
    requires Initial(p, s)
    ensures Stranded(p, Run(p, s, Repeated(FailingDelivery(AtRead, reply), Allowed(p))), Queued)
    ensures Stranded(p, Run(p, s, Repeated(FailingDelivery(AtBegin, reply), Allowed(p))), Queued)
  {
    FailsRepeatedly(p, s, AtRead, reply, Allowed(p));
    FailsRepeatedly(p, s, AtBegin, reply, Allowed(p));
  }

  /** If in each of them the report throws, it says RUNNING. */
  lemma {:induction false} NeverReportedStrands(p: Plan, s: System, reply: Reply)
    requires Initial(p, s)
    ensures Stranded(p, Run(p, s, Repeated(FailingDelivery(AtReport, reply), Allowed(p))), Started)
  {
    FailsRepeatedly(p, s, AtReport, reply, Allowed(p));
  }

  // ---------------------------------------------------------------- SUCCEEDED, and used up

  lemma FineGoesOn(p: Plan, s: System, reply: Reply)
    requires Retry.Ready(p, s) && !s.worker.phase.Idle? && Retry.OnTrack(s.worker.phase) && reply.Answer?
    requires !s.worker.phase.Finishing? && s.worker.job.Open?
    ensures var t := Tick(p, s, Await(Fine, reply));
            && !t.worker.phase.Idle? && Retry.OnTrack(t.worker.phase)
            && t.worker.attemptsMade == s.worker.attemptsMade && t.worker.job.Open?
  {
  }

  /** Fault-free calls bring a delivery to its SUCCEEDED write. */
  lemma {:induction false} ReachesFinishing(p: Plan, s: System) returns (events: seq<Event>)
    requires Inv(p, s) && !s.worker.phase.Idle? && Retry.OnTrack(s.worker.phase) && s.worker.job.Open?
    ensures var t := Run(p, s, events);
            && t.worker.phase.Finishing? && t.worker.job.Open? && t.worker.attemptsMade == s.worker.attemptsMade
            && Kept(p, t)
    decreases Retry.Rank(p, s.worker.phase)
  {
    Retry.InvReady(p, s);
    if s.worker.phase.Finishing? {
      events := [];
    } else {
      var e := Await(Fine, Answer(map[]));
      Retry.RankFalls(p, s, Fine, e.reply);
      FineGoesOn(p, s, e.reply);
      RunOne(p, s, e);
      RunKeeps(p, s, [e]);
      var tail := ReachesFinishing(p, Tick(p, s, e));
      events := [e] + tail;
      RunAppend(p, s, [e], tail);
    }
  }

  /** The SUCCEEDED write throws after its effect, and the report without effect. */
  lemma LostAndRefused(p: Plan, s: System, reply: Reply)
    requires Kept(p, s) && s.worker.phase.Finishing? && s.worker.job.Open?
    ensures FailedOnce(p, s, Run(p, s, [Await(Lost, reply)] + [Await(Refused, reply)]), Succeeded)
  {
    RunOne(p, s, Await(Lost, reply));
    RunSnoc(p, s, [Await(Lost, reply)], Await(Refused, reply));
    var t := StepFinishing(p, s, Lost);
    assert Tick(p, s, Await(Lost, reply)) == t && t.worker.phase.Reporting? && Kept(p, t);
    assert Status(p, t) == Succeeded;
    ReportRefused(p, t, reply);
  }

  /** SUCCEEDED does not mean that the job completed. For every workflow with distinct step ids and any number
      of attempts there is a run in which every attempt failed and the job is used up, and the execution
      says SUCCEEDED for ever: the last attempt's SUCCEEDED write throws after its effect, and its report
      throws without. */
  lemma {:induction false} SucceededThoughUsedUp(p: Plan, s: System) returns (events: seq<Event>)
    requires p.DistinctIds() && Initial(p, s)
    ensures Stranded(p, Run(p, s, events), Succeeded)
    ensures forall later :: Run(p, s, events + later) == Run(p, s, events)
  {
    var reply := Answer(map[]);
    var front := Repeated(FailingDelivery(AtRead, reply), Allowed(p) - 1);
    FailsRepeatedly(p, s, AtRead, reply, Allowed(p) - 1);
    var u := Run(p, s, front);
    RunOne(p, u, Deliver);
    RunSnoc(p, s, front, Deliver);
    Reachable(p, s, front + [Deliver]);
    var walk := ReachesFinishing(p, Run(p, s, front + [Deliver]));
    var end := [Await(Lost, reply)] + [Await(Refused, reply)];
    LostAndRefused(p, Run(p, Run(p, s, front + [Deliver]), walk), reply);
    RunAppend(p, s, front + [Deliver], walk);
    RunAppend(p, s, front + [Deliver] + walk, end);
    events := front + [Deliver] + walk + end;
    forall later ensures Run(p, s, events + later) == Run(p, s, events) {
      RunAppend(p, s, events, later);
      OverIsOver(p, Run(p, s, events), later);
    }
  }
}

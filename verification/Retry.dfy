/** Deliveries end, retries end, and what they leave in the execution row. */
module Retry {
  import opened Values
  import opened Steps
  import opened Faults
  import opened Machine
  import opened Invariant
  import opened Resume

  // ---------------------------------------------------------------- one delivery ends

  function Left(p: Plan, i: nat): nat {
    if i < p.Size() then 4 * (p.Size() - i) else 0
  }

  /** How many awaited calls the delivery can still make. */
  function Rank(p: Plan, phase: Phase): nat {
    match phase
    case Idle => 0
    case Reporting(_) => 1
    case Failing(_, _) => 2
    case Finishing => 2
    case Skipping(_) => 3
    case Saving(i, _, _, _) => Left(p, i)
    case Calling(i, _) => Left(p, i) + 1
    case Marking(i, _, _) => Left(p, i) + 2
    case Looking(i, _) => Left(p, i) + 3
    case Seeding => 4 * p.Size() + 4
    case Starting => 4 * p.Size() + 5
    case Loading => 4 * p.Size() + 6
  }

  /** The step a phase is about exists. */
  ghost predicate Placed(p: Plan, phase: Phase) {
    match phase
    case Looking(i, _) => i < p.Size()
    case Marking(i, _, _) => i < p.Size()
    case Calling(i, _) => i < p.Size()
    case Saving(i, _, _, _) => i < p.Size()
    case Failing(i, _) => i < p.Size()
    case _ => true
  }

  lemma RankFallsBeforeCall(p: Plan, s: System, f: Fault, reply: Reply)
    requires Placed(p, s.worker.phase)
    requires s.worker.phase.Seeding? || s.worker.phase.Looking? || s.worker.phase.Marking? || s.worker.phase.Calling?
    ensures Rank(p, Tick(p, s, Await(f, reply)).worker.phase) < Rank(p, s.worker.phase)
  {
  }

  lemma RankFallsAfterCall(p: Plan, s: System, f: Fault, reply: Reply)
    requires Placed(p, s.worker.phase)
    requires s.worker.phase.Saving? || s.worker.phase.Skipping? || s.worker.phase.Failing? || s.worker.phase.Finishing?
    ensures Rank(p, Tick(p, s, Await(f, reply)).worker.phase) < Rank(p, s.worker.phase)
  {
  }

  /** Every awaited call brings a delivery closer to its end, whatever happens to it. */
  lemma RankFalls(p: Plan, s: System, f: Fault, reply: Reply)
    requires Placed(p, s.worker.phase) && !s.worker.phase.Idle?
    ensures Rank(p, Tick(p, s, Await(f, reply)).worker.phase) < Rank(p, s.worker.phase)
  {
    match s.worker.phase
    case Loading | Starting | Reporting(_) =>
    case Seeding | Looking(_, _) | Marking(_, _, _) | Calling(_, _) => RankFallsBeforeCall(p, s, f, reply);
    case _ => RankFallsAfterCall(p, s, f, reply);
  }

  // ---------------------------------------------------------------- a delivery without faults

  ghost predicate OnTrack(phase: Phase) {
    !phase.Reporting? && !phase.Failing?
  }

  /** The reply an HTTP step gets at its turn. */
  function ReplyFor(phase: Phase, answers: seq<WorkflowData>): Reply {
    if phase.Calling? && phase.i < |answers| then Answer(answers[phase.i]) else Answer(map[])
  }

  /** The records the next call needs are there. */
  ghost predicate Ready(p: Plan, s: System) {
    && Placed(p, s.worker.phase)
    && p.executionId in s.db.executions
    && match s.worker.phase
       case Looking(i, _) =>
         var found := Lookup(s.db.rows, p.KeyOf(i));
         found.Some? && found.value.status == SUCCEEDED ==> found.value.output.Some?
       case Marking(i, _, _) => p.KeyOf(i) in s.db.rows
       case Saving(i, _, _, _) => p.KeyOf(i) in s.db.rows
       case _ => true
  }

  lemma InvReady(p: Plan, s: System)
    requires Inv(p, s)
    ensures Ready(p, s) && (!s.worker.phase.Idle? ==> s.worker.job.Open?)
  {
    var k: nat, rest :| InvAt(p, s, k, rest);
    if s.worker.phase.Looking? && s.worker.phase.i < k {
      assert Recorded(p, s.db.rows, s.worker.calls, s.worker.phase.i);
    }
  }

  lemma StaysOnTrack(p: Plan, s: System, reply: Reply)
    requires Ready(p, s) && !s.worker.phase.Idle? && OnTrack(s.worker.phase) && reply.Answer?
    ensures var t := Tick(p, s, Await(Fine, reply));
            && OnTrack(t.worker.phase)
            && (t.worker.phase.Idle? ==> HasSucceeded(p, t) && t.worker.job.Completed?)
            && t.worker.base == (if s.worker.phase.Starting? then Frontier(p, s.db.rows) else s.worker.base)
            && (s.worker.phase.Loading? ==> t.worker.phase.Starting? && t.db == s.db)
            && !t.worker.phase.Loading? && (t.worker.phase.Starting? ==> s.worker.phase.Loading?)
  {
  }

  /** From anywhere on track, fault-free calls lead to success. */
  lemma {:induction false} CleanTail(p: Plan, s: System, answers: seq<WorkflowData>) returns (events: seq<Event>)
    requires Inv(p, s) && !s.worker.phase.Idle? && OnTrack(s.worker.phase)
    ensures forall j | 0 <= j < |events| :: events[j].Await? && events[j].fault.Fine?
    ensures HasSucceeded(p, Run(p, s, events)) && Run(p, s, events).worker.job.Completed?
    ensures Run(p, s, events).worker.base ==
            if s.worker.phase.Loading? || s.worker.phase.Starting? then Frontier(p, s.db.rows) else s.worker.base
    decreases Rank(p, s.worker.phase)
  {
    var e := Await(Fine, ReplyFor(s.worker.phase, answers));
    var t := Tick(p, s, e);
    InvReady(p, s);
    RankFalls(p, s, Fine, e.reply);
    StaysOnTrack(p, s, e.reply);
    RunOne(p, s, e);
    RunKeeps(p, s, [e]);
    if t.worker.phase.Idle? {
      events := [e];
    } else {
      var tail := CleanTail(p, t, answers);
      events := [e] + tail;
      RunAppend(p, s, [e], tail);
    }
  }

  /** A fault-free delivery succeeds from every reachable state in which the job is still open, and
      what it leaves is the fold that waves through the filters it found recorded. */
  lemma {:induction false} CleanDelivery(p: Plan, s0: System, before: seq<Event>, answers: seq<WorkflowData>)
    returns (events: seq<Event>)
    requires p.DistinctIds() && Initial(p, s0)
    requires Run(p, s0, before).worker.phase.Idle? && Run(p, s0, before).worker.job.Open?
    ensures events != [] && events[0] == Deliver
    ensures forall j | 1 <= j < |events| :: events[j].Await? && events[j].fault.Fine?
    ensures var s, t := Run(p, s0, before), Run(p, s0, before + events);
            && HasSucceeded(p, t) && t.worker.job.Completed?
            && Endings(p, t.db.rows) == Fold(p, 0, p.payload, Answers(p, t.db.rows), Frontier(p, s.db.rows))
  {
    var s := Run(p, s0, before);
    Reachable(p, s0, before);
    RunOne(p, s, Deliver);
    var d := Tick(p, s, Deliver);
    RunKeeps(p, s, [Deliver]);
    var tail := CleanTail(p, d, answers);
    events := [Deliver] + tail;
    RunAppend(p, s, [Deliver], tail);
    RunAppend(p, s0, before, events);
    SuccessIsFold(p, s0, before + events);
  }

  // ---------------------------------------------------------------- retries end

  ghost function AttemptsLeft(p: Plan, w: Worker): nat {
    if w.attemptsMade < p.maxAttempts then p.maxAttempts - w.attemptsMade else 0
  }

  /** Attempts left first, then calls left in this delivery, folded into one number. */
  ghost function Potential(p: Plan, s: System): nat {
    if !s.worker.job.Open? then 0
    else AttemptsLeft(p, s.worker) * (4 * p.Size() + 8)
         + (if s.worker.phase.Idle? then 4 * p.Size() + 7 else Rank(p, s.worker.phase))
  }

  /** The event is the next thing to happen to the job, and the worker survives it. */
  ghost predicate Effective(s: System, e: Event) {
    match e
    case Deliver => s.worker.phase.Idle? && s.worker.job.Open?
    case Await(f, _) => !s.worker.phase.Idle? && !Dies(f)
  }

  ghost predicate EffectiveRun(p: Plan, s: System, events: seq<Event>)
    decreases |events|
  {
    events == [] ||
    (EffectiveRun(p, s, events[..|events| - 1]) && Effective(Run(p, s, events[..|events| - 1]), events[|events| - 1]))
  }

  /** A call the worker survives either stays in the delivery, completes the job, or costs an attempt. */
  ghost predicate Leaves(p: Plan, w: Worker, f: Fault, t: Worker) {
    && t.deliveries == w.deliveries
    && if t.phase.Idle? && !t.job.Completed?
       then t.attemptsMade == w.attemptsMade + 1 && (t.job.Exhausted? <==> t.attemptsMade >= p.maxAttempts)
            && (w.phase.Loading? || w.phase.Starting? || w.phase.Reporting?)
       else t.attemptsMade == w.attemptsMade && (t.job.Open? <==> !t.phase.Idle?)
            && (t.job.Completed? ==> w.phase.Finishing? && f.Fine?)
  }

  ghost predicate AtEdge(phase: Phase) {
    phase.Loading? || phase.Starting? || phase.Reporting? || phase.Finishing?
  }

  lemma LeavesInside(p: Plan, s: System, f: Fault, reply: Reply)
    requires Ready(p, s) && s.worker.job.Open? && !s.worker.phase.Idle? && !AtEdge(s.worker.phase) && !Dies(f)
    ensures Leaves(p, s.worker, f, Tick(p, s, Await(f, reply)).worker)
  {
  }

  lemma LeavesEdge(p: Plan, s: System, f: Fault, reply: Reply)
    requires Ready(p, s) && s.worker.job.Open? && AtEdge(s.worker.phase) && !Dies(f)
    ensures Leaves(p, s.worker, f, Tick(p, s, Await(f, reply)).worker)
  {
  }

  lemma LeavesDelivery(p: Plan, s: System, f: Fault, reply: Reply)
    requires Ready(p, s) && s.worker.job.Open? && !s.worker.phase.Idle? && !Dies(f)
    ensures Leaves(p, s.worker, f, Tick(p, s, Await(f, reply)).worker)
  {
    if AtEdge(s.worker.phase) {
      LeavesEdge(p, s, f, reply);
    } else {
      LeavesInside(p, s, f, reply);
    }
  }

  /** A delivery that ends costs an attempt, a call inside it costs rank. */
  lemma LeavingCosts(p: Plan, s: System, f: Fault, t: System)
    requires s.worker.job.Open? && !s.worker.phase.Idle? && Leaves(p, s.worker, f, t.worker)
    requires Rank(p, t.worker.phase) < Rank(p, s.worker.phase)
    ensures Potential(p, t) < Potential(p, s)
  {
    var c := 4 * p.Size() + 8;
    if t.worker.job.Open? && t.worker.phase.Idle? {
      Costs(AttemptsLeft(p, t.worker), AttemptsLeft(p, s.worker), c);
    } else {
      assert AttemptsLeft(p, s.worker) * c >= 0;
    }
  }

  lemma Costs(a: nat, b: nat, c: nat)
    requires a < b
    ensures a * c + c <= b * c
  {
    assert b * c == (a + 1) * c + (b - a - 1) * c;
  }

  lemma PotentialFalls(p: Plan, s: System, e: Event)
    requires Inv(p, s) && Effective(s, e)
    ensures Potential(p, Tick(p, s, e)) < Potential(p, s)
  {
    InvReady(p, s);
    if e.Await? {
      LeavesDelivery(p, s, e.fault, e.reply);
      RankFalls(p, s, e.fault, e.reply);
      LeavingCosts(p, s, e.fault, Tick(p, s, e));
    }
  }

  /** Retries end: without worker deaths a job goes through at most this many steps. */
  lemma {:induction false} RetriesEnd(p: Plan, s: System, events: seq<Event>)
    requires p.DistinctIds() && Initial(p, s) && EffectiveRun(p, s, events)
    ensures |events| < (p.maxAttempts + 1) * (4 * p.Size() + 8)
  {
    EffectiveSpends(p, s, events);
    assert p.maxAttempts * (4 * p.Size() + 8) + (4 * p.Size() + 8) == (p.maxAttempts + 1) * (4 * p.Size() + 8);
  }

  lemma {:induction false} EffectiveSpends(p: Plan, s: System, events: seq<Event>)
    requires p.DistinctIds() && Initial(p, s) && EffectiveRun(p, s, events)
    ensures |events| + Potential(p, Run(p, s, events)) <= Potential(p, s)
    decreases |events|
  {
    if events != [] {
      var n := |events| - 1;
      EffectiveSpends(p, s, events[..n]);
      Reachable(p, s, events[..n]);
      PotentialFalls(p, Run(p, s, events[..n]), events[n]);
    }
  }
}

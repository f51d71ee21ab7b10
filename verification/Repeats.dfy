/** Why step ids must be distinct: a step that repeats an id is never started, so a run that succeeds has run
    every step exactly when no id is repeated. Nothing here assumes distinct ids. */
module Repeats {
  import opened Values
  import opened Steps
  import opened Faults
  import opened Machine
  import opened Invariant
  import opened Resume
  import Work

  /** An earlier step has the id of step `j`. */
  ghost predicate IsRepeat(p: Plan, j: nat) {
    j < p.Size() && exists i | 0 <= i < j :: p.steps[i].id == p.steps[j].id
  }

  ghost predicate AllDone(p: Plan, rows: map<Key, Row>, n: nat)
    requires n <= p.Size()
  {
    forall i | 0 <= i < n :: IsSucceeded(p, rows, i)
  }

  ghost predicate InStep(phase: Phase) {
    phase.Marking? || phase.Calling? || phase.Saving? || phase.Failing?
  }

  /** Behind a delivery that looks at a step every row is SUCCEEDED, and one that acts on a step acts on the
      first with its id. */
  ghost predicate Onwards(p: Plan, rows: map<Key, Row>, phase: Phase) {
    && (phase.Looking? ==> phase.i < p.Size() && AllDone(p, rows, phase.i))
    && (InStep(phase) ==> phase.i < p.Size() && AllDone(p, rows, phase.i) && !IsRepeat(p, phase.i))
    && (phase.Skipping? ==> phase.i < p.Size() && AllDone(p, rows, phase.i) && !IsRepeat(p, phase.i))
  }

  ghost predicate NoRepeat(p: Plan, w: Worker) {
    && (forall m | 0 <= m < |w.starts| :: !IsRepeat(p, w.starts[m]))
    && (forall m | 0 <= m < |w.calls| :: !IsRepeat(p, w.calls[m].i))
  }

  ghost predicate Firsts(p: Plan, s: System) {
    Onwards(p, s.db.rows, s.worker.phase) && NoRepeat(p, s.worker)
  }

  /** A step whose row is not SUCCEEDED while all before it are is no repeat. */
  lemma OpenIsFirst(p: Plan, rows: map<Key, Row>, i: nat)
    requires i < p.Size() && AllDone(p, rows, i) && !IsSucceeded(p, rows, i)
    ensures !IsRepeat(p, i)
  {
    forall j | 0 <= j < i ensures p.steps[j].id != p.steps[i].id {
      assert IsSucceeded(p, rows, j);
    }
  }

  /** Writing the row of a step that is no repeat leaves the rows before it as they are. */
  lemma PutBehind(p: Plan, rows: map<Key, Row>, i: nat, row: Row)
    requires i < p.Size() && AllDone(p, rows, i) && !IsRepeat(p, i)
    ensures AllDone(p, rows[p.KeyOf(i) := row], i)
  {
    var rows' := rows[p.KeyOf(i) := row];
    forall j | 0 <= j < i ensures IsSucceeded(p, rows', j) {
      assert IsSucceeded(p, rows, j) && p.steps[j].id != p.steps[i].id;
    }
  }

  lemma LookingGoesOn(p: Plan, s: System, f: Fault)
    requires Firsts(p, s) && s.worker.phase.Looking?
    ensures Firsts(p, StepLooking(p, s, f, s.worker.phase.i, s.worker.phase.data))
  {
    var i := s.worker.phase.i;
    if IsSucceeded(p, s.db.rows, i) {
      assert forall j | 0 <= j < i + 1 :: IsSucceeded(p, s.db.rows, j);
    } else {
      OpenIsFirst(p, s.db.rows, i);
    }
  }

  lemma MarkingGoesOn(p: Plan, s: System, f: Fault)
    requires Firsts(p, s) && s.worker.phase.Marking?
    ensures var phase := s.worker.phase; Firsts(p, StepMarking(p, s, f, phase.i, phase.data, phase.first))
  {
    var i, rows := s.worker.phase.i, s.db.rows;
    if p.KeyOf(i) in rows {
      PutBehind(p, rows, i, Begun(rows[p.KeyOf(i)], s.worker.phase.data, s.worker.phase.first));
    }
  }

  lemma CallingGoesOn(p: Plan, s: System, f: Fault, reply: Reply)
    requires Firsts(p, s) && s.worker.phase.Calling?
    ensures Firsts(p, StepCalling(p, s, f, reply, s.worker.phase.i, s.worker.phase.data))
  {
  }

  lemma SavingGoesOn(p: Plan, s: System, f: Fault)
    requires Firsts(p, s) && s.worker.phase.Saving?
    ensures var phase := s.worker.phase; Firsts(p, StepSaving(p, s, f, phase.i, phase.output, phase.goOn))
  {
    var i, rows := s.worker.phase.i, s.db.rows;
    if p.KeyOf(i) in rows {
      var row := Saved(rows[p.KeyOf(i)], s.worker.phase.output);
      PutBehind(p, rows, i, row);
      assert IsSucceeded(p, rows[p.KeyOf(i) := row], i);
      assert AllDone(p, rows[p.KeyOf(i) := row], i + 1);
    }
  }

  lemma FailingGoesOn(p: Plan, s: System, f: Fault)
    requires Firsts(p, s) && s.worker.phase.Failing?
    ensures Firsts(p, StepFailing(p, s, f, s.worker.phase.i, s.worker.phase.message))
  {
  }

  lemma SeedingGoesOn(p: Plan, s: System, f: Fault)
    requires Firsts(p, s) && s.worker.phase.Seeding?
    ensures Firsts(p, StepSeeding(p, s, f))
  {
  }

  lemma SkippingGoesOn(p: Plan, s: System, f: Fault)
    requires Firsts(p, s) && s.worker.phase.Skipping?
    ensures Firsts(p, StepSkipping(p, s, f, s.worker.phase.i))
  {
    var i, rows := s.worker.phase.i, SkipRest(p, s.db, s.worker.phase.i).rows;
    forall j | 0 <= j < i ensures IsSucceeded(p, rows, j) {
      assert IsSucceeded(p, s.db.rows, j) && p.KeyOf(j) in rows;
    }
  }

  lemma FirstsTick(p: Plan, s: System, e: Event)
    requires Firsts(p, s)
    ensures Firsts(p, Tick(p, s, e))
  {
    if e.Await? {
      match s.worker.phase
      case Looking(_, _) => LookingGoesOn(p, s, e.fault);
      case Marking(_, _, _) => MarkingGoesOn(p, s, e.fault);
      case Calling(_, _) => CallingGoesOn(p, s, e.fault, e.reply);
      case Saving(_, _, _, _) => SavingGoesOn(p, s, e.fault);
      case Failing(_, _) => FailingGoesOn(p, s, e.fault);
      case Seeding => SeedingGoesOn(p, s, e.fault);
      case Skipping(_) => SkippingGoesOn(p, s, e.fault);
      case _ => EdgeGoesOn(p, s, e);
    }
  }

  lemma EdgeGoesOn(p: Plan, s: System, e: Event)
    requires Firsts(p, s) && e.Await?
    requires var phase := s.worker.phase;
             phase.Idle? || phase.Loading? || phase.Starting? || phase.Finishing? || phase.Reporting?
    ensures Firsts(p, Tick(p, s, e))
  {
  }

  /** Repeated ids are skipped silently: in any workflow, under any faults, a step that has the id of an
      earlier step is neither started nor executed, ever. */
  lemma {:induction false} RepeatedIdIsSkipped(p: Plan, s: System, events: seq<Event>)
    requires Initial(p, s)
    ensures var w := Run(p, s, events).worker;
            forall i, j | 0 <= i < j < p.Size() && p.steps[i].id == p.steps[j].id ::
              j !in w.starts && forall c | c in w.calls :: c.i != j
  {
    FirstsRun(p, s, events);
    var w := Run(p, s, events).worker;
    forall i, j | 0 <= i < j < p.Size() && p.steps[i].id == p.steps[j].id
      ensures j !in w.starts && forall c | c in w.calls :: c.i != j
    {
      assert IsRepeat(p, j);
    }
  }

  lemma {:induction false} FirstsRun(p: Plan, s: System, events: seq<Event>)
    requires Initial(p, s)
    ensures Firsts(p, Run(p, s, events))
    decreases |events|
  {
    if events != [] {
      var n := |events| - 1;
      FirstsRun(p, s, events[..n]);
      FirstsTick(p, Run(p, s, events[..n]), events[n]);
    }
  }

  // ---------------------------------------------------------------- when every step is run

  /** No step ever stops the walk; a plan without filters is one. */
  ghost predicate NeverStops(p: Plan) {
    forall i, data: WorkflowData | 0 <= i < p.Size() :: p.Produce(i, data, map[]).goOn
  }

  lemma WithoutFiltersNeverStops(p: Plan)
    requires forall i | 0 <= i < p.Size() :: !p.steps[i].action.Filter?
    ensures NeverStops(p)
  {
  }

  lemma {:induction false} NeverStopsRunsAll(p: Plan, i: nat, data: WorkflowData, answers: seq<WorkflowData>, past: nat)
    requires NeverStops(p) && i <= p.Size() == |answers|
    ensures forall m | 0 <= m < p.Size() - i :: Fold(p, i, data, answers, past)[m].Ran?
    decreases p.Size() - i
  {
    if i < p.Size() {
      GoOnIgnoresAnswer(p, i, data, answers[i]);
      assert p.Produce(i, data, map[]).goOn;
      NeverStopsRunsAll(p, i + 1, p.Produce(i, data, answers[i]).output, answers, past);
    }
  }

  ghost predicate Called(w: Worker, i: nat) { exists c | c in w.calls :: c.i == i }

  /** When every step's row has ended SUCCEEDED, every step was executed if and only if the step ids are
      distinct. */
  lemma {:induction false} AllCalledIffDistinct(p: Plan, s: System, events: seq<Event>)
    requires Initial(p, s) && AllDone(p, Run(p, s, events).db.rows, p.Size())
    ensures (forall i | 0 <= i < p.Size() :: Called(Run(p, s, events).worker, i)) <==> p.DistinctIds()
  {
    var t := Run(p, s, events);
    if p.DistinctIds() {
      forall i | 0 <= i < p.Size() ensures Called(t.worker, i) {
        assert IsSucceeded(p, t.db.rows, i);
        Work.DerivationChain(p, s, events, i);
        var input := if i == 0 then p.payload else t.db.rows[p.KeyOf(i - 1)].output.value;
        assert Call(i, input, t.db.rows[p.KeyOf(i)].output.value) in t.worker.calls;
      }
    } else {
      var _ := RepeatIsUncalled(p, s, events);
    }
  }

  lemma RepeatIsUncalled(p: Plan, s: System, events: seq<Event>) returns (j: nat)
    requires Initial(p, s) && !p.DistinctIds()
    ensures j < p.Size() && !Called(Run(p, s, events).worker, j)
  {
    var i: nat;
    i, j :| i < j < p.Size() && p.steps[i].id == p.steps[j].id;
    FirstsRun(p, s, events);
    NeverCalled(p, Run(p, s, events).worker, j);
  }

  lemma NeverCalled(p: Plan, w: Worker, j: nat)
    requires NoRepeat(p, w) && IsRepeat(p, j)
    ensures !Called(w, j)
  {
    if c :| c in w.calls && c.i == j {
      assert false;
    }
  }

  /** In particular where no step stops the walk, and the execution succeeded. */
  lemma {:induction false} UnstoppedCallsAllIffDistinct(p: Plan, s: System, events: seq<Event>)
    requires Initial(p, s) && NeverStops(p) && HasSucceeded(p, Run(p, s, events))
    ensures (forall i | 0 <= i < p.Size() :: Called(Run(p, s, events).worker, i)) <==> p.DistinctIds()
  {
    var t := Run(p, s, events);
    if p.DistinctIds() {
      SuccessIsFold(p, s, events);
      NeverStopsRunsAll(p, 0, p.payload, Answers(p, t.db.rows), t.worker.base);
      forall i | 0 <= i < p.Size() ensures IsSucceeded(p, t.db.rows, i) {
        assert Endings(p, t.db.rows)[i].Ran?;
      }
      AllCalledIffDistinct(p, s, events);
    } else {
      var _ := RepeatIsUncalled(p, s, events);
    }
  }
}

/** Resuming after faults computes what one uninterrupted walk over the steps computes. */
module Resume {
  import opened Values
  import opened Steps
  import opened Faults
  import opened Machine
  import opened Invariant

  // ---------------------------------------------------------------- reference semantics

  /** How a step ends: it ran, it was skipped, or neither. */
  datatype Ending = Ran(input: WorkflowData, output: WorkflowData) | NotRun | Unfinished

  /** The left fold over the steps: each is fed what the one before made, and a filter that stops ends
      the walk. `answers` are the replies to the HTTP steps; filters before `past` are waved through. */
  function Fold(p: Plan, i: nat, data: WorkflowData, answers: seq<WorkflowData>, past: nat): (endings: seq<Ending>)
    requires i <= p.Size() == |answers|
    ensures |endings| == p.Size() - i
    decreases p.Size() - i
  {
    if i == p.Size() then []
    else
      var o := p.Produce(i, data, answers[i]);
      [Ran(data, o.output)] +
      (if o.goOn || i < past then Fold(p, i + 1, o.output, answers, past) else seq(p.Size() - i - 1, _ => NotRun))
  }

  /** One uninterrupted walk. */
  function Walk(p: Plan, answers: seq<WorkflowData>): seq<Ending>
    requires p.Size() == |answers|
  {
    Fold(p, 0, p.payload, answers, 0)
  }

  // ---------------------------------------------------------------- what the rows say

  ghost function EndingOf(found: Option<Row>): Ending {
    match found
    case Some(Row(SUCCEEDED, Some(input), Some(output), _, _, _)) => Ran(input, output)
    case Some(Row(SKIPPED, _, _, _, _, _)) => NotRun
    case _ => Unfinished
  }

  ghost function Endings(p: Plan, rows: map<Key, Row>): (endings: seq<Ending>)
    ensures |endings| == p.Size()
  {
    seq(p.Size(), i requires 0 <= i < p.Size() => EndingOf(Lookup(rows, p.KeyOf(i))))
  }

  /** The recorded outputs, which for HTTP steps are the answers that counted. */
  ghost function Answers(p: Plan, rows: map<Key, Row>): (answers: seq<WorkflowData>)
    ensures |answers| == p.Size()
  {
    seq(p.Size(), i requires 0 <= i < p.Size() => Flow(p, rows, i + 1))
  }

  // ---------------------------------------------------------------- refinement

  /** Cutting the first step off the fold. */
  lemma FoldStep(p: Plan, rows: map<Key, Row>, calls: seq<Call>, i: nat, past: nat)
    requires i < p.Size() && Recorded(p, rows, calls, i)
    ensures Fold(p, i, Flow(p, rows, i), Answers(p, rows), past) ==
            [Endings(p, rows)[i]] +
            (if Goes(p, rows, i) || i < past then Fold(p, i + 1, Flow(p, rows, i + 1), Answers(p, rows), past)
             else seq(p.Size() - i - 1, _ => NotRun))
  {
    GoOnIgnoresAnswer(p, i, Flow(p, rows, i), Answers(p, rows)[i]);
  }

  lemma SkippedTail(p: Plan, rows: map<Key, Row>, k: nat)
    requires k <= p.Size() && forall j | k <= j < p.Size() :: Untouched(p, rows, j, SKIPPED)
    ensures Endings(p, rows)[k..] == seq(p.Size() - k, _ => NotRun)
  {
    forall j | 0 <= j < p.Size() - k ensures Endings(p, rows)[k..][j] == NotRun {
      assert Untouched(p, rows, k + j, SKIPPED);
    }
  }

  /** The walked steps go on to the next one; the last of them ends the walk if steps follow it. */
  lemma WalkedStep(p: Plan, rows: map<Key, Row>, calls: seq<Call>, base: nat, k: nat, rest: RowStatus, i: nat)
    requires base <= k <= p.Size() && Walked(p, rows, base, k, rest) && i < k && Recorded(p, rows, calls, i)
    ensures var fold := Fold(p, i, Flow(p, rows, i), Answers(p, rows), base);
            if i + 1 == k < p.Size() then fold == [Endings(p, rows)[i]] + seq(p.Size() - k, _ => NotRun)
            else fold == [Endings(p, rows)[i]] + Fold(p, i + 1, Flow(p, rows, i + 1), Answers(p, rows), base)
  {
    FoldStep(p, rows, calls, i, base);
    if i + 1 == k < p.Size() {
      assert !Goes(p, rows, i) && i >= base;
    } else if !Goes(p, rows, i) && i >= base {
      assert i + 1 == p.Size();
    }
  }

  lemma {:induction false} WalkedIsFold(p: Plan, rows: map<Key, Row>, calls: seq<Call>, base: nat, k: nat,
                                        rest: RowStatus, i: nat)
    requires Shape(p, rows, calls, k, rest) && base <= k && Walked(p, rows, base, k, rest)
    requires i < k || i == k == p.Size()
    ensures Fold(p, i, Flow(p, rows, i), Answers(p, rows), base) == Endings(p, rows)[i..]
    decreases p.Size() - i
  {
    if i < k {
      WalkedStep(p, rows, calls, base, k, rest, i);
      assert Endings(p, rows)[i..] == [Endings(p, rows)[i]] + Endings(p, rows)[i + 1..];
      if i + 1 == k < p.Size() {
        SkippedRest(p, rows, calls, base, k, rest);
      } else {
        WalkedIsFold(p, rows, calls, base, k, rest, i + 1);
      }
    }
  }

  lemma SkippedRest(p: Plan, rows: map<Key, Row>, calls: seq<Call>, base: nat, k: nat, rest: RowStatus)
    requires Shape(p, rows, calls, k, rest) && base <= k < p.Size() && Walked(p, rows, base, k, rest)
    ensures Endings(p, rows)[k..] == seq(p.Size() - k, _ => NotRun)
  {
    SkippedTail(p, rows, k);
  }

  ghost predicate HasSucceeded(p: Plan, s: System) {
    p.executionId in s.db.executions && s.db.executions[p.executionId].status == Succeeded
  }

  /** Exact result, under every fault: when an execution has SUCCEEDED, all its rows are SUCCEEDED or SKIPPED
      and are the fold that waves through the filters recorded before the last delivery got under way;
      what each step made was really returned by a call on that input. */
  lemma {:induction false} SuccessIsFold(p: Plan, s: System, events: seq<Event>)
    requires p.DistinctIds() && Initial(p, s)
    requires HasSucceeded(p, Run(p, s, events))
    ensures var t := Run(p, s, events);
            && Endings(p, t.db.rows) == Fold(p, 0, p.payload, Answers(p, t.db.rows), t.worker.base)
            && (forall i | 0 <= i < p.Size() :: Endings(p, t.db.rows)[i] != Unfinished)
            && forall i | 0 <= i < p.Size() && Endings(p, t.db.rows)[i].Ran? ::
                 Call(i, Endings(p, t.db.rows)[i].input, Endings(p, t.db.rows)[i].output) in t.worker.calls
  {
    Reachable(p, s, events);
    var t := Run(p, s, events);
    var k: nat, rest :| InvAt(p, t, k, rest);
    SucceededShape(p, t, k, rest);
    SucceededIsFold(p, t, k, rest);
    RanWereCalled(p, t, k, rest);
  }

  lemma SucceededIsFold(p: Plan, t: System, k: nat, rest: RowStatus)
    requires InvAt(p, t, k, rest) && HasSucceeded(p, t)
    requires Shape(p, t.db.rows, t.worker.calls, k, rest) && (k == p.Size() || k > 0)
    ensures Endings(p, t.db.rows) == Fold(p, 0, p.payload, Answers(p, t.db.rows), t.worker.base)
  {
    WalkedIsFold(p, t.db.rows, t.worker.calls, t.worker.base, k, rest, 0);
    assert Endings(p, t.db.rows)[0..] == Endings(p, t.db.rows);
  }

  lemma RanWereCalled(p: Plan, t: System, k: nat, rest: RowStatus)
    requires Shape(p, t.db.rows, t.worker.calls, k, rest)
    requires forall i | k <= i < p.Size() :: Endings(p, t.db.rows)[i] == NotRun
    ensures forall i | 0 <= i < p.Size() && Endings(p, t.db.rows)[i].Ran? ::
              Call(i, Endings(p, t.db.rows)[i].input, Endings(p, t.db.rows)[i].output) in t.worker.calls
  {
    forall i | 0 <= i < p.Size() && Endings(p, t.db.rows)[i].Ran?
      ensures Call(i, Endings(p, t.db.rows)[i].input, Endings(p, t.db.rows)[i].output) in t.worker.calls
    {
      assert Recorded(p, t.db.rows, t.worker.calls, i);
    }
  }

  lemma SucceededShape(p: Plan, t: System, k: nat, rest: RowStatus)
    requires InvAt(p, t, k, rest) && HasSucceeded(p, t)
    ensures Shape(p, t.db.rows, t.worker.calls, k, rest)
    ensures k == p.Size() || (k > 0 && rest == SKIPPED)
    ensures forall i | 0 <= i < k :: Endings(p, t.db.rows)[i].Ran?
    ensures forall i | k <= i < p.Size() :: Endings(p, t.db.rows)[i] == NotRun
  {
    forall i | 0 <= i < k ensures Endings(p, t.db.rows)[i].Ran? {
      assert Recorded(p, t.db.rows, t.worker.calls, i);
    }
    forall i | k <= i < p.Size() ensures Endings(p, t.db.rows)[i] == NotRun {
      assert Untouched(p, t.db.rows, i, SKIPPED);
    }
  }

  // ---------------------------------------------------------------- when it is the uninterrupted walk

  /** Waving filters through changes nothing while none of them stops with steps behind it. */
  lemma {:induction false} PastIsHarmless(p: Plan, rows: map<Key, Row>, calls: seq<Call>, k: nat, past: nat, i: nat)
    requires i <= k <= p.Size() && past <= k && !StopBefore(p, rows, past)
    requires forall j | 0 <= j < k :: Recorded(p, rows, calls, j)
    ensures Fold(p, i, Flow(p, rows, i), Answers(p, rows), past) == Fold(p, i, Flow(p, rows, i), Answers(p, rows), 0)
    decreases k - i
  {
    if i < past {
      FoldStep(p, rows, calls, i, past);
      FoldStep(p, rows, calls, i, 0);
      PastIsHarmless(p, rows, calls, k, past, i + 1);
      assert Goes(p, rows, i) || i + 1 == p.Size();
    } else {
      SamePast(p, i, Flow(p, rows, i), Answers(p, rows), past);
    }
  }

  lemma {:induction false} SamePast(p: Plan, i: nat, data: WorkflowData, answers: seq<WorkflowData>, past: nat)
    requires past <= i <= p.Size() == |answers|
    ensures Fold(p, i, data, answers, past) == Fold(p, i, data, answers, 0)
    decreases p.Size() - i
  {
    if i < p.Size() {
      SamePast(p, i + 1, p.Produce(i, data, answers[i]).output, answers, past);
    }
  }

  /** Behind a step the fold either goes on or has run nothing. */
  lemma FoldBehind(p: Plan, rows: map<Key, Row>, calls: seq<Call>, i: nat)
    requires i + 1 < p.Size() && Recorded(p, rows, calls, i)
    ensures var fold := Fold(p, i, Flow(p, rows, i), Answers(p, rows), 0);
            var next := Fold(p, i + 1, Flow(p, rows, i + 1), Answers(p, rows), 0);
            forall m | 0 <= m < |next| :: fold[m + 1] == if Goes(p, rows, i) then next[m] else NotRun
  {
    FoldStep(p, rows, calls, i, 0);
  }

  /** The uninterrupted walk from step `i` does not run the step behind a filter that stops, `m` steps on. */
  lemma {:induction false} WalkStops(p: Plan, rows: map<Key, Row>, calls: seq<Call>, i: nat, m: nat)
    requires i + m + 1 < p.Size() && !Goes(p, rows, i + m)
    requires forall j | i <= j <= i + m :: Recorded(p, rows, calls, j)
    ensures Fold(p, i, Flow(p, rows, i), Answers(p, rows), 0)[m + 1] == NotRun
    decreases m
  {
    FoldBehind(p, rows, calls, i);
    if m > 0 {
      WalkStops(p, rows, calls, i + 1, m - 1);
    }
  }

  /** A run that succeeds ends in the uninterrupted walk exactly when its last delivery did not get
      under way past a recorded stop, that is past a SUCCEEDED filter that had stopped with steps
      behind it. */
  lemma {:induction false} AgreesIff(p: Plan, s: System, events: seq<Event>)
    requires p.DistinctIds() && Initial(p, s) && HasSucceeded(p, Run(p, s, events))
    ensures var t := Run(p, s, events);
            Endings(p, t.db.rows) == Walk(p, Answers(p, t.db.rows)) <==> !t.worker.crossed
  {
    SuccessIsFold(p, s, events);
    Reachable(p, s, events);
    var t := Run(p, s, events);
    var rows, base := t.db.rows, t.worker.base;
    var k: nat, rest :| InvAt(p, t, k, rest);
    SucceededShape(p, t, k, rest);
    if t.worker.crossed {
      var j: nat :| j < base && j + 1 < p.Size() && !Goes(p, rows, j);
      WalkStops(p, rows, t.worker.calls, 0, j);
      assert j + 1 < k;
      assert Endings(p, rows)[j + 1].Ran?;
    } else {
      PastIsHarmless(p, rows, t.worker.calls, k, base, 0);
    }
  }

  ghost predicate OnlyPure(p: Plan) {
    forall i | 0 <= i < p.Size() :: !p.steps[i].action.HttpRequest?
  }

  lemma {:induction false} PureFold(p: Plan, i: nat, data: WorkflowData, a: seq<WorkflowData>, b: seq<WorkflowData>,
                                    past: nat)
    requires OnlyPure(p) && i <= p.Size() == |a| == |b|
    ensures Fold(p, i, data, a, past) == Fold(p, i, data, b, past)
    decreases p.Size() - i
  {
    if i < p.Size() {
      PureFold(p, i + 1, p.Produce(i, data, a[i]).output, a, b, past);
    }
  }

  /** With TRANSFORM and FILTER steps only there is one uninterrupted walk, whatever the answers, and a run
      that succeeds ends in it if and only if its last delivery did not get under way past a recorded
      stop. */
  lemma {:induction false} PureRunIff(p: Plan, s: System, events: seq<Event>, answers: seq<WorkflowData>)
    requires p.DistinctIds() && OnlyPure(p) && Initial(p, s) && HasSucceeded(p, Run(p, s, events))
    requires |answers| == p.Size()
    ensures var t := Run(p, s, events); Endings(p, t.db.rows) == Walk(p, answers) <==> !t.worker.crossed
  {
    AgreesIff(p, s, events);
    PureFold(p, 0, p.payload, Answers(p, Run(p, s, events).db.rows), answers, 0);
  }

  /** With TRANSFORM and FILTER steps only, all runs that succeed without passing a recorded stop end
      in the same rows, wherever their faults fell. */
  lemma {:induction false} PureRunsAgree(p: Plan, s1: System, run1: seq<Event>, s2: System, run2: seq<Event>)
    requires p.DistinctIds() && OnlyPure(p) && Initial(p, s1) && Initial(p, s2)
    requires HasSucceeded(p, Run(p, s1, run1)) && HasSucceeded(p, Run(p, s2, run2))
    requires !Run(p, s1, run1).worker.crossed && !Run(p, s2, run2).worker.crossed
    ensures Endings(p, Run(p, s1, run1).db.rows) == Endings(p, Run(p, s2, run2).db.rows)
  {
    AgreesIff(p, s1, run1);
    AgreesIff(p, s2, run2);
    PureFold(p, 0, p.payload, Answers(p, Run(p, s1, run1).db.rows), Answers(p, Run(p, s2, run2).db.rows), 0);
  }
}

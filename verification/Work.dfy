/** Where finished rows come from, and how much work retries repeat. */
module Work {
  import opened Values
  import opened Steps
  import opened Faults
  import opened Machine
  import opened Invariant

  // ---------------------------------------------------------------- what a finished row says

  /** Derivation chain: whenever a row is SUCCEEDED, all rows before it are, its input is the output
      recorded before it (the trigger payload for the first), its output is what the step makes of that
      input, and a call that really happened returned it. */
  lemma {:induction false} DerivationChain(p: Plan, s: System, events: seq<Event>, i: nat)
    requires p.DistinctIds() && Initial(p, s) && i < p.Size()
    requires var rows := Run(p, s, events).db.rows;
             p.KeyOf(i) in rows && rows[p.KeyOf(i)].status == SUCCEEDED
    ensures var t := Run(p, s, events);
            var rows := t.db.rows;
            && (forall j | 0 <= j < i :: p.KeyOf(j) in rows && rows[p.KeyOf(j)].status == SUCCEEDED)
            && (i > 0 ==> rows[p.KeyOf(i - 1)].output.Some?)
            && var input := if i == 0 then p.payload else rows[p.KeyOf(i - 1)].output.value;
            && rows[p.KeyOf(i)].input == Some(input)
            && rows[p.KeyOf(i)].output.Some?
            && var output := rows[p.KeyOf(i)].output.value;
            && output == p.Produce(i, input, output).output
            && Call(i, input, output) in t.worker.calls
  {
    Reachable(p, s, events);
    var t := Run(p, s, events);
    var k: nat, rest :| InvAt(p, t, k, rest);
    SucceededIsRecorded(p, t, k, rest, i);
    RecordedChain(p, t.db.rows, t.worker.calls, i);
    assert Recorded(p, t.db.rows, t.worker.calls, i);
  }

  lemma SucceededIsRecorded(p: Plan, t: System, k: nat, rest: RowStatus, i: nat)
    requires InvAt(p, t, k, rest) && i < p.Size()
    requires p.KeyOf(i) in t.db.rows && t.db.rows[p.KeyOf(i)].status == SUCCEEDED
    ensures forall j | 0 <= j <= i :: Recorded(p, t.db.rows, t.worker.calls, j)
  {
    forall j | k < j < p.Size() ensures p.KeyOf(j) in t.db.rows && t.db.rows[p.KeyOf(j)].status == rest {
      assert Untouched(p, t.db.rows, j, rest);
    }
    assert i < k;
  }

  lemma RecordedChain(p: Plan, rows: map<Key, Row>, calls: seq<Call>, i: nat)
    requires i < p.Size() && forall j | 0 <= j <= i :: Recorded(p, rows, calls, j)
    ensures forall j | 0 <= j < i :: p.KeyOf(j) in rows && rows[p.KeyOf(j)].status == SUCCEEDED
    ensures i > 0 ==> rows[p.KeyOf(i - 1)].output == Some(Flow(p, rows, i))
  {
    forall j | 0 <= j < i ensures p.KeyOf(j) in rows && rows[p.KeyOf(j)].status == SUCCEEDED {
      assert Recorded(p, rows, calls, j);
    }
    if i > 0 {
      assert Recorded(p, rows, calls, i - 1);
    }
  }

  // ---------------------------------------------------------------- how often steps start

  ghost function Times(starts: seq<nat>, i: nat): nat {
    multiset(starts)[i]
  }

  lemma TimesAppend(starts: seq<nat>, i: nat)
    ensures forall j :: Times(starts + [i], j) == Times(starts, j) + (if j == i then 1 else 0)
  {
  }

  /** The delivery may still start step `i`. */
  ghost predicate MayStart(phase: Phase, i: nat) {
    match phase
    case Loading => true
    case Starting => true
    case Seeding => true
    case Looking(j, _) => j <= i
    case Marking(j, _, _) => j <= i
    case Calling(j, _) => j < i
    case Saving(j, _, _, _) => j < i
    case _ => false
  }

  /** The delivery has no start without a finish. */
  ghost predicate Clean(phase: Phase, k: nat) {
    match phase
    case Idle => false
    case Reporting(_) => false
    case Calling(_, _) => false
    case Saving(_, _, _, _) => false
    case Failing(i, _) => k == i + 1
    case _ => true
  }

  /** A step is started and its finish is not recorded. */
  ghost predicate StepOpen(phase: Phase, k: nat) {
    match phase
    case Calling(_, _) => true
    case Saving(_, _, _, _) => true
    case Failing(i, _) => k == i
    case _ => false
  }

  /** Step `i` was started at most once a delivery; its row counts the starts, one too many only where
      a delivery went past a recorded stop and revived a SKIPPED row. */
  ghost predicate Counted(p: Plan, s: System, i: nat)
    requires i < p.Size()
  {
    var n, d := Times(s.worker.starts, i), s.worker.deliveries;
    && n <= d
    && (MayStart(s.worker.phase, i) ==> n < d)
    && (p.KeyOf(i) in s.db.rows ==>
          var attempt := s.db.rows[p.KeyOf(i)].attempt;
          && (n == 0 ==> s.db.rows[p.KeyOf(i)].status in {PENDING, SKIPPED})
          && (n > 0 ==> s.db.rows[p.KeyOf(i)].status in {RUNNING, SUCCEEDED, FAILED})
          && (n > 0 ==> n <= attempt <= n + 1 && (!s.worker.everCrossed ==> attempt == n)))
    && (p.KeyOf(i) !in s.db.rows ==> n == 0)
  }

  ghost predicate Budget(p: Plan, s: System, k: nat) {
    && |s.worker.starts| + (if Clean(s.worker.phase, k) || s.worker.job.Completed? then 1 else 0)
       <= k + s.worker.deliveries
    && k + (if StepOpen(s.worker.phase, k) then 1 else 0) <= |s.worker.starts|
    && (forall i | 0 <= i < p.Size() :: Counted(p, s, i))
  }

  /** A row started out of PENDING or SKIPPED: the second only behind a recorded stop. */
  lemma StartsFresh(p: Plan, s: System, k: nat, rest: RowStatus)
    requires InvAt(p, s, k, rest) && s.worker.phase.Marking?
    ensures k < p.Size() && p.KeyOf(k) in s.db.rows && s.worker.phase.i == k
    ensures var row := s.db.rows[p.KeyOf(k)];
            && row.status in {PENDING, SKIPPED, RUNNING, FAILED}
            && (row.status in {PENDING, SKIPPED} ==> row.attempt == 1)
            && (row.status == SKIPPED ==> s.worker.everCrossed)
            && (s.worker.phase.first <==> row.status == PENDING)
  {
  }

  lemma BudgetMarking(p: Plan, s: System, f: Fault, k: nat, rest: RowStatus)
    requires InvAt(p, s, k, rest) && Budget(p, s, k) && s.worker.phase.Marking?
    ensures Budget(p, StepMarking(p, s, f, s.worker.phase.i, s.worker.phase.data, s.worker.phase.first), k)
  {
    StartsFresh(p, s, k, rest);
    var t := StepMarking(p, s, f, k, s.worker.phase.data, s.worker.phase.first);
    TimesAppend(s.worker.starts, k);
    forall i | 0 <= i < p.Size() ensures Counted(p, t, i) {
      assert Counted(p, s, i);
      if i != k {
        KeysDiffer(p, i, k);
      }
    }
  }

  lemma BudgetPut(p: Plan, s: System, t: System, j: nat)
    requires p.DistinctIds() && j < p.Size() && p.KeyOf(j) in s.db.rows
    requires forall i | 0 <= i < p.Size() :: Counted(p, s, i)
    requires t.worker.starts == s.worker.starts && t.worker.deliveries == s.worker.deliveries
    requires t.worker.everCrossed == s.worker.everCrossed
    requires forall i | 0 <= i < p.Size() :: MayStart(t.worker.phase, i) ==> MayStart(s.worker.phase, i)
    requires Times(s.worker.starts, j) > 0
    requires exists row :: t.db.rows == s.db.rows[p.KeyOf(j) := row] && row.attempt == s.db.rows[p.KeyOf(j)].attempt
                           && row.status in {RUNNING, SUCCEEDED, FAILED}
    ensures forall i | 0 <= i < p.Size() :: Counted(p, t, i)
  {
    forall i | 0 <= i < p.Size() ensures Counted(p, t, i) {
      assert Counted(p, s, i);
      if i != j {
        KeysDiffer(p, i, j);
      }
    }
  }

  lemma StartedBefore(p: Plan, s: System, k: nat, i: nat)
    requires Budget(p, s, k) && i < p.Size() && p.KeyOf(i) in s.db.rows
    requires s.db.rows[p.KeyOf(i)].status in {RUNNING, SUCCEEDED, FAILED}
    ensures Times(s.worker.starts, i) > 0
  {
    assert Counted(p, s, i);
  }

  lemma BudgetSaving(p: Plan, s: System, f: Fault, k: nat, rest: RowStatus)
    requires InvAt(p, s, k, rest) && Budget(p, s, k) && s.worker.phase.Saving?
    ensures Budget(p, StepSaving(p, s, f, s.worker.phase.i, s.worker.phase.output, s.worker.phase.goOn),
                   if Committed(f) then k + 1 else k)
  {
    var t := StepSaving(p, s, f, k, s.worker.phase.output, s.worker.phase.goOn);
    StartedBefore(p, s, k, k);
    var row := if Committed(f) then Saved(s.db.rows[p.KeyOf(k)], s.worker.phase.output) else s.db.rows[p.KeyOf(k)];
    assert t.db.rows == s.db.rows[p.KeyOf(k) := row];
    BudgetPut(p, s, t, k);
  }

  lemma BudgetFailing(p: Plan, s: System, f: Fault, k: nat, rest: RowStatus)
    requires InvAt(p, s, k, rest) && Budget(p, s, k) && s.worker.phase.Failing?
    ensures Budget(p, StepFailing(p, s, f, s.worker.phase.i, s.worker.phase.message),
                   if Committed(f) then s.worker.phase.i else k)
  {
    var i, message := s.worker.phase.i, s.worker.phase.message;
    var t := StepFailing(p, s, f, i, message);
    if k == i + 1 {
      assert Recorded(p, s.db.rows, s.worker.calls, i);
    }
    StartedBefore(p, s, k, i);
    var row := if Committed(f) then Broken(s.db.rows[p.KeyOf(i)], message) else s.db.rows[p.KeyOf(i)];
    assert t.db.rows == s.db.rows[p.KeyOf(i) := row];
    BudgetPut(p, s, t, i);
  }

  lemma BudgetSeeding(p: Plan, s: System, f: Fault, k: nat, rest: RowStatus)
    requires InvAt(p, s, k, rest) && Budget(p, s, k) && s.worker.phase.Seeding?
    ensures Budget(p, StepSeeding(p, s, f), k)
  {
    var t := StepSeeding(p, s, f);
    SeededRows(p, s.db);
    forall i | 0 <= i < p.Size() ensures Counted(p, t, i) {
      assert Counted(p, s, i);
    }
  }

  lemma BudgetSkipping(p: Plan, s: System, f: Fault, k: nat, rest: RowStatus)
    requires InvAt(p, s, k, rest) && Budget(p, s, k) && s.worker.phase.Skipping?
    ensures Budget(p, StepSkipping(p, s, f, s.worker.phase.i), k)
  {
    var t := StepSkipping(p, s, f, s.worker.phase.i);
    SkippedRows(p, s.db, s.worker.phase.i);
    forall i | 0 <= i < p.Size() ensures Counted(p, t, i) {
      assert Counted(p, s, i);
      ShapeDomain(p, s.db.rows, s.worker.calls, k, rest);
    }
  }

  /** The other calls leave rows and starts alone. */
  lemma BudgetQuiet(p: Plan, s: System, t: System, k: nat)
    requires Budget(p, s, k)
    requires t.db.rows == s.db.rows && t.worker.starts == s.worker.starts
    requires t.worker.deliveries == s.worker.deliveries && (s.worker.everCrossed ==> t.worker.everCrossed)
    requires forall i | 0 <= i < p.Size() :: MayStart(t.worker.phase, i) ==> MayStart(s.worker.phase, i)
    requires Clean(t.worker.phase, k) || t.worker.job.Completed? ==> Clean(s.worker.phase, k) || s.worker.job.Completed?
    requires StepOpen(t.worker.phase, k) ==> StepOpen(s.worker.phase, k)
    ensures Budget(p, t, k)
  {
    forall i | 0 <= i < p.Size() ensures Counted(p, t, i) {
      assert Counted(p, s, i);
    }
  }

  lemma BudgetDeliver(p: Plan, s: System, k: nat)
    requires Budget(p, s, k)
    ensures Budget(p, Tick(p, s, Deliver), k)
  {
    var t := Tick(p, s, Deliver);
    forall i | 0 <= i < p.Size() ensures Counted(p, t, i) {
      assert Counted(p, s, i);
    }
  }

  lemma BudgetLooking(p: Plan, s: System, f: Fault, k: nat, rest: RowStatus)
    requires InvAt(p, s, k, rest) && Budget(p, s, k) && s.worker.phase.Looking?
    ensures Budget(p, StepLooking(p, s, f, s.worker.phase.i, s.worker.phase.data), k)
  {
    BudgetQuiet(p, s, StepLooking(p, s, f, s.worker.phase.i, s.worker.phase.data), k);
  }

  lemma BudgetCalling(p: Plan, s: System, f: Fault, reply: Reply, k: nat, rest: RowStatus)
    requires InvAt(p, s, k, rest) && Budget(p, s, k) && s.worker.phase.Calling?
    ensures Budget(p, StepCalling(p, s, f, reply, s.worker.phase.i, s.worker.phase.data), k)
  {
    BudgetQuiet(p, s, StepCalling(p, s, f, reply, s.worker.phase.i, s.worker.phase.data), k);
  }

  lemma BudgetAround(p: Plan, s: System, f: Fault, reply: Reply, k: nat, rest: RowStatus)
    requires InvAt(p, s, k, rest) && Budget(p, s, k)
    requires s.worker.phase.Loading? || s.worker.phase.Starting? || s.worker.phase.Finishing?
             || s.worker.phase.Reporting?
    ensures Budget(p, Tick(p, s, Await(f, reply)), k)
  {
    BudgetQuiet(p, s, Tick(p, s, Await(f, reply)), k);
  }

  lemma {:induction false} BudgetTick(p: Plan, s: System, e: Event, k: nat, rest: RowStatus)
    requires InvAt(p, s, k, rest) && Budget(p, s, k)
    ensures Budget(p, Tick(p, s, e), NextK(s, e, k))
  {
    match e
    case Deliver => BudgetDeliver(p, s, k);
    case Await(f, reply) =>
      match s.worker.phase
      case Idle =>
      case Seeding => BudgetSeeding(p, s, f, k, rest);
      case Looking(_, _) => BudgetLooking(p, s, f, k, rest);
      case Calling(_, _) => BudgetCalling(p, s, f, reply, k, rest);
      case Marking(_, _, _) => BudgetMarking(p, s, f, k, rest);
      case Saving(_, _, _, _) => BudgetSaving(p, s, f, k, rest);
      case Skipping(_) => BudgetSkipping(p, s, f, k, rest);
      case Failing(_, _) => BudgetFailing(p, s, f, k, rest);
      case _ => BudgetAround(p, s, f, reply, k, rest);
  }

  lemma {:induction false} BudgetRun(p: Plan, s: System, events: seq<Event>) returns (k: nat, rest: RowStatus)
    requires p.DistinctIds() && Initial(p, s)
    ensures InvAt(p, Run(p, s, events), k, rest) && Budget(p, Run(p, s, events), k)
    decreases |events|
  {
    if events == [] {
      k, rest := 0, PENDING;
      InitialInv(p, s);
    } else {
      var n := |events| - 1;
      k, rest := BudgetRun(p, s, events[..n]);
      var t := Run(p, s, events[..n]);
      TickKeeps(p, t, events[n], k, rest);
      BudgetTick(p, t, events[n], k, rest);
      k, rest := NextK(t, events[n], k), NextRest(t, events[n], rest);
    }
  }

  /** Amortised work: `d` deliveries of an `n`-step workflow start steps at most `n + d` times in all, one
      less once the job completed, and no step more than `d` times. A row's `attempt` is the number of its
      starts, unless a delivery went past a recorded stop. */
  lemma {:induction false} WorkBound(p: Plan, s: System, events: seq<Event>)
    requires p.DistinctIds() && Initial(p, s)
    ensures var t := Run(p, s, events);
            && |t.worker.starts| + (if t.worker.job.Completed? then 1 else 0) <= p.Size() + t.worker.deliveries
            && forall i | 0 <= i < p.Size() ::
                 && Times(t.worker.starts, i) <= t.worker.deliveries
                 && (Times(t.worker.starts, i) > 0 && !t.worker.everCrossed ==>
                       p.KeyOf(i) in t.db.rows && t.db.rows[p.KeyOf(i)].attempt == Times(t.worker.starts, i))
  {
    var k, rest := BudgetRun(p, s, events);
    var t := Run(p, s, events);
    forall i | 0 <= i < p.Size()
      ensures Times(t.worker.starts, i) <= t.worker.deliveries
      ensures Times(t.worker.starts, i) > 0 && !t.worker.everCrossed ==>
                p.KeyOf(i) in t.db.rows && t.db.rows[p.KeyOf(i)].attempt == Times(t.worker.starts, i)
    {
      assert Counted(p, t, i);
    }
  }

  // ---------------------------------------------------------------- what `attempt` counts

  /** The event starts step `i` out of a SKIPPED row. */
  ghost predicate Revives(p: Plan, s: System, e: Event, i: nat)
    requires i < p.Size()
  {
    && e.Await? && Committed(e.fault) && s.worker.phase.Marking? && s.worker.phase.i == i
    && p.KeyOf(i) in s.db.rows && s.db.rows[p.KeyOf(i)].status == SKIPPED
  }

  ghost predicate Revived(p: Plan, s: System, events: seq<Event>, i: nat)
    requires i < p.Size()
    decreases |events|
  {
    events != [] &&
    var n := |events| - 1;
    Revived(p, s, events[..n], i) || Revives(p, Run(p, s, events[..n]), events[n], i)
  }

  /** How far `attempt` is from the number of starts. */
  ghost predicate AttemptIs(p: Plan, s: System, i: nat, revived: bool)
    requires i < p.Size()
  {
    var n := Times(s.worker.starts, i);
    && (revived ==> n > 0)
    && (p.KeyOf(i) in s.db.rows ==>
          s.db.rows[p.KeyOf(i)].attempt == if n == 0 then 1 else n + (if revived then 1 else 0))
  }

  lemma MarkingWrites(p: Plan, s: System, e: Event, k: nat, rest: RowStatus)
    requires InvAt(p, s, k, rest) && e.Await? && s.worker.phase.Marking?
    ensures k < p.Size() && p.KeyOf(k) in s.db.rows && s.worker.phase.i == k
    ensures var t, row := Tick(p, s, e), s.db.rows[p.KeyOf(k)];
            if !Committed(e.fault) then t.db.rows == s.db.rows && t.worker.starts == s.worker.starts
            else
              && t.worker.starts == s.worker.starts + [k]
              && t.db.rows == s.db.rows[p.KeyOf(k) := Begun(row, s.worker.phase.data, row.status == PENDING)]
  {
    StartsFresh(p, s, k, rest);
  }

  lemma AttemptMarking(p: Plan, s: System, e: Event, k: nat, rest: RowStatus, i: nat, revived: bool)
    requires InvAt(p, s, k, rest) && e.Await? && s.worker.phase.Marking? && i < p.Size()
    requires Counted(p, s, i) && AttemptIs(p, s, i, revived)
    ensures AttemptIs(p, Tick(p, s, e), i, revived || Revives(p, s, e, i))
  {
    MarkingWrites(p, s, e, k, rest);
    TimesAppend(s.worker.starts, k);
    if i != k {
      KeysDiffer(p, i, k);
    }
  }

  ghost predicate SameAttempt(p: Plan, s: System, t: System, i: nat)
    requires i < p.Size()
  {
    && t.worker.starts == s.worker.starts
    && (p.KeyOf(i) in t.db.rows ==>
          t.db.rows[p.KeyOf(i)].attempt == if p.KeyOf(i) in s.db.rows then s.db.rows[p.KeyOf(i)].attempt else 1)
  }

  lemma WriteKeepsAttempt(p: Plan, s: System, f: Fault, reply: Reply, i: nat)
    requires i < p.Size()
    requires s.worker.phase.Seeding? || s.worker.phase.Saving? || s.worker.phase.Skipping? || s.worker.phase.Failing?
    ensures SameAttempt(p, s, Tick(p, s, Await(f, reply)), i)
  {
  }

  lemma EdgeKeepsAttempt(p: Plan, s: System, f: Fault, reply: Reply, i: nat)
    requires i < p.Size()
    requires var phase := s.worker.phase;
             phase.Idle? || phase.Loading? || phase.Starting? || phase.Finishing? || phase.Reporting?
    ensures SameAttempt(p, s, Tick(p, s, Await(f, reply)), i)
  {
    assert Tick(p, s, Await(f, reply)).db.rows == s.db.rows;
  }

  lemma ReadKeepsAttempt(p: Plan, s: System, f: Fault, reply: Reply, i: nat)
    requires i < p.Size() && (s.worker.phase.Looking? || s.worker.phase.Calling?)
    ensures SameAttempt(p, s, Tick(p, s, Await(f, reply)), i)
  {
    assert Tick(p, s, Await(f, reply)).db == s.db;
  }

  /** Only the RUNNING write touches `attempt`. */
  lemma AttemptStays(p: Plan, s: System, e: Event, i: nat)
    requires i < p.Size() && (e.Deliver? || !s.worker.phase.Marking?)
    ensures SameAttempt(p, s, Tick(p, s, e), i)
  {
    if e.Await? {
      if s.worker.phase.Seeding? || s.worker.phase.Saving? || s.worker.phase.Skipping? || s.worker.phase.Failing? {
        WriteKeepsAttempt(p, s, e.fault, e.reply, i);
      } else if s.worker.phase.Looking? || s.worker.phase.Calling? {
        ReadKeepsAttempt(p, s, e.fault, e.reply, i);
      } else {
        EdgeKeepsAttempt(p, s, e.fault, e.reply, i);
      }
    }
  }

  lemma {:induction false} AttemptRun(p: Plan, s: System, events: seq<Event>, i: nat)
    requires p.DistinctIds() && Initial(p, s) && i < p.Size()
    ensures AttemptIs(p, Run(p, s, events), i, Revived(p, s, events, i))
    decreases |events|
  {
    if events != [] {
      var n := |events| - 1;
      var t, e := Run(p, s, events[..n]), events[n];
      AttemptRun(p, s, events[..n], i);
      var k, rest := BudgetRun(p, s, events[..n]);
      assert Counted(p, t, i);
      if e.Await? && t.worker.phase.Marking? {
        AttemptMarking(p, t, e, k, rest, i, Revived(p, s, events[..n], i));
      } else {
        AttemptStays(p, t, e, i);
      }
    }
  }

  /** A started row's `attempt` is the number of its starts, and one more exactly when its first start found
      it SKIPPED, behind a stop that was passed. */
  lemma {:induction false} AttemptCountsStarts(p: Plan, s: System, events: seq<Event>, i: nat)
    requires p.DistinctIds() && Initial(p, s) && i < p.Size() && Times(Run(p, s, events).worker.starts, i) > 0
    ensures var t := Run(p, s, events);
            && p.KeyOf(i) in t.db.rows
            && t.db.rows[p.KeyOf(i)].attempt ==
               Times(t.worker.starts, i) + (if Revived(p, s, events, i) then 1 else 0)
  {
    AttemptRun(p, s, events, i);
    var k, rest := BudgetRun(p, s, events);
    assert Counted(p, Run(p, s, events), i);
  }

  // ---------------------------------------------------------------- what the starts were for

  /** The event ends a delivery's step after its RUNNING write and leaves its row unfinished. */
  ghost predicate Cut(p: Plan, s: System, e: Event) {
    && (s.worker.phase.Marking? || s.worker.phase.Calling? || s.worker.phase.Saving? || s.worker.phase.Failing?)
    && s.worker.phase.i < p.Size()
    && var t := Tick(p, s, e);
    && (t.worker.phase.Idle? || t.worker.phase.Reporting?)
    && (s.worker.phase.Marking? ==> t.worker.starts != s.worker.starts)
    && p.KeyOf(s.worker.phase.i) in t.db.rows && t.db.rows[p.KeyOf(s.worker.phase.i)].status != SUCCEEDED
  }

  ghost function Cuts(p: Plan, s: System, events: seq<Event>): nat
    decreases |events|
  {
    if events == [] then 0
    else
      var n := |events| - 1;
      Cuts(p, s, events[..n]) + (if Cut(p, Run(p, s, events[..n]), events[n]) then 1 else 0)
  }

  ghost predicate Accounted(s: System, cuts: nat, k: nat) {
    |s.worker.starts| == k + cuts + (if StepOpen(s.worker.phase, k) then 1 else 0)
  }

  lemma AccountsStarting(p: Plan, s: System, e: Event, cuts: nat, k: nat, rest: RowStatus)
    requires InvAt(p, s, k, rest) && Accounted(s, cuts, k) && e.Await?
    requires s.worker.phase.Marking? || s.worker.phase.Calling?
    ensures Accounted(Tick(p, s, e), cuts + (if Cut(p, s, e) then 1 else 0), NextK(s, e, k))
  {
  }

  lemma AccountsEnding(p: Plan, s: System, e: Event, cuts: nat, k: nat, rest: RowStatus)
    requires InvAt(p, s, k, rest) && Accounted(s, cuts, k) && e.Await?
    requires s.worker.phase.Saving? || s.worker.phase.Failing?
    ensures Accounted(Tick(p, s, e), cuts + (if Cut(p, s, e) then 1 else 0), NextK(s, e, k))
  {
    if s.worker.phase.Failing? && k == s.worker.phase.i + 1 {
      assert Recorded(p, s.db.rows, s.worker.calls, s.worker.phase.i);
    }
  }

  lemma AccountsInside(p: Plan, s: System, e: Event, cuts: nat, k: nat, rest: RowStatus)
    requires InvAt(p, s, k, rest) && Accounted(s, cuts, k)
    requires s.worker.phase.Seeding? || s.worker.phase.Looking? || s.worker.phase.Skipping?
    ensures Accounted(Tick(p, s, e), cuts, NextK(s, e, k)) && !Cut(p, s, e)
  {
  }

  lemma AccountsElsewhere(p: Plan, s: System, e: Event, cuts: nat, k: nat)
    requires Accounted(s, cuts, k)
    requires e.Deliver? || s.worker.phase.Idle? || s.worker.phase.Loading? || s.worker.phase.Starting?
             || s.worker.phase.Finishing? || s.worker.phase.Reporting?
    ensures Accounted(Tick(p, s, e), cuts, NextK(s, e, k)) && !Cut(p, s, e)
  {
  }

  lemma {:induction false} AccountsRun(p: Plan, s: System, events: seq<Event>) returns (k: nat, rest: RowStatus)
    requires p.DistinctIds() && Initial(p, s)
    ensures InvAt(p, Run(p, s, events), k, rest) && Accounted(Run(p, s, events), Cuts(p, s, events), k)
    decreases |events|
  {
    if events == [] {
      k, rest := 0, PENDING;
      InitialInv(p, s);
    } else {
      var n := |events| - 1;
      k, rest := AccountsRun(p, s, events[..n]);
      var t, e := Run(p, s, events[..n]), events[n];
      TickKeeps(p, t, e, k, rest);
      if e.Await? && (t.worker.phase.Marking? || t.worker.phase.Calling?) {
        AccountsStarting(p, t, e, Cuts(p, s, events[..n]), k, rest);
      } else if e.Await? && (t.worker.phase.Saving? || t.worker.phase.Failing?) {
        AccountsEnding(p, t, e, Cuts(p, s, events[..n]), k, rest);
      } else if t.worker.phase.Seeding? || t.worker.phase.Looking? || t.worker.phase.Skipping? {
        AccountsInside(p, t, e, Cuts(p, s, events[..n]), k, rest);
      } else {
        AccountsElsewhere(p, t, e, Cuts(p, s, events[..n]), k);
      }
      k, rest := NextK(t, e, k), NextRest(t, e, rest);
    }
  }

  /** The delivery under way may still be cut. */
  ghost predicate MayBeCut(phase: Phase) { !phase.Idle? && !phase.Reporting? }

  lemma CutOnce(p: Plan, s: System, e: Event)
    ensures var t := Tick(p, s, e);
            && (Cut(p, s, e) ==>
                  && MayBeCut(s.worker.phase) && !MayBeCut(t.worker.phase)
                  && t.worker.deliveries == s.worker.deliveries)
            && (MayBeCut(t.worker.phase) && !MayBeCut(s.worker.phase) ==>
                  t.worker.deliveries == s.worker.deliveries + 1)
            && s.worker.deliveries <= t.worker.deliveries
  {
  }

  /** A delivery is cut at most once: over any events, from any state, there are at most as many cuts as
      deliveries that began, and one more if one was under way. */
  lemma {:induction false} CutsAreDeliveries(p: Plan, s: System, events: seq<Event>)
    ensures var t := Run(p, s, events);
            Cuts(p, s, events) + (if MayBeCut(t.worker.phase) then 1 else 0)
            <= t.worker.deliveries - s.worker.deliveries + (if MayBeCut(s.worker.phase) then 1 else 0)
    decreases |events|
  {
    if events != [] {
      var n := |events| - 1;
      CutsAreDeliveries(p, s, events[..n]);
      CutOnce(p, Run(p, s, events[..n]), events[n]);
    }
  }

  /** Between deliveries every start is paid for: there are exactly as many as SUCCEEDED rows and deliveries
      cut after their RUNNING write, no delivery twice, under every fault. */
  lemma {:induction false} StartsArePaidFor(p: Plan, s: System, events: seq<Event>)
    requires p.DistinctIds() && Initial(p, s) && Run(p, s, events).worker.phase.Idle?
    ensures var t := Run(p, s, events);
            && |t.worker.starts| == Frontier(p, t.db.rows) + Cuts(p, s, events)
            && Cuts(p, s, events) <= t.worker.deliveries
            && forall i | 0 <= i < p.Size() ::
                 (i < Frontier(p, t.db.rows) <==> p.KeyOf(i) in t.db.rows && t.db.rows[p.KeyOf(i)].status == SUCCEEDED)
  {
    var k, rest := AccountsRun(p, s, events);
    CutsAreDeliveries(p, s, events);
    var t := Run(p, s, events);
    FrontierIs(p, t, k, rest);
    forall i | k < i < p.Size() && p.KeyOf(i) in t.db.rows ensures t.db.rows[p.KeyOf(i)].status != SUCCEEDED {
      if Shape(p, t.db.rows, t.worker.calls, k, rest) {
        assert Untouched(p, t.db.rows, i, rest);
      }
    }
  }
}

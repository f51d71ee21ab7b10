/** What a recorded success says of its step: an HTTP step's output is what a server answered, a filter's is its
    input, a transform's is its template filled from its input. */
module Records {
  import opened Values
  import opened Paths
  import opened Steps
  import opened Faults
  import opened Machine
  import opened Invariant
  import opened Resume
  import StopWindow
  import Work

  /** The `n`-th event ended the call of step `i` on this input, and if that is an HTTP step it was answered
      with this output. */
  ghost predicate MadeAt(p: Plan, s: System, events: seq<Event>, n: nat, c: Call) {
    && n < |events| && events[n].Await? && c.i < p.Size()
    && Run(p, s, events[..n]).worker.phase == Calling(c.i, c.input)
    && (p.steps[c.i].action.HttpRequest? ==> events[n].reply == Answer(c.output))
  }

  ghost predicate WasMade(p: Plan, s: System, events: seq<Event>, c: Call) {
    exists n :: MadeAt(p, s, events, n, c)
  }

  lemma MadeEarlier(p: Plan, s: System, events: seq<Event>, c: Call)
    requires events != [] && WasMade(p, s, events[..|events| - 1], c)
    ensures WasMade(p, s, events, c)
  {
    var n: nat :| MadeAt(p, s, events[..|events| - 1], n, c);
    assert events[..|events| - 1][..n] == events[..n];
    assert MadeAt(p, s, events, n, c);
  }

  /** A call is added by its own event only. */
  lemma TickCalls(p: Plan, t: System, e: Event)
    ensures var calls := Tick(p, t, e).worker.calls;
            || calls == t.worker.calls
            || (&& e.Await? && t.worker.phase.Calling? && t.worker.phase.i < p.Size()
                && |calls| == |t.worker.calls| + 1 && calls[..|t.worker.calls|] == t.worker.calls
                && var c := calls[|t.worker.calls|];
                t.worker.phase == Calling(c.i, c.input)
                && (p.steps[c.i].action.HttpRequest? ==> e.reply == Answer(c.output)))
  {
    if e.Await? && t.worker.phase.Calling? && t.worker.phase.i < p.Size() {
      var u := StepCalling(p, t, e.fault, e.reply, t.worker.phase.i, t.worker.phase.data);
      assert Tick(p, t, e) == u;
    }
  }

  /** Every call that counts was made, and an HTTP step's was answered with its output. */
  lemma {:induction false} CallsWereMade(p: Plan, s: System, events: seq<Event>)
    requires Initial(p, s)
    ensures forall c | c in Run(p, s, events).worker.calls :: WasMade(p, s, events, c)
    decreases |events|
  {
    if events != [] {
      var n := |events| - 1;
      CallsWereMade(p, s, events[..n]);
      var t := Run(p, s, events[..n]);
      TickCalls(p, t, events[n]);
      forall c | c in Run(p, s, events).worker.calls ensures WasMade(p, s, events, c) {
        if c in t.worker.calls {
          MadeEarlier(p, s, events, c);
        } else {
          assert MadeAt(p, s, events, n, c);
        }
      }
    }
  }

  /** The output recorded for an HTTP step is what a server answered: some event of the run ended the step's call
      on the recorded input with an answer that is the recorded output. */
  lemma {:induction false} HttpOutputWasAnswered(p: Plan, s: System, events: seq<Event>, i: nat)
    requires p.DistinctIds() && Initial(p, s) && i < p.Size() && p.steps[i].action.HttpRequest?
    requires IsSucceeded(p, Run(p, s, events).db.rows, i)
    ensures var row := Run(p, s, events).db.rows[p.KeyOf(i)];
            && row.input.Some? && row.output.Some?
            && exists n: nat ::
                 && n < |events| && events[n].Await?
                 && Run(p, s, events[..n]).worker.phase == Calling(i, row.input.value)
                 && events[n].reply == Answer(row.output.value)
  {
    Work.DerivationChain(p, s, events, i);
    CallsWereMade(p, s, events);
    var row := Run(p, s, events).db.rows[p.KeyOf(i)];
    var c := Call(i, row.input.value, row.output.value);
    assert WasMade(p, s, events, c);
    var n: nat :| MadeAt(p, s, events, n, c);
  }

  /** A recorded filter's output is its input. */
  lemma {:induction false} FilterOutputIsInput(p: Plan, s: System, events: seq<Event>, i: nat)
    requires p.DistinctIds() && Initial(p, s) && i < p.Size() && p.steps[i].action.Filter?
    requires IsSucceeded(p, Run(p, s, events).db.rows, i)
    ensures var row := Run(p, s, events).db.rows[p.KeyOf(i)];
            row.input.Some? && row.output == row.input
  {
    Work.DerivationChain(p, s, events, i);
  }

  /** A recorded transform's output has the keys of its template, each filled from its input. */
  lemma {:induction false} TransformOutputIsFilled(p: Plan, s: System, events: seq<Event>, i: nat)
    requires p.DistinctIds() && Initial(p, s) && i < p.Size() && p.steps[i].action.Transform?
    requires IsSucceeded(p, Run(p, s, events).db.rows, i)
    ensures var row, template := Run(p, s, events).db.rows[p.KeyOf(i)], p.steps[i].action.template;
            && row.input.Some? && row.output.Some? && row.output.value.Keys == template.Keys
            && forall key | key in template ::
                 IsEntry(p.printer, row.input.value, template[key], row.output.value[key])
  {
    Work.DerivationChain(p, s, events, i);
    var row := Run(p, s, events).db.rows[p.KeyOf(i)];
    TransformedIsEntries(p.printer, p.steps[i].action.template, row.input.value);
  }

  /** In an execution that succeeded outside the stop window, a recorded filter with steps behind it stopped the
      walk, so that the next step is SKIPPED, if and only if its field on its input is not what it lets
      through; otherwise the next step ran. */
  lemma {:induction false} RecordedFilterDecided(p: Plan, s: System, events: seq<Event>, i: nat)
    requires p.DistinctIds() && Initial(p, s) && StopWindow.OutsideWindow(p, s, events)
    requires HasSucceeded(p, Run(p, s, events))
    requires i + 1 < p.Size() && p.steps[i].action.Filter? && IsSucceeded(p, Run(p, s, events).db.rows, i)
    ensures var rows, a := Run(p, s, events).db.rows, p.steps[i].action;
            && p.KeyOf(i + 1) in rows && rows[p.KeyOf(i)].input.Some?
            && var goesOn := LetsThrough(a.field, a.operator, a.expected, rows[p.KeyOf(i)].input.value);
            && (rows[p.KeyOf(i + 1)].status == SKIPPED <==> !goesOn)
            && (rows[p.KeyOf(i + 1)].status == SUCCEEDED <==> goesOn)
  {
    var t := Run(p, s, events);
    StopWindow.OutsideWindowNeverCrosses(p, s, events);
    Reachable(p, s, events);
    var k: nat, rest :| InvAt(p, t, k, rest);
    SucceededShape(p, t, k, rest);
    ShapeDomain(p, t.db.rows, t.worker.calls, k, rest);
    DoneIsBefore(p, t, k, rest, i);
    assert Recorded(p, t.db.rows, t.worker.calls, i);
    var a := p.steps[i].action;
    PassesIff(a.field, a.operator, a.expected, t.db.rows[p.KeyOf(i)].input.value);
    GoesIffNextRan(p, t, k, rest, i);
  }

  lemma DoneIsBefore(p: Plan, t: System, k: nat, rest: RowStatus, i: nat)
    requires Shape(p, t.db.rows, t.worker.calls, k, rest) && i < p.Size() && IsSucceeded(p, t.db.rows, i)
    ensures i < k
  {
    forall j | k < j < p.Size() ensures p.KeyOf(j) in t.db.rows && t.db.rows[p.KeyOf(j)].status == rest {
      assert Untouched(p, t.db.rows, j, rest);
    }
  }

  lemma GoesIffNextRan(p: Plan, t: System, k: nat, rest: RowStatus, i: nat)
    requires InvAt(p, t, k, rest) && HasSucceeded(p, t) && !t.worker.crossed
    requires Shape(p, t.db.rows, t.worker.calls, k, rest) && i + 1 < p.Size() && i < k
    ensures p.KeyOf(i + 1) in t.db.rows
    ensures Goes(p, t.db.rows, i) <==> t.db.rows[p.KeyOf(i + 1)].status == SUCCEEDED
    ensures !Goes(p, t.db.rows, i) <==> t.db.rows[p.KeyOf(i + 1)].status == SKIPPED
  {
    ShapeDomain(p, t.db.rows, t.worker.calls, k, rest);
    if i + 1 < k {
      assert Recorded(p, t.db.rows, t.worker.calls, i + 1);
    } else if k < p.Size() {
      assert Untouched(p, t.db.rows, k, SKIPPED);
    }
  }

  /** The trouble an HTTP step meets is what its row and then the report keep: the call that throws it leads,
      through the FAILED write, to the report of the same message. */
  lemma {:induction false} TroubleIsRecorded(p: Plan, s: System, events: seq<Event>, message: string, reply: Reply)
    requires p.DistinctIds() && Initial(p, s)
    requires var phase := Run(p, s, events).worker.phase;
             phase.Calling? && phase.i < p.Size() && p.steps[phase.i].action.HttpRequest?
    ensures var t := Run(p, s, events);
            var u := Tick(p, Tick(p, t, Await(Fine, Trouble(message))), Await(Fine, reply));
            var key := p.KeyOf(t.worker.phase.i);
            && u.worker.phase == Reporting(message)
            && key in u.db.rows && u.db.rows[key].status == FAILED && u.db.rows[key].error == Some(message)
  {
    Reachable(p, s, events);
    var t := Run(p, s, events);
    var k: nat, rest :| InvAt(p, t, k, rest);
    var i := t.worker.phase.i;
    var t1 := StepCalling(p, t, Fine, Trouble(message), i, t.worker.phase.data);
    assert Tick(p, t, Await(Fine, Trouble(message))) == t1;
    assert t1.worker.phase == Failing(i, message) && t1.db == t.db;
  }
}

/** The worker's code in its own form, proved to do exactly what the machine does. */
module EngineService {
  import opened Values
  import opened Steps
  import opened Faults
  import opened Machine

  /** The tables, and what happens to each awaited call: the `n`-th call made meets `faults(n)`, and if it
      is an HTTP step it is answered by `replies(n)`. */
  class DatabaseService {
    var executions: map<string, Execution>
    var rows: map<Key, Row>
    var clock: nat
    const faults: nat -> Fault
    const replies: nat -> Reply

    constructor (executions: map<string, Execution>, rows: map<Key, Row>, faults: nat -> Fault, replies: nat -> Reply)
      ensures this.executions == executions && this.rows == rows && clock == 0
      ensures this.faults == faults && this.replies == replies
    {
      this.executions := executions;
      this.rows := rows;
      this.clock := 0;
      this.faults := faults;
      this.replies := replies;
    }

    ghost function Snapshot(): Database
      reads this
    {
      Database(executions, rows)
    }

    function At(n: nat): Event {
      Await(faults(n), replies(n))
    }

    /** What happens to the calls from the `from`-th up to the `to`-th. */
    ghost function Tape(from: nat, to: nat): seq<Event>
      requires from <= to
    {
      seq(to - from, i requires 0 <= i < to - from => At(from + i))
    }

    method FindExecution(id: string) returns (f: Fault, found: Option<Execution>)
      modifies this`clock
      ensures clock == old(clock) + 1
      ensures f == faults(old(clock)) && found == Lookup(executions, id)
    {
      f, found := faults(clock), Lookup(executions, id);
      clock := clock + 1;
    }

    method UpdateExecution(id: string, change: Execution -> Execution) returns (f: Fault)
      modifies this`clock, this`executions
      ensures clock == old(clock) + 1
      ensures f == Reach(faults(old(clock)), id in old(executions))
      ensures executions == if Committed(f) && id in old(executions)
                            then old(executions)[id := change(old(executions)[id])] else old(executions)
    {
      f := Reach(faults(clock), id in executions);
      if Committed(f) && id in executions {
        executions := executions[id := change(executions[id])];
      }
      clock := clock + 1;
    }

    method CreateRows(p: Plan) returns (f: Fault)
      modifies this`clock, this`rows
      ensures clock == old(clock) + 1 && f == faults(old(clock))
      ensures Snapshot() == if Committed(f) then Seeded(p, old(Snapshot())) else old(Snapshot())
    {
      f := faults(clock);
      if Committed(f) {
        rows := Seeded(p, Database(executions, rows)).rows;
      }
      clock := clock + 1;
    }

    method FindRow(key: Key) returns (f: Fault, found: Option<Row>)
      modifies this`clock
      ensures clock == old(clock) + 1
      ensures f == faults(old(clock)) && found == Lookup(rows, key)
    {
      f, found := faults(clock), Lookup(rows, key);
      clock := clock + 1;
    }

    method UpdateRow(key: Key, change: Row -> Row) returns (f: Fault)
      modifies this`clock, this`rows
      ensures clock == old(clock) + 1
      ensures f == Reach(faults(old(clock)), key in old(rows))
      ensures rows == if Committed(f) && key in old(rows) then old(rows)[key := change(old(rows)[key])] else old(rows)
    {
      f := Reach(faults(clock), key in rows);
      if Committed(f) && key in rows {
        rows := rows[key := change(rows[key])];
      }
      clock := clock + 1;
    }

    method SkipPendingAfter(p: Plan, i: nat) returns (f: Fault)
      modifies this`clock, this`rows
      ensures clock == old(clock) + 1 && f == faults(old(clock))
      ensures Snapshot() == if Committed(f) then SkipRest(p, old(Snapshot()), i) else old(Snapshot())
    {
      f := faults(clock);
      if Committed(f) {
        rows := SkipRest(p, Database(executions, rows), i).rows;
      }
      clock := clock + 1;
    }

    /** The outside world answers the call a step makes. */
    method Answered() returns (f: Fault, reply: Reply)
      modifies this`clock
      ensures clock == old(clock) + 1 && f == faults(old(clock)) && reply == replies(old(clock))
    {
      f, reply := faults(clock), replies(clock);
      clock := clock + 1;
    }
  }

  /** How a piece of code ends: normally, by throwing, or with the death of its worker. */
  datatype Ended = Normally | Throwing(message: string) | Dead

  /** How the body of the loop ends. */
  datatype StepEnd = Continue(data: WorkflowData) | Break | Abort(ended: Ended)

  class WorkflowEngineService {
    const database: DatabaseService

    constructor (database: DatabaseService)
      ensures this.database == database
    {
      this.database := database;
    }

    /** The machine `g` has followed the database since the call counter stood at `from` and the machine
        at `s`. */
    ghost predicate Tracks(p: Plan, s: System, from: nat, g: System)
      reads database
    {
      && from <= database.clock
      && g == Run(p, s, database.Tape(from, database.clock))
      && g.db == database.Snapshot()
    }

    /** The same, inside one delivery. */
    ghost predicate Follows(p: Plan, s: System, from: nat, g: System)
      reads database
    {
      Tracks(p, s, from, g) && g.worker.attemptsMade == s.worker.attemptsMade && g.worker.job == s.worker.job
    }

    /** Where the machine stands when a piece of code has ended like this. */
    ghost predicate Stands(g: System, ended: Ended, normal: Phase) {
      match ended
      case Normally => g.worker.phase == normal
      case Throwing(message) => g.worker.phase == Reporting(message)
      case Dead => g.worker.phase == Idle
    }

    /** One more call is one more step of the machine. */
    lemma OneMore(p: Plan, s: System, from: nat, now: nat)
      requires from <= now
      ensures Run(p, s, database.Tape(from, now + 1)) == Tick(p, Run(p, s, database.Tape(from, now)), database.At(now))
    {
      var tape := database.Tape(from, now + 1);
      assert tape[..|tape| - 1] == database.Tape(from, now);
    }

    /** `executeStep`. */
    method ExecuteStep(p: Plan, i: nat, data: WorkflowData, reply: Reply) returns (ended: Ended, outcome: Outcome)
      requires i < p.Size()
      ensures p.steps[i].action.HttpRequest? && reply.Trouble? ==> ended == Throwing(reply.message)
      ensures !(p.steps[i].action.HttpRequest? && reply.Trouble?) ==>
                ended == Normally && outcome == p.Produce(i, data, if reply.Answer? then reply.data else map[])
      ensures match p.steps[i].action
              case HttpRequest(_) => reply.Answer? ==> ended == Normally && outcome == Outcome(reply.data, true)
              case Filter(field, operator, expected) =>
                && ended == Normally && outcome.output == data
                && (outcome.goOn <==> LetsThrough(field, operator, expected, data))
              case Transform(template) =>
                && ended == Normally && outcome.goOn && outcome.output.Keys == template.Keys
                && forall key | key in template :: IsEntry(p.printer, data, template[key], outcome.output[key])
    {
      outcome := Outcome(map[], true);
      ended := Normally;
      match p.steps[i].action {
        case Transform(template) =>
          var output := ExecuteTransform(p.printer, template, data);
          outcome := Outcome(output, true);
        case Filter(field, operator, expected) =>
          PassesIff(field, operator, expected, data);
          outcome := Outcome(data, Passes(field, operator, expected, data));
        case HttpRequest(_) =>
          match reply {
            case Answer(answer) => outcome := Outcome(answer, true);
            case Trouble(message) => ended := Throwing(message);
          }
      }
    }

    /** The catch block: records the failure and throws on. */
    method RecordFailure(p: Plan, i: nat, message: string, ghost s: System, ghost from: nat, ghost g0: System)
      returns (ended: Ended, ghost g: System)
      requires i < p.Size() && Follows(p, s, from, g0) && g0.worker.phase == Failing(i, message)
      modifies database
      ensures Follows(p, s, from, g) && ended != Normally && Stands(g, ended, Idle)
    {
      OneMore(p, s, from, database.clock);
      g := Tick(p, g0, database.At(database.clock));
      var f := database.UpdateRow(p.KeyOf(i), row => Broken(row, message));
      ended := if Dies(f) then Dead else if Throws(f) then Throwing(DATABASE_ERROR) else Throwing(message);
    }

    /** Lines 123-221: runs the step, saves it, skips the rest if it stopped; all under one catch. */
    method RunStep(p: Plan, i: nat, data: WorkflowData, ghost s: System, ghost from: nat, ghost g0: System)
      returns (end: StepEnd, ghost g: System)
      requires i < p.Size() && Follows(p, s, from, g0) && g0.worker.phase == Calling(i, data)
      modifies database
      ensures Follows(p, s, from, g)
      ensures match end
              case Continue(output) => g.worker.phase == AtStep(p, i + 1, output)
              case Break => g.worker.phase == Finishing
              case Abort(ended) => ended != Normally && Stands(g, ended, Idle)
    {
      OneMore(p, s, from, database.clock);
      g := Tick(p, g0, database.At(database.clock));
      var f, reply := database.Answered();
      if Dies(f) {
        return Abort(Dead), g;
      }
      var ended, outcome := ExecuteStep(p, i, data, reply);
      if Throws(f) {
        ended := Throwing(DATABASE_ERROR);
      }
      if ended.Normally? {
        end, ended, g := SaveStep(p, i, data, outcome, s, from, g);
        if ended.Normally? {
          return;
        }
      }
      ended, g := RecordFailure(p, i, ended.message, s, from, g);
      end := Abort(ended);
    }

    /** The writes of the try block. A throw is handed to its catch. */
    method SaveStep(p: Plan, i: nat, data: WorkflowData, outcome: Outcome, ghost s: System, ghost from: nat,
                    ghost g0: System)
      returns (end: StepEnd, ended: Ended, ghost g: System)
      requires i < p.Size() && Follows(p, s, from, g0)
      requires g0.worker.phase == Saving(i, data, outcome.output, outcome.goOn)
      modifies database
      ensures Follows(p, s, from, g)
      ensures match ended
              case Normally =>
                (match end
                 case Continue(output) => g.worker.phase == AtStep(p, i + 1, output)
                 case Break => g.worker.phase == Finishing
                 case Abort(e) => e == Dead && g.worker.phase == Idle)
              case Throwing(message) => g.worker.phase == Failing(i, message)
              case Dead => false
    {
      end, ended := Abort(Dead), Normally;
      OneMore(p, s, from, database.clock);
      g := Tick(p, g0, database.At(database.clock));
      var f := database.UpdateRow(p.KeyOf(i), row => Saved(row, outcome.output));
      if Dies(f) {
        return;
      }
      if Throws(f) {
        ended := Throwing(DATABASE_ERROR);
      } else if outcome.goOn {
        end := Continue(outcome.output);
      } else if i + 1 < |p.steps| {
        end, ended, g := SkipRemaining(p, i, s, from, g);
      } else {
        end := Break;
      }
    }

    method SkipRemaining(p: Plan, i: nat, ghost s: System, ghost from: nat, ghost g0: System)
      returns (end: StepEnd, ended: Ended, ghost g: System)
      requires Follows(p, s, from, g0) && g0.worker.phase == Skipping(i)
      modifies database
      ensures Follows(p, s, from, g)
      ensures match ended
              case Normally =>
                if end == Break then g.worker.phase == Finishing else end == Abort(Dead) && g.worker.phase == Idle
              case Throwing(message) => g.worker.phase == Failing(i, message)
              case Dead => false
    {
      OneMore(p, s, from, database.clock);
      g := Tick(p, g0, database.At(database.clock));
      var f := database.SkipPendingAfter(p, i);
      end := if Dies(f) then Abort(Dead) else Break;
      ended := if Throws(f) then Throwing(DATABASE_ERROR) else Normally;
    }

    /** Lines 73-121: looks the row up; a recorded success is taken over, any other row turns RUNNING. */
    method OpenStep(p: Plan, i: nat, data: WorkflowData, ghost s: System, ghost from: nat, ghost g0: System)
      returns (end: StepEnd, ghost g: System)
      requires i < p.Size() && Follows(p, s, from, g0) && g0.worker.phase == Looking(i, data)
      modifies database
      ensures Follows(p, s, from, g)
      ensures match end
              case Continue(output) => g.worker.phase == AtStep(p, i + 1, output)
              case Break => g.worker.phase == Calling(i, data)
              case Abort(ended) => ended != Normally && Stands(g, ended, Idle)
    {
      OneMore(p, s, from, database.clock);
      g := Tick(p, g0, database.At(database.clock));
      var f, existing := database.FindRow(p.KeyOf(i));
      if Dies(f) || Throws(f) {
        return Abort(if Dies(f) then Dead else Throwing(DATABASE_ERROR)), g;
      }
      if existing.Some? && existing.value.status == SUCCEEDED {
        if existing.value.output.None? {
          return Abort(Throwing(INVALID_OUTPUT)), g;
        }
        return Continue(existing.value.output.value), g;
      }
      end, g := MarkRunning(p, i, data, existing.Some? && existing.value.status == PENDING, s, from, g);
    }

    method MarkRunning(p: Plan, i: nat, data: WorkflowData, first: bool, ghost s: System, ghost from: nat,
                       ghost g0: System)
      returns (end: StepEnd, ghost g: System)
      requires i < p.Size() && Follows(p, s, from, g0) && g0.worker.phase == Marking(i, data, first)
      modifies database
      ensures Follows(p, s, from, g)
      ensures match end
              case Continue(_) => false
              case Break => g.worker.phase == Calling(i, data)
              case Abort(ended) => ended != Normally && Stands(g, ended, Idle)
    {
      OneMore(p, s, from, database.clock);
      g := Tick(p, g0, database.At(database.clock));
      var f := database.UpdateRow(p.KeyOf(i), row => Begun(row, data, first));
      end := if Dies(f) then Abort(Dead) else if Throws(f) then Abort(Throwing(DATABASE_ERROR)) else Break;
    }

    /** `execute`: one walk over the steps, resuming from the recorded outputs. */
    method Execute(p: Plan, ghost s: System, ghost from: nat, ghost g0: System) returns (ended: Ended, ghost g: System)
      requires Follows(p, s, from, g0) && g0.worker.phase == Seeding
      modifies database
      ensures Follows(p, s, from, g) && Stands(g, ended, Finishing)
    {
      OneMore(p, s, from, database.clock);
      g := Tick(p, g0, database.At(database.clock));
      var f := database.CreateRows(p);
      if Dies(f) || Throws(f) {
        return (if Dies(f) then Dead else Throwing(DATABASE_ERROR)), g;
      }
      var currentData := p.payload;
      var index := 0;
      while index < |p.steps|
        invariant index <= |p.steps|
        invariant Follows(p, s, from, g)
        invariant g.worker.phase == AtStep(p, index, currentData)
      {
        var end;
        end, g := OpenStep(p, index, currentData, s, from, g);
        if end.Break? {
          end, g := RunStep(p, index, currentData, s, from, g);
          if end.Break? {
            return Normally, g;
          }
        }
        if end.Abort? {
          return end.ended, g;
        }
        currentData := end.data;
        index := index + 1;
      }
      ended := Normally;
    }
  }

  class WorkflowExecutionProcessor {
    const database: DatabaseService
    const workflowEngine: WorkflowEngineService

    constructor (database: DatabaseService)
      ensures this.database == database && workflowEngine.database == database
    {
      this.database := database;
      this.workflowEngine := new WorkflowEngineService(database);
    }

    ghost predicate Tracks(p: Plan, s: System, from: nat, g: System)
      reads database
    {
      workflowEngine.database == database && workflowEngine.Tracks(p, s, from, g)
    }

    /** Reads the execution row and marks it RUNNING; a throw here leaves `process` at once. */
    method Begin(p: Plan, ghost s: System) returns (ended: Ended, ghost g: System)
      requires Tracks(p, s, database.clock, s) && s.worker.phase == Loading
      modifies database
      ensures old(database.clock) <= database.clock && Tracks(p, s, old(database.clock), g)
      ensures match ended
              case Normally => g.worker.phase == Seeding && g.worker.attemptsMade == s.worker.attemptsMade
              case Throwing(_) => g.worker.phase == Idle && g.worker.attemptsMade == s.worker.attemptsMade + 1
              case Dead => g.worker.phase == Idle && g.worker.attemptsMade == s.worker.attemptsMade
      ensures s.worker.job.Open? ==> if ended.Throwing? then !g.worker.job.Completed? else g.worker.job.Open?
    {
      ghost var from := database.clock;
      workflowEngine.OneMore(p, s, from, database.clock);
      g := Tick(p, s, database.At(database.clock));
      var f, execution := database.FindExecution(p.executionId);
      if Dies(f) {
        return Dead, g;
      }
      if Throws(f) || execution.None? {
        return Throwing(if Throws(f) then DATABASE_ERROR else "Execution not found"), g;
      }
      workflowEngine.OneMore(p, s, from, database.clock);
      g := Tick(p, g, database.At(database.clock));
      f := database.UpdateExecution(p.executionId, _ => Execution(Started, None, false));
      ended := if Dies(f) then Dead else if Throws(f) then Throwing(DATABASE_ERROR) else Normally;
    }

    /** The catch block of `process`: FAILED on the last attempt, RUNNING with the error before it. */
    method Report(p: Plan, attemptsMade: nat, message: string, ghost s: System, ghost from: nat, ghost g0: System)
      returns (ended: Ended, ghost g: System)
      requires Tracks(p, s, from, g0) && g0.worker.phase == Reporting(message) && g0.worker.attemptsMade == attemptsMade
      modifies database
      ensures Tracks(p, s, from, g) && g.worker.phase == Idle && ended != Normally
      ensures g.worker.attemptsMade == if ended == Dead then attemptsMade else attemptsMade + 1
      ensures g.worker.job == if ended != Dead && attemptsMade + 1 >= p.maxAttempts then Exhausted
                              else if ended == Dead then g0.worker.job else Open
    {
      workflowEngine.OneMore(p, s, from, database.clock);
      g := Tick(p, g0, database.At(database.clock));
      var isFinalAttempt := attemptsMade + 1 >= p.maxAttempts;
      var f := database.UpdateExecution(p.executionId,
        _ => Execution(if isFinalAttempt then Failed else Started, Some(message), isFinalAttempt));
      ended := if Dies(f) then Dead else if Throws(f) then Throwing(DATABASE_ERROR) else Throwing(message);
    }

    /** `process`: one delivery of the job. What it leaves in the tables is what the machine leaves when
        it goes through the same calls; it returns normally exactly when the job is complete. */
    method Process(p: Plan, attemptsMade: nat, ghost s: System) returns (ended: Ended, ghost g: System)
      requires workflowEngine.database == database
      requires s.db == database.Snapshot() && s.worker.phase == Loading && s.worker.job.Open?
      requires s.worker.attemptsMade == attemptsMade
      modifies database
      ensures old(database.clock) <= database.clock
      ensures g == Run(p, s, database.Tape(old(database.clock), database.clock))
      ensures g.db == database.Snapshot() && g.worker.phase == Idle
      ensures ended == Normally <==> g.worker.job.Completed?
      ensures g.worker.attemptsMade == if ended.Throwing? then attemptsMade + 1 else attemptsMade
    {
      ghost var from := database.clock;
      ended, g := Begin(p, s);
      if !ended.Normally? {
        return;
      }
      ended, g := workflowEngine.Execute(p, s, from, g);
      if ended.Normally? {
        ended, g := Finish(p, s, from, g);
      }
      if ended.Throwing? {
        ended, g := Report(p, attemptsMade, ended.message, s, from, g);
      }
    }

    method Finish(p: Plan, ghost s: System, ghost from: nat, ghost g0: System) returns (ended: Ended, ghost g: System)
      requires Tracks(p, s, from, g0) && g0.worker.phase == Finishing && g0.worker.job.Open?
      modifies database
      ensures Tracks(p, s, from, g) && g.worker.attemptsMade == g0.worker.attemptsMade
      ensures workflowEngine.Stands(g, ended, Idle)
      ensures g.worker.job == if ended == Normally then Completed else Open
    {
      workflowEngine.OneMore(p, s, from, database.clock);
      g := Tick(p, g0, database.At(database.clock));
      var f := database.UpdateExecution(p.executionId,
        (e: Execution) => e.(status := Succeeded, finished := true));
      ended := if Throws(f) then Throwing(DATABASE_ERROR) else if Dies(f) then Dead else Normally;
    }
  }
}

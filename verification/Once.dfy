/** Steps that are recorded as finished when a delivery ends are never run again. */
module Once {
  import opened Values
  import opened Steps
  import opened Faults
  import opened Machine
  import opened Invariant

  /** Since `s`, nothing happened to the first `n` steps. */
  ghost predicate Spared(p: Plan, s: System, t: System, n: nat)
    requires n <= p.Size()
  {
    && (forall i | 0 <= i < n :: p.KeyOf(i) in s.db.rows && p.KeyOf(i) in t.db.rows
                                 && t.db.rows[p.KeyOf(i)] == s.db.rows[p.KeyOf(i)])
    && s.worker.starts <= t.worker.starts
    && (forall j | |s.worker.starts| <= j < |t.worker.starts| :: t.worker.starts[j] >= n)
    && s.worker.calls <= t.worker.calls
    && (forall j | |s.worker.calls| <= j < |t.worker.calls| :: t.worker.calls[j].i >= n)
  }

  /** The delivery under way found the first `n` steps finished. */
  ghost predicate Found(t: System, k: nat, n: nat) {
    k >= n && (InTry(t.worker.phase) ==> t.worker.base >= n)
  }

  lemma SparedByPut(p: Plan, s: System, t: System, u: System, n: nat, i: nat, row: Row)
    requires p.DistinctIds() && n <= i < p.Size() && Spared(p, s, t, n)
    requires u.db.rows == t.db.rows || u.db.rows == t.db.rows[p.KeyOf(i) := row]
    requires u.worker.calls == t.worker.calls
    requires u.worker.starts == t.worker.starts || u.worker.starts == t.worker.starts + [i]
    ensures Spared(p, s, u, n)
  {
    forall j | 0 <= j < n ensures p.KeyOf(j) != p.KeyOf(i) {
      KeysDiffer(p, j, i);
    }
  }

  lemma SparedByCall(p: Plan, s: System, t: System, f: Fault, reply: Reply, n: nat)
    requires t.worker.phase.Calling? && n <= t.worker.phase.i < p.Size() && Spared(p, s, t, n)
    ensures Spared(p, s, StepCalling(p, t, f, reply, t.worker.phase.i, t.worker.phase.data), n)
  {
  }

  lemma SparedInside(p: Plan, s: System, t: System, f: Fault, reply: Reply, k: nat, rest: RowStatus, n: nat)
    requires InvAt(p, t, k, rest) && n <= p.Size() && Spared(p, s, t, n) && Found(t, k, n)
    requires t.worker.phase.Marking? || t.worker.phase.Saving? || t.worker.phase.Failing?
    ensures Spared(p, s, Tick(p, t, Await(f, reply)), n)
  {
    var u := Tick(p, t, Await(f, reply));
    var i := t.worker.phase.i;
    var row := if p.KeyOf(i) in u.db.rows then u.db.rows[p.KeyOf(i)] else NEW_ROW;
    SparedByPut(p, s, t, u, n, i, row);
  }

  lemma SparedAround(p: Plan, s: System, t: System, f: Fault, reply: Reply, k: nat, rest: RowStatus, n: nat)
    requires InvAt(p, t, k, rest) && n <= p.Size() && Spared(p, s, t, n) && Found(t, k, n)
    requires t.worker.phase.Seeding? || t.worker.phase.Skipping?
    ensures Spared(p, s, Tick(p, t, Await(f, reply)), n)
  {
    if t.worker.phase.Seeding? {
      SeededRows(p, t.db);
    } else {
      SkippedRows(p, t.db, t.worker.phase.i);
    }
  }

  lemma SparedQuiet(p: Plan, s: System, t: System, f: Fault, reply: Reply, n: nat)
    requires n <= p.Size() && Spared(p, s, t, n)
    requires t.worker.phase.Loading? || t.worker.phase.Starting? || t.worker.phase.Looking?
             || t.worker.phase.Finishing? || t.worker.phase.Reporting?
    ensures Spared(p, s, Tick(p, t, Await(f, reply)), n)
  {
    var u := Tick(p, t, Await(f, reply));
    assert u.db.rows == t.db.rows && u.worker.starts == t.worker.starts && u.worker.calls == t.worker.calls;
  }

  lemma SparedTick(p: Plan, s: System, t: System, e: Event, k: nat, rest: RowStatus, n: nat)
    requires InvAt(p, t, k, rest) && n <= p.Size() && Spared(p, s, t, n) && Found(t, k, n)
    ensures Spared(p, s, Tick(p, t, e), n)
  {
    match e
    case Deliver =>
    case Await(f, reply) =>
      match t.worker.phase
      case Seeding | Skipping(_) => SparedAround(p, s, t, f, reply, k, rest, n);
      case Calling(_, _) => SparedByCall(p, s, t, f, reply, n);
      case Marking(_, _, _) | Saving(_, _, _, _) | Failing(_, _) => SparedInside(p, s, t, f, reply, k, rest, n);
      case Idle =>
      case _ => SparedQuiet(p, s, t, f, reply, n);
  }

  lemma FoundTick(p: Plan, t: System, e: Event, k: nat, rest: RowStatus, n: nat)
    requires InvAt(p, t, k, rest) && Found(t, k, n)
    ensures Found(Tick(p, t, e), NextK(t, e, k), n)
  {
    if t.worker.phase.Starting? {
      FrontierIs(p, t, k, rest);
    }
  }

  lemma {:induction false} SparedRun(p: Plan, s: System, events: seq<Event>, k0: nat, rest0: RowStatus)
    returns (k: nat, rest: RowStatus)
    requires InvAt(p, s, k0, rest0) && s.worker.phase.Idle? && Shape(p, s.db.rows, s.worker.calls, k0, rest0)
    ensures InvAt(p, Run(p, s, events), k, rest)
    ensures Spared(p, s, Run(p, s, events), k0) && Found(Run(p, s, events), k, k0)
    decreases |events|
  {
    if events == [] {
      k, rest := k0, rest0;
      ShapeDomain(p, s.db.rows, s.worker.calls, k0, rest0);
    } else {
      var n := |events| - 1;
      k, rest := SparedRun(p, s, events[..n], k0, rest0);
      var t := Run(p, s, events[..n]);
      TickKeeps(p, t, events[n], k, rest);
      SparedTick(p, s, t, events[n], k, rest, k0);
      FoundTick(p, t, events[n], k, rest, k0);
      k, rest := NextK(t, events[n], k), NextRest(t, events[n], rest);
    }
  }

  /** Retries do not run finished steps again: a row that is SUCCEEDED between two deliveries stays as it
      is for ever, and its step is neither started nor executed by any later delivery. */
  lemma {:induction false} FinishedStepsStay(p: Plan, s0: System, before: seq<Event>, after: seq<Event>, i: nat)
    requires p.DistinctIds() && Initial(p, s0) && i < p.Size()
    requires var s := Run(p, s0, before);
             s.worker.phase.Idle? && p.KeyOf(i) in s.db.rows && s.db.rows[p.KeyOf(i)].status == SUCCEEDED
    ensures var s, t := Run(p, s0, before), Run(p, s0, before + after);
            && p.KeyOf(i) in t.db.rows && t.db.rows[p.KeyOf(i)] == s.db.rows[p.KeyOf(i)]
            && |s.worker.starts| <= |t.worker.starts| && |s.worker.calls| <= |t.worker.calls|
            && (forall j | |s.worker.starts| <= j < |t.worker.starts| :: t.worker.starts[j] != i)
            && (forall j | |s.worker.calls| <= j < |t.worker.calls| :: t.worker.calls[j].i != i)
  {
    Reachable(p, s0, before);
    var s := Run(p, s0, before);
    var k: nat, rest :| InvAt(p, s, k, rest);
    assert !Unborn(p, s.db.rows);
    forall j | k < j < p.Size() ensures p.KeyOf(j) in s.db.rows && s.db.rows[p.KeyOf(j)].status == rest {
      assert Untouched(p, s.db.rows, j, rest);
    }
    assert i < k;
    var _, _ := SparedRun(p, s, after, k, rest);
    RunAppend(p, s0, before, after);
  }
}

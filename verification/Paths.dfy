/** Dotted paths into workflow data: splitting, joining and resolving them. */
module Paths {
  import opened Values

  /** `path.split('.')`: the empty path has one empty segment. */
  function Split(path: string): (parts: seq<string>)
    ensures |parts| >= 1
    ensures forall i | 0 <= i < |parts| :: '.' !in parts[i]
  {
    if path == "" then [""]
    else
      var rest := Split(path[1..]);
      if path[0] == '.' then [""] + rest else [[path[0]] + rest[0]] + rest[1..]
  }

  function Join(parts: seq<string>): string
    requires |parts| >= 1
  {
    if |parts| == 1 then parts[0] else parts[0] + "." + Join(parts[1..])
  }

  lemma {:induction false} JoinUndoesSplit(path: string)
    ensures Join(Split(path)) == path
  {
    if path != "" {
      var rest := Split(path[1..]);
      JoinUndoesSplit(path[1..]);
      if path[0] == '.' {
        assert ([""] + rest)[1..] == rest;
      } else {
        var parts := [[path[0]] + rest[0]] + rest[1..];
        assert Split(path) == parts && parts[1..] == rest[1..];
        if |rest| > 1 {
          assert Join(parts) == [path[0]] + (rest[0] + "." + Join(rest[1..]));
        }
      }
    }
  }

  lemma SplitCons(c: char, t: string)
    ensures Split([c] + t) ==
            if c == '.' then [""] + Split(t) else [[c] + Split(t)[0]] + Split(t)[1..]
  {
    assert ([c] + t)[1..] == t;
  }

  /** Cutting at a dot: the segments of `p.q` are the segments of `p` and then those of `q`. */
  lemma {:induction false} SplitAtDot(p: string, q: string)
    ensures Split(p + "." + q) == Split(p) + Split(q)
  {
    if p == "" {
      assert p + "." + q == ['.'] + q;
      SplitCons('.', q);
    } else {
      var c, t := p[0], p[1..];
      SplitAtDot(t, q);
      assert p + "." + q == [c] + (t + "." + q);
      SplitCons(c, t + "." + q);
      assert p == [c] + t;
      SplitCons(c, t);
      Regroup([c], Split(t), Split(q));
    }
  }

  lemma Regroup(c: string, front: seq<string>, back: seq<string>)
    requires |front| >= 1
    ensures [c + (front + back)[0]] + (front + back)[1..] == ([c + front[0]] + front[1..]) + back
    ensures [""] + (front + back) == ([""] + front) + back
  {
  }

  lemma {:induction false} SplitDotless(part: string)
    requires '.' !in part
    ensures Split(part) == [part]
  {
    if part != "" {
      SplitDotless(part[1..]);
      assert part == [part[0]] + part[1..];
      SplitCons(part[0], part[1..]);
    }
  }

  lemma {:induction false} SplitUndoesJoin(parts: seq<string>)
    requires |parts| >= 1
    requires forall i | 0 <= i < |parts| :: '.' !in parts[i]
    ensures Split(Join(parts)) == parts
  {
    SplitDotless(parts[0]);
    if |parts| > 1 {
      SplitUndoesJoin(parts[1..]);
      SplitAtDot(parts[0], Join(parts[1..]));
      assert parts == [parts[0]] + parts[1..];
    }
  }

  /** Reading segment after segment; anything but an object has no segments below it. */
  function Walk(current: Option<Json>, parts: seq<string>): Option<Json>
    decreases |parts|
  {
    if parts == [] then current
    else match current
      case Some(Object(fields)) => Walk(Lookup(fields, parts[0]), parts[1..])
      case _ => None
  }

  function Resolve(input: WorkflowData, path: string): Option<Json> {
    Walk(Some(Object(input)), Split(path))
  }

  /** `resolveInputPath`: `None` stands for `undefined`. */
  method ResolveInputPath(input: WorkflowData, path: string) returns (value: Option<Json>)
    ensures value == Resolve(input, path)
  {
    var parts := Split(path);
    var current := Some(Object(input));
    for i := 0 to |parts|
      invariant Walk(current, parts[i..]) == Resolve(input, path)
    {
      if !current.Some? || !current.value.Object? {
        return None;
      }
      current := Lookup(current.value.fields, parts[i]);
      assert parts[i..][1..] == parts[i + 1..];
    }
    return current;
  }

  lemma {:induction false} WalkAppend(current: Option<Json>, front: seq<string>, back: seq<string>)
    ensures Walk(current, front + back) == Walk(Walk(current, front), back)
    decreases |front|
  {
    if front == [] {
      assert front + back == back;
    } else {
      assert (front + back)[1..] == front[1..] + back;
      match current {
        case Some(Object(fields)) => WalkAppend(Lookup(fields, front[0]), front[1..], back);
        case _ => WalkNothing(back);
      }
    }
  }

  lemma WalkNothing(parts: seq<string>)
    ensures Walk(None, parts) == None
  {
  }

  /** Path composition: reading `p.q` is reading `q` in the object found at `p`. */
  lemma {:induction false} ResolveComposes(input: WorkflowData, p: string, q: string)
    ensures Resolve(input, p + "." + q) ==
            match Resolve(input, p)
            case Some(Object(inner)) => Resolve(inner, q)
            case _ => None
  {
    SplitAtDot(p, q);
    WalkAppend(Some(Object(input)), Split(p), Split(q));
  }

  /** The smallest object that holds `leaf` below `parts`. */
  function Nest(parts: seq<string>, leaf: Json): Json {
    if parts == [] then leaf else Object(map[parts[0] := Nest(parts[1..], leaf)])
  }

  lemma {:induction false} WalkNest(parts: seq<string>, leaf: Json)
    ensures Walk(Some(Nest(parts, leaf)), parts) == Some(leaf)
  {
    if parts != [] {
      WalkNest(parts[1..], leaf);
    }
  }

  /** Write then read: what is nested below dot-free segments is found at the joined path. */
  lemma {:induction false} ReadsWhatWasNested(parts: seq<string>, leaf: Json)
    requires |parts| >= 1
    requires forall i | 0 <= i < |parts| :: '.' !in parts[i]
    ensures Nest(parts, leaf).Object?
    ensures Resolve(Nest(parts, leaf).fields, Join(parts)) == Some(leaf)
  {
    SplitUndoesJoin(parts);
    WalkNest(parts, leaf);
  }

  // ---------------------------------------------------------------- what a path reads

  /** The objects a reading passes: the input, and then what stands under each segment but the last. */
  ghost predicate Trail(input: WorkflowData, parts: seq<string>, trail: seq<WorkflowData>) {
    && |trail| == |parts| > 0
    && trail[0] == input
    && forall k | 0 <= k < |parts| - 1 :: parts[k] in trail[k] && trail[k][parts[k]] == Object(trail[k + 1])
  }

  /** The trail ends in an object that has the value under the last segment. */
  ghost predicate EndsIn(parts: seq<string>, trail: seq<WorkflowData>, value: Json)
    requires |trail| == |parts| > 0
  {
    var last := |parts| - 1;
    parts[last] in trail[last] && trail[last][parts[last]] == value
  }

  /** Going from object to object along the path, one comes to the value. */
  ghost predicate Reads(input: WorkflowData, path: string, value: Json) {
    exists trail :: Trail(input, Split(path), trail) && EndsIn(Split(path), trail, value)
  }

  lemma {:induction false} WalkHasTrail(input: WorkflowData, parts: seq<string>, value: Json)
    returns (trail: seq<WorkflowData>)
    requires |parts| > 0 && Walk(Some(Object(input)), parts) == Some(value)
    ensures Trail(input, parts, trail) && EndsIn(parts, trail, value)
    decreases |parts|
  {
    var next := Lookup(input, parts[0]);
    if |parts| == 1 {
      trail := [input];
    } else {
      assert next.Some? && next.value.Object?;
      var rest := WalkHasTrail(next.value.fields, parts[1..], value);
      trail := [input] + rest;
      forall k | 0 <= k < |parts| - 1
        ensures parts[k] in trail[k] && trail[k][parts[k]] == Object(trail[k + 1])
      {
        if k > 0 {
          assert parts[1..][k - 1] == parts[k];
        }
      }
      assert parts[1..][|parts| - 2] == parts[|parts| - 1];
    }
  }

  lemma {:induction false} TrailIsWalked(input: WorkflowData, parts: seq<string>, trail: seq<WorkflowData>, value: Json)
    requires Trail(input, parts, trail) && EndsIn(parts, trail, value)
    ensures Walk(Some(Object(input)), parts) == Some(value)
    decreases |parts|
  {
    if |parts| == 1 {
      assert parts[1..] == [];
    } else {
      var next := trail[1];
      assert input[parts[0]] == Object(next);
      forall k | 0 <= k < |parts| - 2
        ensures parts[1..][k] in trail[1..][k] && trail[1..][k][parts[1..][k]] == Object(trail[1..][k + 1])
      {
        assert parts[k + 1] in trail[k + 1] && trail[k + 1][parts[k + 1]] == Object(trail[k + 2]);
      }
      TrailIsWalked(next, parts[1..], trail[1..], value);
    }
  }

  /** The resolver returns a value exactly when the path reads it, and undefined exactly when it reads none: at a
      missing key, or below anything but an object. */
  lemma {:induction false} ResolvesWhatItReads(input: WorkflowData, path: string)
    ensures forall value :: Resolve(input, path) == Some(value) <==> Reads(input, path, value)
    ensures Resolve(input, path) == None <==> forall value :: !Reads(input, path, value)
  {
    forall value ensures Resolve(input, path) == Some(value) <==> Reads(input, path, value) {
      if Resolve(input, path) == Some(value) {
        var _ := WalkHasTrail(input, Split(path), value);
      }
      if trail :| Trail(input, Split(path), trail) && EndsIn(Split(path), trail, value) {
        TrailIsWalked(input, Split(path), trail, value);
      }
    }
  }
}

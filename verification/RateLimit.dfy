/** The fixed-window rate limiter: a counter per key that expires. */
module RateLimit {
  import opened Values

  /** A live Redis counter. A key that was never given an expiry would live for ever. */
  datatype Counter = Counter(count: nat, expiresAt: Option<nat>)

  type Store = map<string, Counter>

  datatype Verdict = Verdict(allowed: bool, remaining: nat, retryAfterSeconds: nat)

  const SECOND := 1000

  /** Time is in milliseconds; a counter is gone from the moment it expires. */
  predicate Live(store: Store, key: string, now: nat) {
    key in store && (store[key].expiresAt.Some? ==> now < store[key].expiresAt.value)
  }

  /** `TTL`: the time left, to the nearest second; -1 for a counter without expiry. */
  function Ttl(c: Counter, now: nat): int {
    match c.expiresAt
    case None => -1
    case Some(at) => if at <= now then 0 else (at - now + 500) / SECOND
  }

  /** What the script leaves under its key. */
  function Bumped(store: Store, key: string, windowSeconds: nat, now: nat): Counter {
    if Live(store, key, now) then store[key].(count := store[key].count + 1)
    else Counter(1, Some(now + windowSeconds * SECOND))
  }

  function Max0(n: int): nat { if n > 0 then n else 0 }

  function Judge(c: Counter, limit: nat, now: nat): Verdict {
    Verdict(c.count <= limit, Max0(limit - c.count), Max0(Ttl(c, now)))
  }

  /** Every stored counter has counted something and was given an expiry. */
  predicate Sound(store: Store) {
    forall key | key in store :: store[key].count >= 1 && store[key].expiresAt.Some?
  }

  class RateLimitService {
    var store: Store

    constructor ()
      ensures store == map[] && Sound(store)
    {
      store := map[];
    }

    /** `INCR`: a missing or expired counter starts again from nothing, without an expiry. */
    method Increment(key: string, now: nat) returns (current: nat)
      modifies this
      ensures Live(old(store), key, now) ==>
                store == old(store)[key := old(store)[key].(count := old(store)[key].count + 1)]
      ensures !Live(old(store), key, now) ==> store == old(store)[key := Counter(1, None)]
      ensures current == store[key].count
    {
      if Live(store, key, now) {
        store := store[key := store[key].(count := store[key].count + 1)];
      } else {
        store := store[key := Counter(1, None)];
      }
      current := store[key].count;
    }

    /** `consume`: the whole script runs at one instant. */
    method Consume(key: string, limit: nat, windowSeconds: nat, now: nat) returns (verdict: Verdict)
      requires Sound(store)
      modifies this
      ensures store == old(store)[key := Bumped(old(store), key, windowSeconds, now)]
      ensures Sound(store)
      ensures verdict == Judge(store[key], limit, now)
    {
      var current := Increment(key, now);
      if current == 1 {
        store := store[key := store[key].(expiresAt := Some(now + windowSeconds * SECOND))];
      }
      var ttl := Ttl(store[key], now);
      verdict := Verdict(current <= limit, Max0(limit - current), Max0(ttl));
    }
  }

  // ---------------------------------------------------------------- one key over time

  /** What one key's requests see, as a state of its own: no live counter is `None`. */
  datatype Window = Window(count: nat, end: nat)

  function Admit(w: Option<Window>, length: nat, now: nat): Window {
    if w.Some? && now < w.value.end then Window(w.value.count + 1, w.value.end) else Window(1, now + length)
  }

  /** Requests at the given times: which are admitted. */
  function Admissions(w: Option<Window>, limit: nat, length: nat, times: seq<nat>): (admitted: seq<bool>)
    ensures |admitted| == |times|
    decreases |times|
  {
    if times == [] then []
    else
      var w' := Admit(w, length, times[0]);
      [w'.count <= limit] + Admissions(Some(w'), limit, length, times[1..])
  }

  predicate Ordered(times: seq<nat>) {
    forall i, j | 0 <= i <= j < |times| :: times[i] <= times[j]
  }

  /** The service plays the window machine on each key, and the other keys do not matter to it. */
  function WindowOf(store: Store, key: string): Option<Window> {
    if key in store && store[key].expiresAt.Some? then Some(Window(store[key].count, store[key].expiresAt.value))
      else None
  }

  lemma ConsumePlaysWindow(store: Store, key: string, other: string, limit: nat, windowSeconds: nat, now: nat)
    requires Sound(store)
    ensures var store' := store[key := Bumped(store, key, windowSeconds, now)];
            && WindowOf(store', key) == Some(Admit(WindowOf(store, key), windowSeconds * SECOND, now))
            && (other != key ==> WindowOf(store', other) == WindowOf(store, other))
            && Admissions(WindowOf(store, key), limit, windowSeconds * SECOND, [now]) ==
               [Judge(store'[key], limit, now).allowed]
  {
    assert [now][1..] == [];
  }

  function Count(admitted: seq<bool>): nat {
    if admitted == [] then 0 else (if admitted[0] then 1 else 0) + Count(admitted[1..])
  }

  /** How many windows of the given length can still open from `from` up to `until`. */
  function Openings(from: nat, until: nat, length: nat): nat
    requires length > 0
    decreases until - from
  {
    if until <= from then 0 else 1 + Openings(from + length, until, length)
  }

  lemma {:induction false} OpeningsShrink(from: nat, later: nat, until: nat, length: nat)
    requires length > 0 && from <= later
    ensures Openings(later, until, length) <= Openings(from, until, length)
    decreases until - from
  {
    if later < until {
      OpeningsShrink(from + length, later + length, until, length);
    }
  }

  lemma {:induction false} OpeningsOfWindows(from: nat, until: nat, m: nat, length: nat)
    requires length > 0 && until <= from + m * length
    ensures Openings(from, until, length) <= m
    decreases m
  {
    if from < until {
      assert m > 0;
      assert m * length == (m - 1) * length + length;
      OpeningsOfWindows(from + length, until, m - 1, length);
    }
  }

  /** Admissions before `until`: what is left of the live window, and a full window for each that can
      still open. */
  lemma {:induction false} AdmittedAtMost(w: Option<Window>, limit: nat, length: nat, times: seq<nat>, now: nat,
                                          until: nat)
    requires length > 0 && Ordered(times)
    requires forall i | 0 <= i < |times| :: now <= times[i] < until
    requires w.Some? ==> w.value.count >= 1
    ensures var live := w.Some? && now < w.value.end;
            Count(Admissions(w, limit, length, times)) <=
              (if live then Max0(limit - w.value.count) + limit * Openings(w.value.end, until, length)
               else limit * Openings(now, until, length))
    decreases |times|
  {
    if times != [] {
      var t := times[0];
      var w' := Admit(w, length, t);
      AdmittedAtMost(Some(w'), limit, length, times[1..], t, until);
      if !(w.Some? && t < w.value.end) {
        var from := if w.Some? && now < w.value.end then w.value.end else now;
        OpeningsShrink(from, t, until, length);
        assert limit * Openings(t, until, length) == limit + limit * Openings(t + length, until, length);
        MulMonotone(limit, Openings(t, until, length), Openings(from, until, length));
      }
    }
  }

  lemma MulMonotone(k: nat, a: nat, b: nat)
    requires a <= b
    ensures k * a <= k * b
  {
  }

  function WindowAfter(w: Option<Window>, length: nat, times: seq<nat>): Option<Window>
    decreases |times|
  {
    if times == [] then w else WindowAfter(Some(Admit(w, length, times[0])), length, times[1..])
  }

  lemma {:induction false} AdmissionsSplit(w: Option<Window>, limit: nat, length: nat, front: seq<nat>, back: seq<nat>)
    ensures Admissions(w, limit, length, front + back) ==
            Admissions(w, limit, length, front) + Admissions(WindowAfter(w, length, front), limit, length, back)
    decreases |front|
  {
    if front == [] {
      assert front + back == back;
    } else {
      var w' := Admit(w, length, front[0]);
      AdmissionsSplit(Some(w'), limit, length, front[1..], back);
      assert (front + back)[0] == front[0] && (front + back)[1..] == front[1..] + back;
      var mine, rest := [w'.count <= limit], Admissions(Some(w'), limit, length, front[1..]);
      var after := Admissions(WindowAfter(w, length, front), limit, length, back);
      assert Admissions(w, limit, length, front) == mine + rest;
      assert Admissions(w, limit, length, front + back) == mine + (rest + after);
      assert mine + (rest + after) == (mine + rest) + after;
    }
  }

  lemma {:induction false} WindowCounts(w: Option<Window>, length: nat, times: seq<nat>)
    requires w.Some? ==> w.value.count >= 1
    ensures var v := WindowAfter(w, length, times); v.Some? ==> v.value.count >= 1
    decreases |times|
  {
    if times != [] {
      WindowCounts(Some(Admit(w, length, times[0])), length, times[1..]);
    }
  }

  lemma SplitThree(limit: nat, length: nat, times: seq<nat>, lo: nat, hi: nat)
    requires lo <= hi <= |times|
    ensures Admissions(None, limit, length, times)[lo..hi] ==
            Admissions(WindowAfter(None, length, times[..lo]), limit, length, times[lo..hi])
  {
    var before, inside, after := times[..lo], times[lo..hi], times[hi..];
    assert times == before + (inside + after);
    AdmissionsSplit(None, limit, length, before, inside + after);
    AdmissionsSplit(WindowAfter(None, length, before), limit, length, inside, after);
  }

  /** Interval bound: whatever the request times, the requests among them that fall into `m` window
      lengths get at most `(m + 1) * limit - 1` admissions, one below the usual `(m + 1) * limit`: a window
      that was open before has already admitted the request that opened it. */
  lemma {:induction false} IntervalBound(limit: nat, length: nat, times: seq<nat>, from: nat, m: nat, lo: nat, hi: nat)
    requires length > 0 && Ordered(times) && lo <= hi <= |times|
    requires forall i | lo <= i < hi :: from <= times[i] < from + m * length
    ensures Count(Admissions(None, limit, length, times)[lo..hi]) <= if limit == 0 then 0 else (m + 1) * limit - 1
  {
    var until := from + m * length;
    var w := WindowAfter(None, length, times[..lo]);
    SplitThree(limit, length, times, lo, hi);
    WindowCounts(None, length, times[..lo]);
    AdmittedAtMost(w, limit, length, times[lo..hi], from, until);
    OpeningsOfWindows(from, until, m, length);
    MulMonotone(limit, Openings(from, until, length), m);
    if w.Some? && from < w.value.end {
      OpeningsShrink(from, w.value.end, until, length);
      MulMonotone(limit, Openings(w.value.end, until, length), m);
    }
    assert (m + 1) * limit == m * limit + limit;
  }

  /** A live window admits exactly what is left of its limit, and neither admitted nor denied requests
      move its end. */
  lemma {:induction false} WindowIsExact(w: Window, limit: nat, length: nat, times: seq<nat>)
    requires forall i | 0 <= i < |times| :: times[i] < w.end
    ensures Count(Admissions(Some(w), limit, length, times)) ==
            if |times| <= limit - w.count then |times| else Max0(limit - w.count)
    ensures WindowAfter(Some(w), length, times) == Some(Window(w.count + |times|, w.end))
    decreases |times|
  {
    if times != [] {
      WindowIsExact(Window(w.count + 1, w.end), limit, length, times[1..]);
    }
  }

  function Burst(n: nat, at: nat): seq<nat> {
    seq(n, _ => at)
  }

  /** A full burst at the start of each of `m` windows. */
  function Bursts(m: nat, limit: nat, length: nat, at: nat): seq<nat> {
    if m == 0 then [] else Burst(limit, at) + Bursts(m - 1, limit, length, at + length)
  }

  lemma {:induction false} CountSplit(a: seq<bool>, b: seq<bool>)
    ensures Count(a + b) == Count(a) + Count(b)
    decreases |a|
  {
    if a == [] {
      assert a + b == b;
    } else {
      CountSplit(a[1..], b);
      assert (a + b)[1..] == a[1..] + b;
    }
  }

  lemma {:induction false} BurstFills(w: Option<Window>, limit: nat, length: nat, at: nat)
    requires limit > 0 && length > 0 && (w.Some? ==> w.value.end <= at)
    ensures Count(Admissions(w, limit, length, Burst(limit, at))) == limit
    ensures WindowAfter(w, length, Burst(limit, at)) == Some(Window(limit, at + length))
  {
    assert Burst(limit, at)[1..] == Burst(limit - 1, at);
    WindowIsExact(Window(1, at + length), limit, length, Burst(limit - 1, at));
  }

  lemma {:induction false} BurstsFill(w: Option<Window>, m: nat, limit: nat, length: nat, at: nat)
    requires limit > 0 && length > 0 && (w.Some? ==> w.value.end <= at)
    ensures Count(Admissions(w, limit, length, Bursts(m, limit, length, at))) == m * limit
    decreases m
  {
    if m > 0 {
      BurstFills(w, limit, length, at);
      var v := WindowAfter(w, length, Burst(limit, at));
      BurstsFill(v, m - 1, limit, length, at + length);
      AdmissionsSplit(w, limit, length, Burst(limit, at), Bursts(m - 1, limit, length, at + length));
      CountSplit(Admissions(w, limit, length, Burst(limit, at)),
                 Admissions(v, limit, length, Bursts(m - 1, limit, length, at + length)));
      assert m * limit == (m - 1) * limit + limit;
    }
  }

  lemma {:induction false} BurstsLieIn(m: nat, limit: nat, length: nat, at: nat)
    requires length > 0
    ensures forall i | 0 <= i < |Bursts(m, limit, length, at)| ::
              at <= Bursts(m, limit, length, at)[i] && Bursts(m, limit, length, at)[i] <= at + m * length - length
    decreases m
  {
    if m > 0 {
      BurstsLieIn(m - 1, limit, length, at + length);
      assert m * length == (m - 1) * length + length;
      if m > 1 {
        MulMonotone(length, 1, m - 1);
      }
    }
  }

  /** The bound is reached, for any number of windows: one request opens a window, the rest of its limit
      comes in its last millisecond, and `m` full bursts follow. */
  lemma {:induction false} BoundIsReached(limit: nat, length: nat, m: nat)
    requires limit > 0 && length > 1 && m > 0
    ensures var inside := Burst(limit - 1, length - 1) + Bursts(m, limit, length, length);
            && (forall i | 0 <= i < |inside| :: length - 1 <= inside[i] < length - 1 + m * length)
            && Count(Admissions(None, limit, length, [0] + inside)[1..]) == (m + 1) * limit - 1
  {
    var tail, bursts := Burst(limit - 1, length - 1), Bursts(m, limit, length, length);
    var inside := tail + bursts;
    var w := Some(Window(1, length));
    assert ([0] + inside)[1..] == inside;
    assert Admissions(None, limit, length, [0] + inside)[1..] == Admissions(w, limit, length, inside);
    WindowIsExact(Window(1, length), limit, length, tail);
    AdmissionsSplit(w, limit, length, tail, bursts);
    CountSplit(Admissions(w, limit, length, tail), Admissions(WindowAfter(w, length, tail), limit, length, bursts));
    BurstsFill(WindowAfter(w, length, tail), m, limit, length, length);
    BurstsLieIn(m, limit, length, length);
    assert (m + 1) * limit == m * limit + limit;
    MulMonotone(length, 1, m);
  }

  /** A whole window, with the request that opens it, admits as many of its requests as the limit allows. */
  lemma {:induction false} WholeWindowAdmits(w: Option<Window>, limit: nat, length: nat, times: seq<nat>)
    requires times != [] && (w.Some? ==> w.value.end <= times[0])
    requires forall i | 0 <= i < |times| :: times[i] < times[0] + length
    ensures Count(Admissions(w, limit, length, times)) == if |times| <= limit then |times| else limit
  {
    var whole := Window(1, times[0] + length);
    WindowIsExact(whole, limit, length, times[1..]);
    var rest := Admissions(Some(whole), limit, length, times[1..]);
    assert Admissions(w, limit, length, times) == [1 <= limit] + rest;
    assert ([1 <= limit] + rest)[1..] == rest;
  }

  /** `remaining` tells how many more the window admits: of requests that follow before it ends, that many. */
  lemma {:induction false} RemainingIsAdmitted(store: Store, key: string, limit: nat, windowSeconds: nat, now: nat,
                                               times: seq<nat>)
    requires Sound(store)
    requires var c := Bumped(store, key, windowSeconds, now);
             forall i | 0 <= i < |times| :: times[i] < c.expiresAt.value
    ensures var c := Bumped(store, key, windowSeconds, now);
            var remaining := Judge(c, limit, now).remaining;
            Count(Admissions(WindowOf(store[key := c], key), limit, windowSeconds * SECOND, times)) ==
            if |times| <= remaining then |times| else remaining
  {
    var c := Bumped(store, key, windowSeconds, now);
    WindowIsExact(Window(c.count, c.expiresAt.value), limit, windowSeconds * SECOND, times);
  }

  // ---------------------------------------------------------------- the service over time

  /** One call of `consume`. */
  datatype Call = Call(key: string, limit: nat, windowSeconds: nat, now: nat)

  function AfterCall(store: Store, c: Call): Store {
    store[c.key := Bumped(store, c.key, c.windowSeconds, c.now)]
  }

  function StoreAfter(store: Store, calls: seq<Call>): Store
    decreases |calls|
  {
    if calls == [] then store else StoreAfter(AfterCall(store, calls[0]), calls[1..])
  }

  /** The verdicts on the calls for one key, in order. */
  function Verdicts(store: Store, calls: seq<Call>, key: string): seq<bool>
    decreases |calls|
  {
    if calls == [] then []
    else
      var c, store' := calls[0], AfterCall(store, calls[0]);
      (if c.key == key then [Judge(store'[key], c.limit, c.now).allowed] else []) + Verdicts(store', calls[1..], key)
  }

  function TimesOf(calls: seq<Call>, key: string): seq<nat> {
    if calls == [] then []
    else (if calls[0].key == key then [calls[0].now] else []) + TimesOf(calls[1..], key)
  }

  /** All calls for the key ask for the same limit and window. */
  predicate Agree(calls: seq<Call>, key: string, limit: nat, windowSeconds: nat) {
    forall i | 0 <= i < |calls| && calls[i].key == key ::
      calls[i].limit == limit && calls[i].windowSeconds == windowSeconds
  }

  /** Over any interleaving of calls for any keys, the verdicts on one key are those of the window machine at
      that key's times. */
  lemma {:induction false} ServicePlaysWindow(store: Store, calls: seq<Call>, key: string, limit: nat,
                                              windowSeconds: nat)
    requires Sound(store) && Agree(calls, key, limit, windowSeconds)
    ensures Sound(StoreAfter(store, calls))
    ensures var length, w := windowSeconds * SECOND, WindowOf(store, key);
            && Verdicts(store, calls, key) == Admissions(w, limit, length, TimesOf(calls, key))
            && WindowOf(StoreAfter(store, calls), key) == WindowAfter(w, length, TimesOf(calls, key))
    decreases |calls|
  {
    if calls != [] {
      var c := calls[0];
      ConsumePlaysWindow(store, c.key, key, c.limit, c.windowSeconds, c.now);
      ServicePlaysWindow(AfterCall(store, c), calls[1..], key, limit, windowSeconds);
      if c.key == key {
        OneMoreTime(WindowOf(store, key), limit, windowSeconds * SECOND, c.now, TimesOf(calls[1..], key));
      } else {
        assert TimesOf(calls, key) == TimesOf(calls[1..], key);
        assert Verdicts(store, calls, key) == Verdicts(AfterCall(store, c), calls[1..], key);
      }
    }
  }

  lemma OneMoreTime(w: Option<Window>, limit: nat, length: nat, now: nat, times: seq<nat>)
    ensures var w' := Admit(w, length, now);
            && Admissions(w, limit, length, [now] + times) ==
               [w'.count <= limit] + Admissions(Some(w'), limit, length, times)
            && WindowAfter(w, length, [now] + times) == WindowAfter(Some(w'), length, times)
  {
    assert ([now] + times)[1..] == times;
  }

  /** The interval bound for the service itself: whatever was asked before, and whatever is asked for other
      keys, the calls for one key that fall into `m` window lengths get at most `(m + 1) * limit - 1`
      admissions. */
  lemma {:induction false} ServiceIntervalBound(before: seq<Call>, inside: seq<Call>, key: string, limit: nat,
                                                windowSeconds: nat, from: nat, m: nat)
    requires windowSeconds > 0 && Agree(before, key, limit, windowSeconds) && Agree(inside, key, limit, windowSeconds)
    requires Ordered(TimesOf(before, key) + TimesOf(inside, key))
    requires forall t | t in TimesOf(inside, key) :: from <= t < from + m * (windowSeconds * SECOND)
    ensures Count(Verdicts(StoreAfter(map[], before), inside, key)) <= if limit == 0 then 0 else (m + 1) * limit - 1
  {
    var length, front, back := windowSeconds * SECOND, TimesOf(before, key), TimesOf(inside, key);
    ServicePlaysWindow(map[], before, key, limit, windowSeconds);
    ServicePlaysWindow(StoreAfter(map[], before), inside, key, limit, windowSeconds);
    AdmissionsSplit(None, limit, length, front, back);
    assert Admissions(None, limit, length, front + back)[|front|..|front + back|] ==
           Verdicts(StoreAfter(map[], before), inside, key);
    forall i | |front| <= i < |front + back| ensures from <= (front + back)[i] < from + m * length {
      assert (front + back)[i] == back[i - |front|] && back[i - |front|] in back;
    }
    IntervalBound(limit, length, front + back, from, m, |front|, |front + back|);
  }

  // ---------------------------------------------------------------- when to come back

  /** A caller who waits `retryAfterSeconds` finds the window over exactly when what was left of it is a
      whole number of seconds or rounds up: always on a whole-second clock. To be past the very instant at
      which it expires, it has to round up. */
  lemma RetryAfterIsEnough(store: Store, key: string, limit: nat, windowSeconds: nat, now: nat)
    requires Sound(store)
    ensures var c := Bumped(store, key, windowSeconds, now);
            var wait := Judge(c, limit, now).retryAfterSeconds * SECOND;
            var left := c.expiresAt.value - now;
            && (!Live(store[key := c], key, now + wait) <==> left % SECOND == 0 || left % SECOND >= 500)
            && (c.expiresAt.value < now + wait <==> left % SECOND >= 500)
  {
    var c := Bumped(store, key, windowSeconds, now);
    var left := c.expiresAt.value - now;
    assert left == SECOND * (left / SECOND) + left % SECOND;
    if left > 0 {
      assert (left + 500) / SECOND == left / SECOND + (if left % SECOND >= 500 then 1 else 0);
    }
  }

  /** It can be too short, from the very start: with a window of a minute, a second call 600 milliseconds after
      the first is told to wait 59 seconds, and 59 seconds later the window is still open. */
  lemma {:induction false} RetryAfterIsTooShort(key: string, limit: nat)
    ensures var first, second := Call(key, limit, 60, 0), Call(key, limit, 60, 600);
            var store := StoreAfter(map[], [first, second]);
            && key in store
            && Judge(store[key], limit, second.now).retryAfterSeconds == 59
            && Live(store, key, second.now + 59 * SECOND)
  {
    var first, second := Call(key, limit, 60, 0), Call(key, limit, 60, 600);
    assert [first, second][1..] == [second] && [second][1..] == [];
    var store := AfterCall(map[], first);
    assert store[key] == Counter(1, Some(60000));
    assert StoreAfter(map[], [first, second]) == StoreAfter(store, [second]) == AfterCall(store, second);
  }
}

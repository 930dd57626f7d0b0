/** The token bucket in front of the language model, over arbitrary traces of calls on a monotone clock. */
module RateLimit {

  datatype Bucket = Bucket(capacity: real, rate: real, tokens: real, last: real)

  /** With a rate of zero, a refusal divides by zero instead of naming a time to come back. */
  datatype Outcome = Granted | Denied(retryAfter: real) | DivisionByZero

  datatype Attempt = Attempt(at: real, cost: real)

  /** Tokens that flow in during `dt`. */
  function Flow(rate: real, dt: real): real {
    dt * rate
  }

  /** Tokens there would be at time `now`. */
  function Level(b: Bucket, now: real): real {
    var refilled := b.tokens + Flow(b.rate, now - b.last);
    if b.capacity < refilled then b.capacity else refilled
  }

  function Try(b: Bucket, a: Attempt): Outcome {
    if Level(b, a.at) >= a.cost then Granted
    else if b.rate == 0.0 then DivisionByZero
    else Denied((a.cost - Level(b, a.at)) / b.rate)
  }

  function Next(b: Bucket, a: Attempt): Bucket {
    var level := Level(b, a.at);
    b.(tokens := if level >= a.cost then level - a.cost else level, last := a.at)
  }

  predicate WellFormed(b: Bucket) {
    0.0 <= b.tokens <= b.capacity && b.rate >= 0.0
  }

  class TokenBucket {
    const capacity: real
    const rate: real
    var tokens: real
    var last: real

    ghost function State(): Bucket
      reads this
    {
      Bucket(capacity, rate, tokens, last)
    }

    constructor (capacity: int, refillPerMinute: real, now: real)
      ensures State() == Bucket(capacity as real, refillPerMinute / 60.0, capacity as real, now)
      ensures refillPerMinute == capacity as real ==> State() == OfLimit(capacity, now)
      ensures capacity >= 0 && refillPerMinute >= 0.0 ==> WellFormed(State())
    {
      this.capacity, tokens := capacity as real, capacity as real;
      rate := refillPerMinute / 60.0;
      last := now;
    }

    method TryAcquire(now: real, cost: real) returns (r: Outcome)
      modifies this
      ensures r == Try(old(State()), Attempt(now, cost))
      ensures State() == Next(old(State()), Attempt(now, cost))
    {
      var refilled := tokens + (now - last) * rate;
      tokens := if capacity < refilled then capacity else refilled;
      last := now;
      if tokens >= cost {
        tokens := tokens - cost;
        return Granted;
      }
      if rate == 0.0 { return DivisionByZero; }
      r := Denied((cost - tokens) / rate);
    }
  }

  // ---- traces

  /** Calls in clock order, none before the bucket's last update, none of negative cost. */
  predicate Timely(b: Bucket, trace: seq<Attempt>)
    decreases |trace|
  {
    trace == [] || (b.last <= trace[0].at && trace[0].cost >= 0.0 && Timely(Next(b, trace[0]), trace[1..]))
  }

  function After(b: Bucket, trace: seq<Attempt>): Bucket
    decreases |trace|
  {
    if trace == [] then b else After(Next(b, trace[0]), trace[1..])
  }

  /** Total cost granted by calls made between two times, both included. */
  function GrantedIn(b: Bucket, trace: seq<Attempt>, from: real, to: real): real
    decreases |trace|
  {
    if trace == [] then 0.0
    else
      var a := trace[0];
      (if from <= a.at <= to && Try(b, a).Granted? then a.cost else 0.0) + GrantedIn(Next(b, a), trace[1..], from, to)
  }

  lemma FlowNonNegative(rate: real, dt: real)
    requires rate >= 0.0 && dt >= 0.0
    ensures Flow(rate, dt) >= 0.0
  {
  }

  lemma FlowAdds(rate: real, x: real, y: real)
    ensures Flow(rate, x + y) == Flow(rate, x) + Flow(rate, y)
  {
  }

  lemma FlowGrows(rate: real, x: real, y: real)
    requires rate >= 0.0 && x <= y
    ensures Flow(rate, x) <= Flow(rate, y)
  {
    FlowNonNegative(rate, y - x);
    FlowAdds(rate, x, y - x);
    assert x + (y - x) == y;
  }

  lemma NextWellFormed(b: Bucket, a: Attempt)
    requires WellFormed(b) && b.last <= a.at && a.cost >= 0.0
    ensures WellFormed(Next(b, a)) && 0.0 <= Level(b, a.at) <= b.capacity
  {
    FlowNonNegative(b.rate, a.at - b.last);
  }

  lemma {:induction false} NothingAfterWindow(b: Bucket, trace: seq<Attempt>, from: real, to: real)
    requires Timely(b, trace) && b.last > to
    ensures GrantedIn(b, trace, from, to) == 0.0
    decreases |trace|
  {
    if trace == [] {
    } else {
      NothingAfterWindow(Next(b, trace[0]), trace[1..], from, to);
    }
  }

  /** One call inside the window passes the bound on: what it takes is gone from the bucket. */
  lemma CallPassesBoundOn(b: Bucket, a: Attempt, granted: real, to: real)
    requires WellFormed(b) && b.last <= a.at <= to && a.cost >= 0.0
    requires granted <= Next(b, a).tokens + Flow(b.rate, to - a.at)
    ensures (if Try(b, a).Granted? then a.cost else 0.0) + granted <= Level(b, a.at) + Flow(b.rate, to - a.at)
    ensures Level(b, a.at) + Flow(b.rate, to - a.at) <= b.tokens + Flow(b.rate, to - b.last)
  {
    FlowAdds(b.rate, a.at - b.last, to - a.at);
    assert (a.at - b.last) + (to - a.at) == to - b.last;
  }

  /** From a moment on, no more is granted than the tokens at hand and what flows in. */
  lemma {:induction false} GrantedFromHere(b: Bucket, trace: seq<Attempt>, from: real, to: real)
    requires WellFormed(b) && Timely(b, trace) && b.last <= to
    ensures GrantedIn(b, trace, from, to) <= b.tokens + Flow(b.rate, to - b.last)
    decreases |trace|
  {
    FlowNonNegative(b.rate, to - b.last);
    if trace == [] {
    } else {
      var a, rest := trace[0], trace[1..];
      NextWellFormed(b, a);
      if a.at <= to {
        GrantedFromHere(Next(b, a), rest, from, to);
        CallPassesBoundOn(b, a, GrantedIn(Next(b, a), rest, from, to), to);
      } else {
        NothingAfterWindow(Next(b, a), rest, from, to);
      }
    }
  }

  /** In any window of time, the cost granted is at most the capacity plus the refill of the window. */
  lemma {:induction false} GrantedInWindow(b: Bucket, trace: seq<Attempt>, from: real, to: real)
    requires WellFormed(b) && Timely(b, trace) && from <= to
    ensures GrantedIn(b, trace, from, to) <= b.capacity + Flow(b.rate, to - from)
    decreases |trace|
  {
    FlowNonNegative(b.rate, to - from);
    if trace == [] {
    } else {
      var a, rest := trace[0], trace[1..];
      NextWellFormed(b, a);
      if a.at < from {
        GrantedInWindow(Next(b, a), rest, from, to);
      } else if a.at <= to {
        GrantedFromHere(Next(b, a), rest, from, to);
        CallPassesBoundOn(b, a, GrantedIn(Next(b, a), rest, from, to), to);
        FlowGrows(b.rate, to - a.at, to - from);
      } else {
        NothingAfterWindow(Next(b, a), rest, from, to);
      }
    }
  }

  // ---- nothing is refused that is there

  /** A call that comes after others, all in clock order and of no negative cost. */
  predicate Reaches(b: Bucket, trace: seq<Attempt>, a: Attempt) {
    Timely(b, trace) && After(b, trace).last <= a.at && a.cost >= 0.0
  }

  lemma {:induction false} ClockRuns(b: Bucket, trace: seq<Attempt>)
    requires Timely(b, trace)
    ensures b.last <= After(b, trace).last
    decreases |trace|
  {
    if trace == [] {
    } else {
      ClockRuns(Next(b, trace[0]), trace[1..]);
    }
  }

  predicate CallAt(trace: seq<Attempt>, at: real) {
    exists i :: 0 <= i < |trace| && trace[i].at == at
  }

  /** What `a` asks for and what was granted since `from` would fit into a bucket that was full at `from`. */
  predicate FitsSince(b: Bucket, trace: seq<Attempt>, a: Attempt, from: real) {
    a.cost + GrantedIn(b, trace, from, a.at) <= b.capacity + Flow(b.rate, a.at - from)
  }

  /** And into what is at hand and flows in from the start. */
  predicate FitsFromStart(b: Bucket, trace: seq<Attempt>, a: Attempt) {
    a.cost + GrantedIn(b, trace, b.last, a.at) <= b.tokens + Flow(b.rate, a.at - b.last)
  }

  ghost predicate FitsAlways(b: Bucket, trace: seq<Attempt>, a: Attempt) {
    forall from :: CallAt(trace, from) || from == a.at ==> FitsSince(b, trace, a, from)
  }

  function Taken(b: Bucket, a: Attempt): real {
    if Try(b, a).Granted? then a.cost else 0.0
  }

  lemma {:induction false} AllSinceThen(b: Bucket, trace: seq<Attempt>, from: real, earlier: real, to: real)
    requires Timely(b, trace) && earlier <= from <= b.last
    ensures GrantedIn(b, trace, from, to) == GrantedIn(b, trace, earlier, to)
    decreases |trace|
  {
    if trace == [] {
    } else {
      AllSinceThen(Next(b, trace[0]), trace[1..], from, earlier, to);
    }
  }

  lemma {:induction false} CallsInOrder(b: Bucket, trace: seq<Attempt>, i: nat)
    requires Timely(b, trace) && i < |trace|
    ensures b.last <= trace[i].at <= After(b, trace).last && trace[i].cost >= 0.0
    decreases |trace|
  {
    ClockRuns(Next(b, trace[0]), trace[1..]);
    if i > 0 { CallsInOrder(Next(b, trace[0]), trace[1..], i - 1); }
  }

  lemma LesserFits(need: real, taken: real, level: real, tokens: real, capacity: real, first: real, later: real)
    requires level == if capacity < tokens + first then capacity else tokens + first
    ensures need <= level - taken + later
            <==> taken + need <= tokens + (first + later) && taken + need <= capacity + later
  {
  }

  /** One call later: what is at hand then is what was at hand or a full bucket, less what the call took. */
  lemma StartAfterCall(b: Bucket, first: Attempt, rest: seq<Attempt>, a: Attempt)
    requires b.last <= first.at <= a.at && first.cost >= 0.0 && Timely(Next(b, first), rest)
    ensures FitsFromStart(Next(b, first), rest, a)
            <==> FitsFromStart(b, [first] + rest, a) && FitsSince(b, [first] + rest, a, first.at)
  {
    var b', trace, taken := Next(b, first), [first] + rest, Taken(b, first);
    var granted, soon, later := GrantedIn(b', rest, first.at, a.at), first.at - b.last, a.at - first.at;
    assert trace[1..] == rest;
    AllSinceThen(b', rest, first.at, b.last, a.at);
    FlowAdds(b.rate, soon, later);
    assert soon + later == a.at - b.last;
    assert b'.tokens == Level(b, first.at) - taken;
    assert GrantedIn(b, trace, b.last, a.at) == taken + granted;
    assert GrantedIn(b, trace, first.at, a.at) == taken + granted;
    LesserFits(a.cost + granted, taken, Level(b, first.at), b.tokens, b.capacity, Flow(b.rate, soon),
               Flow(b.rate, later));
  }

  lemma SinceAfterCall(b: Bucket, first: Attempt, rest: seq<Attempt>, a: Attempt, from: real)
    requires first.at <= from <= a.at && first.cost >= 0.0 && Timely(Next(b, first), rest)
    ensures FitsSince(b, [first] + rest, a, from) ==> FitsSince(Next(b, first), rest, a, from)
    ensures from > first.at && FitsSince(Next(b, first), rest, a, from) ==> FitsSince(b, [first] + rest, a, from)
  {
    assert ([first] + rest)[1..] == rest;
  }

  lemma AlwaysAfterCall(b: Bucket, first: Attempt, rest: seq<Attempt>, a: Attempt)
    requires Reaches(b, [first] + rest, a)
    ensures FitsAlways(b, [first] + rest, a)
            <==> FitsSince(b, [first] + rest, a, first.at) && FitsAlways(Next(b, first), rest, a)
  {
    var trace, b' := [first] + rest, Next(b, first);
    assert trace[1..] == rest && trace[0] == first;
    assert CallAt(trace, first.at);
    forall from | CallAt(rest, from) || from == a.at
      ensures CallAt(trace, from) || from == a.at
      ensures first.at <= from <= a.at
    {
      ClockRuns(b', rest);
      if CallAt(rest, from) {
        var i :| 0 <= i < |rest| && rest[i].at == from;
        assert trace[i + 1].at == from;
        CallsInOrder(b', rest, i);
      }
    }
    forall from | CallAt(trace, from) ensures from == first.at || CallAt(rest, from) {
      var i :| 0 <= i < |trace| && trace[i].at == from;
      if i > 0 { assert rest[i - 1].at == from; }
    }
    forall from | CallAt(rest, from) || from == a.at
      ensures FitsSince(b, trace, a, from) ==> FitsSince(b', rest, a, from)
      ensures from > first.at && FitsSince(b', rest, a, from) ==> FitsSince(b, trace, a, from)
    {
      SinceAfterCall(b, first, rest, a, from);
    }
  }

  /** A call is granted exactly when its cost, with all that was granted before it, keeps within what was at hand
      at the start and flowed in since, and within a full bucket and what flowed in since every call before it. */
  lemma {:induction false} GrantedExactly(b: Bucket, trace: seq<Attempt>, a: Attempt)
    requires Reaches(b, trace, a)
    ensures Try(After(b, trace), a).Granted? <==> FitsFromStart(b, trace, a) && FitsAlways(b, trace, a)
    decreases |trace|
  {
    if trace == [] {
      assert FitsAlways(b, [], a) <==> FitsSince(b, [], a, a.at);
    } else {
      var first, rest := trace[0], trace[1..];
      assert trace == [first] + rest;
      ClockRuns(Next(b, first), rest);
      GrantedExactly(Next(b, first), rest, a);
      StartAfterCall(b, first, rest, a);
      AlwaysAfterCall(b, first, rest, a);
    }
  }

  // ---- retry_after

  predicate AllRefused(b: Bucket, trace: seq<Attempt>)
    decreases |trace|
  {
    trace == [] || (!Try(b, trace[0]).Granted? && AllRefused(Next(b, trace[0]), trace[1..]))
  }

  /** A refused call leaves the level at every later time as it was. */
  lemma RefusalKeepsLevel(b: Bucket, a: Attempt, later: real)
    requires WellFormed(b) && b.last <= a.at <= later && !Try(b, a).Granted?
    ensures Level(Next(b, a), later) == Level(b, later)
  {
    FlowNonNegative(b.rate, later - a.at);
    FlowAdds(b.rate, a.at - b.last, later - a.at);
    assert (a.at - b.last) + (later - a.at) == later - b.last;
  }

  lemma {:induction false} RefusalsKeepLevel(b: Bucket, trace: seq<Attempt>, later: real)
    requires WellFormed(b) && Timely(b, trace) && AllRefused(b, trace) && After(b, trace).last <= later
    ensures Level(After(b, trace), later) == Level(b, later)
    decreases |trace|
  {
    if trace == [] {
    } else {
      NextWellFormed(b, trace[0]);
      RefusalsKeepLevel(Next(b, trace[0]), trace[1..], later);
      ClockRuns(Next(b, trace[0]), trace[1..]);
      RefusalKeepsLevel(b, trace[0], later);
    }
  }

  lemma FlowReaches(rate: real, dt: real, need: real)
    requires rate > 0.0
    ensures Flow(rate, dt) >= need <==> dt >= need / rate
  {
    var q := need / rate;
    assert q * rate == need;
    assert Flow(rate, dt) - need == (dt - q) * rate;
    if dt >= q { FlowNonNegative(rate, dt - q); } else { assert (q - dt) * rate > 0.0; }
  }

  lemma RetryAfterOfLevel(b: Bucket, t: real, cost: real, later: real)
    requires WellFormed(b) && b.last <= t <= later && 0.0 <= cost <= b.capacity && Try(b, Attempt(t, cost)).Denied?
    ensures Level(Next(b, Attempt(t, cost)), later) >= cost <==> later >= t + Try(b, Attempt(t, cost)).retryAfter
  {
    NextWellFormed(b, Attempt(t, cost));
    FlowReaches(b.rate, later - t, cost - Level(b, t));
  }

  /** `retry_after` is exact: however many refused calls come in between, a call for the same cost is granted
      exactly when that time has passed. */
  lemma RetryAfterIsExact(b: Bucket, t: real, cost: real, between: seq<Attempt>, later: real)
    requires WellFormed(b) && b.last <= t && 0.0 <= cost <= b.capacity
    requires Try(b, Attempt(t, cost)).Denied?
    requires Timely(Next(b, Attempt(t, cost)), between) && AllRefused(Next(b, Attempt(t, cost)), between)
    requires After(Next(b, Attempt(t, cost)), between).last <= later
    ensures Try(After(Next(b, Attempt(t, cost)), between), Attempt(later, cost)).Granted?
            <==> later >= t + Try(b, Attempt(t, cost)).retryAfter
  {
    var b' := Next(b, Attempt(t, cost));
    NextWellFormed(b, Attempt(t, cost));
    ClockRuns(b', between);
    RefusalsKeepLevel(b', between, later);
    RetryAfterOfLevel(b, t, cost, later);
  }

  /** A cost above the capacity is never granted, so its `retry_after` names no real time. */
  lemma {:induction false} AboveCapacityNeverGranted(b: Bucket, trace: seq<Attempt>, later: real, cost: real)
    requires cost > b.capacity
    ensures !Try(After(b, trace), Attempt(later, cost)).Granted?
    decreases |trace|
  {
    if trace == [] {
    } else {
      AboveCapacityNeverGranted(Next(b, trace[0]), trace[1..], later, cost);
    }
  }

  // ---- limits that refuse badly

  lemma {:induction false} RateStays(b: Bucket, trace: seq<Attempt>)
    ensures After(b, trace).rate == b.rate && After(b, trace).capacity == b.capacity
    decreases |trace|
  {
    if trace == [] {
    } else {
      RateStays(Next(b, trace[0]), trace[1..]);
    }
  }

  /** With nothing flowing in, only what was granted is missing. */
  lemma {:induction false} OnlySpending(b: Bucket, trace: seq<Attempt>, from: real, a: Attempt)
    requires b.rate == 0.0 && b.tokens <= b.capacity && from <= b.last && Reaches(b, trace, a)
    ensures Level(After(b, trace), a.at) == b.tokens - GrantedIn(b, trace, from, a.at)
    decreases |trace|
  {
    if trace == [] {
    } else {
      ClockRuns(Next(b, trace[0]), trace[1..]);
      OnlySpending(Next(b, trace[0]), trace[1..], from, a);
    }
  }

  /** A call raises exactly when nothing flows in and what earlier calls left does not cover it. */
  lemma RaisesExactly(b: Bucket, trace: seq<Attempt>, a: Attempt)
    requires b.tokens <= b.capacity && Reaches(b, trace, a)
    ensures Try(After(b, trace), a).DivisionByZero?
            <==> b.rate == 0.0 && b.tokens - GrantedIn(b, trace, b.last, a.at) < a.cost
  {
    RateStays(b, trace);
    if b.rate == 0.0 { OnlySpending(b, trace, b.last, a); }
  }

  /** The bucket made from the configured number of calls a minute, which nothing bounds from below. */
  function OfLimit(n: int, now: real): Bucket {
    Bucket(n as real, n as real / 60.0, n as real, now)
  }

  ghost predicate SomeCallRaises(b: Bucket) {
    exists trace: seq<Attempt>, a: Attempt :: Reaches(b, trace, a) && Try(After(b, trace), a).DivisionByZero?
  }

  ghost predicate RefusalsNameATime(b: Bucket) {
    forall trace: seq<Attempt>, a: Attempt :: Reaches(b, trace, a) && !Try(After(b, trace), a).Granted? ==>
      Try(After(b, trace), a).Denied? && Try(After(b, trace), a).retryAfter > 0.0
  }

  /** Some call raises exactly when the limit is zero. */
  lemma LimitRaisesExactly(n: int, now: real)
    ensures SomeCallRaises(OfLimit(n, now)) <==> n == 0
  {
    var b := OfLimit(n, now);
    forall trace | b.rate != 0.0 ensures After(b, trace).rate != 0.0 { RateStays(b, trace); }
    if n == 0 {
      assert Reaches(b, [], Attempt(now, 1.0)) && Try(After(b, []), Attempt(now, 1.0)).DivisionByZero?;
    }
  }

  lemma PositiveWait(need: real, rate: real)
    requires need > 0.0 && rate != 0.0
    ensures need / rate > 0.0 <==> rate > 0.0
  {
    assert (need / rate) * rate == need;
  }

  /** Every refusal names a time still to come exactly when the limit is positive: with a negative one the
      first refused caller is told a time already past. */
  lemma PositiveLimitExactly(n: int, now: real)
    ensures RefusalsNameATime(OfLimit(n, now)) <==> n > 0
  {
    var b := OfLimit(n, now);
    if n > 0 {
      forall trace: seq<Attempt>, a: Attempt | Reaches(b, trace, a) && !Try(After(b, trace), a).Granted?
        ensures Try(After(b, trace), a).Denied? && Try(After(b, trace), a).retryAfter > 0.0
      {
        RateStays(b, trace);
        PositiveWait(a.cost - Level(After(b, trace), a.at), After(b, trace).rate);
      }
    } else {
      var first := Attempt(now, 1.0);
      assert Reaches(b, [], first) && Level(b, now) == n as real;
      assert !Try(After(b, []), first).Granted?;
      if n < 0 { PositiveWait(1.0 - n as real, b.rate); }
    }
  }
}

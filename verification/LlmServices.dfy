/** The two services that start the local language model, sharing one token bucket. What the model would
    reply, and the time of the call, are parameters. */
module LlmServices {
  import opened Values
  import opened RateLimit

  /** Stands for an edge together with the evidence that enters the cache key. */
  type Evidence = nat

  const TEMPLATE := "template"

  datatype Refusal = RateLimited(retryAfter: real) | Crashed

  datatype Explanation =
    | NotFound
    | Refused(why: Refusal)
    | Explained(model: string, text: string, cached: bool)

  datatype Answer =
    | NoEvidence
    | Unavailable
    | Declined(why: Refusal)
    | Answered(text: string)

  // ---- starts of the model, from the bucket's calls

  /** Times at which a call was granted. */
  function GrantTimes(b: Bucket, calls: seq<Attempt>): seq<real>
    decreases |calls|
  {
    if calls == [] then []
    else (if Try(b, calls[0]).Granted? then [calls[0].at] else []) + GrantTimes(Next(b, calls[0]), calls[1..])
  }

  function CountIn(times: seq<real>, from: real, to: real): nat {
    if times == [] then 0 else (if from <= times[0] <= to then 1 else 0) + CountIn(times[1..], from, to)
  }

  predicate UnitCosts(calls: seq<Attempt>) {
    forall i :: 0 <= i < |calls| ==> calls[i].cost == 1.0
  }

  lemma {:induction false} CountIsGranted(b: Bucket, calls: seq<Attempt>, from: real, to: real)
    requires UnitCosts(calls)
    ensures CountIn(GrantTimes(b, calls), from, to) as real == GrantedIn(b, calls, from, to)
    decreases |calls|
  {
    if calls == [] {
    } else {
      CountIsGranted(Next(b, calls[0]), calls[1..], from, to);
      var rest := GrantTimes(Next(b, calls[0]), calls[1..]);
      assert ([calls[0].at] + rest)[1..] == rest;
      assert [] + rest == rest;
    }
  }

  lemma {:induction false} OneMoreCall(b: Bucket, calls: seq<Attempt>, a: Attempt)
    requires Timely(b, calls) && After(b, calls).last <= a.at && a.cost >= 0.0
    ensures Timely(b, calls + [a]) && After(b, calls + [a]) == Next(After(b, calls), a)
    ensures GrantTimes(b, calls + [a]) == GrantTimes(b, calls) + if Try(After(b, calls), a).Granted? then [a.at] else []
    decreases |calls|
  {
    var more := calls + [a];
    if calls == [] {
      assert more[1..] == [];
    } else {
      assert more[1..] == calls[1..] + [a];
      OneMoreCall(Next(b, calls[0]), calls[1..], a);
    }
  }

  class Services {
    const bucket: TokenBucket
    const llm: Option<string>
    var cache: map<(string, Evidence), string>

    ghost const first: Bucket
    ghost var calls: seq<Attempt>
    /** Times at which inference was started. */
    ghost var started: seq<real>

    /** Inference has been started exactly at the granted calls. */
    ghost predicate Valid()
      reads this, bucket
    {
      && WellFormed(first) && Timely(first, calls) && UnitCosts(calls)
      && bucket.State() == After(first, calls)
      && started == GrantTimes(first, calls)
    }

    constructor (bucket: TokenBucket, llm: Option<string>, cache: map<(string, Evidence), string>)
      requires WellFormed(bucket.State())
      ensures Valid() && this.bucket == bucket && this.llm == llm && this.cache == cache
      ensures first == bucket.State() && calls == [] && started == []
    {
      this.bucket, this.llm, this.cache := bucket, llm, cache;
      first, calls, started := bucket.State(), [], [];
    }

    /** Charge one token and, when granted, start inference. */
    method Generate(now: real, reply: Option<string>) returns (r: Outcome, text: Option<string>)
      requires Valid() && bucket.last <= now
      modifies bucket, this`calls, this`started
      ensures Valid() && calls == old(calls) + [Attempt(now, 1.0)]
      ensures r == Try(old(bucket.State()), Attempt(now, 1.0))
      ensures started == old(started) + if r.Granted? then [now] else []
      ensures text == if r.Granted? then reply else None
    {
      OneMoreCall(first, calls, Attempt(now, 1.0));
      r := bucket.TryAcquire(now, 1.0);
      calls := calls + [Attempt(now, 1.0)];
      if r.Granted? {
        started := started + [now];
        text := reply;
      } else {
        text := None;
      }
    }

    /** `_template_explanation`: never charged. */
    method Template(e: Evidence, refresh: bool, render: string) returns (r: Explanation)
      modifies this`cache
      ensures !refresh && (TEMPLATE, e) in old(cache) ==>
                r == Explained(TEMPLATE, old(cache)[(TEMPLATE, e)], true) && cache == old(cache)
      ensures refresh || (TEMPLATE, e) !in old(cache) ==>
                r == Explained(TEMPLATE, render, false) && cache == old(cache)[(TEMPLATE, e) := render]
    {
      if !refresh && (TEMPLATE, e) in cache {
        return Explained(TEMPLATE, cache[(TEMPLATE, e)], true);
      }
      cache := cache[(TEMPLATE, e) := render];
      r := Explained(TEMPLATE, render, false);
    }

    /** Does this request reach the model at all? */
    predicate NeedsModel(e: Option<Evidence>, refresh: bool)
      reads this
    {
      e.Some? && llm.Some? && (refresh || (llm.value, e.value) !in cache)
    }

    /** A token is charged exactly for a request that needs the model, and then immediately before it. */
    method Explain(e: Option<Evidence>, refresh: bool, reply: Option<string>, render: string, now: real)
      returns (r: Explanation)
      requires Valid() && bucket.last <= now
      modifies this, bucket
      ensures Valid()
      ensures e.None? || llm.None? || (!refresh && (llm.value, e.value) in old(cache)) ==>
                calls == old(calls) && bucket.State() == old(bucket.State())
      ensures e.Some? && llm.Some? && !refresh && (llm.value, e.value) in old(cache) ==>
                r == Explained(llm.value, old(cache)[(llm.value, e.value)], true)
      ensures e.Some? && llm.Some? && (refresh || (llm.value, e.value) !in old(cache)) ==>
                && calls == old(calls) + [Attempt(now, 1.0)]
                && (r.Explained? && reply.Some? && reply.value != "" ==> r == Explained(llm.value, reply.value, false))
      ensures e.None? <==> r.NotFound?
      ensures r.Refused? <==> old(NeedsModel(e, refresh)) && !Try(old(bucket.State()), Attempt(now, 1.0)).Granted?
      ensures r.NotFound? || r.Refused? ==> cache == old(cache) && started == old(started)
      ensures r.Explained? && r.cached ==>
              cache == old(cache) && !refresh && (r.model, e.value) in cache && r.text == cache[(r.model, e.value)]
      ensures r.Explained? && !r.cached ==> cache == old(cache)[(r.model, e.value) := r.text]
      ensures r.Explained? && llm.Some? && r.model == llm.value != TEMPLATE && !r.cached ==>
                reply == Some(r.text) && r.text != "" && started == old(started) + [now]
    {
      if e.None? { return NotFound; }
      if llm.Some? {
        var key := (llm.value, e.value);
        if !refresh && key in cache {
          return Explained(llm.value, cache[key], true);
        }
        var outcome, text := Generate(now, reply);
        if !outcome.Granted? {
          return Refused(if outcome.Denied? then RateLimited(outcome.retryAfter) else Crashed);
        }
        if text.Some? && text.value != "" {
          cache := cache[key := text.value];
          return Explained(llm.value, text.value, false);
        }
      }
      r := Template(e.value, refresh, render);
    }

    /** Nothing found, or no model configured, costs nothing; the rest is charged before inference. */
    method Ask(hits: nat, reply: Option<string>, now: real) returns (r: Answer)
      requires Valid() && bucket.last <= now
      modifies bucket, this`calls, this`started
      ensures Valid() && cache == old(cache)
      ensures calls == old(calls) + if hits > 0 && llm.Some? then [Attempt(now, 1.0)] else []
      ensures r.NoEvidence? <==> hits == 0
      ensures r.Declined? <==> hits > 0 && llm.Some? && !Try(old(bucket.State()), Attempt(now, 1.0)).Granted?
      ensures r.Answered? ==> reply == Some(r.text) && r.text != "" && started == old(started) + [now]
      ensures r.Unavailable? ==> llm.None? || reply.None? || reply == Some("")
    {
      if hits == 0 { return NoEvidence; }
      if llm.None? { return Unavailable; }
      var outcome, text := Generate(now, reply);
      if !outcome.Granted? {
        return Declined(if outcome.Denied? then RateLimited(outcome.retryAfter) else Crashed);
      }
      if text.None? || text.value == "" { return Unavailable; }
      r := Answered(text.value);
    }
  }

  /** Explanations and answers together start the model no oftener, in any window, than the capacity plus
      what flows in during it. */
  lemma GenerationsBounded(s: Services, from: real, to: real)
    requires s.Valid() && from <= to
    ensures CountIn(s.started, from, to) as real <= s.first.capacity + (to - from) * s.first.rate
  {
    CountIsGranted(s.first, s.calls, from, to);
    GrantedInWindow(s.first, s.calls, from, to);
  }
}

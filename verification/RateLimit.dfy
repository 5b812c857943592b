// The per-key token bucket, in exact arithmetic over seconds, and what it
// promises about any window of time.

module RateLimit {
  import opened Basics

  // refill is tokens a second.
  datatype Bucket = Bucket(tokens: real, capacity: real, refill: real, last: real)

  function Full(limit: int, now: real): Bucket {
    Bucket(limit as real, limit as real, limit as real / 60.0, now)
  }

  predicate Valid(b: Bucket) {
    0.0 <= b.tokens <= b.capacity && b.refill >= 0.0
  }

  // What flows in between two instants.
  function Inflow(refill: real, from: real, to: real): real {
    (to - from) * refill
  }

  // What the bucket holds at an instant, before anything is taken.
  function Refilled(b: Bucket, now: real): real {
    var t := b.tokens + Inflow(b.refill, b.last, now);
    if t > b.capacity then b.capacity else t
  }

  predicate Admits(b: Bucket, now: real) {
    Refilled(b, now) >= 1.0
  }

  function Asked(b: Bucket, now: real): Bucket {
    b.(tokens := if Admits(b, now) then Refilled(b, now) - 1.0 else Refilled(b, now), last := now)
  }

  // A console token's call: its limit comes along, and a changed limit starts a
  // new, full bucket.
  datatype Call = Call(limit: int, now: real)

  function Current(s: Option<Bucket>, c: Call): Bucket {
    if s.Some? && s.value.capacity == c.limit as real then s.value else Full(c.limit, c.now)
  }

  predicate Lets(s: Option<Bucket>, c: Call) {
    c.limit <= 0 || Admits(Current(s, c), c.now)
  }

  function Next(s: Option<Bucket>, c: Call): Option<Bucket> {
    if c.limit <= 0 then s else Some(Asked(Current(s, c), c.now))
  }

  function Lookup(buckets: map<string, Bucket>, id: string): Option<Bucket> {
    if id in buckets then Some(buckets[id]) else None
  }

  class Enforcer {
    const limits: map<string, int>
    var buckets: map<string, Bucket>

    constructor (limits: map<string, int>)
      ensures this.limits == limits && buckets == map[]
    {
      this.limits := limits;
      buckets := map[];
    }

    method Allow(id: string, now: real) returns (ok: bool)
      requires id in buckets
      modifies this`buckets
      ensures ok <==> Admits(old(buckets)[id], now)
      ensures buckets == old(buckets)[id := Asked(old(buckets)[id], now)]
    {
      var b := buckets[id];
      b := b.(last := now, tokens := b.tokens + Inflow(b.refill, b.last, now));
      if b.tokens > b.capacity {
        b := b.(tokens := b.capacity);
      }
      ok := b.tokens >= 1.0;
      if ok {
        b := b.(tokens := b.tokens - 1.0);
      }
      buckets := buckets[id := b];
    }

    // A configured key; one without a limit is always let through.
    method RateOK(key: string, now: real) returns (ok: bool)
      modifies this`buckets
      ensures key !in limits || limits[key] <= 0 ==> ok && buckets == old(buckets)
      ensures key in limits && limits[key] > 0 ==>
        var b := if key in old(buckets) then old(buckets)[key] else Full(limits[key], now);
        && (ok <==> Admits(b, now))
        && buckets == old(buckets)[key := Asked(b, now)]
    {
      if key !in limits || limits[key] <= 0 {
        return true;
      }
      if key !in buckets {
        buckets := buckets[key := Full(limits[key], now)];
      }
      ok := Allow(key, now);
    }

    method RateOKLimit(key: string, limit: int, now: real) returns (ok: bool)
      modifies this`buckets
      ensures ok <==> Lets(Lookup(old(buckets), "console:" + key), Call(limit, now))
      ensures Lookup(buckets, "console:" + key) == Next(Lookup(old(buckets), "console:" + key), Call(limit, now))
      ensures buckets - {"console:" + key} == old(buckets) - {"console:" + key}
    {
      if limit <= 0 {
        return true;
      }
      var id := "console:" + key;
      if id !in buckets || buckets[id].capacity != limit as real {
        buckets := buckets[id := Full(limit, now)];
      }
      ok := Allow(id, now);
    }
  }

  // ----- a run of requests against one bucket -----

  function After(b: Bucket, times: seq<real>): Bucket
    decreases |times|
  {
    if times == [] then b else Asked(After(b, times[..|times| - 1]), times[|times| - 1])
  }

  function Admitted(b: Bucket, times: seq<real>): nat
    decreases |times|
  {
    if times == [] then 0
    else Admitted(b, times[..|times| - 1]) + if Admits(After(b, times[..|times| - 1]), times[|times| - 1]) then 1 else 0
  }

  predicate InOrder(b: Bucket, times: seq<real>) {
    (times != [] ==> b.last <= times[0]) && forall i, j :: 0 <= i < j < |times| ==> times[i] <= times[j]
  }

  lemma InflowIsPositive(refill: real, from: real, to: real)
    requires refill >= 0.0 && from <= to
    ensures Inflow(refill, from, to) >= 0.0
  {
  }

  lemma InflowAdds(refill: real, x: real, y: real, z: real)
    ensures Inflow(refill, x, z) == Inflow(refill, x, y) + Inflow(refill, y, z)
  {
  }

  lemma InflowGrows(refill: real, x: real, y: real, window: real, inflow: real)
    requires refill >= 0.0 && y - x <= window && inflow == Inflow(refill, x, y)
    ensures inflow <= window * refill
  {
  }

  // One request: what it takes, it takes from what was there and flowed in.
  lemma OneRequest(b: Bucket, now: real)
    requires Valid(b) && b.last <= now
    ensures Valid(Asked(b, now)) && Asked(b, now).capacity == b.capacity && Asked(b, now).refill == b.refill
    ensures (if Admits(b, now) then 1.0 else 0.0) + Asked(b, now).tokens <= b.tokens + Inflow(b.refill, b.last, now)
    ensures (if Admits(b, now) then 1.0 else 0.0) + Asked(b, now).tokens <= b.capacity
  {
    InflowIsPositive(b.refill, b.last, now);
  }

  // Tokens never leave [0, capacity], and what was admitted is paid for by
  // what was there at the start and what flowed in since.
  lemma {:induction false} AdmittedIsPaidFor(b: Bucket, times: seq<real>)
    requires Valid(b) && InOrder(b, times) && times != []
    ensures var z := After(b, times);
      Valid(z) && z.capacity == b.capacity && z.refill == b.refill && z.last == times[|times| - 1]
    ensures Admitted(b, times) as real + After(b, times).tokens
      <= b.capacity + Inflow(b.refill, times[0], times[|times| - 1])
    decreases |times|
  {
    var n := |times| - 1;
    var front := times[..n];
    if n == 0 {
      assert front == [];
      OneRequest(b, times[0]);
    } else {
      AdmittedIsPaidFor(b, front);
      var mid := After(b, front);
      OneRequest(mid, times[n]);
      assert mid.last == times[n - 1];
      InflowAdds(b.refill, times[0], times[n - 1], times[n]);
    }
  }

  lemma {:induction false} AfterSplits(b: Bucket, a: seq<real>, c: seq<real>)
    ensures After(b, a + c) == After(After(b, a), c)
    ensures Admitted(b, a + c) == Admitted(b, a) + Admitted(After(b, a), c)
    decreases |c|
  {
    if c == [] {
      assert a + c == a;
    } else {
      AfterSplits(b, a, c[..|c| - 1]);
      assert (a + c)[..|a + c| - 1] == a + c[..|c| - 1];
    }
  }

  lemma WindowInflow(b: Bucket, times: seq<real>, i: nat, j: nat, inflow: real, most: real)
    requires Valid(b) && InOrder(b, times) && i < j <= |times|
    requires inflow == Inflow(b.refill, times[i], times[j - 1]) && inflow <= most
    ensures (Admitted(b, times[..j]) - Admitted(b, times[..i])) as real <= b.capacity + most
  {
    SplitAt(b, times, i, j);
    AfterPrefix(b, times, i, j);
    WholeRun(After(b, times[..i]), times[i..j], inflow);
  }

  lemma SplitAt(b: Bucket, times: seq<real>, i: nat, j: nat)
    requires i < j <= |times|
    ensures Admitted(b, times[..j]) == Admitted(b, times[..i]) + Admitted(After(b, times[..i]), times[i..j])
    ensures times[i..j][0] == times[i] && times[i..j][|times[i..j]| - 1] == times[j - 1]
  {
    assert times[..i] + times[i..j] == times[..j];
    AfterSplits(b, times[..i], times[i..j]);
  }

  // The bucket part of the way through a run.
  lemma AfterPrefix(b: Bucket, times: seq<real>, i: nat, j: nat)
    requires Valid(b) && InOrder(b, times) && i < j <= |times|
    ensures var mid := After(b, times[..i]);
      Valid(mid) && mid.capacity == b.capacity && mid.refill == b.refill && InOrder(mid, times[i..j])
  {
    if i > 0 {
      AdmittedIsPaidFor(b, times[..i]);
      assert After(b, times[..i]).last == times[i - 1];
    } else {
      assert After(b, times[..i]) == b;
    }
  }

  lemma WholeRun(b: Bucket, times: seq<real>, inflow: real)
    requires Valid(b) && InOrder(b, times) && times != []
    requires inflow == Inflow(b.refill, times[0], times[|times| - 1])
    ensures Admitted(b, times) as real <= b.capacity + inflow
  {
    AdmittedIsPaidFor(b, times);
  }

  lemma WindowOf(b: Bucket, times: seq<real>, i: nat, j: nat, window: real)
    requires Valid(b) && InOrder(b, times) && i < j <= |times| && times[j - 1] - times[i] <= window
    ensures (Admitted(b, times[..j]) - Admitted(b, times[..i])) as real <= b.capacity + window * b.refill
  {
    var inflow := Inflow(b.refill, times[i], times[j - 1]);
    InflowGrows(b.refill, times[i], times[j - 1], window, inflow);
    WindowInflow(b, times, i, j, inflow, window * b.refill);
  }

  // At a fixed limit, any window of the run lets through at most one full
  // bucket plus what refills during the window.
  lemma WindowBound(limit: int, start: real, times: seq<real>, i: nat, j: nat, window: real)
    requires limit >= 1 && InOrder(Full(limit, start), times) && i < j <= |times|
    requires times[j - 1] - times[i] <= window
    ensures (Admitted(Full(limit, start), times[..j]) - Admitted(Full(limit, start), times[..i])) as real
      <= limit as real + window * (limit as real / 60.0)
  {
    WindowOf(Full(limit, start), times, i, j, window);
  }

  // A caller that keeps to the rate is never refused.
  lemma {:induction false} SteadyCallerNeverRefused(b: Bucket, times: seq<real>)
    requires Valid(b) && b.tokens >= 1.0 && InOrder(b, times)
    requires forall k :: 0 < k < |times| ==> Inflow(b.refill, times[k - 1], times[k]) >= 1.0
    ensures Admitted(b, times) == |times|
    decreases |times|
  {
    if times != [] {
      var n := |times| - 1;
      var front := times[..n];
      SteadyCallerNeverRefused(b, front);
      if n > 0 {
        AdmittedIsPaidFor(b, front);
        assert After(b, front).last == times[n - 1];
      } else {
        assert front == [];
        InflowIsPositive(b.refill, b.last, times[0]);
      }
    }
  }

  // At a limit of n a minute, calls a sixtieth of a minute over n apart are
  // all let through, for ever.
  lemma SteadyAtTheLimit(limit: int, start: real, times: seq<real>)
    requires limit >= 1 && InOrder(Full(limit, start), times)
    requires forall k :: 0 < k < |times| ==> (times[k] - times[k - 1]) * (limit as real) >= 60.0
    ensures Admitted(Full(limit, start), times) == |times|
  {
    forall k | 0 < k < |times| ensures Inflow(Full(limit, start).refill, times[k - 1], times[k]) >= 1.0 {
      OneToken(times[k] - times[k - 1], limit as real);
    }
    SteadyCallerNeverRefused(Full(limit, start), times);
  }

  lemma OneToken(gap: real, limit: real)
    requires gap * limit >= 60.0
    ensures gap * (limit / 60.0) >= 1.0
  {
    assert gap * (limit / 60.0) == (gap * limit) / 60.0;
  }
}

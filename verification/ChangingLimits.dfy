// A console token's limit comes with each call. What the token bucket promises
// when it changes, and what a change is worth to the caller.

module ChangingLimits {
  import opened Basics
  import opened RateLimit

  function StateAfter(calls: seq<Call>): Option<Bucket> {
    if calls == [] then None else Next(StateAfter(calls[..|calls| - 1]), calls[|calls| - 1])
  }

  // A call without a limit passes and leaves the bucket; one whose limit is not
  // the bucket's finds a full one.
  lemma LimitsThatDoNotCarryOver(s: Option<Bucket>, c: Call)
    ensures c.limit <= 0 ==> Lets(s, c) && Next(s, c) == s
    ensures c.limit > 0 && (s.None? || s.value.capacity != c.limit as real) ==>
      Current(s, c) == Bucket(c.limit as real, c.limit as real, c.limit as real / 60.0, c.now)
    ensures c.limit > 0 && s.Some? && s.value.capacity == c.limit as real ==> Current(s, c) == s.value
  {
  }

  // How many of the calls under a limit were let through.
  function LetThrough(calls: seq<Call>): nat {
    if calls == [] then 0
    else
      var front, c := calls[..|calls| - 1], calls[|calls| - 1];
      LetThrough(front) + if c.limit > 0 && Lets(StateAfter(front), c) then 1 else 0
  }

  // The last call that was under a limit.
  function LastLimited(calls: seq<Call>): Option<Call> {
    if calls == [] then None
    else if calls[|calls| - 1].limit > 0 then Some(calls[|calls| - 1])
    else LastLimited(calls[..|calls| - 1])
  }

  predicate SameLimit(p: Option<Call>, c: Call) {
    p.Some? && p.value.limit == c.limit
  }

  // One full bucket for every stretch of calls under one limit, and what flows
  // in while the stretch lasts.
  function Allowance(calls: seq<Call>): real {
    if calls == [] then 0.0
    else
      var front, c := calls[..|calls| - 1], calls[|calls| - 1];
      var p := LastLimited(front);
      Allowance(front)
        + if c.limit <= 0 then 0.0
          else if SameLimit(p, c) then Inflow(c.limit as real / 60.0, p.value.now, c.now)
          else c.limit as real
  }

  predicate CallsInOrder(calls: seq<Call>) {
    forall i, j :: 0 <= i < j < |calls| ==> calls[i].now <= calls[j].now
  }

  // The bucket is the one of the last limited call.
  ghost predicate Tracks(s: Option<Bucket>, p: Option<Call>) {
    if p.None? then s.None?
    else
      && s.Some? && Valid(s.value) && p.value.limit > 0
      && s.value.capacity == p.value.limit as real && s.value.refill == p.value.limit as real / 60.0
      && s.value.last == p.value.now
  }

  function TokensIn(s: Option<Bucket>): real {
    if s.Some? then s.value.tokens else 0.0
  }

  function Passed(s: Option<Bucket>, c: Call): real {
    if Lets(s, c) then 1.0 else 0.0
  }

  lemma NoTimeNoInflow(refill: real, now: real)
    ensures Inflow(refill, now, now) == 0.0
  {
  }

  lemma OneCall(s: Option<Bucket>, p: Option<Call>, c: Call)
    requires Tracks(s, p) && c.limit > 0 && (p.Some? ==> p.value.now <= c.now)
    ensures Tracks(Next(s, c), Some(c))
    ensures SameLimit(p, c) ==>
      Passed(s, c) + TokensIn(Next(s, c)) <= TokensIn(s) + Inflow(c.limit as real / 60.0, p.value.now, c.now)
    ensures !SameLimit(p, c) ==> Lets(s, c) && 1.0 + TokensIn(Next(s, c)) <= c.limit as real
  {
    var b := Current(s, c);
    OneRequest(b, c.now);
    if !SameLimit(p, c) {
      assert b == Full(c.limit, c.now);
      NoTimeNoInflow(b.refill, c.now);
    }
  }

  lemma {:induction false} LastLimitedIsEarlier(calls: seq<Call>, now: real)
    requires forall i :: 0 <= i < |calls| ==> calls[i].now <= now
    ensures LastLimited(calls).Some? ==> LastLimited(calls).value.now <= now
    decreases |calls|
  {
    if calls != [] {
      LastLimitedIsEarlier(calls[..|calls| - 1], now);
    }
  }

  // The step of the bound, with the tokens a new bucket throws away.
  lemma StretchAllows(s: Option<Bucket>, p: Option<Call>, c: Call, allowed: real, through: nat)
    requires Tracks(s, p) && c.limit > 0 && (p.Some? ==> p.value.now <= c.now)
    requires through as real + TokensIn(s) <= allowed
    ensures Tracks(Next(s, c), Some(c))
    ensures (through + if Lets(s, c) then 1 else 0) as real + TokensIn(Next(s, c)) <= allowed
      + if SameLimit(p, c) then Inflow(c.limit as real / 60.0, p.value.now, c.now) else c.limit as real
  {
    OneCall(s, p, c);
  }

  // Whatever limits the calls carry, those let through, with the tokens left,
  // never exceed the sum over the stretches of one limit.
  lemma {:induction false} ChangingLimitsBound(calls: seq<Call>)
    requires CallsInOrder(calls)
    ensures Tracks(StateAfter(calls), LastLimited(calls))
    ensures LetThrough(calls) as real + TokensIn(StateAfter(calls)) <= Allowance(calls)
    ensures LetThrough(calls) as real <= Allowance(calls)
    decreases |calls|
  {
    if calls != [] {
      var front, c := calls[..|calls| - 1], calls[|calls| - 1];
      ChangingLimitsBound(front);
      if c.limit > 0 {
        LastLimitedIsEarlier(front, c.now);
        StretchAllows(StateAfter(front), LastLimited(front), c, Allowance(front), LetThrough(front));
      }
    }
  }

  // While the limit stays what it is, that sum is the bound of one bucket.
  lemma {:induction false} OneLimitAllowance(limit: int, calls: seq<Call>)
    requires limit > 0 && calls != [] && forall i :: 0 <= i < |calls| ==> calls[i].limit == limit
    ensures Allowance(calls) == limit as real + Inflow(limit as real / 60.0, calls[0].now, calls[|calls| - 1].now)
    decreases |calls|
  {
    var n := |calls| - 1;
    var front := calls[..n];
    if n == 0 {
      assert front == [] && Allowance(front) == 0.0;
      NoTimeNoInflow(limit as real / 60.0, calls[0].now);
    } else {
      OneLimitAllowance(limit, front);
      assert LastLimited(front) == Some(front[n - 1]);
      InflowAdds(limit as real / 60.0, calls[0].now, calls[n - 1].now, calls[n].now);
    }
  }

  // How many calls under this limit the calls end with.
  function Stretch(calls: seq<Call>, limit: int): nat {
    if calls == [] then 0
    else
      var front, c := calls[..|calls| - 1], calls[|calls| - 1];
      if c.limit <= 0 then Stretch(front, limit) else if c.limit == limit then 1 + Stretch(front, limit) else 0
  }

  predicate AtOnce(calls: seq<Call>, now: real) {
    forall i :: 0 <= i < |calls| ==> calls[i].now == now
  }

  function Above(a: int, b: int): real {
    if a > b then (a - b) as real else 0.0
  }

  lemma {:induction false} BurstTokens(calls: seq<Call>, now: real)
    requires AtOnce(calls, now)
    ensures var p := LastLimited(calls);
      && Tracks(StateAfter(calls), p)
      && (p.Some? ==> p.value.now == now)
      && (p.Some? ==> TokensIn(StateAfter(calls)) == Above(p.value.limit, Stretch(calls, p.value.limit)))
    decreases |calls|
  {
    if calls != [] {
      var front, c := calls[..|calls| - 1], calls[|calls| - 1];
      BurstTokens(front, now);
      if c.limit > 0 {
        BurstCall(front, c, now);
      }
    }
  }

  lemma {:induction false} StretchOfOther(calls: seq<Call>, limit: int)
    requires limit > 0 && !(LastLimited(calls).Some? && LastLimited(calls).value.limit == limit)
    ensures Stretch(calls, limit) == 0
    decreases |calls|
  {
    if calls != [] && calls[|calls| - 1].limit <= 0 {
      StretchOfOther(calls[..|calls| - 1], limit);
    }
  }

  lemma BurstCall(front: seq<Call>, c: Call, now: real)
    requires c.limit > 0 && c.now == now && Tracks(StateAfter(front), LastLimited(front))
    requires var p := LastLimited(front);
      p.Some? ==>
        p.value.now == now && TokensIn(StateAfter(front)) == Above(p.value.limit, Stretch(front, p.value.limit))
    ensures Tracks(Next(StateAfter(front), c), Some(c))
    ensures Lets(StateAfter(front), c) <==> Stretch(front, c.limit) < c.limit
    ensures TokensIn(Next(StateAfter(front), c)) == Above(c.limit, Stretch(front, c.limit) + 1)
  {
    var s, p := StateAfter(front), LastLimited(front);
    OneCall(s, p, c);
    NoTimeNoInflow(c.limit as real / 60.0, now);
    if !SameLimit(p, c) {
      StretchOfOther(front, c.limit);
    }
  }

  // What a change of limit is worth, exactly: at one instant a call is let
  // through iff fewer than its limit came before it in its own stretch.
  lemma BurstAdmitsIff(calls: seq<Call>, c: Call)
    requires AtOnce(calls, c.now) && c.limit > 0
    ensures Lets(StateAfter(calls), c) <==> Stretch(calls, c.limit) < c.limit
  {
    BurstTokens(calls, c.now);
    BurstCall(calls, c, c.now);
  }

  // n calls at one instant, the last under limit a, the one before under b.
  function Alternating(a: int, b: int, now: real, n: nat): seq<Call>
    decreases n
  {
    if n == 0 then [] else Alternating(b, a, now, n - 1) + [Call(a, now)]
  }

  lemma {:induction false} AlternatingAtOnce(a: int, b: int, now: real, n: nat)
    ensures AtOnce(Alternating(a, b, now, n), now)
    decreases n
  {
    if n > 0 {
      AlternatingAtOnce(b, a, now, n - 1);
    }
  }

  lemma NoStretchYet(a: int, b: int, now: real, n: nat)
    requires a > 0 && a != b
    ensures Stretch(Alternating(a, b, now, n), b) == 0
  {
    if n > 0 {
      assert Alternating(a, b, now, n)[|Alternating(a, b, now, n)| - 1] == Call(a, now);
    }
  }

  lemma OneMoreThrough(front: seq<Call>, c: Call)
    requires c.limit > 0 && Lets(StateAfter(front), c)
    ensures LetThrough(front + [c]) == LetThrough(front) + 1
  {
    assert (front + [c])[..|front|] == front;
  }

  // So a token whose limit is flipped at every call is never refused, however
  // far that is past a bucket of either limit.
  lemma {:induction false} AlternatingNeverRefused(a: int, b: int, now: real, n: nat)
    requires a > 0 && b > 0 && a != b
    ensures LetThrough(Alternating(a, b, now, n)) == n
    decreases n
  {
    if n > 0 {
      var front := Alternating(b, a, now, n - 1);
      AlternatingNeverRefused(b, a, now, n - 1);
      AlternatingAtOnce(b, a, now, n - 1);
      NoStretchYet(b, a, now, n - 1);
      BurstAdmitsIff(front, Call(a, now));
      OneMoreThrough(front, Call(a, now));
    }
  }
}

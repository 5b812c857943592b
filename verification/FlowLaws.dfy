// Laws of every flow run: how many calls it can make, what its totals are the
// totals of, and which served calls its books miss.

module FlowLaws {
  import opened Basics
  import opened Text
  import opened FlowModel

  // ----- calls -----

  function Pow(base: nat, k: nat): nat {
    if k == 0 then 1 else base * Pow(base, k - 1)
  }

  lemma {:induction false} PowPositive(base: nat, k: nat)
    requires base >= 1
    ensures Pow(base, k) >= 1
  {
    if k > 0 {
      PowPositive(base, k - 1);
      assert base * Pow(base, k - 1) >= 1 * 1;
    }
  }

  predicate ShortFlows(reg: Registry, most: nat) {
    forall name :: name in reg.flows ==> |reg.flows[name].steps| <= most
  }

  lemma {:induction false} StepCallsBounded(reg: Registry, call: Upstream, s: Step, req: Request, depth: nat,
                                            seen: set<string>, n: nat, most: nat)
    requires depth <= MAX_FLOW_DEPTH && ShortFlows(reg, most) && most >= 1
    ensures n <= RunStep(reg, call, s, req, depth, seen, n).next <= n + Pow(most, MAX_FLOW_DEPTH - depth)
    decreases MAX_FLOW_DEPTH + 1 - depth, 0, 0
  {
    PowPositive(most, MAX_FLOW_DEPTH - depth);
    if IsFlow(reg, s.agent) {
      FlowCallsBounded(reg, call, reg.flows[Trim(s.agent)], req, depth + 1, seen, n, most);
    }
  }

  lemma {:induction false} StepsCallsBounded(reg: Registry, call: Upstream, fl: Flow, i: nat, req: Request, depth: nat,
                                             seen: set<string>, sofar: FlowRun, previous: string, most: nat)
    requires depth <= MAX_FLOW_DEPTH && i <= |fl.steps| && ShortFlows(reg, most) && most >= 1
    ensures sofar.next <= RunSteps(reg, call, fl, i, req, depth, seen, sofar, previous).next
      <= sofar.next + (|fl.steps| - i) * Pow(most, MAX_FLOW_DEPTH - depth)
    decreases MAX_FLOW_DEPTH + 1 - depth, 1, |fl.steps| - i
  {
    var p := Pow(most, MAX_FLOW_DEPTH - depth);
    if i < |fl.steps| {
      var s, r := fl.steps[i], StepRequest(fl.steps[i], i, req, previous);
      var one := RunStep(reg, call, s, r, depth, seen, sofar.next);
      StepCallsBounded(reg, call, s, r, depth, seen, sofar.next, most);
      OneMore(|fl.steps| - i, p);
      if !Stops(s, one) {
        StepsCallsBounded(reg, call, fl, i + 1, req, depth, seen, Advanced(one, sofar), Passed(one, previous), most);
      }
    }
  }

  lemma OneMore(k: nat, p: nat)
    requires k >= 1
    ensures k * p == (k - 1) * p + p && (k - 1) * p >= 0
  {
  }

  lemma NoMoreThan(k: nat, most: nat, p: nat)
    requires k <= most
    ensures k * p <= most * p
  {
  }

  lemma PowStep(base: nat, k: nat)
    ensures Pow(base, k + 1) == base * Pow(base, k)
  {
  }

  lemma {:induction false} FlowCallsBounded(reg: Registry, call: Upstream, fl: Flow, req: Request, depth: nat,
                                            seen: set<string>, n: nat, most: nat)
    requires 1 <= depth <= MAX_FLOW_DEPTH + 1 && ShortFlows(reg, most) && most >= 1 && |fl.steps| <= most
    ensures n <= RunFlow(reg, call, fl, req, depth, seen, n).next <= n + Pow(most, MAX_FLOW_DEPTH + 1 - depth)
    decreases MAX_FLOW_DEPTH + 1 - depth, 2, 0
  {
    PowPositive(most, MAX_FLOW_DEPTH + 1 - depth);
    if depth <= MAX_FLOW_DEPTH && fl.name !in seen {
      StepsCallsBounded(reg, call, fl, 0, req, depth, seen + {fl.name}, FlowRun(NO_RESULT, None, n, [], []), "", most);
      NoMoreThan(|fl.steps|, most, Pow(most, MAX_FLOW_DEPTH - depth));
      PowStep(most, MAX_FLOW_DEPTH - depth);
    }
  }

  lemma FourthPower(base: nat)
    ensures Pow(base, 4) == base * base * base * base
  {
    assert Pow(base, 1) == base * Pow(base, 0);
    PowStep(base, 1);
    PowStep(base, 2);
    PowStep(base, 3);
    Reassociate(base);
  }

  lemma Reassociate(a: nat)
    ensures a * (a * (a * a)) == a * a * a * a
  {
  }

  // Whatever the registry names whom, cycles included, a flow asked for by a
  // caller makes at most L^4 provider calls when no flow has more than L steps.
  lemma CallsAtMostFourthPower(reg: Registry, call: Upstream, fl: Flow, req: Request, most: nat)
    requires ShortFlows(reg, most) && most >= 1 && |fl.steps| <= most
    ensures RunFlow(reg, call, fl, req, 1, {}, 0).next <= most * most * most * most
  {
    FlowCallsBounded(reg, call, fl, req, 1, {}, 0, most);
    FourthPower(most);
  }

  // ----- totals and books -----

  // A provider that answered has a name: attempts are made by provider name.
  ghost predicate Named(call: Upstream) {
    forall n: nat, model: string, req: Request :: call(n, model, req).Done? ==> call(n, model, req).provider != ""
  }

  lemma {:induction false} SumUsageAppend(a: seq<Leaf>, b: seq<Leaf>)
    ensures SumUsage(a + b) == AddUsage(SumUsage(a), SumUsage(b))
    decreases |b|
  {
    if b == [] {
      assert a + b == a;
    } else {
      SumUsageAppend(a, b[..|b| - 1]);
      assert (a + b)[..|a + b| - 1] == a + b[..|b| - 1];
    }
  }

  lemma BilledAppend(steps: seq<Outcome>, o: Outcome)
    ensures Billed(steps + [o]) == Billed(steps) + BilledStep(o)
  {
    assert (steps + [o])[..|steps|] == steps;
  }

  // The totals are those of the leaves booked, and every served call is
  // either booked, once, or was made inside a nested flow that failed.
  ghost predicate Accounted(r: FlowRun) {
    && r.result.usage == SumUsage(Billed(r.result.steps))
    && multiset(r.served) == multiset(Billed(r.result.steps)) + multiset(r.lost)
  }

  lemma {:induction false} StepAccounted(reg: Registry, call: Upstream, s: Step, req: Request, depth: nat,
                                         seen: set<string>, n: nat)
    requires depth <= MAX_FLOW_DEPTH && Named(call)
    ensures StepBooks(s, RunStep(reg, call, s, req, depth, seen, n))
    decreases MAX_FLOW_DEPTH + 1 - depth, 0, 0
  {
    if IsFlow(reg, s.agent) {
      var nested := reg.flows[Trim(s.agent)];
      FlowAccounted(reg, call, nested, req, depth + 1, seen, n);
    } else {
      var c := call(n, ModelOf(reg, s.agent), req);
      if c.Done? {
        var leaf := Leaf(c.provider, c.model, c.usage, c.byCaller);
        assert [leaf][..0] == [];
      }
    }
  }

  // What a step's run must satisfy for the books to stay right.
  ghost predicate StepBooks(s: Step, r: StepRun) {
    && (r.err.None? ==> r.outcome.usage == SumUsage(BilledStep(r.outcome)))
    && (r.err.Some? ==> r.outcome == Blank(s))
    && multiset(r.served) == (if r.err.None? then multiset(BilledStep(r.outcome)) else multiset{}) + multiset(r.lost)
  }

  lemma AdvancedAccounted(s: Step, one: StepRun, sofar: FlowRun)
    requires Accounted(sofar) && StepBooks(s, one)
    ensures Accounted(Advanced(one, sofar))
  {
    if one.err.Some? {
      BilledAppend(sofar.result.steps, one.outcome.(skipped := true, error := one.err));
      assert Billed(sofar.result.steps) + [] == Billed(sofar.result.steps);
    } else {
      BilledAppend(sofar.result.steps, one.outcome);
      SumUsageAppend(Billed(sofar.result.steps), BilledStep(one.outcome));
    }
  }

  lemma StoppedAccounted(fl: Flow, s: Step, one: StepRun, sofar: FlowRun)
    requires Accounted(sofar) && StepBooks(s, one) && one.err.Some?
    ensures Accounted(Stopped(fl, s, one, sofar))
  {
  }

  lemma OneStepAccounted(fl: Flow, s: Step, one: StepRun, sofar: FlowRun)
    requires Accounted(sofar) && StepBooks(s, one)
    ensures if Stops(s, one) then Accounted(Stopped(fl, s, one, sofar)) else Accounted(Advanced(one, sofar))
  {
    if Stops(s, one) {
      StoppedAccounted(fl, s, one, sofar);
    } else {
      AdvancedAccounted(s, one, sofar);
    }
  }

  lemma {:induction false} StepsAccounted(reg: Registry, call: Upstream, fl: Flow, i: nat, req: Request, depth: nat,
                                          seen: set<string>, sofar: FlowRun, previous: string)
    requires depth <= MAX_FLOW_DEPTH && i <= |fl.steps| && Named(call) && Accounted(sofar)
    ensures Accounted(RunSteps(reg, call, fl, i, req, depth, seen, sofar, previous))
    decreases MAX_FLOW_DEPTH + 1 - depth, 1, |fl.steps| - i
  {
    if i < |fl.steps| {
      var s, r := fl.steps[i], StepRequest(fl.steps[i], i, req, previous);
      var one := RunStep(reg, call, s, r, depth, seen, sofar.next);
      StepAccounted(reg, call, s, r, depth, seen, sofar.next);
      OneStepAccounted(fl, s, one, sofar);
      if !Stops(s, one) {
        StepsAccounted(reg, call, fl, i + 1, req, depth, seen, Advanced(one, sofar), Passed(one, previous));
      }
    }
  }

  lemma {:induction false} FlowAccounted(reg: Registry, call: Upstream, fl: Flow, req: Request, depth: nat,
                                         seen: set<string>, n: nat)
    requires Named(call)
    ensures Accounted(RunFlow(reg, call, fl, req, depth, seen, n))
    decreases MAX_FLOW_DEPTH + 1 - depth, 2, 0
  {
    if depth <= MAX_FLOW_DEPTH && fl.name !in seen {
      StepsAccounted(reg, call, fl, 0, req, depth, seen + {fl.name}, FlowRun(NO_RESULT, None, n, [], []), "");
    }
  }

  // ----- what the books miss -----

  // Whether the steps from the i-th on call a provider at all. Until the first
  // call is made this depends on names alone.
  predicate CallsFrom(reg: Registry, fl: Flow, i: nat, depth: nat, seen: set<string>)
    requires depth <= MAX_FLOW_DEPTH && i <= |fl.steps|
    decreases MAX_FLOW_DEPTH + 1 - depth, 1, |fl.steps| - i
  {
    i < |fl.steps|
    && (!IsFlow(reg, fl.steps[i].agent)
        || Calls(reg, reg.flows[Trim(fl.steps[i].agent)], depth + 1, seen)
        || (fl.steps[i].optional && CallsFrom(reg, fl, i + 1, depth, seen)))
  }

  predicate Calls(reg: Registry, fl: Flow, depth: nat, seen: set<string>)
    decreases MAX_FLOW_DEPTH + 1 - depth, 2, 0
  {
    depth <= MAX_FLOW_DEPTH && fl.name !in seen && CallsFrom(reg, fl, 0, depth, seen + {fl.name})
  }

  // Whether some reachable step hands its work to a flow that calls a provider.
  predicate Delegates(reg: Registry, fl: Flow, i: nat, depth: nat, seen: set<string>)
    requires depth <= MAX_FLOW_DEPTH && i <= |fl.steps|
    decreases |fl.steps| - i
  {
    i < |fl.steps|
    && if IsFlow(reg, fl.steps[i].agent)
       then Calls(reg, reg.flows[Trim(fl.steps[i].agent)], depth + 1, seen)
         || (fl.steps[i].optional && Delegates(reg, fl, i + 1, depth, seen))
       else Delegates(reg, fl, i + 1, depth, seen)
  }

  lemma {:induction false} QuietSteps(reg: Registry, call: Upstream, fl: Flow, i: nat, req: Request, depth: nat,
                                      seen: set<string>, sofar: FlowRun)
    requires depth <= MAX_FLOW_DEPTH && i <= |fl.steps| && !CallsFrom(reg, fl, i, depth, seen) && sofar.served == []
    ensures var r := RunSteps(reg, call, fl, i, req, depth, seen, sofar, ""); r.served == [] && r.err.Some?
    decreases MAX_FLOW_DEPTH + 1 - depth, 1, |fl.steps| - i
  {
    if i < |fl.steps| {
      var s, r := fl.steps[i], StepRequest(fl.steps[i], i, req, "");
      var one := RunStep(reg, call, s, r, depth, seen, sofar.next);
      QuietFlow(reg, call, reg.flows[Trim(s.agent)], r, depth + 1, seen, sofar.next);
      assert one.err.Some? && one.served == [];
      if !Stops(s, one) {
        assert sofar.served + one.served == [];
        QuietSteps(reg, call, fl, i + 1, req, depth, seen, Advanced(one, sofar));
      }
    }
  }

  // A flow that calls nobody fails, whatever the providers would have said.
  lemma {:induction false} QuietFlow(reg: Registry, call: Upstream, fl: Flow, req: Request, depth: nat,
                                     seen: set<string>, n: nat)
    requires !Calls(reg, fl, depth, seen)
    ensures var r := RunFlow(reg, call, fl, req, depth, seen, n); r.served == [] && r.err.Some?
    decreases MAX_FLOW_DEPTH + 1 - depth, 2, 0
  {
    if depth <= MAX_FLOW_DEPTH && fl.name !in seen {
      QuietSteps(reg, call, fl, 0, req, depth, seen + {fl.name}, FlowRun(NO_RESULT, None, n, [], []));
    }
  }

  // Providers that answer every call with nothing.
  function EmptyAnswers(): Upstream {
    (n: nat, model: string, req: Request) => Done("", "provider", model, NO_USAGE, false)
  }

  lemma {:induction false} EmptySteps(reg: Registry, fl: Flow, i: nat, req: Request, depth: nat,
                                      seen: set<string>, sofar: FlowRun)
    requires depth <= MAX_FLOW_DEPTH && i <= |fl.steps|
    ensures var r := RunSteps(reg, EmptyAnswers(), fl, i, req, depth, seen, sofar, "");
      r.err.Some? && (sofar.served != [] || CallsFrom(reg, fl, i, depth, seen) ==> r.served != [])
    ensures var r := RunSteps(reg, EmptyAnswers(), fl, i, req, depth, seen, sofar, "");
      sofar.lost != [] || Delegates(reg, fl, i, depth, seen) ==> r.lost != []
    decreases MAX_FLOW_DEPTH + 1 - depth, 1, |fl.steps| - i
  {
    if i < |fl.steps| {
      var s, r := fl.steps[i], StepRequest(fl.steps[i], i, req, "");
      var one := RunStep(reg, EmptyAnswers(), s, r, depth, seen, sofar.next);
      if IsFlow(reg, s.agent) {
        EmptyFlow(reg, reg.flows[Trim(s.agent)], r, depth + 1, seen, sofar.next);
      }
      if !Stops(s, one) {
        EmptySteps(reg, fl, i + 1, req, depth, seen, Advanced(one, sofar));
      }
    }
  }

  lemma {:induction false} EmptyFlow(reg: Registry, fl: Flow, req: Request, depth: nat, seen: set<string>, n: nat)
    ensures var r := RunFlow(reg, EmptyAnswers(), fl, req, depth, seen, n);
      r.err.Some? && (Calls(reg, fl, depth, seen) ==> r.served != [])
    decreases MAX_FLOW_DEPTH + 1 - depth, 2, 0
  {
    if depth <= MAX_FLOW_DEPTH && fl.name !in seen {
      EmptySteps(reg, fl, 0, req, depth, seen + {fl.name}, FlowRun(NO_RESULT, None, n, [], []));
    }
  }

  lemma {:induction false} UndelegatedSteps(reg: Registry, call: Upstream, fl: Flow, i: nat, req: Request, depth: nat,
                                            seen: set<string>, sofar: FlowRun, previous: string)
    requires depth <= MAX_FLOW_DEPTH && i <= |fl.steps| && !Delegates(reg, fl, i, depth, seen) && sofar.lost == []
    ensures RunSteps(reg, call, fl, i, req, depth, seen, sofar, previous).lost == []
    decreases |fl.steps| - i
  {
    if i < |fl.steps| {
      var s, r := fl.steps[i], StepRequest(fl.steps[i], i, req, previous);
      var one := RunStep(reg, call, s, r, depth, seen, sofar.next);
      if IsFlow(reg, s.agent) {
        QuietFlow(reg, call, reg.flows[Trim(s.agent)], r, depth + 1, seen, sofar.next);
      }
      assert one.lost == [];
      if !Stops(s, one) {
        UndelegatedSteps(reg, call, fl, i + 1, req, depth, seen, Advanced(one, sofar), Passed(one, previous));
      }
    }
  }

  // A flow's books are sure to show every call its providers served exactly
  // when none of its steps hands work to another flow that calls a provider:
  // a nested flow that fails takes the calls it already made with it.
  lemma BooksCompleteIff(reg: Registry, fl: Flow, req: Request)
    ensures (forall call: Upstream :: Named(call) ==>
        multiset(RunFlow(reg, call, fl, req, 1, {}, 0).served) ==
          multiset(Billed(RunFlow(reg, call, fl, req, 1, {}, 0).result.steps)))
      <==> !Delegates(reg, fl, 0, 1, {fl.name})
  {
    if Delegates(reg, fl, 0, 1, {fl.name}) {
      var call := EmptyAnswers();
      var run := RunFlow(reg, call, fl, req, 1, {}, 0);
      assert {} + {fl.name} == {fl.name};
      EmptySteps(reg, fl, 0, req, 1, {fl.name}, FlowRun(NO_RESULT, None, 0, [], []));
      FlowAccounted(reg, call, fl, req, 1, {}, 0);
      assert |multiset(run.served)| == |multiset(Billed(run.result.steps))| + |run.lost|;
    } else {
      forall call: Upstream | Named(call)
        ensures multiset(RunFlow(reg, call, fl, req, 1, {}, 0).served) ==
          multiset(Billed(RunFlow(reg, call, fl, req, 1, {}, 0).result.steps))
      {
        assert {} + {fl.name} == {fl.name};
        UndelegatedSteps(reg, call, fl, 0, req, 1, {fl.name}, FlowRun(NO_RESULT, None, 0, [], []), "");
        FlowAccounted(reg, call, fl, req, 1, {}, 0);
      }
    }
  }

  // ----- sums, field by field -----

  function Added(counts: seq<int>): int {
    if counts == [] then 0 else Added(counts[..|counts| - 1]) + counts[|counts| - 1]
  }

  // The total of a list of calls is, in each count, the total of that count.
  lemma {:induction false} TotalsAddUp(leaves: seq<Leaf>)
    ensures SumUsage(leaves).prompt == Added(seq(|leaves|, i requires 0 <= i < |leaves| => leaves[i].usage.prompt))
    ensures SumUsage(leaves).completion ==
      Added(seq(|leaves|, i requires 0 <= i < |leaves| => leaves[i].usage.completion))
    ensures SumUsage(leaves).total == Added(seq(|leaves|, i requires 0 <= i < |leaves| => leaves[i].usage.total))
  {
    if leaves != [] {
      var front := leaves[..|leaves| - 1];
      TotalsAddUp(front);
      var n := |front|;
      assert seq(|leaves|, i requires 0 <= i < |leaves| => leaves[i].usage.prompt)[..n]
        == seq(n, i requires 0 <= i < n => front[i].usage.prompt);
      assert seq(|leaves|, i requires 0 <= i < |leaves| => leaves[i].usage.completion)[..n]
        == seq(n, i requires 0 <= i < n => front[i].usage.completion);
      assert seq(|leaves|, i requires 0 <= i < |leaves| => leaves[i].usage.total)[..n]
        == seq(n, i requires 0 <= i < n => front[i].usage.total);
    }
  }
}

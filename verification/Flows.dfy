// The flow runner and its books, as they run.

module Flows {
  import opened Basics
  import opened Text
  import opened FlowModel
  import FlowText

  method RunOneStep(reg: Registry, call: Upstream, s: Step, req: Request, depth: nat, seen: set<string>, n: nat)
    returns (outcome: Outcome, err: Option<FlowError>, next: nat)
    requires depth <= MAX_FLOW_DEPTH
    ensures var spec := RunStep(reg, call, s, req, depth, seen, n);
      outcome == spec.outcome && err == spec.err && next == spec.next
    decreases MAX_FLOW_DEPTH + 1 - depth, 0
  {
    outcome := Blank(s);
    if IsFlow(reg, s.agent) {
      var nested := reg.flows[Trim(s.agent)];
      var inner;
      inner, err, next := RunWholeFlow(reg, call, nested, req, depth + 1, seen, n);
      if err.Some? {
        return;
      }
      outcome := outcome.(output := inner.output, usage := inner.usage, model := nested.name, subSteps := inner.steps);
      return;
    }
    var model := s.agent;
    if s.agent in reg.agents {
      model := reg.agents[s.agent];
    }
    next := n + 1;
    match call(n, model, req) {
      case CallFailed(message) =>
        err := Some(Refused(message));
      case Done(content, provider, served, usage, byCaller) =>
        err := None;
        outcome := outcome.(output := content, provider := provider, model := served,
                            usage := usage, byCaller := byCaller);
    }
  }

  // What is said of a flow's texts, as the runner promises it.
  lemma FlowEnds(reg: Registry, call: Upstream, fl: Flow, req: Request, depth: nat, seen: set<string>, n: nat)
    ensures var z := RunFlow(reg, call, fl, req, depth, seen, n);
      && (depth <= MAX_FLOW_DEPTH && fl.name !in seen ==>
        exists nexts ::
          FlowText.Traces(reg, call, fl, req, depth, seen + {fl.name}, z.result.steps, nexts) && nexts[0] == n)
      && (z.err.None? ==> z.result.output == FlowText.Handed(z.result.steps) != "")
  {
    if depth <= MAX_FLOW_DEPTH && fl.name !in seen {
      var nexts := FlowText.EveryStepIsSent(reg, call, fl, req, depth, seen, n);
    }
  }

  method RunWholeFlow(reg: Registry, call: Upstream, fl: Flow, req: Request, depth: nat, seen: set<string>, n: nat)
    returns (result: FlowResult, err: Option<FlowError>, next: nat)
    ensures var spec := RunFlow(reg, call, fl, req, depth, seen, n);
      result == spec.result && err == spec.err && next == spec.next
    ensures depth <= MAX_FLOW_DEPTH && fl.name !in seen ==>
      exists nexts :: FlowText.Traces(reg, call, fl, req, depth, seen + {fl.name}, result.steps, nexts) && nexts[0] == n
    ensures err.None? ==> result.output == FlowText.Handed(result.steps) != ""
    decreases MAX_FLOW_DEPTH + 1 - depth, 1
  {
    FlowEnds(reg, call, fl, req, depth, seen, n);
    if depth > MAX_FLOW_DEPTH {
      return NO_RESULT, Some(TooDeep(fl.name)), n;
    }
    if fl.name in seen {
      return NO_RESULT, Some(Cycle(fl.name)), n;
    }
    var visited := seen + {fl.name};
    var input := LastUserText(req.messages);
    var previous := "";
    result, next := NO_RESULT, n;
    ghost var served, lost: seq<Leaf> := [], [];
    for i := 0 to |fl.steps|
      invariant result.output == ""
      invariant RunFlow(reg, call, fl, req, depth, seen, n)
        == RunSteps(reg, call, fl, i, req, depth, visited, FlowRun(result, None, next, served, lost), previous)
    {
      var s := fl.steps[i];
      ghost var spec := RunStep(reg, call, s, StepRequest(s, i, req, previous), depth, visited, next);
      var stepReq := req;
      if i > 0 || Trim(s.input) != "" {
        stepReq := Request([Message("user", Render(s, previous, input))], false);
      }
      var outcome, stepErr;
      outcome, stepErr, next := RunOneStep(reg, call, s, stepReq, depth, visited, next);
      served, lost := served + spec.served, lost + spec.lost;
      if stepErr.Some? {
        if !s.optional {
          return result, Some(StepFailed(fl.name, DisplayName(s), stepErr.value)), next;
        }
        outcome := outcome.(skipped := true, error := stepErr);
        result := result.(steps := result.steps + [outcome]);
        continue;
      }
      result := FlowResult(result.steps + [outcome], "", AddUsage(result.usage, outcome.usage));
      previous := outcome.output;
    }
    if previous == "" {
      return result, Some(NoOutput(fl.name)), next;
    }
    return result.(output := previous), None, next;
  }

  // Books every leaf that called a provider, and no parent.
  method RecordFlow(steps: seq<Outcome>) returns (booked: seq<Leaf>)
    ensures booked == Billed(steps)
    decreases steps
  {
    booked := [];
    for i := 0 to |steps|
      invariant booked == Billed(steps[..i])
    {
      assert steps[..i + 1][..i] == steps[..i];
      var step := steps[i];
      if |step.subSteps| > 0 {
        var inner := RecordFlow(step.subSteps);
        booked := booked + inner;
        continue;
      }
      if step.provider == "" {
        continue;
      }
      booked := booked + [Leaf(step.provider, step.model, step.usage, step.byCaller)];
    }
    assert steps[..|steps|] == steps;
  }
}

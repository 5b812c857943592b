// Flows: chains of agents that may run other flows. The providers are an
// oracle answering the n-th call of a run; everything else is the gateway's.

module FlowModel {
  import opened Basics
  import opened Text

  const MAX_FLOW_DEPTH: nat := 4

  datatype Message = Message(role: string, content: string)

  // raw says the caller's own body still travels with the request.
  datatype Request = Request(messages: seq<Message>, raw: bool)

  datatype Step = Step(agent: string, title: string, input: string, optional: bool)

  datatype Flow = Flow(name: string, steps: seq<Step>)

  datatype Usage = Usage(prompt: int, completion: int, total: int)

  // flows are keyed by trimmed name; agents name the model they speak through.
  datatype Registry = Registry(flows: map<string, Flow>, agents: map<string, string>)

  datatype Call = Done(content: string, provider: string, model: string, usage: Usage, byCaller: bool)
    | CallFailed(message: string)

  type Upstream = (nat, string, Request) -> Call

  datatype Outcome = Outcome(
    name: string, agent: string, output: string, provider: string, model: string, usage: Usage,
    skipped: bool, error: Option<FlowError>, subSteps: seq<Outcome>, byCaller: bool)

  datatype FlowError = TooDeep(flow: string) | Cycle(flow: string) | NoOutput(flow: string)
    | StepFailed(flow: string, step: string, cause: FlowError) | Refused(message: string)

  datatype FlowResult = FlowResult(steps: seq<Outcome>, output: string, usage: Usage)

  // One provider call as the books want it.
  datatype Leaf = Leaf(provider: string, model: string, usage: Usage, byCaller: bool)

  // What a run returns, the number of the next call, and its history: every
  // call a provider served, and those of them made inside a nested flow that
  // then failed.
  datatype FlowRun = FlowRun(result: FlowResult, err: Option<FlowError>, next: nat, served: seq<Leaf>, lost: seq<Leaf>)

  datatype StepRun = StepRun(outcome: Outcome, err: Option<FlowError>, next: nat, served: seq<Leaf>, lost: seq<Leaf>)

  const NO_USAGE: Usage := Usage(0, 0, 0)

  function AddUsage(a: Usage, b: Usage): Usage {
    Usage(a.prompt + b.prompt, a.completion + b.completion, a.total + b.total)
  }

  function LastUserText(messages: seq<Message>): string {
    if messages == [] then ""
    else if messages[|messages| - 1].role == "user" then messages[|messages| - 1].content
    else LastUserText(messages[..|messages| - 1])
  }

  function DisplayName(s: Step): string {
    if Trim(s.title) != "" then Trim(s.title) else s.agent
  }

  // Every occurrence of mark, left to right, replaced.
  function ReplaceAll(text: string, mark: string, with: string): string
    requires mark != ""
    decreases |text|
  {
    if text == [] then ""
    else if mark <= text then with + ReplaceAll(text[|mark|..], mark, with)
    else [text[0]] + ReplaceAll(text[1..], mark, with)
  }

  function Render(s: Step, previous: string, input: string): string {
    if Trim(s.input) == "" then previous
    else ReplaceAll(ReplaceAll(Trim(s.input), "{{previous}}", previous), "{{input}}", input)
  }

  // The first step speaks with the caller's own messages unless it has a
  // template; every other talks to its agent in one message.
  function StepRequest(s: Step, i: nat, req: Request, previous: string): Request {
    if i > 0 || Trim(s.input) != ""
    then Request([Message("user", Render(s, previous, LastUserText(req.messages)))], false)
    else req
  }

  function Blank(s: Step): Outcome {
    Outcome(DisplayName(s), s.agent, "", "", "", NO_USAGE, false, None, [], false)
  }

  predicate IsFlow(reg: Registry, name: string) {
    Trim(name) in reg.flows
  }

  function ModelOf(reg: Registry, name: string): string {
    if name in reg.agents then reg.agents[name] else name
  }

  function RunStep(reg: Registry, call: Upstream, s: Step, req: Request, depth: nat, seen: set<string>, n: nat): StepRun
    requires depth <= MAX_FLOW_DEPTH
    decreases MAX_FLOW_DEPTH + 1 - depth, 0, 0
  {
    if IsFlow(reg, s.agent) then
      var nested := reg.flows[Trim(s.agent)];
      var inner := RunFlow(reg, call, nested, req, depth + 1, seen, n);
      if inner.err.Some? then StepRun(Blank(s), inner.err, inner.next, inner.served, inner.served)
      else
        StepRun(Blank(s).(output := inner.result.output, usage := inner.result.usage,
                          model := nested.name, subSteps := inner.result.steps),
                None, inner.next, inner.served, inner.lost)
    else
      match call(n, ModelOf(reg, s.agent), req)
      case CallFailed(message) => StepRun(Blank(s), Some(Refused(message)), n + 1, [], [])
      case Done(content, provider, model, usage, byCaller) =>
        StepRun(Blank(s).(output := content, provider := provider, model := model,
                          usage := usage, byCaller := byCaller),
                None, n + 1, [Leaf(provider, model, usage, byCaller)], [])
  }

  // Whether the chain ends at this step: a member that failed and was needed.
  predicate Stops(s: Step, one: StepRun) {
    one.err.Some? && !s.optional
  }

  function Stopped(fl: Flow, s: Step, one: StepRun, sofar: FlowRun): FlowRun
    requires one.err.Some?
  {
    FlowRun(sofar.result, Some(StepFailed(fl.name, DisplayName(s), one.err.value)), one.next,
            sofar.served + one.served, sofar.lost + one.lost)
  }

  // The run after a step that did not end it.
  function Advanced(one: StepRun, sofar: FlowRun): FlowRun {
    FlowRun(
      if one.err.Some?
      then sofar.result.(steps := sofar.result.steps + [one.outcome.(skipped := true, error := one.err)])
      else FlowResult(sofar.result.steps + [one.outcome], sofar.result.output,
                      AddUsage(sofar.result.usage, one.outcome.usage)),
      sofar.err, one.next, sofar.served + one.served, sofar.lost + one.lost)
  }

  function Passed(one: StepRun, previous: string): string {
    if one.err.Some? then previous else one.outcome.output
  }

  function Finished(fl: Flow, sofar: FlowRun, previous: string): FlowRun {
    if previous == "" then sofar.(err := Some(NoOutput(fl.name)))
    else sofar.(result := sofar.result.(output := previous))
  }

  // The steps of fl from the i-th on, given what came before them.
  function RunSteps(reg: Registry, call: Upstream, fl: Flow, i: nat, req: Request, depth: nat, seen: set<string>,
                    sofar: FlowRun, previous: string): FlowRun
    requires depth <= MAX_FLOW_DEPTH && i <= |fl.steps|
    decreases MAX_FLOW_DEPTH + 1 - depth, 1, |fl.steps| - i
  {
    if i == |fl.steps| then Finished(fl, sofar, previous)
    else
      var s := fl.steps[i];
      var one := RunStep(reg, call, s, StepRequest(s, i, req, previous), depth, seen, sofar.next);
      if Stops(s, one) then Stopped(fl, s, one, sofar)
      else RunSteps(reg, call, fl, i + 1, req, depth, seen, Advanced(one, sofar), Passed(one, previous))
  }

  const NO_RESULT: FlowResult := FlowResult([], "", NO_USAGE)

  function RunFlow(reg: Registry, call: Upstream, fl: Flow, req: Request, depth: nat, seen: set<string>,
                   n: nat): FlowRun
    decreases MAX_FLOW_DEPTH + 1 - depth, 2, 0
  {
    if depth > MAX_FLOW_DEPTH then FlowRun(NO_RESULT, Some(TooDeep(fl.name)), n, [], [])
    else if fl.name in seen then FlowRun(NO_RESULT, Some(Cycle(fl.name)), n, [], [])
    else RunSteps(reg, call, fl, 0, req, depth, seen + {fl.name}, FlowRun(NO_RESULT, None, n, [], []), "")
  }

  // ----- billing -----

  // A step that ran another flow is replaced by that flow's own leaves; one
  // that called nobody is not booked.
  function BilledStep(o: Outcome): seq<Leaf>
    decreases o, 1
  {
    if |o.subSteps| > 0 then Billed(o.subSteps)
    else if o.provider == "" then []
    else [Leaf(o.provider, o.model, o.usage, o.byCaller)]
  }

  function Billed(steps: seq<Outcome>): seq<Leaf>
    decreases steps, 0
  {
    if steps == [] then [] else Billed(steps[..|steps| - 1]) + BilledStep(steps[|steps| - 1])
  }

  function SumUsage(leaves: seq<Leaf>): Usage {
    if leaves == [] then NO_USAGE else AddUsage(SumUsage(leaves[..|leaves| - 1]), leaves[|leaves| - 1].usage)
  }
}

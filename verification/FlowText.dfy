// Which text reaches each step of a flow and which answer the flow returns: the
// caller's own request for an untemplated first step, and for every other step
// one message made of what the last step that answered said.

module FlowText {
  import opened Basics
  import opened Text
  import opened FlowModel

  // ----- templates -----

  // mark stands in text from i on.
  predicate At(text: string, i: nat, mark: string) {
    i + |mark| <= |text| && text[i..i + |mark|] == mark
  }

  lemma AtRest(text: string, i: nat, mark: string)
    requires text != []
    ensures At(text[1..], i, mark) <==> At(text, i + 1, mark)
  {
    if i + 1 + |mark| <= |text| {
      assert text[1..][i..i + |mark|] == text[i + 1..i + 1 + |mark|];
    }
  }

  lemma AtStart(text: string, mark: string)
    ensures At(text, 0, mark) <==> mark <= text
  {
    if |mark| <= |text| {
      assert text[0..|mark|] == text[..|mark|];
    }
  }

  // mark stands nowhere in text.
  ghost predicate Free(text: string, mark: string) {
    forall i: nat :: !At(text, i, mark)
  }

  lemma {:induction false} NothingReplaced(text: string, mark: string, with: string)
    requires mark != "" && Free(text, mark)
    ensures ReplaceAll(text, mark, with) == text
    decreases |text|
  {
    if text != [] {
      AtStart(text, mark);
      forall i: nat ensures !At(text[1..], i, mark) {
        AtRest(text, i, mark);
      }
      NothingReplaced(text[1..], mark, with);
    }
  }

  // The first occurrence of mark in a + mark is the one after a.
  ghost predicate FirstAt(a: string, mark: string) {
    forall i: nat :: i < |a| ==> !At(a + mark, i, mark)
  }

  lemma FirstAtRest(a: string, mark: string)
    requires a != [] && FirstAt(a, mark)
    ensures FirstAt(a[1..], mark)
  {
    assert (a + mark)[1..] == a[1..] + mark;
    forall i: nat | i < |a[1..]| ensures !At(a[1..] + mark, i, mark) {
      AtRest(a + mark, i, mark);
    }
  }

  lemma Rest(a: string, mark: string, b: string)
    requires a != []
    ensures (a + mark + b)[0] == a[0] && (a + mark + b)[1..] == a[1..] + mark + b
  {
  }

  lemma NotAtStart(a: string, mark: string, b: string)
    requires a != [] && FirstAt(a, mark)
    ensures !(mark <= a + mark + b)
  {
    assert !At(a + mark, 0, mark);
    assert (a + mark)[0..|mark|] == (a + mark + b)[..|mark|];
  }

  lemma Prepend(c: char, a: string, x: string, y: string)
    ensures [c] + (a + x + y) == ([c] + a) + x + y
  {
  }

  lemma {:induction false} FirstReplaced(a: string, mark: string, b: string, with: string)
    requires mark != "" && FirstAt(a, mark)
    ensures ReplaceAll(a + mark + b, mark, with) == a + with + ReplaceAll(b, mark, with)
    decreases |a|
  {
    var text := a + mark + b;
    if a == [] {
      assert text == mark + b && text[|mark|..] == b;
      assert [] + with == with;
    } else {
      NotAtStart(a, mark, b);
      Rest(a, mark, b);
      FirstAtRest(a, mark);
      FirstReplaced(a[1..], mark, b, with);
      Prepend(a[0], a[1..], with, ReplaceAll(b, mark, with));
      assert [a[0]] + a[1..] == a;
    }
  }

  // What a step that has a template is sent: the template less the blanks
  // around it, the last answer for {{previous}}, and then, in what that gives,
  // the caller's text for {{input}}.
  lemma TemplateFilled(s: Step, previous: string, input: string)
    requires Trim(s.input) != ""
    ensures Render(s, previous, input) ==
      ReplaceAll(ReplaceAll(Trim(s.input), "{{previous}}", previous), "{{input}}", input)
  {
  }

  // A template with one {{previous}} is sent with the answer in its place, when
  // nothing in it or in the answer asks for the caller's text.
  lemma PreviousFilled(s: Step, a: string, b: string, previous: string, input: string)
    requires Trim(s.input) == a + "{{previous}}" + b && FirstAt(a, "{{previous}}") && Free(b, "{{previous}}")
    requires Free(a + previous + b, "{{input}}")
    ensures Render(s, previous, input) == a + previous + b
  {
    FirstReplaced(a, "{{previous}}", b, previous);
    NothingReplaced(b, "{{previous}}", previous);
    NothingReplaced(a + previous + b, "{{input}}", input);
  }

  // One with one {{input}} is sent with the caller's text in its place.
  lemma InputFilled(s: Step, a: string, b: string, previous: string, input: string)
    requires Trim(s.input) == a + "{{input}}" + b && Free(a + "{{input}}" + b, "{{previous}}")
    requires FirstAt(a, "{{input}}") && Free(b, "{{input}}")
    ensures Render(s, previous, input) == a + input + b
  {
    NothingReplaced(a + "{{input}}" + b, "{{previous}}", previous);
    FirstReplaced(a, "{{input}}", b, input);
    NothingReplaced(b, "{{input}}", input);
  }

  // The answer put in is searched too: one that itself says {{input}} is handed
  // on with the caller's text in that place.
  lemma AnswerIsSearched(s: Step, x: string, y: string, input: string)
    requires Trim(s.input) == "{{previous}}" && FirstAt(x, "{{input}}") && Free(y, "{{input}}")
    ensures Render(s, x + "{{input}}" + y, input) == x + input + y
  {
    var answer := x + "{{input}}" + y;
    AtStart("{{previous}}", "{{previous}}");
    assert FirstAt("", "{{previous}}");
    FirstReplaced("", "{{previous}}", "", answer);
    assert "" + "{{previous}}" + "" == "{{previous}}" && "" + answer + "" == answer;
    FirstReplaced(x, "{{input}}", y, input);
    NothingReplaced(y, "{{input}}", input);
  }

  // The caller's text is what its last user message says, or nothing.
  lemma {:induction false} LastUserSaid(before: seq<Message>, m: Message, after: seq<Message>)
    requires m.role == "user" && forall k :: 0 <= k < |after| ==> after[k].role != "user"
    ensures LastUserText(before + [m] + after) == m.content
    decreases |after|
  {
    var all := before + [m] + after;
    if after != [] {
      assert all[..|all| - 1] == before + [m] + after[..|after| - 1];
      LastUserSaid(before, m, after[..|after| - 1]);
    }
  }

  lemma {:induction false} NoUserSaid(msgs: seq<Message>)
    requires forall k :: 0 <= k < |msgs| ==> msgs[k].role != "user"
    ensures LastUserText(msgs) == ""
  {
    if msgs != [] {
      NoUserSaid(msgs[..|msgs| - 1]);
    }
  }

  // ----- what each step is sent -----

  // What the last of these outcomes that answered said; a skipped one passes
  // through what came before it.
  function Handed(steps: seq<Outcome>): string {
    if steps == [] then ""
    else if steps[|steps| - 1].skipped then Handed(steps[..|steps| - 1])
    else steps[|steps| - 1].output
  }

  // What the next step is sent, after these outcomes.
  function Sent(fl: Flow, req: Request, steps: seq<Outcome>): Request
    requires |steps| < |fl.steps|
  {
    var s := fl.steps[|steps|];
    if steps == [] && Trim(s.input) == "" then req
    else Request([Message("user",
      if Trim(s.input) == "" then Handed(steps)
      else ReplaceAll(ReplaceAll(Trim(s.input), "{{previous}}", Handed(steps)),
                      "{{input}}", LastUserText(req.messages)))], false)
  }

  // A flow under way: its step runs were each sent what the steps before them
  // come to, and each is what its outcome says. nexts[k] is the number of the
  // first call of step k.
  ghost predicate Traces(reg: Registry, call: Upstream, fl: Flow, req: Request, depth: nat, seen: set<string>,
                         steps: seq<Outcome>, nexts: seq<nat>)
    requires depth <= MAX_FLOW_DEPTH
  {
    && |steps| <= |fl.steps| && |nexts| == |steps| + 1
    && forall k :: 0 <= k < |steps| ==> StepTraced(reg, call, fl, req, depth, seen, steps, nexts, k)
  }

  ghost predicate StepTraced(reg: Registry, call: Upstream, fl: Flow, req: Request, depth: nat, seen: set<string>,
                             steps: seq<Outcome>, nexts: seq<nat>, k: nat)
    requires depth <= MAX_FLOW_DEPTH && k < |steps| <= |fl.steps| && |nexts| == |steps| + 1
  {
    var one := RunStep(reg, call, fl.steps[k], Sent(fl, req, steps[..k]), depth, seen, nexts[k]);
    && nexts[k + 1] == one.next
    && (one.err.Some? ==> fl.steps[k].optional && steps[k] == one.outcome.(skipped := true, error := one.err))
    && (one.err.None? ==> steps[k] == one.outcome)
  }

  // How a traced flow ends: at the first needed step that fails, or after the
  // last with what was handed on.
  ghost predicate EndsAs(reg: Registry, call: Upstream, fl: Flow, req: Request, depth: nat, seen: set<string>,
                         steps: seq<Outcome>, nexts: seq<nat>, z: FlowRun)
    requires depth <= MAX_FLOW_DEPTH && |steps| <= |fl.steps| && |nexts| == |steps| + 1
  {
    && z.result.steps == steps
    && if |steps| == |fl.steps| then
         && z.next == nexts[|steps|]
         && (Handed(steps) == "" ==> z.err == Some(NoOutput(fl.name)))
         && (Handed(steps) != "" ==> z.err.None? && z.result.output == Handed(steps))
       else
         var one := RunStep(reg, call, fl.steps[|steps|], Sent(fl, req, steps), depth, seen, nexts[|steps|]);
         && one.err.Some? && !fl.steps[|steps|].optional && z.next == one.next
         && z.err == Some(StepFailed(fl.name, DisplayName(fl.steps[|steps|]), one.err.value))
  }

  lemma StepsNotSkipped(reg: Registry, call: Upstream, s: Step, req: Request, depth: nat, seen: set<string>, n: nat)
    requires depth <= MAX_FLOW_DEPTH
    ensures !RunStep(reg, call, s, req, depth, seen, n).outcome.skipped
  {
  }

  lemma TraceOneMore(reg: Registry, call: Upstream, fl: Flow, req: Request, depth: nat, seen: set<string>,
                     steps: seq<Outcome>, nexts: seq<nat>, o: Outcome)
    requires depth <= MAX_FLOW_DEPTH && Traces(reg, call, fl, req, depth, seen, steps, nexts) && |steps| < |fl.steps|
    requires var one := RunStep(reg, call, fl.steps[|steps|], Sent(fl, req, steps), depth, seen, nexts[|steps|]);
      && (one.err.Some? ==> fl.steps[|steps|].optional && o == one.outcome.(skipped := true, error := one.err))
      && (one.err.None? ==> o == one.outcome)
    ensures var one := RunStep(reg, call, fl.steps[|steps|], Sent(fl, req, steps), depth, seen, nexts[|steps|]);
      Traces(reg, call, fl, req, depth, seen, steps + [o], nexts + [one.next])
  {
    var one := RunStep(reg, call, fl.steps[|steps|], Sent(fl, req, steps), depth, seen, nexts[|steps|]);
    var more, later := steps + [o], nexts + [one.next];
    forall k | 0 <= k < |more| ensures StepTraced(reg, call, fl, req, depth, seen, more, later, k) {
      assert more[..k] == steps[..k];
      if k < |steps| {
        assert StepTraced(reg, call, fl, req, depth, seen, steps, nexts, k);
      } else {
        assert steps[..k] == steps;
      }
    }
  }

  lemma {:induction false} StepsAreTraced(reg: Registry, call: Upstream, fl: Flow, i: nat, req: Request, depth: nat,
                                          seen: set<string>, sofar: FlowRun, previous: string, nexts: seq<nat>)
    returns (all: seq<nat>)
    requires depth <= MAX_FLOW_DEPTH && i == |sofar.result.steps| <= |fl.steps|
    requires Traces(reg, call, fl, req, depth, seen, sofar.result.steps, nexts)
    requires sofar.err.None? && nexts[i] == sofar.next && previous == Handed(sofar.result.steps)
    ensures var z := RunSteps(reg, call, fl, i, req, depth, seen, sofar, previous);
      && Traces(reg, call, fl, req, depth, seen, z.result.steps, all)
      && EndsAs(reg, call, fl, req, depth, seen, z.result.steps, all, z)
      && all[0] == nexts[0]
    decreases |fl.steps| - i
  {
    all := nexts;
    if i < |fl.steps| {
      var s, steps := fl.steps[i], sofar.result.steps;
      var one := RunStep(reg, call, s, Sent(fl, req, steps), depth, seen, sofar.next);
      assert StepRequest(s, i, req, previous) == Sent(fl, req, steps);
      StepsNotSkipped(reg, call, s, Sent(fl, req, steps), depth, seen, sofar.next);
      if !Stops(s, one) {
        var o := if one.err.Some? then one.outcome.(skipped := true, error := one.err) else one.outcome;
        TraceOneMore(reg, call, fl, req, depth, seen, steps, nexts, o);
        assert (steps + [o])[..|steps|] == steps;
        all := StepsAreTraced(reg, call, fl, i + 1, req, depth, seen, Advanced(one, sofar), Passed(one, previous),
                              nexts + [one.next]);
      }
    }
  }

  // Every flow that is entered runs so: whatever its steps are, agents or
  // flows, needed or optional, templated or not.
  lemma EveryStepIsSent(reg: Registry, call: Upstream, fl: Flow, req: Request, depth: nat, seen: set<string>, n: nat)
    returns (nexts: seq<nat>)
    requires depth <= MAX_FLOW_DEPTH && fl.name !in seen
    ensures var z := RunFlow(reg, call, fl, req, depth, seen, n);
      && Traces(reg, call, fl, req, depth, seen + {fl.name}, z.result.steps, nexts)
      && EndsAs(reg, call, fl, req, depth, seen + {fl.name}, z.result.steps, nexts, z)
      && nexts[0] == n
  {
    nexts := StepsAreTraced(reg, call, fl, 0, req, depth, seen + {fl.name},
                            FlowRun(NO_RESULT, None, n, [], []), "", [n]);
  }

  // ----- who runs a step -----

  // A step naming no flow makes one call, to its agent's model or else to the
  // alias of that name, with what it was sent.
  lemma AgentStep(reg: Registry, call: Upstream, s: Step, req: Request, depth: nat, seen: set<string>, n: nat)
    requires depth <= MAX_FLOW_DEPTH && Trim(s.agent) !in reg.flows
    ensures var one := RunStep(reg, call, s, req, depth, seen, n);
      var answer := call(n, if s.agent in reg.agents then reg.agents[s.agent] else s.agent, req);
      && one.next == n + 1
      && (answer.CallFailed? ==> one.err == Some(Refused(answer.message)))
      && (answer.Done? ==>
           && one.err.None? && one.outcome.output == answer.content
           && one.outcome.provider == answer.provider && one.outcome.model == answer.model
           && one.outcome.usage == answer.usage && one.outcome.byCaller == answer.byCaller
           && one.outcome.subSteps == [])
      && one.outcome.agent == s.agent
      && one.outcome.name == if Trim(s.title) != "" then Trim(s.title) else s.agent
  {
  }

  // A step naming a flow runs it one level down, with what it was sent, and
  // says what that flow returned.
  lemma FlowStep(reg: Registry, call: Upstream, s: Step, req: Request, depth: nat, seen: set<string>, n: nat)
    requires depth <= MAX_FLOW_DEPTH && Trim(s.agent) in reg.flows
    ensures var one := RunStep(reg, call, s, req, depth, seen, n);
      var inner := RunFlow(reg, call, reg.flows[Trim(s.agent)], req, depth + 1, seen, n);
      && one.next == inner.next && one.err == inner.err
      && (inner.err.None? ==>
           && one.outcome.output == inner.result.output && one.outcome.subSteps == inner.result.steps
           && one.outcome.usage == inner.result.usage && one.outcome.provider == "")
  {
  }

  // ----- a chain of agents -----

  // No templates, and no step naming a flow.
  ghost predicate PlainChain(reg: Registry, fl: Flow) {
    forall k :: 0 <= k < |fl.steps| ==> Trim(fl.steps[k].input) == "" && Trim(fl.steps[k].agent) !in reg.flows
  }

  function ChainModel(reg: Registry, fl: Flow, k: nat): string
    requires k < |fl.steps|
  {
    if fl.steps[k].agent in reg.agents then reg.agents[fl.steps[k].agent] else fl.steps[k].agent
  }

  // What the k-th call answers: the first is made with the caller's request,
  // each later one with one message, what the call before it said.
  function ChainCall(reg: Registry, call: Upstream, fl: Flow, req: Request, n: nat, k: nat): Call
    requires k < |fl.steps|
  {
    if k == 0 then call(n, ChainModel(reg, fl, 0), req)
    else call(n + k, ChainModel(reg, fl, k),
              Request([Message("user", Said(ChainCall(reg, call, fl, req, n, k - 1)))], false))
  }

  function Said(c: Call): string {
    if c.Done? then c.content else ""
  }

  ghost predicate AllAnswer(reg: Registry, call: Upstream, fl: Flow, req: Request, n: nat) {
    forall k :: 0 <= k < |fl.steps| ==> ChainCall(reg, call, fl, req, n, k).Done?
  }

  lemma HandedLast(steps: seq<Outcome>, k: nat)
    requires 0 < k <= |steps| && !steps[k - 1].skipped
    ensures Handed(steps[..k]) == steps[k - 1].output
  {
  }

  // The chain after k calls: the next is number n + k, and the last step said
  // what the last call answered.
  ghost predicate Linked(reg: Registry, call: Upstream, fl: Flow, req: Request, n: nat,
                         steps: seq<Outcome>, nexts: seq<nat>, k: nat)
    requires k <= |steps| <= |fl.steps| && |nexts| == |steps| + 1
  {
    && nexts[k] == n + k
    && (k > 0 ==> !steps[k - 1].skipped && steps[k - 1].output == Said(ChainCall(reg, call, fl, req, n, k - 1)))
  }

  lemma ChainSent(reg: Registry, call: Upstream, fl: Flow, req: Request, n: nat,
                  steps: seq<Outcome>, nexts: seq<nat>, k: nat)
    requires k <= |steps| <= |fl.steps| && k < |fl.steps| && |nexts| == |steps| + 1 && PlainChain(reg, fl)
    requires Linked(reg, call, fl, req, n, steps, nexts, k)
    ensures call(n + k, ChainModel(reg, fl, k), Sent(fl, req, steps[..k])) == ChainCall(reg, call, fl, req, n, k)
  {
    if k > 0 {
      HandedLast(steps, k);
    }
  }

  // The step that makes an answering call.
  lemma ChainAnswers(reg: Registry, call: Upstream, fl: Flow, req: Request, depth: nat, seen: set<string>, n: nat,
                     steps: seq<Outcome>, nexts: seq<nat>, k: nat)
    requires depth <= MAX_FLOW_DEPTH && PlainChain(reg, fl)
    requires k <= |steps| <= |fl.steps| && k < |fl.steps| && |nexts| == |steps| + 1
    requires Linked(reg, call, fl, req, n, steps, nexts, k) && ChainCall(reg, call, fl, req, n, k).Done?
    ensures var one := RunStep(reg, call, fl.steps[k], Sent(fl, req, steps[..k]), depth, seen, nexts[k]);
      && one.err.None? && one.next == n + k + 1
      && !one.outcome.skipped && one.outcome.output == Said(ChainCall(reg, call, fl, req, n, k))
  {
    ChainSent(reg, call, fl, req, n, steps, nexts, k);
    AgentStep(reg, call, fl.steps[k], Sent(fl, req, steps[..k]), depth, seen, nexts[k]);
    StepsNotSkipped(reg, call, fl.steps[k], Sent(fl, req, steps[..k]), depth, seen, nexts[k]);
  }

  lemma ChainOneMore(reg: Registry, call: Upstream, fl: Flow, req: Request, depth: nat, seen: set<string>, n: nat,
                     steps: seq<Outcome>, nexts: seq<nat>, k: nat)
    requires depth <= MAX_FLOW_DEPTH && PlainChain(reg, fl) && k < |steps| <= |fl.steps| && |nexts| == |steps| + 1
    requires StepTraced(reg, call, fl, req, depth, seen, steps, nexts, k)
    requires Linked(reg, call, fl, req, n, steps, nexts, k) && ChainCall(reg, call, fl, req, n, k).Done?
    ensures Linked(reg, call, fl, req, n, steps, nexts, k + 1)
  {
    ChainAnswers(reg, call, fl, req, depth, seen, n, steps, nexts, k);
  }

  lemma {:induction false} ChainStep(reg: Registry, call: Upstream, fl: Flow, req: Request, depth: nat,
                                     seen: set<string>, n: nat, steps: seq<Outcome>, nexts: seq<nat>, k: nat)
    requires depth <= MAX_FLOW_DEPTH && PlainChain(reg, fl) && AllAnswer(reg, call, fl, req, n)
    requires Traces(reg, call, fl, req, depth, seen, steps, nexts) && nexts[0] == n && k <= |steps|
    ensures Linked(reg, call, fl, req, n, steps, nexts, k)
  {
    if k > 0 {
      ChainStep(reg, call, fl, req, depth, seen, n, steps, nexts, k - 1);
      ChainOneMore(reg, call, fl, req, depth, seen, n, steps, nexts, k - 1);
    }
  }

  // An agent that answers does not end the chain.
  lemma ChainNotCut(reg: Registry, call: Upstream, fl: Flow, req: Request, depth: nat, seen: set<string>, n: nat,
                    steps: seq<Outcome>, nexts: seq<nat>)
    requires depth <= MAX_FLOW_DEPTH && PlainChain(reg, fl) && AllAnswer(reg, call, fl, req, n)
    requires Traces(reg, call, fl, req, depth, seen, steps, nexts) && nexts[0] == n && |steps| < |fl.steps|
    ensures RunStep(reg, call, fl.steps[|steps|], Sent(fl, req, steps), depth, seen, nexts[|steps|]).err.None?
  {
    ChainStep(reg, call, fl, req, depth, seen, n, steps, nexts, |steps|);
    ChainAnswers(reg, call, fl, req, depth, seen, n, steps, nexts, |steps|);
    assert steps[..|steps|] == steps;
  }

  lemma ChainEnds(reg: Registry, call: Upstream, fl: Flow, req: Request, depth: nat, seen: set<string>, n: nat,
                  steps: seq<Outcome>, nexts: seq<nat>, z: FlowRun)
    requires depth <= MAX_FLOW_DEPTH && PlainChain(reg, fl) && AllAnswer(reg, call, fl, req, n) && fl.steps != []
    requires Traces(reg, call, fl, req, depth, seen, steps, nexts) && nexts[0] == n
    requires EndsAs(reg, call, fl, req, depth, seen, steps, nexts, z)
    ensures |steps| == |fl.steps| && z.next == n + |fl.steps|
    ensures Handed(steps) == Said(ChainCall(reg, call, fl, req, n, |fl.steps| - 1))
  {
    if |steps| < |fl.steps| {
      ChainNotCut(reg, call, fl, req, depth, seen, n, steps, nexts);
    }
    ChainStep(reg, call, fl, req, depth, seen, n, steps, nexts, |steps|);
    HandedLast(steps, |steps|);
    assert steps[..|steps|] == steps;
  }

  // Each agent is handed what the one before it said, the first the caller's
  // own request, and the flow returns what the last one said.
  lemma ChainHandsOn(reg: Registry, call: Upstream, fl: Flow, req: Request, depth: nat, seen: set<string>, n: nat)
    requires depth <= MAX_FLOW_DEPTH && fl.name !in seen && fl.steps != []
    requires PlainChain(reg, fl) && AllAnswer(reg, call, fl, req, n)
    ensures var z := RunFlow(reg, call, fl, req, depth, seen, n);
      var last := Said(ChainCall(reg, call, fl, req, n, |fl.steps| - 1));
      && |z.result.steps| == |fl.steps| && z.next == n + |fl.steps|
      && (forall k :: 0 <= k < |fl.steps| ==> z.result.steps[k].output == Said(ChainCall(reg, call, fl, req, n, k)))
      && (if last == "" then z.err == Some(NoOutput(fl.name)) else z.err.None? && z.result.output == last)
  {
    var nexts := EveryStepIsSent(reg, call, fl, req, depth, seen, n);
    var z := RunFlow(reg, call, fl, req, depth, seen, n);
    var steps := z.result.steps;
    ChainEnds(reg, call, fl, req, depth, seen + {fl.name}, n, steps, nexts, z);
    forall k | 0 <= k < |fl.steps| ensures steps[k].output == Said(ChainCall(reg, call, fl, req, n, k)) {
      ChainStep(reg, call, fl, req, depth, seen + {fl.name}, n, steps, nexts, k + 1);
    }
  }
}

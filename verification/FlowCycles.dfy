// When a flow that comes back to itself is reported as a cycle, and when as
// nesting too deep.

module FlowCycles {
  import opened Basics
  import opened Text
  import opened FlowModel

  function RootCause(e: FlowError): FlowError {
    match e
    case StepFailed(_, _, cause) => RootCause(cause)
    case _ => e
  }

  // Distinct flows of one needed step each, every one naming the next and the
  // last an earlier one again: a tail of `back` flows leading into a ring.
  ghost predicate Looping(reg: Registry, names: seq<string>, back: nat) {
    && back < |names|
    && (forall i, j :: 0 <= i < j < |names| ==> names[i] != names[j])
    && (forall i :: 0 <= i < |names| ==> names[i] in reg.flows)
    && (forall i :: 0 <= i < |names| ==> Links(reg, names, back, i))
  }

  // The flow met after i links.
  function Met(names: seq<string>, back: nat, i: nat): string
    requires back < |names|
  {
    if i < |names| then names[i] else names[back]
  }

  predicate Links(reg: Registry, names: seq<string>, back: nat, i: nat)
    requires i < |names| && back < |names|
  {
    names[i] in reg.flows && OneStep(reg.flows[names[i]], names[i], Met(names, back, i + 1))
  }

  predicate OneStep(fl: Flow, name: string, next: string) {
    fl.name == name && |fl.steps| == 1 && Trim(fl.steps[0].agent) == next && !fl.steps[0].optional
  }

  function NamesBefore(names: seq<string>, i: nat): set<string>
    requires i <= |names|
  {
    set k | 0 <= k < i :: names[k]
  }

  // A flow of one needed step that runs a failing flow fails for its reason.
  lemma OneStepFails(reg: Registry, call: Upstream, fl: Flow, name: string, next: string, req: Request, depth: nat,
                     seen: set<string>, n: nat)
    requires OneStep(fl, name, next) && next in reg.flows && depth <= MAX_FLOW_DEPTH && name !in seen
    requires var r := RunFlow(reg, call, reg.flows[next], StepRequest(fl.steps[0], 0, req, ""),
                              depth + 1, seen + {name}, n);
      r.err.Some? && r.next == n
    ensures var r := RunFlow(reg, call, reg.flows[next], StepRequest(fl.steps[0], 0, req, ""),
                              depth + 1, seen + {name}, n);
      var z := RunFlow(reg, call, fl, req, depth, seen, n);
      z.err.Some? && z.next == n && RootCause(z.err.value) == RootCause(r.err.value)
  {
    var one := RunStep(reg, call, fl.steps[0], StepRequest(fl.steps[0], 0, req, ""), depth, seen + {name}, n);
    assert Stops(fl.steps[0], one);
  }

  lemma {:induction false} LoopFails(reg: Registry, call: Upstream, names: seq<string>, back: nat, i: nat,
                                     req: Request, n: nat)
    requires Looping(reg, names, back) && i <= |names| && i <= MAX_FLOW_DEPTH
    ensures var r := RunFlow(reg, call, reg.flows[Met(names, back, i)], req, i + 1, NamesBefore(names, i), n);
      && r.err.Some? && r.next == n
      && RootCause(r.err.value) ==
           if |names| < MAX_FLOW_DEPTH then Cycle(names[back]) else TooDeep(Met(names, back, MAX_FLOW_DEPTH))
    decreases MAX_FLOW_DEPTH - i
  {
    assert Links(reg, names, back, if i < |names| then i else back);
    if i < |names| && i < MAX_FLOW_DEPTH {
      var fl := reg.flows[names[i]];
      assert NamesBefore(names, i + 1) == NamesBefore(names, i) + {names[i]};
      LoopFails(reg, call, names, back, i + 1, StepRequest(fl.steps[0], 0, req, ""), n);
      OneStepFails(reg, call, fl, names[i], Met(names, back, i + 1), req, i + 1, NamesBefore(names, i), n);
    } else if i < MAX_FLOW_DEPTH {
      assert names[back] in NamesBefore(names, i);
    }
  }

  // A loop is reported by name, as the flow it comes back to, exactly when tail
  // and ring together are shorter than the depth cap; a longer one is reported
  // as nesting too deep. Either way nothing is called.
  lemma CycleNamedIff(reg: Registry, call: Upstream, names: seq<string>, back: nat, req: Request)
    requires Looping(reg, names, back)
    ensures var r := RunFlow(reg, call, reg.flows[names[0]], req, 1, {}, 0);
      && r.err.Some? && r.next == 0
      && (RootCause(r.err.value) == Cycle(names[back]) <==> |names| < MAX_FLOW_DEPTH)
      && (RootCause(r.err.value).TooDeep? <==> |names| >= MAX_FLOW_DEPTH)
  {
    assert NamesBefore(names, 0) == {};
    LoopFails(reg, call, names, back, 0, req, 0);
  }

  // ----- small registries -----

  // Flows are kept under their own names.
  ghost predicate ByName(reg: Registry) {
    forall name :: name in reg.flows ==> reg.flows[name].name == name
  }

  predicate NotTooDeep(err: Option<FlowError>) {
    err.Some? ==> !RootCause(err.value).TooDeep?
  }

  // What is open at a depth: that many flows of the registry, all different.
  ghost predicate OpenAt(reg: Registry, depth: nat, seen: set<string>) {
    seen <= reg.flows.Keys && |seen| == depth
  }

  lemma OpenFewerThanAll(reg: Registry, depth: nat, seen: set<string>)
    requires OpenAt(reg, depth, seen) && |reg.flows| < MAX_FLOW_DEPTH
    ensures depth < MAX_FLOW_DEPTH
  {
    SubsetSize(seen, reg.flows.Keys);
  }

  lemma {:induction false} SubsetSize(a: set<string>, b: set<string>)
    requires a <= b
    ensures |a| <= |b|
    decreases |b|
  {
    if x :| x in a {
      SubsetSize(a - {x}, b - {x});
    }
  }

  lemma {:induction false} StepNotTooDeep(reg: Registry, call: Upstream, s: Step, req: Request, depth: nat,
                                          seen: set<string>, n: nat)
    requires ByName(reg) && |reg.flows| < MAX_FLOW_DEPTH && depth <= MAX_FLOW_DEPTH && OpenAt(reg, depth, seen)
    ensures NotTooDeep(RunStep(reg, call, s, req, depth, seen, n).err)
    decreases MAX_FLOW_DEPTH + 1 - depth, 0, 0
  {
    if IsFlow(reg, s.agent) {
      FlowNotTooDeep(reg, call, reg.flows[Trim(s.agent)], req, depth + 1, seen, n);
    }
  }

  lemma {:induction false} StepsNotTooDeep(reg: Registry, call: Upstream, fl: Flow, i: nat, req: Request, depth: nat,
                                           seen: set<string>, sofar: FlowRun, previous: string)
    requires ByName(reg) && |reg.flows| < MAX_FLOW_DEPTH && depth <= MAX_FLOW_DEPTH && OpenAt(reg, depth, seen)
    requires i <= |fl.steps| && NotTooDeep(sofar.err)
    ensures NotTooDeep(RunSteps(reg, call, fl, i, req, depth, seen, sofar, previous).err)
    decreases MAX_FLOW_DEPTH + 1 - depth, 1, |fl.steps| - i
  {
    if i < |fl.steps| {
      var s, r := fl.steps[i], StepRequest(fl.steps[i], i, req, previous);
      var one := RunStep(reg, call, s, r, depth, seen, sofar.next);
      StepNotTooDeep(reg, call, s, r, depth, seen, sofar.next);
      if !Stops(s, one) {
        StepsNotTooDeep(reg, call, fl, i + 1, req, depth, seen, Advanced(one, sofar), Passed(one, previous));
      }
    }
  }

  lemma {:induction false} FlowNotTooDeep(reg: Registry, call: Upstream, fl: Flow, req: Request, depth: nat,
                                          seen: set<string>, n: nat)
    requires ByName(reg) && |reg.flows| < MAX_FLOW_DEPTH && fl.name in reg.flows
    requires 1 <= depth && OpenAt(reg, depth - 1, seen)
    ensures NotTooDeep(RunFlow(reg, call, fl, req, depth, seen, n).err)
    decreases MAX_FLOW_DEPTH + 1 - depth, 2, 0
  {
    OpenFewerThanAll(reg, depth - 1, seen);
    if fl.name !in seen {
      StepsNotTooDeep(reg, call, fl, 0, req, depth, seen + {fl.name}, FlowRun(NO_RESULT, None, n, [], []), "");
    }
  }

  // No run in this registry, whatever its flows' steps and the upstream, is
  // cut off for depth.
  ghost predicate NeverCutOff(reg: Registry) {
    forall call: Upstream, name: string, req: Request :: name in reg.flows ==>
      NotTooDeep(RunFlow(reg, call, reg.flows[name], req, 1, {}, 0).err)
  }

  // The name of the k-th flow of a ring.
  function RingName(k: nat): string {
    seq(k + 1, i => 'a')
  }

  function RingNext(n: nat, name: string): string {
    if |name| < n then name + "a" else "a"
  }

  function RingNames(n: nat): set<string> {
    if n == 0 then {} else RingNames(n - 1) + {RingName(n - 1)}
  }

  // n flows of one needed step, each running the next and the last the first.
  function RingOf(n: nat): Registry {
    Registry(map name | name in RingNames(n) :: Flow(name, [Step(RingNext(n, name), "", "", false)]), map[])
  }

  lemma {:induction false} RingNamesAre(n: nat)
    ensures |RingNames(n)| == n && forall name :: name in RingNames(n) ==> |name| <= n
  {
    if n > 0 {
      RingNamesAre(n - 1);
      assert |RingName(n - 1)| == n;
      assert RingName(n - 1) !in RingNames(n - 1);
    }
  }

  lemma {:induction false} RingNameIn(n: nat, k: nat)
    requires k < n
    ensures RingName(k) in RingNames(n)
  {
    if k < n - 1 {
      RingNameIn(n - 1, k);
    }
  }

  lemma RingNameIsTrimmed(k: nat)
    ensures Trim(RingName(k)) == RingName(k)
  {
    assert !IsSpace(RingName(k)[0]) && !IsSpace(RingName(k)[k]);
  }

  lemma RingNextName(n: nat, k: nat)
    requires k < n
    ensures RingNext(n, RingName(k)) == RingName(if k + 1 < n then k + 1 else 0)
  {
    assert RingName(k) + "a" == RingName(k + 1);
  }

  function RingList(n: nat): seq<string> {
    seq(n, k requires 0 <= k < n => RingName(k))
  }

  lemma RingIsLooping(n: nat)
    requires n > 0
    ensures Looping(RingOf(n), RingList(n), 0) && ByName(RingOf(n)) && |RingOf(n).flows| == n
  {
    RingNamesAre(n);
    var reg, names := RingOf(n), RingList(n);
    assert reg.flows.Keys == RingNames(n);
    forall i | 0 <= i < n ensures names[i] in reg.flows && Links(reg, names, 0, i) {
      RingNameIn(n, i);
      RingNextName(n, i);
      RingNameIsTrimmed(if i + 1 < n then i + 1 else 0);
    }
    forall i, j | 0 <= i < j < n ensures names[i] != names[j] {
      assert |names[i]| == i + 1 && |names[j]| == j + 1;
    }
  }

  // For flows of any shape: a registry is too small to cut anything off for
  // depth, so that every cycle in it is named, iff it has fewer flows than the
  // cap.
  lemma SmallRegistriesIff(n: nat)
    ensures (forall reg: Registry :: ByName(reg) && |reg.flows| == n ==> NeverCutOff(reg)) <==> n < MAX_FLOW_DEPTH
  {
    if n < MAX_FLOW_DEPTH {
      forall reg: Registry | ByName(reg) && |reg.flows| == n ensures NeverCutOff(reg) {
        forall call: Upstream, name: string, req: Request | name in reg.flows
          ensures NotTooDeep(RunFlow(reg, call, reg.flows[name], req, 1, {}, 0).err)
        {
          FlowNotTooDeep(reg, call, reg.flows[name], req, 1, {}, 0);
        }
      }
    } else {
      RingIsLooping(n);
      LargeRingCutOff(n);
    }
  }

  lemma LargeRingCutOff(n: nat)
    requires n >= MAX_FLOW_DEPTH && Looping(RingOf(n), RingList(n), 0)
    ensures !NeverCutOff(RingOf(n))
  {
    var call: Upstream := (k, model, req) => CallFailed("");
    var req := Request([], false);
    var reg, first := RingOf(n), RingList(n)[0];
    CycleNamedIff(reg, call, RingList(n), 0, req);
    assert first in reg.flows && !NotTooDeep(RunFlow(reg, call, reg.flows[first], req, 1, {}, 0).err);
  }
}

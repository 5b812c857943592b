// Whose key served a request, which targets a name stands for, what one attempt
// does to the marks and what a stream delivers, said outright.

module RouterEffects {
  import opened Basics
  import opened Text
  import opened Routing
  import opened RoutingOrder
  import opened KeyRules
  import Router

  // ----- the key that served -----

  // So a caller who asked to spend only their own keys is never answered on
  // the gateway's, and nobody is on one they may not spend.
  lemma AnsweredOnAllowedKey(tb: Tables, who: Caller, targets: seq<Target>, marks: map<string, int>, now: int,
                             reply: Attempt -> Reply, r: Router.ChatResult)
    requires Router.ChatMeans(tb, who, targets, marks, now, reply, r) && r.Answered?
    ensures r.rung < |Attempts(tb, who, targets, marks, now)|
    ensures var a := Attempts(tb, who, targets, marks, now)[r.rung];
      && (who.creds.mode == Own ==> a.caller)
      && (!a.caller ==> Lower(a.target.provider) !in who.denied)
  {
    OnlyAllowedKeys(tb, who, targets, marks, now);
    assert Attempts(tb, who, targets, marks, now)[r.rung] in Attempts(tb, who, targets, marks, now);
  }

  lemma StreamedOnAllowedKey(tb: Tables, who: Caller, targets: seq<Target>, marks: map<string, int>, now: int,
                             upstream: Attempt -> Stream, wantsTools: bool,
                             r: Router.StreamResult, wire: seq<Router.Received>, k: nat)
    requires Router.StreamMeans(tb, who, targets, marks, now, upstream, wantsTools, r, wire) && k < |wire|
    ensures wire[k].rung < |Attempts(tb, who, targets, marks, now)|
    ensures var a := Attempts(tb, who, targets, marks, now)[wire[k].rung];
      && (who.creds.mode == Own ==> a.caller)
      && (!a.caller ==> Lower(a.target.provider) !in who.denied)
  {
    OnlyAllowedKeys(tb, who, targets, marks, now);
    var rungs := Attempts(tb, who, targets, marks, now);
    assert rungs[wire[k].rung] in rungs;
  }

  // ----- what a name stands for -----

  // A provider that serves a model here becomes a target with the most
  // particular style given: the chain's, else the serving's, else the model's.
  lemma ServedTarget(tb: Tables, entry: ModelEntry, s: Serving, own: string)
    ensures ServeAll(tb, entry, [s], own) ==
      if s.provider in tb.adapters
      then [Target(s.provider, s.model, if own != "" then own else if s.style != "" then s.style else entry.style)]
      else []
  {
    assert [s][..0] == [];
  }

  lemma {:induction false} ServingsInTurn(tb: Tables, entry: ModelEntry, a: seq<Serving>, b: seq<Serving>, own: string)
    ensures ServeAll(tb, entry, a + b, own) == ServeAll(tb, entry, a, own) + ServeAll(tb, entry, b, own)
    decreases |b|
  {
    if b == [] {
      assert a + b == a;
    } else {
      var front, last := b[..|b| - 1], b[|b| - 1];
      ServingsInTurn(tb, entry, a, front, own);
      assert (a + b)[..|a + b| - 1] == a + front;
      Regroup(ServeAll(tb, entry, a, own), ServeAll(tb, entry, front, own), Serve(tb, entry, last, own));
    }
  }

  // A target of a chain: one with a provider stands for itself, any other for
  // everyone who serves that model.
  lemma ChainTarget(tb: Tables, t: Target)
    ensures ExpandAll(tb, [t]) ==
      if t.provider != "" then [t]
      else if t.model in tb.registry then ServeAll(tb, tb.registry[t.model], tb.registry[t.model].serves, t.style)
      else []
  {
    JoinOfOne(Expand(tb, t));
    assert Each(Expansion(tb), [t]) == [Expand(tb, t)];
  }

  lemma ChainInTurn(tb: Tables, a: seq<Target>, b: seq<Target>)
    ensures ExpandAll(tb, a + b) == ExpandAll(tb, a) + ExpandAll(tb, b)
  {
    EachAppend(Expansion(tb), a, b);
  }

  // A name is an alias, else a decision, else a provider's model where callers
  // may pass those through, followed by the model's other providers, else a
  // model of the registry.
  lemma NamesInOrder(tb: Tables, name: string, split: Option<(string, string)>)
    ensures var passes := split.Some? && split.value.0 != "" && split.value.1 != ""
        && split.value.0 in tb.passthrough && split.value.0 in tb.adapters;
      var out := Resolve(tb, name, split, "");
      && (name in tb.models ==> out == ExpandAll(tb, tb.models[name]))
      && (name !in tb.models && name in tb.decisions ==> out == ExpandAll(tb, tb.decisions[name]))
      && (name !in tb.models && name !in tb.decisions && passes ==>
           && out != [] && (out[0].provider, out[0].model) == split.value
           && out[1..] == Siblings(tb, out[0])
           && out[0].style == (if split.value in tb.logicalOf && tb.logicalOf[split.value] in tb.registry
                               then tb.registry[tb.logicalOf[split.value]].style else ""))
      && (name !in tb.models && name !in tb.decisions && !passes ==> out == ExpandAll(tb, [Target("", name, "")]))
  {
    ChainTarget(tb, Target("", name, ""));
  }

  // ----- marks -----

  // One plain attempt: the caller's own keys leave no mark; the gateway's is
  // cleared by an answer, set by a refusal for money, and left by anything else.
  lemma AttemptMarks(marks: map<string, int>, a: Attempt, reply: Attempt -> Reply, now: int)
    ensures var z := MarkOne(marks, a, ChatEffects(reply), now);
      var p := a.target.provider;
      && (forall other :: other != p ==> (other in z <==> other in marks) && (other in z ==> z[other] == marks[other]))
      && (a.caller || a.adapter.None? ==> z == marks)
      && (!a.caller && a.adapter.Some? && reply(a).Answer? ==> p !in z)
      && (!a.caller && a.adapter.Some? && reply(a).Refusal? && OutOfCredit(reply(a).message) ==> p in z && z[p] == now)
      && (!a.caller && a.adapter.Some? && reply(a).Refusal? && !OutOfCredit(reply(a).message) ==> z == marks)
  {
  }

  // One attempt at a stream: a clean end after something was said clears, a
  // failure for money marks, silence does neither.
  lemma StreamMarks(marks: map<string, int>, a: Attempt, upstream: Attempt -> Stream, wantsTools: bool, now: int)
    ensures var z := MarkOne(marks, a, StreamEffects(upstream, wantsTools), now);
      var p := a.target.provider;
      && (forall other :: other != p ==> (other in z <==> other in marks) && (other in z ==> z[other] == marks[other]))
      && (a.caller || a.adapter.None? || !a.adapter.value.streams ==> z == marks)
      && (!a.caller && Streams(a) && upstream(a).err.None? && Delivered(upstream(a).emits, wantsTools) != [] ==>
        p !in z)
      && (!a.caller && Streams(a) && upstream(a).err.None? && Delivered(upstream(a).emits, wantsTools) == [] ==>
        z == marks)
      && (!a.caller && Streams(a) && upstream(a).err.Some? && OutOfCredit(upstream(a).err.value) ==>
        p in z && z[p] == now)
      && (!a.caller && Streams(a) && upstream(a).err.Some? && !OutOfCredit(upstream(a).err.value) ==> z == marks)
  {
  }

  // A refusal is for money when it says so anywhere, in any case.
  lemma SaysOutOfCredit(before: string, said: string, after: string, k: nat)
    requires k < |CREDIT_SIGNALS| && Lower(said) == CREDIT_SIGNALS[k]
    ensures OutOfCredit(before + said + after)
  {
    var m := Lower(before + said + after);
    assert m[|before|..][..|said|] == CREDIT_SIGNALS[k];
    assert Contains(m, CREDIT_SIGNALS[k]);
  }

  // ----- streams -----

  // All text reaches the client, tool deltas only when asked for, in order.
  lemma {:induction false} DeliveredInTurn(a: seq<Delta>, b: seq<Delta>, wantsTools: bool)
    ensures Delivered(a + b, wantsTools) == Delivered(a, wantsTools) + Delivered(b, wantsTools)
    decreases |b|
  {
    if b == [] {
      assert a + b == a;
    } else {
      DeliveredInTurn(a, b[..|b| - 1], wantsTools);
      assert (a + b)[..|a + b| - 1] == a + b[..|b| - 1];
    }
  }

  lemma DeliveredDelta(d: Delta, wantsTools: bool)
    ensures Delivered([d], wantsTools) == if d.TextDelta? || wantsTools then [d] else []
  {
    assert [d][..0] == [];
  }

  // ----- what a failure says -----

  lemma FailureSays(a: Attempt, reply: Attempt -> Reply, upstream: Attempt -> Stream, wantsTools: bool)
    ensures a.adapter.None? ==> Router.ChatFailure(a, reply) == Router.Failure(a, Router.Unavailable(a.reason))
    ensures a.adapter.Some? && reply(a).Refusal? ==>
      Router.ChatFailure(a, reply) == Router.Failure(a, Router.Refused(reply(a).message))
    ensures Router.StreamFailure(a, upstream, wantsTools) ==
      if a.adapter.None? then Some(Router.Unavailable(a.reason))
      else if !a.adapter.value.streams then Some(Router.NoStreaming)
      else if upstream(a).err.Some? then Some(Router.Refused(upstream(a).err.value))
      else if Delivered(upstream(a).emits, wantsTools) == [] then Some(Router.NoContent)
      else None
  {
  }

  // ----- the admin's choice by name -----

  // A rung is chosen by provider and model, or by its model alone when it names
  // no provider.
  lemma RungChosenByName(chain: seq<Target>, i: nat)
    requires i < |chain|
    requires forall k :: 0 <= k < i ==>
      (if chain[k].provider == "" then chain[k].model else chain[k].provider + "/" + chain[k].model)
        != (if chain[i].provider == "" then chain[i].model else chain[i].provider + "/" + chain[i].model)
    requires chain[i].provider != "" || chain[i].model != ""
    ensures Rungs(chain, if chain[i].provider == "" then chain[i].model else chain[i].provider + "/" + chain[i].model)
      == [chain[i]] + chain[..i] + chain[i + 1..]
  {
    var key := RungKey(chain[i]);
    assert |key| > 0;
    assert FirstKeyed(chain, key) == i;
  }
}

// The router: tables that stand still, marks that move, and the two loops
// that walk a chain. Upstreams are oracles: what each attempt would answer.

module Router {
  import opened Basics
  import opened Routing
  import opened RoutingOrder
  import KeyRules

  datatype Cause = Unavailable(reason: Reason) | Refused(message: string) | NoStreaming | NoContent

  datatype Failure = Failure(attempt: Attempt, cause: Cause)

  datatype ChatResult = UnknownName | Answered(rung: nat, content: string, tokens: nat)
    | AllFailed(failures: seq<Failure>)

  datatype StreamResult = UnknownStream | Streamed(rung: nat) | BrokenOff(rung: nat, message: string)
    | NothingStreamed(failures: seq<Failure>)

  // One delta as the client received it, and the attempt that sent it.
  datatype Received = Received(rung: nat, delta: Delta)

  // The order an alias's rungs are tried in.
  method OrderRungs(chain: seq<Target>, chosen: string) returns (ordered: seq<Target>)
    ensures ordered == Rungs(chain, chosen)
  {
    if chosen == "" {
      return chain;
    }
    var i := 0;
    while i < |chain| && RungKey(chain[i]) != chosen
      invariant i <= FirstKeyed(chain, chosen)
    {
      i := i + 1;
    }
    if i == |chain| {
      return chain;
    }
    assert i == FirstKeyed(chain, chosen);
    if i == 0 {
      assert chain == [chain[0]] + chain[1..];
      return chain;
    }
    return [chain[i]] + chain[..i] + chain[i + 1..];
  }

  // Every live provider serving a logical model, in registry order.
  method ExpandModel(tb: Tables, entry: ModelEntry, serves: seq<Serving>, own: string) returns (out: seq<Target>)
    ensures out == ServeAll(tb, entry, serves, own)
  {
    out := [];
    for i := 0 to |serves|
      invariant out == ServeAll(tb, entry, serves[..i], own)
    {
      assert serves[..i + 1][..i] == serves[..i];
      var s := serves[i];
      if s.provider in tb.adapters {
        var style := entry.style;
        if s.style != "" {
          style := s.style;
        }
        if own != "" {
          style := own;
        }
        out := out + [Target(s.provider, s.model, style)];
      }
    }
    assert serves[..|serves|] == serves;
  }

  // The reverse index from a provider's coordinate to the model it serves.
  // When two models claim one coordinate, whichever is met last holds it.
  method BuildIndex(registry: map<string, ModelEntry>) returns (logicalOf: map<(string, string), string>)
    ensures forall c :: c in logicalOf ==> logicalOf[c] in registry && ServesAt(registry[logicalOf[c]], c)
    ensures forall name, c :: name in registry && ServesAt(registry[name], c) ==> c in logicalOf
  {
    logicalOf := map[];
    var left := registry.Keys;
    while left != {}
      invariant left <= registry.Keys
      invariant forall c :: c in logicalOf ==> logicalOf[c] in registry && ServesAt(registry[logicalOf[c]], c)
      invariant forall name, c :: name in registry && name !in left && ServesAt(registry[name], c) ==> c in logicalOf
      decreases left
    {
      var name :| name in left;
      left := left - {name};
      var serves := registry[name].serves;
      for i := 0 to |serves|
        invariant forall c :: c in logicalOf ==> logicalOf[c] in registry && ServesAt(registry[logicalOf[c]], c)
        invariant forall other, c ::
          other in registry && other !in left && other != name && ServesAt(registry[other], c) ==> c in logicalOf
        invariant forall k :: 0 <= k < i ==> (serves[k].provider, serves[k].model) in logicalOf
      {
        var c := (serves[i].provider, serves[i].model);
        logicalOf := logicalOf[c := name];
        assert ServesAt(registry[name], c);
      }
    }
  }

  ghost predicate ServesAt(entry: ModelEntry, c: (string, string)) {
    exists i :: 0 <= i < |entry.serves| && (entry.serves[i].provider, entry.serves[i].model) == c
  }

  // Another live provider's coordinate of the same model.
  predicate Retries(tb: Tables, t: Target, s: Serving) {
    s.provider != t.provider && s.provider in tb.adapters
  }

  // Where the retries of t stand in a registry entry.
  function Places(tb: Tables, t: Target, serves: seq<Serving>): seq<nat> {
    if serves == [] then []
    else
      var front := Places(tb, t, serves[..|serves| - 1]);
      if Retries(tb, t, serves[|serves| - 1]) then front + [|serves| - 1] else front
  }

  lemma {:induction false} PlacesAreAll(tb: Tables, t: Target, serves: seq<Serving>)
    ensures forall k :: 0 <= k < |Places(tb, t, serves)| ==>
      Places(tb, t, serves)[k] < |serves| && Retries(tb, t, serves[Places(tb, t, serves)[k]])
    ensures forall j, k :: 0 <= j < k < |Places(tb, t, serves)| ==> Places(tb, t, serves)[j] < Places(tb, t, serves)[k]
    ensures forall i :: 0 <= i < |serves| && Retries(tb, t, serves[i]) ==> i in Places(tb, t, serves)
  {
    if serves != [] {
      PlacesAreAll(tb, t, serves[..|serves| - 1]);
    }
  }

  function RetryTarget(entry: ModelEntry, s: Serving): Target {
    Target(s.provider, s.model, Style(entry.style, s.style, ""))
  }

  lemma ServeAllGrows(tb: Tables, entry: ModelEntry, serves: seq<Serving>, last: Serving)
    ensures ServeAll(tb, entry, serves + [last], "") == ServeAll(tb, entry, serves, "") + Serve(tb, entry, last, "")
  {
    assert (serves + [last])[..|serves|] == serves;
  }

  // Each target is the entry at its place.
  ghost predicate TargetsAt(entry: ModelEntry, out: seq<Target>, places: seq<nat>, serves: seq<Serving>) {
    && |out| == |places|
    && forall k :: 0 <= k < |out| ==> places[k] < |serves| && out[k] == RetryTarget(entry, serves[places[k]])
  }

  lemma TargetsAtGrow(entry: ModelEntry, out: seq<Target>, places: seq<nat>, front: seq<Serving>, last: Serving)
    requires TargetsAt(entry, out, places, front)
    ensures TargetsAt(entry, out, places, front + [last])
    ensures TargetsAt(entry, out + [RetryTarget(entry, last)], places + [|front|], front + [last])
  {
  }

  lemma NothingMore<T>(a: seq<T>)
    ensures a + [] == a
  {
  }

  lemma {:induction false} ServedAtPlaces(tb: Tables, t: Target, entry: ModelEntry, serves: seq<Serving>)
    ensures TargetsAt(entry, ServeAll(tb, entry, OtherServes(serves, t.provider), ""), Places(tb, t, serves), serves)
  {
    if serves != [] {
      var front, last := serves[..|serves| - 1], serves[|serves| - 1];
      var others := OtherServes(front, t.provider);
      ServedAtPlaces(tb, t, entry, front);
      ServeAllGrows(tb, entry, others, last);
      NothingMore(ServeAll(tb, entry, others, ""));
      TargetsAtGrow(entry, ServeAll(tb, entry, others, ""), Places(tb, t, front), front, last);
      assert serves == front + [last];
    }
  }

  // A pinned request that fails over stays on the model the caller asked for:
  // its retries are that model's other live coordinates, each once and in the
  // order of the registry.
  lemma SiblingsServeTheSameModel(tb: Tables, t: Target, places: seq<nat>)
    requires (t.provider, t.model) in tb.logicalOf && tb.logicalOf[(t.provider, t.model)] in tb.registry
    requires places == Places(tb, t, tb.registry[tb.logicalOf[(t.provider, t.model)]].serves)
    ensures var entry := tb.registry[tb.logicalOf[(t.provider, t.model)]];
      && |Siblings(tb, t)| == |places|
      && (forall j, k :: 0 <= j < k < |places| ==> places[j] < places[k])
      && (forall i :: 0 <= i < |entry.serves| ==> (i in places <==> Retries(tb, t, entry.serves[i])))
      && (forall k :: 0 <= k < |places| ==>
        places[k] < |entry.serves| && Siblings(tb, t)[k] == RetryTarget(entry, entry.serves[places[k]]))
  {
    var entry := tb.registry[tb.logicalOf[(t.provider, t.model)]];
    PlacesAreAll(tb, t, entry.serves);
    ServedAtPlaces(tb, t, entry, entry.serves);
  }

  lemma FlattenOneMore(tb: Tables, who: Caller, targets: seq<Target>, i: nat)
    requires i < |targets|
    ensures Flatten(tb, who, targets[..i + 1]) == Flatten(tb, who, targets[..i]) + AttemptsFor(tb, who, targets[i])
  {
    var f := Credentials(tb, who);
    assert Each(f, targets[..i + 1])[..i] == Each(f, targets[..i]);
  }

  class Router {
    var drained: map<string, int>

    constructor ()
      ensures drained == map[]
    {
      drained := map[];
    }

    method OutOfCreditNow(provider: string, now: int) returns (yes: bool)
      modifies this
      ensures yes <==> Drained(old(drained), provider, now)
      ensures SameMarks(old(drained), drained, now)
    {
      if provider !in drained {
        return false;
      }
      if now - drained[provider] >= CREDIT_COOLDOWN {
        drained := drained - {provider};
        return false;
      }
      return true;
    }

    method MoveDrainedLast(rungs: seq<Attempt>, now: int) returns (out: seq<Attempt>)
      modifies this
      ensures out == CreditLast(rungs, old(drained), now)
      ensures SameMarks(old(drained), drained, now)
    {
      var funded, last: seq<Attempt> := [], [];
      for i := 0 to |rungs|
        invariant SameMarks(old(drained), drained, now)
        invariant funded == Routing.Keep(rungs[..i], old(drained), now, false)
        invariant last == Routing.Keep(rungs[..i], old(drained), now, true)
        invariant last == [] ==> funded == rungs[..i]
      {
        assert rungs[..i + 1][..i] == rungs[..i];
        var a := rungs[i];
        var back := false;
        if !a.caller && a.adapter.Some? {
          back := OutOfCreditNow(a.target.provider, now);
        }
        if back {
          last := last + [a];
        } else {
          funded := funded + [a];
        }
      }
      assert rungs[..|rungs|] == rungs;
      if |last| == 0 {
        return rungs;
      }
      return funded + last;
    }

    // The rungs actually to be tried, in order.
    method AttemptsOf(tb: Tables, who: Caller, targets: seq<Target>, now: int) returns (out: seq<Attempt>)
      modifies this
      ensures out == Attempts(tb, who, targets, old(drained), now)
      ensures forall a :: a in out ==> KeyRules.Allowed(tb, who, a)
      ensures SameMarks(old(drained), drained, now)
    {
      KeyRules.OnlyAllowedKeys(tb, who, targets, drained, now);
      var rungs: seq<Attempt> := [];
      for i := 0 to |targets|
        invariant rungs == Flatten(tb, who, targets[..i])
        invariant drained == old(drained)
      {
        FlattenOneMore(tb, who, targets, i);
        rungs := rungs + AttemptsFor(tb, who, targets[i]);
      }
      assert targets[..|targets|] == targets;
      out := MoveDrainedLast(rungs, now);
    }

    method Failed(a: Attempt, message: string, now: int)
      modifies this
      ensures drained == Mark(old(drained), a, message, now)
    {
      if a.caller || !OutOfCredit(message) {
        return;
      }
      drained := drained[a.target.provider := now];
    }

    method Served(a: Attempt)
      modifies this
      ensures drained == Unmark(old(drained), a)
    {
      if a.caller {
        return;
      }
      drained := drained - {a.target.provider};
    }

    // One attempt at a plain call.
    method Try(a: Attempt, now: int, reply: Attempt -> Reply) returns (failure: Option<Failure>)
      modifies this
      ensures failure.None? <==> Answers(a, reply)
      ensures failure.Some? ==> failure.value == ChatFailure(a, reply)
      ensures drained == MarkOne(old(drained), a, ChatEffects(reply), now)
    {
      if a.adapter.None? {
        return Some(Failure(a, Unavailable(a.reason)));
      }
      match reply(a) {
        case Refusal(message) =>
          Failed(a, message, now);
          return Some(Failure(a, Refused(message)));
        case Answer(_, _) =>
          Served(a);
          return None;
      }
    }

    // Tries each attempt in turn and returns the first answer. Every attempt
    // before it is accounted for, and the marks are what those attempts left.
    method TryAll(rungs: seq<Attempt>, now: int, reply: Attempt -> Reply, ghost before: map<string, int>)
      returns (r: ChatResult)
      requires SameMarks(before, drained, now)
      modifies this
      ensures !r.UnknownName?
      ensures r.Answered? ==>
        && FirstAnswer(rungs, r, reply)
        && SameMarks(drained, MarksAfter(before, rungs[..r.rung + 1], ChatEffects(reply), now), now)
        && (!rungs[r.rung].caller ==> !Drained(drained, rungs[r.rung].target.provider, now))
      ensures r.AllFailed? ==>
        && NoAnswer(rungs, r.failures, reply)
        && SameMarks(drained, MarksAfter(before, rungs, ChatEffects(reply), now), now)
    {
      var failures := [];
      for i := 0 to |rungs|
        invariant NoAnswer(rungs[..i], failures, reply)
        invariant SameMarks(drained, MarksAfter(before, rungs[..i], ChatEffects(reply), now), now)
      {
        SameMarksStep(before, drained, rungs, i, ChatEffects(reply), now);
        assert rungs[..i + 1] == rungs[..i] + [rungs[i]];
        var failure := Try(rungs[i], now, reply);
        if failure.None? {
          assert forall k :: 0 <= k < i ==> rungs[..i][k] == rungs[k];
          return Answered(i, reply(rungs[i]).content, reply(rungs[i]).tokens);
        }
        failures := failures + [failure.value];
      }
      assert rungs[..|rungs|] == rungs;
      return AllFailed(failures);
    }

    method Chat(tb: Tables, who: Caller, targets: seq<Target>, now: int, reply: Attempt -> Reply)
      returns (r: ChatResult)
      modifies this
      ensures ChatMeans(tb, who, targets, old(drained), now, reply, r)
      ensures r.Answered? ==>
        var rungs := Attempts(tb, who, targets, old(drained), now);
        && SameMarks(drained, MarksAfter(old(drained), rungs[..r.rung + 1], ChatEffects(reply), now), now)
        && (!rungs[r.rung].caller ==> !Drained(drained, rungs[r.rung].target.provider, now))
      ensures r.AllFailed? ==>
        var rungs := Attempts(tb, who, targets, old(drained), now);
        SameMarks(drained, MarksAfter(old(drained), rungs, ChatEffects(reply), now), now)
    {
      if |targets| == 0 {
        return UnknownName;
      }
      var rungs := AttemptsOf(tb, who, targets, now);
      r := TryAll(rungs, now, reply, old(drained));
    }

    // One attempt at a stream: what reaches the client, and why it failed if
    // it did. An attempt that failed having said something commits the request.
    method TryStream(a: Attempt, rung: nat, now: int, upstream: Attempt -> Stream, wantsTools: bool)
      returns (wire: seq<Received>, failure: Option<Cause>)
      modifies this
      ensures wire == From(rung, if Streams(a) then Delivered(upstream(a).emits, wantsTools) else [])
      ensures failure == StreamFailure(a, upstream, wantsTools)
      ensures drained == MarkOne(old(drained), a, StreamEffects(upstream, wantsTools), now)
    {
      wire := [];
      if a.adapter.None? {
        return [], Some(Unavailable(a.reason));
      }
      if !a.adapter.value.streams {
        return [], Some(NoStreaming);
      }
      var emits := upstream(a).emits;
      var started := false;
      for j := 0 to |emits|
        invariant wire == From(rung, Delivered(emits[..j], wantsTools))
        invariant started <==> wire != []
      {
        assert emits[..j + 1][..j] == emits[..j];
        if emits[j].TextDelta? || wantsTools {
          started := true;
          wire := wire + [Received(rung, emits[j])];
        }
      }
      assert emits[..|emits|] == emits;
      match upstream(a).err {
        case Some(message) =>
          Failed(a, message, now);
          failure := Some(Refused(message));
        case None =>
          if started {
            Served(a);
            failure := None;
          } else {
            failure := Some(NoContent);
          }
      }
    }

    // Streams the first attempt that says anything. Once it has, the request
    // is committed to it: the client never hears from another.
    method StreamAll(rungs: seq<Attempt>, now: int, upstream: Attempt -> Stream, wantsTools: bool,
                     ghost before: map<string, int>)
      returns (r: StreamResult, wire: seq<Received>)
      requires SameMarks(before, drained, now)
      modifies this
      ensures StreamOutcome(rungs, upstream, wantsTools, r, wire)
      ensures var reached := Reached(rungs, upstream, wantsTools);
        SameMarks(drained, MarksAfter(before, reached, StreamEffects(upstream, wantsTools), now), now)
    {
      var failures := [];
      wire := [];
      for i := 0 to |rungs|
        invariant wire == []
        invariant Silent(rungs[..i], failures, upstream, wantsTools)
        invariant SameMarks(drained, MarksAfter(before, rungs[..i], StreamEffects(upstream, wantsTools), now), now)
      {
        SameMarksStep(before, drained, rungs, i, StreamEffects(upstream, wantsTools), now);
        assert rungs[..i + 1] == rungs[..i] + [rungs[i]];
        var sent, failure := TryStream(rungs[i], i, now, upstream, wantsTools);
        wire := wire + sent;
        if sent != [] {
          SpokenAt(rungs, i, failures, upstream, wantsTools);
          if failure.Some? {
            return BrokenOff(i, failure.value.message), wire;
          }
          return Streamed(i), wire;
        }
        failures := failures + [Failure(rungs[i], failure.value)];
        SilentGrows(rungs, i, failures, upstream, wantsTools);
      }
      assert rungs[..|rungs|] == rungs;
      return NothingStreamed(failures), wire;
    }

    method ChatStream(tb: Tables, who: Caller, targets: seq<Target>, now: int, upstream: Attempt -> Stream,
                      wantsTools: bool)
      returns (r: StreamResult, wire: seq<Received>)
      modifies this
      ensures StreamMeans(tb, who, targets, old(drained), now, upstream, wantsTools, r, wire)
      ensures targets != [] ==>
        var rungs := Attempts(tb, who, targets, old(drained), now);
        var reached := Reached(rungs, upstream, wantsTools);
        SameMarks(drained, MarksAfter(old(drained), reached, StreamEffects(upstream, wantsTools), now), now)
    {
      if |targets| == 0 {
        return UnknownStream, [];
      }
      var rungs := AttemptsOf(tb, who, targets, now);
      r, wire := StreamAll(rungs, now, upstream, wantsTools, old(drained));
    }
  }

  // The attempts a stream gets to: up to the first that says anything.
  function Reached(rungs: seq<Attempt>, upstream: Attempt -> Stream, wantsTools: bool): seq<Attempt> {
    var i := FirstSpeaker(rungs, upstream, wantsTools);
    if i < |rungs| then rungs[..i + 1] else rungs
  }

  function StreamFailure(a: Attempt, upstream: Attempt -> Stream, wantsTools: bool): Option<Cause> {
    if a.adapter.None? then Some(Unavailable(a.reason))
    else if !a.adapter.value.streams then Some(NoStreaming)
    else match upstream(a).err
      case Some(message) => Some(Refused(message))
      case None => if Delivered(upstream(a).emits, wantsTools) == [] then Some(NoContent) else None
  }

  // Nothing reached the client, and every attempt says why, in order.
  predicate Silent(rungs: seq<Attempt>, failures: seq<Failure>, upstream: Attempt -> Stream, wantsTools: bool) {
    |failures| == |rungs|
    && forall k :: 0 <= k < |rungs| ==>
      !Speaks(rungs[k], upstream, wantsTools)
      && StreamFailure(rungs[k], upstream, wantsTools) == Some(failures[k].cause) && failures[k].attempt == rungs[k]
  }

  // After a silent start, the rung that speaks is the first to.
  lemma SpokenAt(rungs: seq<Attempt>, i: nat, failures: seq<Failure>, upstream: Attempt -> Stream, wantsTools: bool)
    requires i < |rungs| && Silent(rungs[..i], failures, upstream, wantsTools) && Speaks(rungs[i], upstream, wantsTools)
    ensures FirstSpeaker(rungs, upstream, wantsTools) == i && Reached(rungs, upstream, wantsTools) == rungs[..i + 1]
  {
    assert forall k :: 0 <= k < i ==> rungs[..i][k] == rungs[k];
  }

  lemma SilentGrows(rungs: seq<Attempt>, i: nat, failures: seq<Failure>, upstream: Attempt -> Stream, wantsTools: bool)
    requires i < |rungs| && |failures| == i + 1 && Silent(rungs[..i], failures[..i], upstream, wantsTools)
    requires !Speaks(rungs[i], upstream, wantsTools) && failures[i].attempt == rungs[i]
    requires StreamFailure(rungs[i], upstream, wantsTools) == Some(failures[i].cause)
    ensures Silent(rungs[..i + 1], failures, upstream, wantsTools)
  {
    forall k | 0 <= k < i
      ensures !Speaks(rungs[k], upstream, wantsTools) && failures[k].attempt == rungs[k]
      ensures StreamFailure(rungs[k], upstream, wantsTools) == Some(failures[k].cause)
    {
      assert rungs[..i][k] == rungs[k] && failures[..i][k] == failures[k];
    }
  }

  // What a stream comes to: everything the client gets is everything one
  // attempt says, that attempt is the first that says anything, and success
  // means it ended cleanly.
  predicate StreamOutcome(rungs: seq<Attempt>, upstream: Attempt -> Stream, wantsTools: bool, r: StreamResult,
                          wire: seq<Received>)
  {
    var i := FirstSpeaker(rungs, upstream, wantsTools);
    if i == |rungs| then r.NothingStreamed? && wire == [] && Silent(rungs, r.failures, upstream, wantsTools)
    else
      wire == From(i, Delivered(upstream(rungs[i]).emits, wantsTools)) && wire != []
      && r == match upstream(rungs[i]).err
              case None => Streamed(i)
              case Some(message) => BrokenOff(i, message)
  }

  // What a streamed request for these targets comes to.
  predicate StreamMeans(tb: Tables, who: Caller, targets: seq<Target>, marks: map<string, int>, now: int,
                        upstream: Attempt -> Stream, wantsTools: bool, r: StreamResult, wire: seq<Received>)
  {
    if targets == [] then r == UnknownStream && wire == []
    else StreamOutcome(Attempts(tb, who, targets, marks, now), upstream, wantsTools, r, wire)
  }

  function ChatFailure(a: Attempt, reply: Attempt -> Reply): Failure {
    if a.adapter.None? then Failure(a, Unavailable(a.reason))
    else match reply(a)
      case Refusal(message) => Failure(a, Refused(message))
      case Answer(content, _) => Failure(a, NoContent)
  }

  function From(rung: nat, deltas: seq<Delta>): seq<Received> {
    seq(|deltas|, i requires 0 <= i < |deltas| => Received(rung, deltas[i]))
  }

  // The first attempt that answers, and what it said.
  predicate FirstAnswer(rungs: seq<Attempt>, r: ChatResult, reply: Attempt -> Reply)
    requires r.Answered?
  {
    r.rung < |rungs| && Answers(rungs[r.rung], reply) && reply(rungs[r.rung]) == Answer(r.content, r.tokens)
    && forall k :: 0 <= k < r.rung ==> !Answers(rungs[k], reply)
  }

  // Nothing answered, and every attempt says why, in order.
  predicate NoAnswer(rungs: seq<Attempt>, failures: seq<Failure>, reply: Attempt -> Reply) {
    |failures| == |rungs|
    && forall k :: 0 <= k < |rungs| ==> !Answers(rungs[k], reply) && failures[k] == ChatFailure(rungs[k], reply)
  }

  // What a call comes to: the first answer, or a reason from everyone.
  predicate ChatMeans(tb: Tables, who: Caller, targets: seq<Target>, marks: map<string, int>, now: int,
                      reply: Attempt -> Reply, r: ChatResult) {
    var rungs := Attempts(tb, who, targets, marks, now);
    match r
    case UnknownName => targets == []
    case Answered(_, _, _) => targets != [] && FirstAnswer(rungs, r, reply)
    case AllFailed(failures) => targets != [] && NoAnswer(rungs, failures, reply)
  }

  lemma AnsweredIffServed(tb: Tables, who: Caller, targets: seq<Target>, marks: map<string, int>, now: int,
                          reply: Attempt -> Reply, r: ChatResult)
    requires ChatMeans(tb, who, targets, marks, now, reply, r) && targets != []
    ensures r.Answered? <==> RoutingOrder.Served(Attempts(tb, who, targets, marks, now), reply)
  {
  }

  // A call by name, as it came out under the admin's choice and the marks, and
  // as it would have come out without either: answered, failed everywhere or
  // unknown, it is the same kind of result.
  lemma ChatEndsAlike(tb: Tables, who: Caller, name: string, split: Option<(string, string)>, chosen: string,
                      marks: map<string, int>, now: int, reply: Attempt -> Reply, r: ChatResult, plain: ChatResult)
    requires ChatMeans(tb, who, Resolve(tb, name, split, chosen), marks, now, reply, r)
    requires ChatMeans(tb, who, Resolve(tb, name, split, ""), map[], now, reply, plain)
    ensures r.Answered? <==> plain.Answered?
    ensures r.UnknownName? <==> plain.UnknownName?
    ensures r.AllFailed? <==> plain.AllFailed?
  {
    var x, y := Resolve(tb, name, split, chosen), Resolve(tb, name, split, "");
    OrderIsAllThatChanges(tb, who, name, split, chosen, marks, now);
    if x != [] {
      AnsweredIffServed(tb, who, x, marks, now, reply, r);
      AnsweredIffServed(tb, who, y, map[], now, reply, plain);
      ReorderingNeverLosesACall(tb, who, name, split, chosen, marks, now, reply);
    }
  }

  lemma NoAttempts(tb: Tables, who: Caller, marks: map<string, int>, now: int)
    ensures Attempts(tb, who, [], marks, now) == []
  {
    assert Each(Credentials(tb, who), []) == [];
  }

  // A stream ends well exactly when its chain is one that serves streams.
  lemma StreamedIffServed(tb: Tables, who: Caller, targets: seq<Target>, marks: map<string, int>, now: int,
                          upstream: Attempt -> Stream, wantsTools: bool, r: StreamResult, wire: seq<Received>)
    requires StreamMeans(tb, who, targets, marks, now, upstream, wantsTools, r, wire)
    ensures r.Streamed? <==> StreamServed(Attempts(tb, who, targets, marks, now), upstream, wantsTools)
  {
    if targets == [] {
      NoAttempts(tb, who, marks, now);
    }
  }

  // A stream by name, as it came out under the admin's choice and as it would
  // have come out without it, the marks being the same: one is delivered whole
  // and the other not exactly when the choice decides.
  lemma StreamChoiceIff(tb: Tables, who: Caller, name: string, split: Option<(string, string)>, chosen: string,
                        marks: map<string, int>, now: int, upstream: Attempt -> Stream, wantsTools: bool,
                        r: StreamResult, wire: seq<Received>, plain: StreamResult, plainWire: seq<Received>)
    requires StreamMeans(tb, who, Resolve(tb, name, split, chosen), marks, now, upstream, wantsTools, r, wire)
    requires StreamMeans(tb, who, Resolve(tb, name, split, ""), marks, now, upstream, wantsTools, plain, plainWire)
    ensures (r.Streamed? <==> plain.Streamed?)
      <==> !ChoiceDecides(tb, who, ChainOf(tb, name), chosen, upstream, wantsTools, marks, now)
  {
    StreamedIffServed(tb, who, Resolve(tb, name, split, chosen), marks, now, upstream, wantsTools, r, wire);
    StreamedIffServed(tb, who, Resolve(tb, name, split, ""), marks, now, upstream, wantsTools, plain, plainWire);
    ChoiceMattersIff(tb, who, name, split, chosen, upstream, wantsTools, marks, now);
  }

  // The same for the marks, against a router that has none.
  lemma StreamMarksIff(tb: Tables, who: Caller, targets: seq<Target>, marks: map<string, int>, now: int,
                       upstream: Attempt -> Stream, wantsTools: bool,
                       r: StreamResult, wire: seq<Received>, plain: StreamResult, plainWire: seq<Received>)
    requires StreamMeans(tb, who, targets, marks, now, upstream, wantsTools, r, wire)
    requires StreamMeans(tb, who, targets, map[], now, upstream, wantsTools, plain, plainWire)
    ensures (r.Streamed? <==> plain.Streamed?)
      <==> !MarksDecide(Flatten(tb, who, targets), upstream, wantsTools, marks, now)
  {
    StreamedIffServed(tb, who, targets, marks, now, upstream, wantsTools, r, wire);
    StreamedIffServed(tb, who, targets, map[], now, upstream, wantsTools, plain, plainWire);
    MarksMatterIff(Flatten(tb, who, targets), upstream, wantsTools, marks, now);
    MarksMatterIff(Flatten(tb, who, targets), upstream, wantsTools, map[], now);
  }
}

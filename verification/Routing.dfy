// How a request becomes an ordered chain of attempts: the admin's choice of
// first rung, the registry's expansion, the credential expansion, and the
// out-of-credit marks.

module Routing {
  import opened Basics
  import opened Text

  datatype Target = Target(provider: string, model: string, style: string)

  datatype Serving = Serving(provider: string, model: string, style: string)

  datatype ModelEntry = ModelEntry(style: string, serves: seq<Serving>)

  datatype Adapter = Adapter(id: int, streams: bool)

  datatype Mode = Global | Own | OwnFirst | GlobalFirst | Unrecognised(text: string)

  datatype CallerKeys = CallerKeys(keys: map<string, seq<string>>, mode: Mode)

  datatype Label = Gateway | YourKey | YourKeyNo(n: nat)

  datatype Reason = NotAvailable | NeedsApproval | NoKeyOfYours | EmptyKey | KeysNotAccepted | UnknownProvider

  datatype Attempt = Attempt(target: Target, adapter: Option<Adapter>, shown: Label, caller: bool, reason: Reason)

  // The tables a router is built with; they do not change while it serves.
  datatype Tables = Tables(
    adapters: map<string, Adapter>,
    models: map<string, seq<Target>>,
    decisions: map<string, seq<Target>>,
    registry: map<string, ModelEntry>,
    logicalOf: map<(string, string), string>,
    passthrough: set<string>,
    acceptsKeys: bool,
    ownAdapter: (string, string) -> Option<Adapter>)

  // What one request carries: its credentials, and the providers whose gateway
  // key it may not spend.
  datatype Caller = Caller(creds: CallerKeys, denied: set<string>)

  // ----- the admin's choice (settings.go) -----

  function RungKey(t: Target): string {
    if t.provider == "" then t.model else t.provider + "/" + t.model
  }

  function FirstKeyed(chain: seq<Target>, key: string): (i: nat)
    ensures i <= |chain|
    ensures i < |chain| ==> RungKey(chain[i]) == key
    ensures forall k :: 0 <= k < i ==> RungKey(chain[k]) != key
  {
    if chain == [] then 0
    else if RungKey(chain[0]) == key then 0
    else 1 + FirstKeyed(chain[1..], key)
  }

  function Rungs(chain: seq<Target>, chosen: string): seq<Target> {
    var i := FirstKeyed(chain, chosen);
    if chosen == "" || i == |chain| then chain else [chain[i]] + chain[..i] + chain[i + 1..]
  }

  // ----- the registry (router.go) -----

  function Style(a: string, b: string, c: string): string {
    if c != "" then c else if b != "" then b else a
  }

  function Serve(tb: Tables, entry: ModelEntry, s: Serving, own: string): seq<Target> {
    if s.provider in tb.adapters then [Target(s.provider, s.model, Style(entry.style, s.style, own))] else []
  }

  function ServeAll(tb: Tables, entry: ModelEntry, serves: seq<Serving>, own: string): seq<Target> {
    if serves == [] then []
    else ServeAll(tb, entry, serves[..|serves| - 1], own) + Serve(tb, entry, serves[|serves| - 1], own)
  }

  function Expand(tb: Tables, t: Target): seq<Target> {
    if t.provider != "" then [t]
    else if t.model !in tb.registry then []
    else ServeAll(tb, tb.registry[t.model], tb.registry[t.model].serves, t.style)
  }

  function OtherServes(serves: seq<Serving>, provider: string): seq<Serving> {
    if serves == [] then []
    else
      var front := OtherServes(serves[..|serves| - 1], provider);
      if serves[|serves| - 1].provider == provider then front else front + [serves[|serves| - 1]]
  }

  function Siblings(tb: Tables, t: Target): seq<Target> {
    if (t.provider, t.model) !in tb.logicalOf || tb.logicalOf[(t.provider, t.model)] !in tb.registry then []
    else
      var entry := tb.registry[tb.logicalOf[(t.provider, t.model)]];
      ServeAll(tb, entry, OtherServes(entry.serves, t.provider), "")
  }

  // ----- credentials (credentials.go) -----

  function Normalize(c: CallerKeys): CallerKeys {
    if !c.mode.Unrecognised? then c
    else if c.keys != map[] then c.(mode := OwnFirst)
    else c.(mode := Global)
  }

  function KeysFor(c: CallerKeys, provider: string): seq<string> {
    if Lower(provider) in c.keys then c.keys[Lower(provider)] else []
  }

  function GatewayRung(tb: Tables, who: Caller, t: Target): Attempt {
    if Lower(t.provider) in who.denied then Attempt(t, None, Gateway, false, NeedsApproval)
    else if t.provider in tb.adapters then Attempt(t, Some(tb.adapters[t.provider]), Gateway, false, NotAvailable)
    else Attempt(t, None, Gateway, false, NotAvailable)
  }

  function OwnRung(tb: Tables, t: Target, key: string, shown: Label): Attempt {
    if Trim(key) == "" then Attempt(t, None, shown, true, EmptyKey)
    else if !tb.acceptsKeys then Attempt(t, None, shown, true, KeysNotAccepted)
    else
      var a := tb.ownAdapter(t.provider, key);
      Attempt(t, a, shown, true, if a.Some? then NotAvailable else UnknownProvider)
  }

  function OwnRungs(tb: Tables, t: Target, keys: seq<string>): seq<Attempt> {
    if |keys| == 0 then [Attempt(t, None, YourKey, true, NoKeyOfYours)]
    else seq(|keys|, i requires 0 <= i < |keys| =>
           OwnRung(tb, t, keys[i], if |keys| > 1 then YourKeyNo(i + 1) else YourKey))
  }

  function AttemptsFor(tb: Tables, who: Caller, t: Target): seq<Attempt> {
    var creds := Normalize(who.creds);
    var keys := KeysFor(creds, t.provider);
    var own := OwnRungs(tb, t, keys);
    var gateway := [GatewayRung(tb, who, t)];
    match creds.mode
    case Own => own
    case OwnFirst => (if |keys| > 0 then own else []) + gateway
    case GlobalFirst => gateway + if |keys| > 0 then own else []
    case _ => gateway
  }

  function Join<T>(parts: seq<seq<T>>): seq<T> {
    if parts == [] then [] else Join(parts[..|parts| - 1]) + parts[|parts| - 1]
  }

  function Each<S, T>(f: S -> seq<T>, s: seq<S>): seq<seq<T>> {
    seq(|s|, i requires 0 <= i < |s| => f(s[i]))
  }

  function Credentials(tb: Tables, who: Caller): Target -> seq<Attempt> {
    (t: Target) => AttemptsFor(tb, who, t)
  }

  // Every attempt a chain of targets stands for, in order, before the marks.
  function Flatten(tb: Tables, who: Caller, targets: seq<Target>): seq<Attempt> {
    Join(Each(Credentials(tb, who), targets))
  }

  function Expansion(tb: Tables): Target -> seq<Target> {
    (t: Target) => Expand(tb, t)
  }

  function ExpandAll(tb: Tables, chain: seq<Target>): seq<Target> {
    Join(Each(Expansion(tb), chain))
  }

  // ----- the names a caller may ask for (router.go) -----

  // The chain behind a public model name, given the admin's choice for it;
  // empty when the name resolves to nothing. `split` is the name cut at its
  // first slash, when it has one.
  function Resolve(tb: Tables, name: string, split: Option<(string, string)>, chosen: string): seq<Target> {
    if name in tb.models then ExpandAll(tb, Rungs(tb.models[name], chosen))
    else if name in tb.decisions then ExpandAll(tb, Rungs(tb.decisions[name], chosen))
    else if split.Some? && Passes(tb, split.value) then
      var t := Pinned(tb, split.value);
      [t] + Siblings(tb, t)
    else Expand(tb, Target("", name, ""))
  }

  predicate Passes(tb: Tables, s: (string, string)) {
    s.0 != "" && s.1 != "" && s.0 in tb.passthrough && s.0 in tb.adapters
  }

  function Pinned(tb: Tables, s: (string, string)): Target {
    if s in tb.logicalOf && tb.logicalOf[s] in tb.registry
    then Target(s.0, s.1, tb.registry[tb.logicalOf[s]].style)
    else Target(s.0, s.1, "")
  }

  // ----- out of credit (credit.go) -----

  const CREDIT_COOLDOWN: int := 600

  predicate Drained(marks: map<string, int>, provider: string, now: int) {
    provider in marks && now - marks[provider] < CREDIT_COOLDOWN
  }

  // The rungs that go to the back: the gateway's key, usable, out of credit.
  predicate GoesLast(a: Attempt, marks: map<string, int>, now: int) {
    !a.caller && a.adapter.Some? && Drained(marks, a.target.provider, now)
  }

  function Keep(rungs: seq<Attempt>, marks: map<string, int>, now: int, last: bool): seq<Attempt> {
    if rungs == [] then []
    else
      var front := Keep(rungs[..|rungs| - 1], marks, now, last);
      if GoesLast(rungs[|rungs| - 1], marks, now) == last then front + [rungs[|rungs| - 1]] else front
  }

  function CreditLast(rungs: seq<Attempt>, marks: map<string, int>, now: int): seq<Attempt> {
    Keep(rungs, marks, now, false) + Keep(rungs, marks, now, true)
  }

  function Attempts(tb: Tables, who: Caller, targets: seq<Target>, marks: map<string, int>, now: int): seq<Attempt> {
    CreditLast(Flatten(tb, who, targets), marks, now)
  }

  // ----- upstreams, as oracles -----

  datatype Reply = Answer(content: string, tokens: nat) | Refusal(message: string)

  datatype Delta = TextDelta(text: string) | ToolDelta(raw: string)

  // Everything one rung sends down a stream, then how the stream ends.
  datatype Stream = Stream(emits: seq<Delta>, err: Option<string>)

  // What reaches the client: tool deltas only when the caller asked for them.
  function Delivered(emits: seq<Delta>, wantsTools: bool): seq<Delta> {
    if emits == [] then []
    else
      var front := Delivered(emits[..|emits| - 1], wantsTools);
      if emits[|emits| - 1].TextDelta? || wantsTools then front + [emits[|emits| - 1]] else front
  }

  predicate Answers(a: Attempt, reply: Attempt -> Reply) {
    a.adapter.Some? && reply(a).Answer?
  }

  predicate Streams(a: Attempt) {
    a.adapter.Some? && a.adapter.value.streams
  }

  // A rung whose stream puts something in front of the client.
  predicate Speaks(a: Attempt, upstream: Attempt -> Stream, wantsTools: bool) {
    Streams(a) && Delivered(upstream(a).emits, wantsTools) != []
  }

  predicate SpeaksCleanly(a: Attempt, upstream: Attempt -> Stream, wantsTools: bool) {
    Speaks(a, upstream, wantsTools) && upstream(a).err.None?
  }

  const CREDIT_SIGNALS: seq<string> := [
    "status 402", "payment required", "insufficient_quota", "credit_balance_exhausted",
    "no credits remaining", "insufficient credit", "insufficient balance", "insufficient funds",
    "credit balance is too low", "exceeded your current quota", "billing_hard_limit"]

  predicate Contains(text: string, part: string) {
    exists i :: 0 <= i <= |text| && part <= text[i..]
  }

  predicate OutOfCredit(message: string) {
    exists k :: 0 <= k < |CREDIT_SIGNALS| && Contains(Lower(message), CREDIT_SIGNALS[k])
  }

  // ----- the marks a request leaves -----

  function Mark(marks: map<string, int>, a: Attempt, message: string, now: int): map<string, int> {
    if a.caller || !OutOfCredit(message) then marks else marks[a.target.provider := now]
  }

  function Unmark(marks: map<string, int>, a: Attempt): map<string, int> {
    if a.caller then marks else marks - {a.target.provider}
  }

  // What an attempt says about the gateway's credit with its provider.
  datatype Effect = NoNews | Refusing(message: string) | Serving

  function ChatEffects(reply: Attempt -> Reply): Attempt -> Effect {
    (a: Attempt) =>
      if a.adapter.None? then NoNews
      else match reply(a)
        case Answer(_, _) => Effect.Serving
        case Refusal(message) => Refusing(message)
  }

  // A stream that ends cleanly having said nothing is a failure, but not one
  // that says anything about money.
  function StreamEffects(upstream: Attempt -> Stream, wantsTools: bool): Attempt -> Effect {
    (a: Attempt) =>
      if !Streams(a) then NoNews
      else match upstream(a).err
        case Some(message) => Refusing(message)
        case None => if Speaks(a, upstream, wantsTools) then Effect.Serving else NoNews
  }

  // The marks one attempt leaves.
  function MarkOne(marks: map<string, int>, a: Attempt, effects: Attempt -> Effect, now: int): map<string, int> {
    match effects(a)
    case NoNews => marks
    case Serving => Unmark(marks, a)
    case Refusing(message) => Mark(marks, a, message, now)
  }

  // The marks after these attempts were tried in turn.
  function MarksAfter(marks: map<string, int>, tried: seq<Attempt>, effects: Attempt -> Effect,
                      now: int): map<string, int>
  {
    if tried == [] then marks
    else MarkOne(MarksAfter(marks, tried[..|tried| - 1], effects, now), tried[|tried| - 1], effects, now)
  }

  // Marks that put the same providers last from now on.
  ghost predicate SameMarks(a: map<string, int>, b: map<string, int>, now: int) {
    forall p: string :: Drained(a, p, now) <==> Drained(b, p, now)
  }

  lemma SameMarksStep(a: map<string, int>, b: map<string, int>, rungs: seq<Attempt>, i: nat,
                      effects: Attempt -> Effect, now: int)
    requires i < |rungs| && SameMarks(b, MarksAfter(a, rungs[..i], effects, now), now)
    ensures SameMarks(MarkOne(b, rungs[i], effects, now), MarksAfter(a, rungs[..i + 1], effects, now), now)
    ensures effects(rungs[i]).Serving? && !rungs[i].caller ==>
      !Drained(MarkOne(b, rungs[i], effects, now), rungs[i].target.provider, now)
  {
    assert rungs[..i + 1][..i] == rungs[..i];
    var m := MarksAfter(a, rungs[..i], effects, now);
    var x, y := MarkOne(b, rungs[i], effects, now), MarkOne(m, rungs[i], effects, now);
    forall p: string ensures Drained(x, p, now) <==> Drained(y, p, now) {
      assert Drained(b, p, now) <==> Drained(m, p, now);
    }
  }
}

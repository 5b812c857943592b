// The agent tool loop: call the model, run the tools it asks for, append the
// results, call again, and take the tools away once the budget is spent.

module ToolLoop {
  import opened Basics

  const DEFAULT_MAX_TOOL_STEPS: nat := 4

  datatype ToolCall = ToolCall(id: string, name: string, arguments: string)

  datatype Message = Plain(role: string, content: string)
    | AssistantCalls(content: string, calls: seq<ToolCall>)
    | ToolResult(id: string, answer: ToolAnswer)

  // What a tool call comes back with: the executor's text, or the note that
  // no such tool is declared.
  datatype ToolAnswer = Said(text: string) | UnknownTool(name: string)

  datatype Usage = Usage(prompt: int, completion: int, total: int, estimated: bool)

  datatype Reply = Reply(content: string, finish: string, calls: seq<ToolCall>, usage: Usage, provider: string,
                         model: string)
    | Broken(message: string)

  datatype Request = Request(messages: seq<Message>, tools: bool)

  // The agent's declared tools and step cap, the conversation it starts from,
  // and two oracles: the model's n-th reply, and what the i-th tool call of
  // round n comes back with.
  datatype Job = Job(
    maxToolSteps: int, tools: set<string>, base: seq<Message>,
    upstream: (nat, Request) -> Reply, execute: (nat, nat, ToolCall) -> string)

  datatype Outcome = Outcome(content: string, finish: string, provider: string, model: string, usage: Usage,
                             steps: nat, toolCalls: nat)

  function MaxSteps(maxToolSteps: int): nat {
    if maxToolSteps <= 0 then DEFAULT_MAX_TOOL_STEPS else maxToolSteps
  }

  // A tool that is not declared, or that fails, answers in the conversation.
  function ResultOf(job: Job, round: nat, i: nat, c: ToolCall): Message {
    ToolResult(c.id, if c.name in job.tools then Said(job.execute(round, i, c)) else UnknownTool(c.name))
  }

  function Results(job: Job, round: nat, calls: seq<ToolCall>): seq<Message> {
    seq(|calls|, i requires 0 <= i < |calls| => ResultOf(job, round, i, calls[i]))
  }

  // What one reply adds to the conversation.
  function Block(job: Job, round: nat, r: Reply): seq<Message> {
    if r.Broken? then [] else [AssistantCalls(r.content, r.calls)] + Results(job, round, r.calls)
  }

  // The reply to the n-th call, made with these messages: the tools go along
  // as long as the budget lasts.
  function Ask(job: Job, round: nat, messages: seq<Message>): Reply {
    job.upstream(round, Request(messages, round < MaxSteps(job.maxToolSteps)))
  }

  // The conversation the n-th call carries.
  function MessagesAt(job: Job, round: nat): seq<Message> {
    if round == 0 then job.base
    else
      var before := MessagesAt(job, round - 1);
      before + Block(job, round - 1, Ask(job, round - 1, before))
  }

  function RequestAt(job: Job, round: nat): Request {
    Request(MessagesAt(job, round), round < MaxSteps(job.maxToolSteps))
  }

  function ReplyAt(job: Job, round: nat): Reply {
    Ask(job, round, MessagesAt(job, round))
  }

  predicate GoesOn(job: Job, round: nat) {
    ReplyAt(job, round).Reply? && ReplyAt(job, round).calls != [] && round < MaxSteps(job.maxToolSteps)
  }

  const NO_USAGE: Usage := Usage(0, 0, 0, false)

  function AddUsage(a: Usage, b: Usage): Usage {
    Usage(a.prompt + b.prompt, a.completion + b.completion, a.total + b.total, a.estimated || b.estimated)
  }

  // The usage of the first n replies.
  function UsageOf(job: Job, n: nat): Usage {
    if n == 0 then NO_USAGE
    else if ReplyAt(job, n - 1).Broken? then UsageOf(job, n - 1)
    else AddUsage(UsageOf(job, n - 1), ReplyAt(job, n - 1).usage)
  }

  function CallsOf(job: Job, n: nat): nat {
    if n == 0 then 0
    else if ReplyAt(job, n - 1).Broken? then CallsOf(job, n - 1)
    else CallsOf(job, n - 1) + |ReplyAt(job, n - 1).calls|
  }

  // What holds before the call numbered last.
  ghost predicate Reached(job: Job, last: nat, messages: seq<Message>, outcome: Outcome) {
    && last <= MaxSteps(job.maxToolSteps)
    && (forall k :: 0 <= k < last ==> GoesOn(job, k))
    && messages == MessagesAt(job, last)
    && outcome.steps == last && outcome.usage == UsageOf(job, last) && outcome.toolCalls == CallsOf(job, last)
  }

  lemma ReachedNext(job: Job, last: nat, messages: seq<Message>, before: Outcome, after: Outcome)
    requires Reached(job, last, messages, before) && GoesOn(job, last)
    requires after.steps == last + 1 && after.usage == AddUsage(before.usage, ReplyAt(job, last).usage)
    requires after.toolCalls == before.toolCalls + |ReplyAt(job, last).calls|
    ensures Reached(job, last + 1, messages + Block(job, last, ReplyAt(job, last)), after)
  {
  }

  // One reply on the books.
  method Count(outcome: Outcome, reply: Reply) returns (out: Outcome)
    requires reply.Reply?
    ensures out == outcome.(steps := outcome.steps + 1, provider := reply.provider, model := reply.model,
                            usage := AddUsage(outcome.usage, reply.usage))
  {
    out := outcome.(steps := outcome.steps + 1, provider := reply.provider, model := reply.model,
                    usage := Usage(outcome.usage.prompt + reply.usage.prompt,
                                   outcome.usage.completion + reply.usage.completion,
                                   outcome.usage.total + reply.usage.total,
                                   outcome.usage.estimated));
    if reply.usage.estimated {
      out := out.(usage := out.usage.(estimated := true));
    }
  }

  // Runs the calls of one reply and answers each in the conversation.
  method RunCalls(job: Job, round: nat, reply: Reply, messages: seq<Message>, toolCalls: nat)
    returns (out: seq<Message>, made: nat)
    requires reply.Reply?
    ensures out == messages + Block(job, round, reply)
    ensures made == toolCalls + |reply.calls|
  {
    var block := [AssistantCalls(reply.content, reply.calls)];
    ghost var results := Results(job, round, reply.calls);
    made := toolCalls;
    for i := 0 to |reply.calls|
      invariant block == [AssistantCalls(reply.content, reply.calls)] + results[..i]
      invariant made == toolCalls + i
    {
      var call := reply.calls[i];
      made := made + 1;
      var content := UnknownTool(call.name);
      if call.name in job.tools {
        content := Said(job.execute(round, i, call));
      }
      block := block + [ToolResult(call.id, content)];
      assert results[..i + 1] == results[..i] + [ResultOf(job, round, i, call)];
    }
    assert results[..|reply.calls|] == results;
    out := messages + block;
  }

  // Runs the loop. `last` is the number of the last provider call made, so
  // last + 1 calls were made in all, at most one more than the step cap.
  method RunToolLoop(job: Job) returns (outcome: Outcome, err: Option<string>, messages: seq<Message>, last: nat)
    ensures last <= MaxSteps(job.maxToolSteps)
    ensures (forall k :: 0 <= k < last ==> GoesOn(job, k)) && !GoesOn(job, last)
    ensures messages == MessagesAt(job, last)
    ensures outcome.toolCalls == CallsOf(job, last)
    ensures err.Some? <==> ReplyAt(job, last).Broken?
    ensures err.Some? ==>
      outcome.steps == last && outcome.usage == UsageOf(job, last) && err.value == ReplyAt(job, last).message
    ensures err.None? ==>
      var r := ReplyAt(job, last);
      outcome == Outcome(r.content, r.finish, r.provider, r.model, UsageOf(job, last + 1), last + 1, CallsOf(job, last))
  {
    outcome := Outcome("", "", "", "", NO_USAGE, 0, 0);
    messages := job.base;
    last := 0;
    var tools := true;
    var steps := MaxSteps(job.maxToolSteps);
    while true
      invariant Reached(job, last, messages, outcome) && tools
      decreases steps - last
    {
      if last == steps {
        tools := false;
      }
      var reply := job.upstream(last, Request(messages, tools));
      assert reply == ReplyAt(job, last);
      if reply.Broken? {
        err := Some(reply.message);
        return;
      }
      ghost var before, sent := outcome, messages;
      outcome := Count(outcome, reply);
      if |reply.calls| == 0 || last >= steps {
        outcome := outcome.(content := reply.content, finish := reply.finish);
        err := None;
        return;
      }
      var calls;
      messages, calls := RunCalls(job, last, reply, messages, outcome.toolCalls);
      outcome := outcome.(toolCalls := calls);
      ReachedNext(job, last, sent, before, outcome);
      last := last + 1;
    }
  }

  // ----- the conversation stays well formed -----

  // One assistant message carrying calls, then exactly one result per call,
  // same ids, same order.
  predicate IsBlock(b: seq<Message>) {
    b != [] && b[0].AssistantCalls? && b[0].calls != [] && |b| == 1 + |b[0].calls|
    && forall j :: 0 <= j < |b[0].calls| ==> b[1 + j].ToolResult? && b[1 + j].id == b[0].calls[j].id
  }

  function Flat(blocks: seq<seq<Message>>): seq<Message> {
    if blocks == [] then [] else Flat(blocks[..|blocks| - 1]) + blocks[|blocks| - 1]
  }

  function BlockAt(job: Job, round: nat): seq<Message> {
    Block(job, round, ReplyAt(job, round))
  }

  function BlocksBefore(job: Job, round: nat): seq<seq<Message>> {
    if round == 0 then [] else BlocksBefore(job, round - 1) + [BlockAt(job, round - 1)]
  }

  lemma BlockIsBlock(job: Job, round: nat, r: Reply)
    requires r.Reply? && r.calls != []
    ensures IsBlock(Block(job, round, r))
  {
    forall j | 0 <= j < |r.calls| ensures Block(job, round, r)[1 + j] == ResultOf(job, round, j, r.calls[j]) {
    }
  }

  lemma FlatOneMore(blocks: seq<seq<Message>>, b: seq<Message>)
    ensures Flat(blocks + [b]) == Flat(blocks) + b
  {
    assert (blocks + [b])[..|blocks|] == blocks;
  }

  lemma OneRoundMore(job: Job, round: nat)
    ensures MessagesAt(job, round + 1) == MessagesAt(job, round) + BlockAt(job, round)
  {
  }

  lemma Regroup(base: seq<Message>, flat: seq<Message>, b: seq<Message>)
    ensures (base + flat) + b == base + (flat + b)
  {
  }

  lemma {:induction false} MessagesAreBlocks(job: Job, round: nat)
    ensures MessagesAt(job, round) == job.base + Flat(BlocksBefore(job, round))
  {
    if round == 0 {
      assert job.base + [] == job.base;
    } else {
      MessagesAreBlocks(job, round - 1);
      var blocks, b := BlocksBefore(job, round - 1), BlockAt(job, round - 1);
      FlatOneMore(blocks, b);
      OneRoundMore(job, round - 1);
      Regroup(job.base, Flat(blocks), b);
    }
  }

  lemma {:induction false} OneBlockEach(job: Job, round: nat)
    ensures |BlocksBefore(job, round)| == round
  {
    if round > 0 {
      OneBlockEach(job, round - 1);
    }
  }

  lemma {:induction false} BlockOfRound(job: Job, round: nat, k: nat)
    requires k < round
    ensures |BlocksBefore(job, round)| == round && BlocksBefore(job, round)[k] == BlockAt(job, k)
  {
    OneBlockEach(job, round - 1);
    if k < round - 1 {
      BlockOfRound(job, round - 1, k);
    }
  }

  // Whatever the model asks for, every request carries the caller's
  // conversation followed by one block per earlier round and nothing else: each
  // tool call sent back has its one answer.
  lemma EveryRequestWellFormed(job: Job, round: nat)
    requires forall k :: 0 <= k < round ==> GoesOn(job, k)
    ensures RequestAt(job, round).messages == job.base + Flat(BlocksBefore(job, round))
    ensures |BlocksBefore(job, round)| == round && forall k :: 0 <= k < round ==> IsBlock(BlocksBefore(job, round)[k])
    ensures RequestAt(job, round).tools <==> round < MaxSteps(job.maxToolSteps)
  {
    MessagesAreBlocks(job, round);
    OneBlockEach(job, round);
    forall k | 0 <= k < round ensures IsBlock(BlocksBefore(job, round)[k]) {
      assert GoesOn(job, k);
      BlockOfRound(job, round, k);
      BlockIsBlock(job, k, ReplyAt(job, k));
    }
  }

  predicate Guessed(job: Job, k: nat) {
    ReplyAt(job, k).Reply? && ReplyAt(job, k).usage.estimated
  }

  // One guessed reply makes the whole loop's counts a guess, and nothing else
  // does.
  lemma {:induction false} EstimatedSurvives(job: Job, n: nat)
    ensures UsageOf(job, n).estimated <==> exists k: nat :: k < n && Guessed(job, k)
  {
    if n > 0 {
      EstimatedSurvives(job, n - 1);
      assert UsageOf(job, n).estimated <==> UsageOf(job, n - 1).estimated || Guessed(job, n - 1);
    }
  }

  // ----- what comes back, and what it adds up to -----

  // A reply with calls adds the assistant's message and one answer to each
  // call, in order: what the tool said, or that there is no such tool.
  lemma EachCallAnswered(job: Job, round: nat, r: Reply)
    requires r.Reply?
    ensures var b := Block(job, round, r);
      && |b| == 1 + |r.calls| && b[0] == AssistantCalls(r.content, r.calls)
      && forall j :: 0 <= j < |r.calls| ==>
           && b[1 + j].ToolResult? && b[1 + j].id == r.calls[j].id
           && (r.calls[j].name in job.tools ==> b[1 + j].answer == Said(job.execute(round, j, r.calls[j])))
           && (r.calls[j].name !in job.tools ==> b[1 + j].answer == UnknownTool(r.calls[j].name))
  {
  }

  // The next request carries that block after what the last one carried.
  lemma NextRequestCarries(job: Job, round: nat)
    ensures RequestAt(job, round + 1).messages ==
      RequestAt(job, round).messages + Block(job, round, ReplyAt(job, round))
    ensures RequestAt(job, round).tools <==> round < if job.maxToolSteps > 0 then job.maxToolSteps else 4
    ensures ReplyAt(job, round) == job.upstream(round, RequestAt(job, round))
    ensures RequestAt(job, 0).messages == job.base
  {
  }

  // The first n values of f.
  function Sum(f: nat -> int, n: nat): int {
    if n == 0 then 0 else Sum(f, n - 1) + f(n - 1)
  }

  // What one reply cost; a broken one nothing.
  function Spent(job: Job, k: nat): Usage {
    if ReplyAt(job, k).Reply? then ReplyAt(job, k).usage else Usage(0, 0, 0, false)
  }

  function Asked(job: Job, k: nat): nat {
    if ReplyAt(job, k).Reply? then |ReplyAt(job, k).calls| else 0
  }

  // Each count of the whole loop is the sum of that count over the replies,
  // and so is the number of tool calls.
  lemma {:induction false} UsageAddsUp(job: Job, n: nat)
    ensures UsageOf(job, n).prompt == Sum((k: nat) => Spent(job, k).prompt, n)
    ensures UsageOf(job, n).completion == Sum((k: nat) => Spent(job, k).completion, n)
    ensures UsageOf(job, n).total == Sum((k: nat) => Spent(job, k).total, n)
    ensures CallsOf(job, n) == Sum((k: nat) => Asked(job, k), n)
  {
    if n > 0 {
      UsageAddsUp(job, n - 1);
    }
  }
}

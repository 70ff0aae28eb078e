/**
 The host-driven agent loop (lib/condukt/host_session.ex): pure transitions over a
 session, with the host performing every step.
 */
module HostSession {
  import opened Common

  const MAX_ITERATIONS: nat := 16

  datatype Call = Call(id: string, name: string, args: string)
  datatype Block = Text(text: string) | ToolCall(call: Call)
  datatype Role = User | Assistant | ToolResult
  datatype Content = Plain(text: string) | Blocks(blocks: seq<Block>)
  datatype Message = Message(role: Role, content: Content, toolCallId: Option<string>)

  function UserMessage(prompt: string): Message { Message(User, Plain(prompt), None) }
  function ResultMessage(id: string, content: string): Message { Message(ToolResult, Plain(content), Some(id)) }

  function CallsIn(blocks: seq<Block>): seq<Call> {
    if blocks == [] then []
    else (if blocks[0].ToolCall? then [blocks[0].call] else []) + CallsIn(blocks[1..])
  }

  function ToolCalls(m: Message): seq<Call> { if m.content.Blocks? then CallsIn(m.content.blocks) else [] }

  datatype Session = Session(
    history: seq<Message>,
    systemPrompt: Option<string>,
    tools: seq<string>,
    awaitingCompletion: bool,
    awaitingTools: Option<seq<Call>>,
    iterations: nat)

  function New(systemPrompt: Option<string>, tools: seq<string>): Session {
    Session([], systemPrompt, tools, false, None, 0)
  }

  datatype Request = Request(messages: seq<Message>, tools: seq<string>, systemPrompt: Option<string>)
  datatype Error = TurnInProgress | NotWaitingForCompletion | InvalidResponseRole | NotWaitingForTools
                 | InvalidToolResults | IterationLimit
  datatype Reply = Ask(request: Request) | Complete(message: Message) | RunTools(message: Message, calls: seq<Call>)
  datatype Result = Ok(reply: Reply, session: Session) | Err(error: Error)

  datatype Output = Output(id: string, content: string, isError: bool)

  predicate InProgress(s: Session) { s.awaitingCompletion || s.awaitingTools.Some? }

  function NextRequest(s: Session): Result {
    if s.iterations >= MAX_ITERATIONS then Err(IterationLimit)
    else Ok(Ask(Request(s.history, s.tools, s.systemPrompt)),
            s.(iterations := s.iterations + 1, awaitingCompletion := true))
  }

  function Submit(s: Session, prompt: string): Result {
    if InProgress(s) then Err(TurnInProgress)
    else NextRequest(s.(iterations := 0, history := s.history + [UserMessage(prompt)]))
  }

  function ReceiveCompletion(s: Session, response: Message): Result {
    if !s.awaitingCompletion then Err(NotWaitingForCompletion)
    else if response.role != Assistant then Err(InvalidResponseRole)
    else
      var s' := s.(awaitingCompletion := false, history := s.history + [response]);
      var calls := ToolCalls(response);
      if calls == [] then Ok(Complete(response), s')
      else Ok(RunTools(response, calls), s'.(awaitingTools := Some(calls)))
  }

  function CallIds(calls: seq<Call>): seq<string> { seq(|calls|, i requires 0 <= i < |calls| => calls[i].id) }
  function OutputIds(outputs: seq<Output>): seq<string> {
    seq(|outputs|, i requires 0 <= i < |outputs| => outputs[i].id)
  }

  /** Equal length and equal when sorted: the same ids, equally often. */
  predicate Answers(calls: seq<Call>, outputs: seq<Output>) {
    multiset(CallIds(calls)) == multiset(OutputIds(outputs))
  }

  /** `Map.new`: the last output given for an id. */
  function LastFor(outputs: seq<Output>, id: string): Option<Output> {
    if outputs == [] then None
    else if outputs[|outputs| - 1].id == id then Some(outputs[|outputs| - 1])
    else LastFor(outputs[..|outputs| - 1], id)
  }

  function ContentOf(o: Output): string { if o.isError then "Tool error: " + o.content else o.content }

  /** One result per call, in the order the calls were made. */
  function Results(calls: seq<Call>, outputs: seq<Output>): (r: seq<Message>)
    requires forall c :: c in calls ==> LastFor(outputs, c.id).Some?
    ensures |r| == |calls|
  {
    seq(|calls|, i requires 0 <= i < |calls| =>
      ResultMessage(calls[i].id, ContentOf(LastFor(outputs, calls[i].id).value)))
  }

  lemma {:induction false} LastForFinds(outputs: seq<Output>, id: string)
    ensures LastFor(outputs, id).Some? <==> id in OutputIds(outputs)
    ensures LastFor(outputs, id).Some? ==> LastFor(outputs, id).value in outputs && LastFor(outputs, id).value.id == id
  {
    if outputs == [] {
    } else {
      var init := outputs[..|outputs| - 1];
      LastForFinds(init, id);
      assert OutputIds(outputs) == OutputIds(init) + [outputs[|outputs| - 1].id];
    }
  }

  lemma AnsweredCallsHaveOutputs(calls: seq<Call>, outputs: seq<Output>)
    requires Answers(calls, outputs)
    ensures forall c :: c in calls ==> LastFor(outputs, c.id).Some?
  {
    forall c | c in calls
      ensures LastFor(outputs, c.id).Some?
    {
      var i :| 0 <= i < |calls| && calls[i] == c;
      assert CallIds(calls)[i] in multiset(CallIds(calls));
      LastForFinds(outputs, c.id);
    }
  }

  function ReceiveToolOutputs(s: Session, outputs: seq<Output>): Result {
    match s.awaitingTools
    case None => Err(NotWaitingForTools)
    case Some(calls) =>
      if !Answers(calls, outputs) then Err(InvalidToolResults)
      else
        AnsweredCallsHaveOutputs(calls, outputs);
        NextRequest(s.(awaitingTools := None, history := s.history + Results(calls, outputs)))
  }

  // ------------------------------------------------------------------- runs

  datatype Input = Prompt(prompt: string) | Completion(response: Message) | Outputs(outputs: seq<Output>)

  function Feed(s: Session, input: Input): Result {
    match input
    case Prompt(prompt) => Submit(s, prompt)
    case Completion(response) => ReceiveCompletion(s, response)
    case Outputs(outputs) => ReceiveToolOutputs(s, outputs)
  }

  /** The host keeps the session it had when a call fails. */
  function After(s: Session, input: Input): Session {
    var r := Feed(s, input);
    if r.Ok? then r.session else s
  }

  function Run(s: Session, inputs: seq<Input>): Session {
    if inputs == [] then s else After(Run(s, inputs[..|inputs| - 1]), inputs[|inputs| - 1])
  }

  /** Requests handed out since the last prompt that was accepted. */
  function RequestsThisTurn(s: Session, inputs: seq<Input>): nat {
    if inputs == [] then 0
    else
      var before, input := inputs[..|inputs| - 1], inputs[|inputs| - 1];
      var r := Feed(Run(s, before), input);
      if r.Err? || !r.reply.Ask? then RequestsThisTurn(s, before)
      else if input.Prompt? then 1 else RequestsThisTurn(s, before) + 1
  }

  // ------------------------------------------------------- transcript grammar

  /** Where a transcript stands, reading it message by message: between turns, owed a
      reply, or `given` results into answering `calls`. */
  datatype Place = Between | OwedReply | OwedResults(calls: seq<Call>, given: nat) | Broken

  function Next(p: Place, m: Message): Place {
    match p
    case Between => if m.role == User then OwedReply else Broken
    case OwedReply =>
      if m.role != Assistant then Broken
      else if ToolCalls(m) == [] then Between else OwedResults(ToolCalls(m), 0)
    case OwedResults(calls, given) =>
      if given < |calls| && m.role == ToolResult && m.toolCallId == Some(calls[given].id)
      then (if given + 1 == |calls| then OwedReply else OwedResults(calls, given + 1))
      else Broken
    case Broken => Broken
  }

  function Read(history: seq<Message>): Place {
    if history == [] then Between else Next(Read(history[..|history| - 1]), history[|history| - 1])
  }

  lemma ReadSnoc(history: seq<Message>, m: Message)
    ensures Read(history + [m]) == Next(Read(history), m)
  {
    assert (history + [m])[..|history|] == history;
  }

  predicate ResultFor(m: Message, call: Call) { m.role == ToolResult && m.toolCallId == Some(call.id) }

  lemma TakeOneMore(history: seq<Message>, results: seq<Message>, n: nat)
    requires 0 < n <= |results|
    ensures history + results[..n] == (history + results[..n - 1]) + [results[n - 1]]
  {
  }

  lemma ReadOneMore(before: seq<Message>, calls: seq<Call>, given: nat, m: Message)
    requires Read(before) == OwedResults(calls, given) && given < |calls| && ResultFor(m, calls[given])
    ensures Read(before + [m]) == if given + 1 == |calls| then OwedReply else OwedResults(calls, given + 1)
  {
    ReadSnoc(before, m);
  }

  lemma {:induction false} ReadResults(history: seq<Message>, calls: seq<Call>, results: seq<Message>, n: nat)
    requires Read(history) == OwedResults(calls, 0) && n <= |calls| == |results| && calls != []
    requires forall i :: 0 <= i < |calls| ==> ResultFor(results[i], calls[i])
    ensures Read(history + results[..n]) == if n == |calls| then OwedReply else OwedResults(calls, n)
  {
    if n == 0 {
      assert history + results[..0] == history;
    } else {
      ReadResults(history, calls, results, n - 1);
      TakeOneMore(history, results, n);
      ReadOneMore(history + results[..n - 1], calls, n - 1, results[n - 1]);
    }
  }

  /** What is awaited is what the transcript calls for. */
  predicate Consistent(s: Session) {
    && s.iterations <= MAX_ITERATIONS
    && match Read(s.history)
       case Between => !s.awaitingCompletion && s.awaitingTools.None?
       case OwedReply => s.awaitingCompletion && s.awaitingTools.None? && 1 <= s.iterations
       case OwedResults(calls, given) =>
         !s.awaitingCompletion && s.awaitingTools == Some(calls) && given == 0 && calls != [] && 1 <= s.iterations
       case Broken => false
  }

  lemma OutputsKeepConsistent(s: Session, outputs: seq<Output>)
    requires Consistent(s)
    ensures Consistent(After(s, Outputs(outputs)))
  {
    if s.awaitingTools.Some? && Answers(s.awaitingTools.value, outputs) {
      var calls := s.awaitingTools.value;
      AnsweredCallsHaveOutputs(calls, outputs);
      var results := Results(calls, outputs);
      ReadResults(s.history, calls, results, |calls|);
      assert results[..|calls|] == results;
    }
  }

  lemma FeedKeepsConsistent(s: Session, input: Input)
    requires Consistent(s)
    ensures Consistent(After(s, input))
  {
    match input
    case Prompt(prompt) => ReadSnoc(s.history, UserMessage(prompt));
    case Completion(response) => ReadSnoc(s.history, response);
    case Outputs(outputs) => OutputsKeepConsistent(s, outputs);
  }

  lemma {:induction false} RunKeepsConsistent(systemPrompt: Option<string>, tools: seq<string>, inputs: seq<Input>)
    ensures Consistent(Run(New(systemPrompt, tools), inputs))
  {
    if inputs == [] {
    } else {
      RunKeepsConsistent(systemPrompt, tools, inputs[..|inputs| - 1]);
      FeedKeepsConsistent(Run(New(systemPrompt, tools), inputs[..|inputs| - 1]), inputs[|inputs| - 1]);
    }
  }

  // ---------------------------------------------------------- main properties

  /** The place after the first n messages. */
  function ReadTo(h: seq<Message>, n: nat): Place
    requires n <= |h|
  {
    if n == 0 then Between else Next(ReadTo(h, n - 1), h[n - 1])
  }

  lemma {:induction false} ReadToIsRead(h: seq<Message>, n: nat)
    requires n <= |h|
    ensures ReadTo(h, n) == Read(h[..n])
  {
    if n == 0 {
    } else {
      ReadToIsRead(h, n - 1);
      assert h[..n][..n - 1] == h[..n - 1];
    }
  }

  lemma {:induction false} PrefixNotBroken(h: seq<Message>, n: nat, m: nat)
    requires n <= m <= |h| && ReadTo(h, m) != Broken
    ensures ReadTo(h, n) != Broken
  {
    if n == m {
    } else {
      PrefixNotBroken(h, n, m - 1);
    }
  }

  lemma BatchOpens(p: Place, m: Message)
    requires Next(p, m) != Broken && m.role == Assistant && ToolCalls(m) != []
    ensures Next(p, m) == OwedResults(ToolCalls(m), 0)
  {
  }

  lemma BatchAdvances(calls: seq<Call>, given: nat, m: Message)
    requires Next(OwedResults(calls, given), m) != Broken
    ensures given < |calls| && ResultFor(m, calls[given])
    ensures Next(OwedResults(calls, given), m)
            == if given + 1 == |calls| then OwedReply else OwedResults(calls, given + 1)
  {
  }

  /** The first n calls have their results, in order, right after message i. */
  predicate ResultsFollow(h: seq<Message>, i: nat, calls: seq<Call>, n: nat) {
    n <= |calls| && i + n < |h| && forall k :: 0 <= k < n ==> ResultFor(h[i + 1 + k], calls[k])
  }

  lemma OneMoreFollows(h: seq<Message>, i: nat, calls: seq<Call>, n: nat)
    requires ResultsFollow(h, i, calls, n) && n < |calls| && i + 1 + n < |h| && ResultFor(h[i + 1 + n], calls[n])
    ensures ResultsFollow(h, i, calls, n + 1)
  {
  }

  /** After `at` messages the batch begun by message i has its first `given` results. */
  predicate BatchAt(h: seq<Message>, i: nat, calls: seq<Call>, given: nat, at: nat) {
    && at == i + 1 + given <= |h| && given <= |calls| && ResultsFollow(h, i, calls, given)
    && ReadTo(h, at) == (if given == |calls| then OwedReply else OwedResults(calls, given))
  }

  lemma ReplyFollows(p: Place, m: Message)
    requires p == OwedReply && Next(p, m) != Broken
    ensures m.role == Assistant
  {
  }

  /** A whole history, with no batch half answered. */
  predicate Settled(h: seq<Message>) {
    ReadTo(h, |h|) != Broken && (ReadTo(h, |h|).OwedResults? ==> ReadTo(h, |h|).given == 0)
  }

  lemma BatchOpened(h: seq<Message>, i: nat, calls: seq<Call>)
    requires Settled(h) && i < |h| && h[i].role == Assistant && ToolCalls(h[i]) == calls && calls != []
    ensures BatchAt(h, i, calls, 0, i + 1)
  {
    PrefixNotBroken(h, i + 1, |h|);
    BatchOpens(ReadTo(h, i), h[i]);
  }

  lemma BatchStep(h: seq<Message>, i: nat, calls: seq<Call>, given: nat, at: nat)
    requires Settled(h) && BatchAt(h, i, calls, given, at) && given < |calls| && at < |h|
    ensures BatchAt(h, i, calls, given + 1, at + 1)
  {
    PrefixNotBroken(h, at + 1, |h|);
    BatchAdvances(calls, given, h[at]);
    OneMoreFollows(h, i, calls, given);
  }

  /** How far a batch has been answered after `end` messages, n of them results. */
  lemma {:induction false} BatchProgress(h: seq<Message>, i: nat, calls: seq<Call>, n: nat, end: nat)
    requires Settled(h) && BatchAt(h, i, calls, 0, i + 1) && end == i + 1 + n <= |h| && n <= |calls|
    ensures BatchAt(h, i, calls, n, end)
    decreases n
  {
    if n == 0 {
    } else {
      BatchProgress(h, i, calls, n - 1, end - 1);
      BatchStep(h, i, calls, n - 1, end - 1);
    }
  }

  lemma {:induction false} BatchFinishes(h: seq<Message>, i: nat, calls: seq<Call>)
    requires Settled(h) && i + 1 < |h| && calls != [] && BatchAt(h, i, calls, 0, i + 1)
    ensures i + |calls| < |h|
  {
    if |h| <= i + |calls| {
      BatchProgress(h, i, calls, |h| - i - 1, |h|);
    }
  }

  lemma {:induction false} ReplyComesNext(h: seq<Message>, last: nat)
    requires Settled(h) && last < |h| && ReadTo(h, last) == OwedReply
    ensures h[last].role == Assistant
  {
    PrefixNotBroken(h, last + 1, |h|);
    ReplyFollows(ReadTo(h, last), h[last]);
  }

  /** Some inputs lead from a new session to this one. */
  ghost predicate Reachable(s: Session) {
    exists systemPrompt, tools, inputs :: s == Run(New(systemPrompt, tools), inputs)
  }

  lemma ReachableIsConsistent(s: Session)
    requires Reachable(s)
    ensures Consistent(s)
  {
    var systemPrompt, tools, inputs :| s == Run(New(systemPrompt, tools), inputs);
    RunKeepsConsistent(systemPrompt, tools, inputs);
  }

  lemma ConsistentIsSettled(s: Session)
    requires Consistent(s)
    ensures Settled(s.history)
  {
    ReadToIsRead(s.history, |s.history|);
    assert s.history[..|s.history|] == s.history;
  }

  lemma BatchAnswered(h: seq<Message>, i: nat, calls: seq<Call>)
    requires Settled(h) && i + 1 < |h| && h[i].role == Assistant && ToolCalls(h[i]) == calls && calls != []
    ensures ResultsFollow(h, i, calls, |calls|)
    ensures i + 1 + |calls| < |h| ==> h[i + 1 + |calls|].role == Assistant
  {
    BatchOpened(h, i, calls);
    BatchFinishes(h, i, calls);
    BatchProgress(h, i, calls, |calls|, i + 1 + |calls|);
    if i + 1 + |calls| < |h| {
      ReplyComesNext(h, i + 1 + |calls|);
    }
  }

  /** In every reachable history, an assistant message that made tool calls and is not the
      last message is followed at once by exactly one result per call, in the order the
      calls were made, and then by the end of the history or another assistant message. */
  lemma BatchesAnsweredInOrder(s: Session, i: nat)
    requires Reachable(s)
    requires i + 1 < |s.history| && s.history[i].role == Assistant && ToolCalls(s.history[i]) != []
    ensures var h, calls := s.history, ToolCalls(s.history[i]);
            && i + |calls| < |h|
            && (forall k :: 0 <= k < |calls| ==> ResultFor(h[i + 1 + k], calls[k]))
            && (i + 1 + |calls| < |h| ==> h[i + 1 + |calls|].role == Assistant)
  {
    ReachableIsConsistent(s);
    ConsistentIsSettled(s);
    BatchAnswered(s.history, i, ToolCalls(s.history[i]));
  }

  /** A turn hands out at most sixteen requests, and the counter counts exactly those. */
  lemma {:induction false} AtMostSixteenRequests(systemPrompt: Option<string>, tools: seq<string>, inputs: seq<Input>)
    ensures var s := New(systemPrompt, tools);
            RequestsThisTurn(s, inputs) == Run(s, inputs).iterations <= MAX_ITERATIONS
  {
    RunKeepsConsistent(systemPrompt, tools, inputs);
    if inputs == [] {
    } else {
      AtMostSixteenRequests(systemPrompt, tools, inputs[..|inputs| - 1]);
    }
  }

  /** The host is never waited on for a reply and for tool results at once, and between
      turns for neither; which one, the transcript says. */
  lemma AwaitsWhatTheTranscriptOwes(s: Session)
    requires Reachable(s)
    ensures !(s.awaitingCompletion && s.awaitingTools.Some?)
    ensures s.awaitingCompletion <==> Read(s.history) == OwedReply
    ensures InProgress(s) <==> Read(s.history) != Between
    ensures s.awaitingTools.Some? ==> Read(s.history) == OwedResults(s.awaitingTools.value, 0)
  {
    ReachableIsConsistent(s);
  }

  /** A session that asks for tools after its sixteenth request can never move again:
      whatever the host submits, it gets an error and keeps the session it had. */
  lemma {:induction false} LimitIsPermanent(s: Session, inputs: seq<Input>)
    requires s.awaitingTools.Some? && !s.awaitingCompletion && s.iterations >= MAX_ITERATIONS
    ensures Run(s, inputs) == s
    ensures forall input :: Feed(s, input).Err?
  {
    if inputs == [] {
    } else {
      LimitIsPermanent(s, inputs[..|inputs| - 1]);
    }
  }

  /** Every request carries the whole conversation so far, the tools and the system prompt
      the session was opened with. */
  lemma RequestsCarryTheConversation(systemPrompt: Option<string>, tools: seq<string>, inputs: seq<Input>, input: Input)
    ensures var r := Feed(Run(New(systemPrompt, tools), inputs), input);
            r.Ok? && r.reply.Ask? ==>
              && r.reply.request == Request(r.session.history, tools, systemPrompt)
              && Run(New(systemPrompt, tools), inputs).history < r.session.history
  {
    OpenedWith(systemPrompt, tools, inputs);
    RunKeepsConsistent(systemPrompt, tools, inputs);
    var s := Run(New(systemPrompt, tools), inputs);
    if input.Outputs? && s.awaitingTools.Some? && Answers(s.awaitingTools.value, input.outputs) {
      AnsweredCallsHaveOutputs(s.awaitingTools.value, input.outputs);
    }
  }

  lemma {:induction false} OpenedWith(systemPrompt: Option<string>, tools: seq<string>, inputs: seq<Input>)
    ensures var s := Run(New(systemPrompt, tools), inputs); s.tools == tools && s.systemPrompt == systemPrompt
  {
    if inputs == [] {
    } else {
      OpenedWith(systemPrompt, tools, inputs[..|inputs| - 1]);
    }
  }

  // ------------------------------------------------ what is accepted, and replies

  /** The tool calls of a message are its tool-call blocks, in order: blocks add up, ... */
  lemma {:induction false} CallsOfBlocksAddUp(a: seq<Block>, b: seq<Block>)
    ensures CallsIn(a + b) == CallsIn(a) + CallsIn(b)
  {
    if a == [] {
      assert a + b == b;
    } else {
      CallsOfBlocksAddUp(a[1..], b);
      assert (a + b)[0] == a[0] && (a + b)[1..] == a[1..] + b;
      var head := if a[0].ToolCall? then [a[0].call] else [];
      assert head + (CallsIn(a[1..]) + CallsIn(b)) == head + CallsIn(a[1..]) + CallsIn(b);
    }
  }

  /** ... and one block is one call or none. */
  lemma CallsOfOneBlock(block: Block)
    ensures CallsIn([block]) == match block case ToolCall(call) => [call] case Text(_) => []
  {
    assert [block][1..] == [];
  }

  /** A prompt is accepted exactly between turns, a completion exactly when the transcript is
      owed a reply and it is an assistant's, and outputs exactly when the transcript is owed
      results, they answer each call once, and the turn has requests left. */
  lemma AcceptedExactlyWhenOwed(s: Session, input: Input)
    requires Reachable(s)
    ensures Feed(s, input).Ok?
            <==> match input
                 case Prompt(_) => Read(s.history) == Between
                 case Completion(response) => Read(s.history) == OwedReply && response.role == Assistant
                 case Outputs(outputs) =>
                   && Read(s.history).OwedResults? && s.iterations < MAX_ITERATIONS
                   && multiset(OutputIds(outputs)) == multiset(CallIds(Read(s.history).calls))
  {
    ReachableIsConsistent(s);
  }

  /** What is refused, and with which error. */
  lemma RefusedForItsReason(s: Session, input: Input)
    requires Reachable(s) && Feed(s, input).Err?
    ensures Feed(s, input).error
            == match input
               case Prompt(_) => TurnInProgress
               case Completion(_) =>
                 if Read(s.history) != OwedReply then NotWaitingForCompletion else InvalidResponseRole
               case Outputs(outputs) =>
                 if !Read(s.history).OwedResults? then NotWaitingForTools
                 else if multiset(OutputIds(outputs)) == multiset(CallIds(Read(s.history).calls)) then IterationLimit
                 else InvalidToolResults
  {
    ReachableIsConsistent(s);
  }

  /** A prompt is appended and the whole conversation handed out. */
  lemma PromptIsAppended(s: Session, prompt: string)
    requires Submit(s, prompt).Ok?
    ensures var r := Submit(s, prompt);
            && r.session.history == s.history + [Message(User, Plain(prompt), None)]
            && r.reply == Ask(Request(r.session.history, s.tools, s.systemPrompt)) && r.session.iterations == 1
  {
  }

  /** A completion is appended; the turn is over exactly when it makes no tool call, and
      otherwise the host is handed its calls, which are the ones then awaited. */
  lemma CompletionIsAppended(s: Session, response: Message)
    requires ReceiveCompletion(s, response).Ok?
    ensures var r := ReceiveCompletion(s, response);
            && r.session.history == s.history + [response] && !r.session.awaitingCompletion
            && r.session.iterations == s.iterations
            && if ToolCalls(response) == []
               then r.reply == Complete(response) && r.session.awaitingTools == s.awaitingTools
               else r.reply == RunTools(response, ToolCalls(response))
                    && r.session.awaitingTools == Some(ToolCalls(response))
  {
  }

  /** Place k is the last one with this id. */
  predicate LastWith(outputs: seq<Output>, id: string, k: nat) {
    k < |outputs| && outputs[k].id == id && forall l :: k < l < |outputs| ==> outputs[l].id != id
  }

  lemma {:induction false} LastForIsLast(outputs: seq<Output>, id: string, k: nat)
    requires LastWith(outputs, id, k)
    ensures LastFor(outputs, id) == Some(outputs[k])
  {
    if k == |outputs| - 1 {
    } else {
      var init := outputs[..|outputs| - 1];
      assert outputs[|outputs| - 1].id != id;
      assert LastWith(init, id, k);
      LastForIsLast(init, id, k);
    }
  }

  /** Whether or not ids are repeated, accepted outputs add one result per call, in call
      order, each with the content of the last output given for its id, marked if that failed,
      and the whole conversation is handed out again. */
  lemma ResultsAreAppended(s: Session, calls: seq<Call>, outputs: seq<Output>, i: nat, k: nat)
    requires s.awaitingTools == Some(calls) && Answers(calls, outputs) && s.iterations < MAX_ITERATIONS
    requires i < |calls| && LastWith(outputs, calls[i].id, k)
    ensures var r := ReceiveToolOutputs(s, outputs);
            && r.Ok? && |r.session.history| == |s.history| + |calls| && s.history <= r.session.history
            && r.session.history[|s.history| + i]
               == Message(ToolResult, Plain((if outputs[k].isError then "Tool error: " else "") + outputs[k].content),
                          Some(calls[i].id))
            && r.reply == Ask(Request(r.session.history, s.tools, s.systemPrompt))
            && r.session.iterations == s.iterations + 1 && r.session.awaitingTools.None?
  {
    AnsweredHistory(s, calls, outputs);
    ResultAt(s.history, calls, outputs, i);
    LastForIsLast(outputs, calls[i].id, k);
    assert "" + outputs[k].content == outputs[k].content;
  }

  // ------------------------------------------------------- order of the outputs

  predicate Distinct(ids: seq<string>) { forall i, j :: 0 <= i < j < |ids| ==> ids[i] != ids[j] }

  /** Any two permutations of a list of outputs leave the same session and request. */
  ghost predicate OrderNeverMatters(s: Session) {
    forall outputs: seq<Output>, outputs': seq<Output> :: multiset(outputs) == multiset(outputs') ==>
      ReceiveToolOutputs(s, outputs) == ReceiveToolOutputs(s, outputs')
  }

  lemma WithoutOne(b: seq<Output>, k: nat)
    requires k < |b|
    ensures multiset(b[..k] + b[k + 1..]) == multiset(b) - multiset{b[k]}
    ensures multiset(OutputIds(b)) == multiset(OutputIds(b[..k] + b[k + 1..])) + multiset{b[k].id}
  {
    assert b == b[..k] + [b[k]] + b[k + 1..];
    assert OutputIds(b) == OutputIds(b[..k]) + [b[k].id] + OutputIds(b[k + 1..]);
    assert OutputIds(b[..k] + b[k + 1..]) == OutputIds(b[..k]) + OutputIds(b[k + 1..]);
  }

  lemma WithoutLast(a: seq<Output>)
    requires a != []
    ensures multiset(a[..|a| - 1]) == multiset(a) - multiset{a[|a| - 1]}
    ensures multiset(OutputIds(a)) == multiset(OutputIds(a[..|a| - 1])) + multiset{a[|a| - 1].id}
  {
    assert a == a[..|a| - 1] + [a[|a| - 1]];
    assert OutputIds(a) == OutputIds(a[..|a| - 1]) + [a[|a| - 1].id];
  }

  lemma {:induction false} IdsOfPermutation(a: seq<Output>, b: seq<Output>)
    requires multiset(a) == multiset(b)
    ensures multiset(OutputIds(a)) == multiset(OutputIds(b))
    decreases |a|
  {
    if a == [] {
      assert |b| == |multiset(b)| == 0;
    } else {
      var o := a[|a| - 1];
      assert o in multiset(b);
      var k :| 0 <= k < |b| && b[k] == o;
      var a', b' := a[..|a| - 1], b[..k] + b[k + 1..];
      WithoutLast(a);
      WithoutOne(b, k);
      IdsOfPermutation(a', b');
    }
  }

  lemma DistinctByCount(a: seq<string>, b: seq<string>)
    requires multiset(a) == multiset(b) && Distinct(a)
    ensures Distinct(b)
  {
    forall i, j | 0 <= i < j < |b|
      ensures b[i] != b[j]
    {
      if b[i] == b[j] {
        TwiceCounts(b, i, j);
        AtMostOnce(a, b[i]);
        assert false;
      }
    }
  }

  lemma TwiceCounts(b: seq<string>, i: nat, j: nat)
    requires i < j < |b| && b[i] == b[j]
    ensures multiset(b)[b[i]] >= 2
  {
    assert b == b[..i] + [b[i]] + b[i + 1..j] + [b[j]] + b[j + 1..];
  }

  lemma {:induction false} AtMostOnce(a: seq<string>, x: string)
    requires Distinct(a)
    ensures multiset(a)[x] <= 1
  {
    if a == [] {
    } else {
      var init := a[..|a| - 1];
      AtMostOnce(init, x);
      assert a == init + [a[|a| - 1]];
      if a[|a| - 1] == x {
        assert x !in init;
        assert multiset(init)[x] == 0;
      }
    }
  }

  /** With distinct ids, the output found for an id is the only one there is. */
  lemma {:induction false} LastForUnique(outputs: seq<Output>, o: Output)
    requires Distinct(OutputIds(outputs)) && o in outputs
    ensures LastFor(outputs, o.id) == Some(o)
  {
    var k :| 0 <= k < |outputs| && outputs[k] == o;
    assert OutputIds(outputs)[k] == o.id;
    if k == |outputs| - 1 {
    } else {
      assert OutputIds(outputs)[|outputs| - 1] == outputs[|outputs| - 1].id;
      var init := outputs[..|outputs| - 1];
      assert OutputIds(init) == OutputIds(outputs)[..|outputs| - 1];
      assert init[k] == o;
      LastForUnique(init, o);
    }
  }

  lemma OrderIrrelevantWhenDistinct(s: Session, calls: seq<Call>, a: seq<Output>, b: seq<Output>)
    requires s.awaitingTools == Some(calls) && Distinct(CallIds(calls)) && multiset(a) == multiset(b)
    ensures ReceiveToolOutputs(s, a) == ReceiveToolOutputs(s, b)
  {
    IdsOfPermutation(a, b);
    if Answers(calls, a) {
      AnsweredCallsHaveOutputs(calls, a);
      AnsweredCallsHaveOutputs(calls, b);
      DistinctByCount(CallIds(calls), OutputIds(b));
      forall c | c in calls
        ensures LastFor(a, c.id) == LastFor(b, c.id)
      {
        LastForFinds(a, c.id);
        var o := LastFor(a, c.id).value;
        assert o in multiset(a);
        LastForUnique(b, o);
      }
      assert Results(calls, a) == Results(calls, b);
    }
  }

  /** With distinct ids, each call's result carries the one output given for it, marked when
      the tool failed, and sits at the call's own place. */
  lemma OutputsReachTheirCalls(s: Session, calls: seq<Call>, outputs: seq<Output>, i: nat, o: Output)
    requires s.awaitingTools == Some(calls) && Distinct(CallIds(calls)) && Answers(calls, outputs)
    requires s.iterations < MAX_ITERATIONS && i < |calls| && o in outputs && o.id == calls[i].id
    ensures var r := ReceiveToolOutputs(s, outputs);
            && r.Ok? && |r.session.history| == |s.history| + |calls| && s.history <= r.session.history
            && r.session.history[|s.history| + i]
               == ResultMessage(o.id, (if o.isError then "Tool error: " else "") + o.content)
  {
    AnsweredHistory(s, calls, outputs);
    ResultAt(s.history, calls, outputs, i);
    DistinctByCount(CallIds(calls), OutputIds(outputs));
    LastForUnique(outputs, o);
    assert "" + o.content == o.content;
  }

  lemma AnsweredHistory(s: Session, calls: seq<Call>, outputs: seq<Output>)
    requires s.awaitingTools == Some(calls) && s.iterations < MAX_ITERATIONS && Answers(calls, outputs)
    ensures forall c :: c in calls ==> LastFor(outputs, c.id).Some?
    ensures var r := ReceiveToolOutputs(s, outputs);
            r.Ok? && r.session.history == s.history + Results(calls, outputs)
  {
    AnsweredCallsHaveOutputs(calls, outputs);
  }

  lemma ResultAt(history: seq<Message>, calls: seq<Call>, outputs: seq<Output>, i: nat)
    requires i < |calls| && forall c :: c in calls ==> LastFor(outputs, c.id).Some?
    ensures (history + Results(calls, outputs))[|history| + i]
            == ResultMessage(calls[i].id, ContentOf(LastFor(outputs, calls[i].id).value))
  {
  }

  /** Answers that agree on the ids but not on the content for one of them show in the transcript. */
  lemma ContentShows(s: Session, calls: seq<Call>, i: nat, a: seq<Output>, b: seq<Output>)
    requires s.awaitingTools == Some(calls) && s.iterations < MAX_ITERATIONS && i < |calls|
    requires Answers(calls, a) && Answers(calls, b)
    requires LastFor(a, calls[i].id).Some? && LastFor(b, calls[i].id).Some?
    requires ContentOf(LastFor(a, calls[i].id).value) != ContentOf(LastFor(b, calls[i].id).value)
    ensures ReceiveToolOutputs(s, a) != ReceiveToolOutputs(s, b)
  {
    AnsweredHistory(s, calls, a);
    AnsweredHistory(s, calls, b);
    ResultAt(s.history, calls, a, i);
    ResultAt(s.history, calls, b, i);
  }

  /** Outputs that answer every call but two, and then those two. */
  function Padded(others: seq<Call>, x: Output, y: Output): seq<Output> {
    seq(|others|, k requires 0 <= k < |others| => Output(others[k].id, "", false)) + [x, y]
  }

  lemma PaddedAnswers(calls: seq<Call>, i: nat, j: nat, x: Output, y: Output)
    requires i < j < |calls| && calls[i].id == calls[j].id == x.id == y.id
    ensures var a := Padded(calls[..i] + calls[i + 1..j] + calls[j + 1..], x, y);
            Answers(calls, a) && LastFor(a, x.id) == Some(y)
  {
    var others := calls[..i] + calls[i + 1..j] + calls[j + 1..];
    assert OutputIds(Padded(others, x, y)) == CallIds(others) + [x.id, x.id];
    IdsAroundTwo(calls, i, j);
  }

  /** Two answers for one id, in either order, give different transcripts. */
  lemma OrderMattersWhenRepeated(s: Session, calls: seq<Call>, i: nat, j: nat) returns (a: seq<Output>, b: seq<Output>)
    requires s.awaitingTools == Some(calls) && s.iterations < MAX_ITERATIONS
    requires i < j < |calls| && calls[i].id == calls[j].id
    ensures multiset(a) == multiset(b) && ReceiveToolOutputs(s, a) != ReceiveToolOutputs(s, b)
  {
    var others := calls[..i] + calls[i + 1..j] + calls[j + 1..];
    var x, y := Output(calls[i].id, "x", false), Output(calls[i].id, "y", false);
    a, b := Padded(others, x, y), Padded(others, y, x);
    var filler := a[..|others|];
    assert a == filler + [x, y] && b == filler + [y, x];
    assert multiset(a) == multiset(filler) + multiset{x, y} == multiset(b);
    PaddedAnswers(calls, i, j, x, y);
    PaddedAnswers(calls, i, j, y, x);
    ContentShows(s, calls, i, a, b);
  }

  lemma IdsAroundTwo(calls: seq<Call>, i: nat, j: nat)
    requires i < j < |calls|
    ensures var others := calls[..i] + calls[i + 1..j] + calls[j + 1..];
            multiset(CallIds(calls)) == multiset(CallIds(others) + [calls[i].id, calls[j].id])
  {
    var p, q, r := CallIds(calls[..i]), CallIds(calls[i + 1..j]), CallIds(calls[j + 1..]);
    assert CallIds(calls) == p + [calls[i].id] + q + [calls[j].id] + r;
    assert CallIds(calls[..i] + calls[i + 1..j] + calls[j + 1..]) == p + q + r;
  }

  /** The order of the outputs is irrelevant exactly when the requested ids are distinct, or
      the turn has used up its requests and every answer is refused. */
  lemma OrderNeverMattersExactlyWhenDistinct(s: Session)
    requires s.awaitingTools.Some?
    ensures OrderNeverMatters(s) <==> Distinct(CallIds(s.awaitingTools.value)) || s.iterations >= MAX_ITERATIONS
  {
    var calls := s.awaitingTools.value;
    if Distinct(CallIds(calls)) {
      forall a: seq<Output>, b: seq<Output> | multiset(a) == multiset(b)
        ensures ReceiveToolOutputs(s, a) == ReceiveToolOutputs(s, b)
      {
        OrderIrrelevantWhenDistinct(s, calls, a, b);
      }
    } else if s.iterations >= MAX_ITERATIONS {
      forall a: seq<Output>, b: seq<Output> | multiset(a) == multiset(b)
        ensures ReceiveToolOutputs(s, a) == ReceiveToolOutputs(s, b)
      {
        IdsOfPermutation(a, b);
      }
    } else {
      var i, j :| 0 <= i < j < |calls| && CallIds(calls)[i] == CallIds(calls)[j];
      var a, b := OrderMattersWhenRepeated(s, calls, i, j);
    }
  }
}

/**
 Every run of a session server: callers, streaming subscribers, the unlinked worker of
 each turn (which outlives an abort) and the compaction task, in any interleaving.

 A worker is modelled by the history it holds between two messages to the server. Its
 messages reach the server in the order it sent them, so a worker step is the delivery
 of its next message.
 */
module SessionRuns {
  import opened Common
  import opened Compaction
  import opened Session

  datatype Status = Running | Blocked(from: From) | Failing | Ended | Crashed

  /** `captured` is the history the worker started from, prompt included; `list` the one
      it holds now, with the prompt at index `promptAt`. */
  datatype Worker = Worker(owner: Recipient, prompt: Message, captured: seq<Message>, list: seq<Message>,
                           promptAt: int, checkpointed: bool, status: Status)

  datatype World = World(
    server: Server,
    workers: map<Ref, Worker>,
    clock: Ref,               // references below it have been handed out
    calls: seq<From>,         // every call received so far
    streams: seq<StreamRef>,  // every stream requested so far
    sent: seq<Sent>)          // every message sent so far

  datatype Action =
    | CallRun(from: From, prompt: Message, newRef: Ref)
    | CastStream(stream: StreamRef, prompt: Message, newRef: Ref)
    | CallAbort(from: From, newRef: Ref)
    | CallClear(from: From, newRef: Ref)
    | CallCompact(from: From, compacted: seq<Message>, newRef: Ref)
    | CallCheckTurn(from: From, ref: Ref)
    | WorkerCheckpoint(ref: Ref, from: From, messages: seq<Message>, due: Due, newRef: Ref)
    | WorkerEvent(ref: Ref, stream: StreamRef, stop: bool, newRef: Ref)
    | WorkerDone(ref: Ref, result: RunResult, compacted: seq<Message>, due: Due, newRef: Ref)
    | WorkerCrash(ref: Ref)
    | TaskDone(task: Ref, outcome: Outcome, due: Due, newRef: Ref)
    | TaskTimeout(task: Ref, due: Due, newRef: Ref)

  predicate FreshCall(w: World, from: From) { from !in w.calls }

  predicate Possible(w: World, a: Action) {
    match a
    case CallRun(from, prompt, newRef) => FreshCall(w, from) && newRef >= w.clock && prompt.role == User
    case CastStream(stream, prompt, newRef) => stream !in w.streams && newRef >= w.clock && prompt.role == User
    case CallAbort(from, newRef) => FreshCall(w, from) && newRef >= w.clock
    case CallClear(from, newRef) => FreshCall(w, from) && newRef >= w.clock
    case CallCompact(from, _, newRef) => FreshCall(w, from) && newRef >= w.clock
    case CallCheckTurn(from, _) => FreshCall(w, from)
    case WorkerCheckpoint(ref, from, messages, _, newRef) =>
      && Enabled(w.server.compaction) && FreshCall(w, from) && newRef >= w.clock
      && ref in w.workers && w.workers[ref].status == Running && w.workers[ref].list <= messages
    case WorkerEvent(ref, _, _, newRef) =>
      ref in w.workers && w.workers[ref].status in {Running, Failing} && newRef >= w.clock
    case WorkerDone(ref, result, _, _, newRef) =>
      && ref in w.workers && newRef >= w.clock
      && (w.workers[ref].status == Running || (w.workers[ref].status == Failing && result.FailedWith?))
      && (result.FailedWith? ==> result.messages == w.workers[ref].captured)
      && (result.Succeeded? && Enabled(w.server.compaction) ==> w.workers[ref].list <= result.messages)
    case WorkerCrash(ref) => ref in w.workers && w.workers[ref].status != Ended
    case TaskDone(task, _, _, newRef) =>
      newRef >= w.clock && (w.server.compaction.task == Some(task) ==> Enabled(w.server.compaction))
    case TaskTimeout(task, _, newRef) =>
      newRef >= w.clock && (w.server.compaction.task == Some(task) ==> Enabled(w.server.compaction))
  }

  // -------------------------------------------------------- effect of a step

  function AnswerTo(from: From, sent: seq<Sent>): Option<Answer> {
    if sent == [] then None
    else if sent[0].Reply? && sent[0].from == from then Some(sent[0].answer)
    else AnswerTo(from, sent[1..])
  }

  /** A worker blocked in a checkpoint continues with the list it is handed, or fails. */
  function Wake(k: Worker, sent: seq<Sent>): Worker {
    if !k.status.Blocked? then k
    else match AnswerTo(k.status.from, sent)
      case None => k
      case Some(Adopted(messages)) =>
        k.(list := messages, promptAt := k.promptAt + |messages| - |k.list|, status := Running)
      case Some(_) => k.(status := Failing)
  }

  function WakeAll(workers: map<Ref, Worker>, sent: seq<Sent>): map<Ref, Worker> {
    map r | r in workers :: Wake(workers[r], sent)
  }

  function NewWorker(s: Server, owner: Recipient, prompt: Message): Worker {
    Worker(owner, prompt, s.messages + [prompt], s.messages + [prompt], |s.messages|, false, Running)
  }

  /** What the server does with the message an action delivers. */
  function React(w: World, a: Action): Reaction
    requires Possible(w, a)
  {
    var s := w.server;
    match a
    case CallRun(from, _, newRef) => HandleRun(s, from, newRef)
    case CastStream(stream, _, newRef) => HandleStream(s, stream, newRef)
    case CallAbort(from, newRef) => HandleAbort(s, from, newRef)
    case CallClear(from, newRef) => HandleClear(s, from, newRef)
    case CallCompact(from, compacted, newRef) => HandleCompact(s, from, compacted, newRef)
    case CallCheckTurn(from, ref) => HandleCheckTurn(s, from, ref)
    case WorkerCheckpoint(ref, from, messages, due, newRef) => HandleCheckpoint(s, ref, messages, from, due, newRef)
    case WorkerEvent(ref, stream, stop, newRef) => HandleEvent(s, ref, stream, stop, newRef)
    case WorkerDone(ref, result, compacted, due, newRef) =>
      (match w.workers[ref].owner
       case RunCaller(from) => HandleRunComplete(s, ref, from, result, compacted, due, newRef)
       case StreamTo(stream) => HandleStreamComplete(s, ref, stream, result, compacted, due, newRef))
    case WorkerCrash(_) => Reaction(s, [])
    case TaskDone(task, outcome, due, newRef) => HandleTaskDone(s, task, outcome, due, newRef)
    case TaskTimeout(task, due, newRef) => HandleTaskTimeout(s, task, due, newRef)
  }

  /** How the sender of the message moves on, before any reply reaches it. */
  function Send(w: World, a: Action): map<Ref, Worker>
    requires Possible(w, a)
  {
    match a
    case CallRun(from, prompt, newRef) =>
      if Busy(w.server) then w.workers else w.workers[newRef := NewWorker(w.server, RunCaller(from), prompt)]
    case CastStream(stream, prompt, newRef) =>
      if Busy(w.server) then w.workers else w.workers[newRef := NewWorker(w.server, StreamTo(stream), prompt)]
    case WorkerCheckpoint(ref, from, messages, _, _) =>
      w.workers[ref := w.workers[ref].(list := messages, checkpointed := true, status := Blocked(from))]
    case WorkerDone(ref, _, _, _, _) => w.workers[ref := w.workers[ref].(status := Ended)]
    case WorkerCrash(ref) => w.workers[ref := w.workers[ref].(status := Crashed)]
    case _ => w.workers
  }

  predicate IsCall(a: Action) {
    a.CallRun? || a.CallAbort? || a.CallClear? || a.CallCompact? || a.CallCheckTurn? || a.WorkerCheckpoint?
  }

  function Step(w: World, a: Action): World
    requires Possible(w, a)
  {
    var r := React(w, a);
    World(r.server,
          WakeAll(Send(w, a), r.sent),
          if a.CallCheckTurn? || a.WorkerCrash? then w.clock else a.newRef + 1,
          if IsCall(a) then w.calls + [a.from] else w.calls,
          if a.CastStream? then w.streams + [a.stream] else w.streams,
          w.sent + r.sent)
  }

  // ------------------------------------------------------------------- runs

  predicate Initial(w: World) {
    && w.server.turn == IDLE && w.workers == map[] && w.calls == [] && w.streams == [] && w.sent == []
    && Coherent(w.server.compaction) && w.server.compaction.task.None? && w.server.compaction.prefix.None?
  }

  /** A run, as the states it goes through and the actions between them. */
  ghost predicate IsRun(run: seq<World>, actions: seq<Action>) {
    && |run| == |actions| + 1
    && forall i {:trigger actions[i]} :: 0 <= i < |actions| ==>
         Possible(run[i], actions[i]) && run[i + 1] == Step(run[i], actions[i])
  }

  // ------------------------------------------------------- message accounting

  /** How often `from` has been replied to. */
  function Replies(sent: seq<Sent>, from: From): nat {
    if sent == [] then 0
    else (if sent[0].Reply? && sent[0].from == from then 1 else 0) + Replies(sent[1..], from)
  }

  /** How often the end marker has been broadcast to `stream`. */
  function Ends(sent: seq<Sent>, stream: StreamRef): nat {
    if sent == [] then 0
    else (if sent[0] == Broadcast(stream, StreamDone) then 1 else 0) + Ends(sent[1..], stream)
  }

  lemma {:induction false} CountsOfConcat(a: seq<Sent>, b: seq<Sent>, from: From, stream: StreamRef)
    ensures Replies(a + b, from) == Replies(a, from) + Replies(b, from)
    ensures Ends(a + b, stream) == Ends(a, stream) + Ends(b, stream)
  {
    if a == [] {
      assert a + b == b;
    } else {
      CountsOfConcat(a[1..], b, from, stream);
      assert (a + b)[1..] == a[1..] + b;
    }
  }

  /** Replies the server still owes `from`: to the active run and to the compaction waiter. */
  function OwedReplies(s: Server, from: From): nat {
    (if s.turn.recipient == Some(RunCaller(from)) then 1 else 0)
    + (if s.compaction.waiter.Some? && s.compaction.waiter.value.from == from then 1 else 0)
  }

  /** End markers the server still owes `stream`. */
  function OwedEnds(s: Server, stream: StreamRef): nat {
    if s.turn.recipient == Some(StreamTo(stream)) then 1 else 0
  }

  // -------------------------------------------------------------- invariants

  predicate TurnShape(s: Server) {
    && (s.turn.streaming <==> s.turn.recipient.Some?)
    && (s.turn.streaming <==> s.turn.promptIndex.Some?)
    && (s.turn.streaming ==> s.turn.abortRef.Some?)
    && (s.compaction.waiter.Some? ==> (s.compaction.waiter.value.phase == Manual <==> !s.turn.streaming))
  }

  predicate Bounded(s: Server) {
    && Within(s.compaction, |s.messages|)
    && (Enabled(s.compaction) && s.turn.promptIndex.Some? ==>
          0 <= s.turn.promptIndex.value <= |s.messages| && Within(s.compaction, s.turn.promptIndex.value))
  }

  predicate Sound(s: Server) { Coherent(s.compaction) && TurnShape(s) && Bounded(s) }

  predicate Fenced(w: World)
    requires TurnShape(w.server)
  {
    && (forall r :: r in w.workers ==> r < w.clock)
    && (w.server.turn.abortRef.Some? ==> w.server.turn.abortRef.value < w.clock)
    && (w.server.turn.streaming ==>
          && w.server.turn.abortRef.value in w.workers
          && w.workers[w.server.turn.abortRef.value].owner == w.server.turn.recipient.value
          && w.workers[w.server.turn.abortRef.value].status != Ended)
    && (!w.server.turn.streaming ==>
          forall r :: r in w.workers && Current(w.server, r) ==> w.workers[r].status == Ended)
  }

  /** The only blocked worker is the current one, and it is the compaction waiter. */
  predicate Waiting(w: World)
    requires TurnShape(w.server) && Fenced(w)
  {
    && (forall r :: r in w.workers && w.workers[r].status.Blocked? ==>
          && Current(w.server, r) && w.server.turn.streaming && w.server.compaction.waiter.Some?
          && w.server.compaction.waiter.value.from == w.workers[r].status.from)
    && (w.server.compaction.waiter.Some? && w.server.turn.streaming ==>
          && w.workers[w.server.turn.abortRef.value].checkpointed
          && w.workers[w.server.turn.abortRef.value].status
             in {Blocked(w.server.compaction.waiter.value.from), Crashed})
  }

  /** Stored history and the active worker agree from the prompt on. */
  predicate PromptKept(s: Server, k: Worker)
    requires s.turn.promptIndex.Some? && 0 <= s.turn.promptIndex.value <= |s.messages|
  {
    var p := s.turn.promptIndex.value;
    && 0 <= k.promptAt < |k.list| && k.list[k.promptAt] == k.prompt && k.prompt.role == User
    && (k.checkpointed ==> s.messages[p..] == k.list[k.promptAt..])
    && (!k.checkpointed ==> p == |s.messages| && k.list == s.messages + [k.prompt] && !k.status.Blocked?)
    && (k.status == Running ==> k.promptAt == p && (k.checkpointed ==> k.list == s.messages))
  }

  predicate PromptInv(w: World)
    requires Sound(w.server) && Fenced(w)
  {
    Enabled(w.server.compaction) && w.server.turn.streaming ==>
      PromptKept(w.server, w.workers[w.server.turn.abortRef.value])
  }

  /** Every call received has had exactly one reply or is still owed one; every stream
      requested has had exactly one end marker or is still owed one. */
  ghost predicate Balanced(w: World) {
    && (forall from :: Replies(w.sent, from) + OwedReplies(w.server, from) == if from in w.calls then 1 else 0)
    && (forall stream :: Ends(w.sent, stream) + OwedEnds(w.server, stream) == if stream in w.streams then 1 else 0)
  }

  predicate Steady(w: World) { Sound(w.server) && Fenced(w) && Waiting(w) && PromptInv(w) }

  ghost predicate Inv(w: World) { Steady(w) && Balanced(w) }
}

/**
 The callbacks of the session server (lib/condukt/session.ex) over the state of the
 current turn (lib/condukt/session/turn.ex) and of background compaction.

 Each callback takes the server state and returns the new state with the messages it
 sent, in order. References made by `make_ref` and the answers of the token estimates
 and of the compactor callback are parameters.
 */
module Session {
  import opened Common
  import opened Compaction

  type StreamRef = nat
  type Assigns = int

  datatype Recipient = RunCaller(from: From) | StreamTo(stream: StreamRef)

  datatype Turn = Turn(streaming: bool, abortRef: Option<Ref>, recipient: Option<Recipient>, promptIndex: Option<int>)

  const IDLE := Turn(false, None, None, None)

  function StartTurn(recipient: Recipient, promptIndex: int, newRef: Ref): Turn {
    Turn(true, Some(newRef), Some(recipient), Some(promptIndex))
  }

  function FinishTurn(t: Turn): Turn { t.(streaming := false, recipient := None, promptIndex := None) }

  /** Aborting replaces the reference, which is what fences the abandoned worker off. */
  function AbandonTurn(newRef: Ref): Turn { Turn(false, Some(newRef), None, None) }

  datatype Server = Server(turn: Turn, messages: seq<Message>, assigns: Assigns, compaction: State)

  datatype Answer = Done | Adopted(messages: seq<Message>) | Refused(reason: Reason) | Response(text: int)
  datatype StreamEvent = StreamDone | StreamError(reason: Reason) | Progress
  datatype Sent = Reply(from: From, answer: Answer) | Broadcast(stream: StreamRef, event: StreamEvent)

  datatype Reaction = Reaction(server: Server, sent: seq<Sent>)

  /** What a worker reports: the response with its final history and assigns, or a
      failure with the history it had captured when it started. */
  datatype RunResult =
    | Succeeded(text: int, messages: seq<Message>, assigns: Assigns)
    | FailedWith(reason: Reason, messages: seq<Message>, assigns: Assigns)

  /** A turn is running or a caller waits for a compaction. */
  predicate Busy(s: Server) { s.turn.streaming || s.compaction.waiter.Some? }

  predicate Current(s: Server, ref: Ref) { s.turn.abortRef == Some(ref) }

  // ------------------------------------------------------------ turn control

  function HandleRun(s: Server, from: From, newRef: Ref): Reaction {
    if Busy(s) then Reaction(s, [Reply(from, Refused(AlreadyStreaming))])
    else Reaction(s.(turn := StartTurn(RunCaller(from), |s.messages|, newRef)), [])
  }

  function HandleStream(s: Server, stream: StreamRef, newRef: Ref): Reaction {
    if Busy(s) then
      Reaction(s, [Broadcast(stream, StreamError(AlreadyStreaming)), Broadcast(stream, StreamDone)])
    else Reaction(s.(turn := StartTurn(StreamTo(stream), |s.messages|, newRef)), [])
  }

  function ReleaseWaiter(s: Server): Reaction {
    if s.compaction.waiter.None? then Reaction(s, [])
    else Reaction(s.(compaction := s.compaction.(waiter := None)),
                  [Reply(s.compaction.waiter.value.from, Refused(Aborted))])
  }

  function Farewell(recipient: Option<Recipient>): seq<Sent> {
    match recipient
    case None => []
    case Some(RunCaller(from)) => [Reply(from, Refused(Aborted))]
    case Some(StreamTo(stream)) => [Broadcast(stream, StreamError(Aborted)), Broadcast(stream, StreamDone)]
  }

  function AbortTurn(s: Server, newRef: Ref): Reaction {
    var released := ReleaseWaiter(s);
    Reaction(released.server.(turn := AbandonTurn(newRef)), released.sent + Farewell(s.turn.recipient))
  }

  function HandleAbort(s: Server, from: From, newRef: Ref): Reaction {
    var aborted := AbortTurn(s, newRef);
    Reaction(aborted.server, aborted.sent + [Reply(from, Done)])
  }

  function HandleClear(s: Server, from: From, newRef: Ref): Reaction {
    var aborted := AbortTurn(s, newRef);
    var compaction := Cancel(aborted.server.compaction).(attempted := None);
    Reaction(aborted.server.(messages := [], compaction := compaction), aborted.sent + [Reply(from, Done)])
  }

  function HandleCheckTurn(s: Server, from: From, ref: Ref): Reaction {
    Reaction(s, [Reply(from, if s.turn.streaming && Current(s, ref) then Done else Refused(Aborted))])
  }

  // -------------------------------------------------------------- compaction

  function PutCompacted(s: Server, compaction: State, messages: seq<Message>): Server {
    var turn := if s.turn.promptIndex.None? then s.turn
                else s.turn.(promptIndex := Some(s.turn.promptIndex.value + |messages| - |s.messages|));
    s.(compaction := compaction, messages := messages, turn := turn)
  }

  function ProtectedCount(s: Server): int {
    if s.turn.promptIndex.Some? then |s.messages| - s.turn.promptIndex.value else 1
  }

  function CheckpointReply(s: Server, from: From, phase: Phase, due: Due, newRef: Ref): Reaction
    requires Enabled(s.compaction)
  {
    var verdict := Checkpoint(s.compaction, s.messages, from, phase, ProtectedCount(s), due, newRef);
    var server := PutCompacted(s, verdict.state, verdict.messages);
    match verdict
    case Continue(_, messages) => Reaction(server, [Reply(from, if phase == Manual then Done else Adopted(messages))])
    case Wait(_, _) => Reaction(server, [])
    case Failed(reason, _, _) => Reaction(server, [Reply(from, Refused(CompactionFailed(reason)))])
  }

  function HandleCheckpoint(s: Server, ref: Ref, messages: seq<Message>, from: From, due: Due, newRef: Ref): Reaction
    requires Enabled(s.compaction)
  {
    if s.turn.streaming && Current(s, ref) then
      CheckpointReply(s.(messages := messages), from, Background, due, newRef)
    else Reaction(s, [Reply(from, Refused(Aborted))])
  }

  /** End-of-turn compaction; `compacted` is what a synchronous compactor makes of the history. */
  function MaybeCompact(s: Server, compacted: seq<Message>, due: Due, newRef: Ref): Server {
    if !s.compaction.hasCompactor then s
    else if !Enabled(s.compaction) then s.(messages := compacted)
    else
      var taken := TakeResult(s.compaction, s.messages);
      s.(messages := taken.messages, compaction := StartBackground(taken.state, taken.messages, due, 1, newRef))
  }

  function HandleCompact(s: Server, from: From, compacted: seq<Message>, newRef: Ref): Reaction {
    if !Enabled(s.compaction) then
      Reaction(MaybeCompact(s, compacted, Due(false, false), newRef), [Reply(from, Done)])
    else if Busy(s) then Reaction(s, [Reply(from, Refused(AlreadyStreaming))])
    else
      var started := Start(s.compaction, s.messages, newRef);
      Reaction(s.(compaction := started.(waiter := Some(Waiter(from, Manual)))), [])
  }

  function CompactionFinished(s: Server, due: Due, newRef: Ref): Reaction
    requires Enabled(s.compaction)
  {
    if s.compaction.waiter.Some? then
      var waiter := s.compaction.waiter.value;
      CheckpointReply(s.(compaction := s.compaction.(waiter := None)), waiter.from, waiter.phase, due, newRef)
    else if !s.turn.streaming then
      var taken := TakeResult(s.compaction, s.messages);
      Reaction(PutCompacted(s, taken.state, taken.messages), [])
    else Reaction(s, [])
  }

  /** A result or an exit of the compaction task. */
  function HandleTaskDone(s: Server, ref: Ref, outcome: Outcome, due: Due, newRef: Ref): Reaction
    requires s.compaction.task == Some(ref) ==> Enabled(s.compaction)
  {
    if s.compaction.task == Some(ref) then
      CompactionFinished(s.(compaction := Complete(s.compaction, ref, outcome)), due, newRef)
    else Reaction(s, [])
  }

  function HandleTaskTimeout(s: Server, ref: Ref, due: Due, newRef: Ref): Reaction
    requires s.compaction.task == Some(ref) ==> Enabled(s.compaction)
  {
    if s.compaction.task == Some(ref) then
      CompactionFinished(s.(compaction := Cancel(s.compaction).(result := Some(Error(Timeout)))), due, newRef)
    else Reaction(s, [])
  }

  // -------------------------------------------------------- worker messages

  /** `stop` is what the agent's event callback answers. */
  function HandleEvent(s: Server, ref: Ref, stream: StreamRef, stop: bool, newRef: Ref): Reaction {
    if !Current(s, ref) then Reaction(s, [])
    else if !stop then Reaction(s, [Broadcast(stream, Progress)])
    else
      var aborted := AbortTurn(s, newRef);
      Reaction(aborted.server, [Broadcast(stream, Progress)] + aborted.sent)
  }

  function HandleRunComplete(s: Server, ref: Ref, from: From, result: RunResult, compacted: seq<Message>,
                             due: Due, newRef: Ref): Reaction
  {
    if !Current(s, ref) then Reaction(s, [])
    else
      var answer := if result.Succeeded? then Response(result.text) else Refused(result.reason);
      var messages := if result.FailedWith? && Enabled(s.compaction) then s.messages else result.messages;
      var finished := s.(turn := FinishTurn(s.turn), messages := messages, assigns := result.assigns);
      var server := if result.Succeeded? || !Enabled(s.compaction) then MaybeCompact(finished, compacted, due, newRef)
                    else finished;
      Reaction(server, [Reply(from, answer)])
  }

  function HandleStreamComplete(s: Server, ref: Ref, stream: StreamRef, result: RunResult, compacted: seq<Message>,
                                due: Due, newRef: Ref): Reaction
  {
    if !Current(s, ref) then Reaction(s, [])
    else
      var finished := s.(turn := FinishTurn(s.turn));
      var server := if result.FailedWith? then finished
                    else MaybeCompact(finished.(messages := result.messages, assigns := result.assigns),
                                      compacted, due, newRef);
      Reaction(server, [Broadcast(stream, StreamDone)])
  }
}

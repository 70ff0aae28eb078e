/**
 What the session server says, in every run: who is told what, and why. The counts of
 module SessionTheorems say that everybody is answered once; these say with what.
 */
module SessionReplies {
  import opened Common
  import opened Compaction
  import opened Session
  import opened SessionRuns
  import opened SessionTheorems
  import opened SessionHistory

  // ---------------------------------------------------------------- starting

  /** A run is refused exactly when a turn is in progress or a caller waits for a compaction,
      and otherwise owns the turn, whose prompt will follow the history stored now. */
  lemma RunStartsExactlyWhenIdle(run: seq<World>, actions: seq<Action>, i: nat)
    requires IsRun(run, actions) && i < |actions| && actions[i].CallRun?
    ensures var w, w', a := run[i], run[i + 1], actions[i];
            if w.server.turn.streaming || w.server.compaction.waiter.Some? then
              w'.server == w.server && w'.sent == w.sent + [Reply(a.from, Refused(AlreadyStreaming))]
            else
              && w'.sent == w.sent
              && w'.server == w.server.(turn := w'.server.turn)
              && w'.server.turn == Turn(true, Some(a.newRef), Some(RunCaller(a.from)), Some(|w.server.messages|))
  {
    assert run[i + 1] == Step(run[i], actions[i]);
  }

  /** Likewise for a stream, which is told of the refusal and then of its end. */
  lemma StreamStartsExactlyWhenIdle(run: seq<World>, actions: seq<Action>, i: nat)
    requires IsRun(run, actions) && i < |actions| && actions[i].CastStream?
    ensures var w, w', a := run[i], run[i + 1], actions[i];
            if w.server.turn.streaming || w.server.compaction.waiter.Some? then
              && w'.server == w.server
              && w'.sent == w.sent + [Broadcast(a.stream, StreamError(AlreadyStreaming)),
                                      Broadcast(a.stream, StreamDone)]
            else
              && w'.sent == w.sent
              && w'.server == w.server.(turn := w'.server.turn)
              && w'.server.turn == Turn(true, Some(a.newRef), Some(StreamTo(a.stream)), Some(|w.server.messages|))
  {
    assert run[i + 1] == Step(run[i], actions[i]);
  }

  // --------------------------------------------------------------- finishing

  /** The end of a turn tells its owner what became of it: a run's caller its own text or its
      own reason, a stream that it is over; and the turn is over. */
  lemma OwnerIsToldItsOwnResult(run: seq<World>, actions: seq<Action>, i: nat)
    requires IsRun(run, actions) && Initial(run[0]) && i < |actions| && Finishes(run[i], actions[i])
    ensures run[i + 1].sent
            == run[i].sent + (match run[i].workers[actions[i].ref].owner
                              case RunCaller(from) =>
                                [Reply(from, if actions[i].result.Succeeded? then Response(actions[i].result.text)
                                             else Refused(actions[i].result.reason))]
                              case StreamTo(stream) => [Broadcast(stream, StreamDone)])
    ensures run[i].server.turn.recipient == Some(run[i].workers[actions[i].ref].owner)
    ensures run[i + 1].server.turn == Turn(false, Some(actions[i].ref), None, None)
  {
    assert run[i + 1] == Step(run[i], actions[i]);
    RunKeepsInv(run, actions, i);
    SpeakerOwnsTurn(run[i], actions[i].ref);
    TurnMoves(run[i], actions[i]);
  }

  /** Without a policy the end of a turn stores the worker's list and assigns, or what the
      compactor makes of the list; only a stream that fails stores nothing. */
  lemma EndWithoutPolicyIsStored(run: seq<World>, actions: seq<Action>, i: nat)
    requires IsRun(run, actions) && i < |actions| && Finishes(run[i], actions[i])
    requires !Enabled(run[i].server.compaction)
    ensures var s, s', a := run[i].server, run[i + 1].server, actions[i];
            if run[i].workers[a.ref].owner.StreamTo? && a.result.FailedWith? then
              s'.messages == s.messages && s'.assigns == s.assigns
            else
              && s'.messages == (if s.compaction.hasCompactor then a.compacted else a.result.messages)
              && s'.assigns == a.result.assigns
  {
    assert run[i + 1] == Step(run[i], actions[i]);
  }

  /** At step j the current worker, started for `from`, succeeded with this text. */
  predicate SucceedsFor(w: World, a: Action, from: From, text: int) {
    && Succeeds(w, a) && a.ref in w.workers && w.workers[a.ref].owner == RunCaller(from) && a.result.text == text
  }

  lemma ResponseStep(w: World, a: Action, from: From, text: int)
    requires Possible(w, a) && Reply(from, Response(text)) in React(w, a).sent
    ensures SucceedsFor(w, a, from, text)
  {
  }

  /** Whoever is told that a run succeeded is its caller, and the text is that run's own. */
  lemma {:induction false} ResponsesAreOwn(run: seq<World>, actions: seq<Action>, i: nat, from: From, text: int)
    requires IsRun(run, actions) && Initial(run[0]) && i < |run| && Reply(from, Response(text)) in run[i].sent
    ensures exists j :: 0 <= j < i && SucceedsFor(run[j], actions[j], from, text)
  {
    assert i > 0;
    assert run[i] == Step(run[i - 1], actions[i - 1]);
    if Reply(from, Response(text)) in run[i - 1].sent {
      ResponsesAreOwn(run, actions, i - 1, from, text);
    } else {
      ResponseStep(run[i - 1], actions[i - 1], from, text);
    }
  }

  // ---------------------------------------------------- aborts, events, checks

  /** Those still waited on, in the order they are told: the compaction waiter, then the
      owner of the turn. */
  function Notices(s: Server): seq<Sent> {
    (if s.compaction.waiter.Some? then [Reply(s.compaction.waiter.value.from, Refused(Aborted))] else [])
    + (match s.turn.recipient
       case Some(RunCaller(from)) => [Reply(from, Refused(Aborted))]
       case Some(StreamTo(stream)) => [Broadcast(stream, StreamError(Aborted)), Broadcast(stream, StreamDone)]
       case None => [])
  }

  /** An abort tells those and then its caller; clearing does the same. */
  lemma AbortTells(run: seq<World>, actions: seq<Action>, i: nat)
    requires IsRun(run, actions) && i < |actions| && (actions[i].CallAbort? || actions[i].CallClear?)
    ensures run[i + 1].sent == run[i].sent + Notices(run[i].server) + [Reply(actions[i].from, Done)]
  {
    assert run[i + 1] == Step(run[i], actions[i]);
    assert run[i].sent + (Notices(run[i].server) + [Reply(actions[i].from, Done)])
           == run[i].sent + Notices(run[i].server) + [Reply(actions[i].from, Done)];
  }

  /** An event of the current turn is passed on, and when the agent stops, then the notices. */
  lemma EventTells(run: seq<World>, actions: seq<Action>, i: nat)
    requires IsRun(run, actions) && i < |actions| && actions[i].WorkerEvent?
    ensures var w, a := run[i], actions[i];
            run[i + 1].sent
            == if !Current(w.server, a.ref) then w.sent
               else w.sent + [Broadcast(a.stream, Progress)] + (if a.stop then Notices(w.server) else [])
  {
    var w, a := run[i], actions[i];
    assert run[i + 1] == Step(w, a);
    assert w.sent + ([Broadcast(a.stream, Progress)] + Notices(w.server))
           == w.sent + [Broadcast(a.stream, Progress)] + Notices(w.server);
    assert w.sent + [] == w.sent;
  }

  /** A tool of the current worker is admitted as long as the worker has not ended; nobody
      else's is. */
  lemma CurrentWorkerIsAdmitted(run: seq<World>, actions: seq<Action>, i: nat)
    requires IsRun(run, actions) && Initial(run[0]) && i < |actions| && actions[i].CallCheckTurn?
    requires actions[i].ref in run[i].workers
    ensures var w, a := run[i], actions[i];
            var admitted := Current(w.server, a.ref) && w.workers[a.ref].status != SessionRuns.Ended;
            run[i + 1].sent == w.sent + [Reply(a.from, if admitted then Done else Refused(Aborted))]
  {
    assert run[i + 1] == Step(run[i], actions[i]);
    RunKeepsInv(run, actions, i);
  }

  // -------------------------------------------------------------- compaction

  /** Compacting by hand: done at once without a policy, refused while busy, and otherwise a
      task is started on the whole history and the caller waits for it. */
  lemma CompactTells(run: seq<World>, actions: seq<Action>, i: nat)
    requires IsRun(run, actions) && i < |actions| && actions[i].CallCompact?
    ensures var w, w', a := run[i], run[i + 1], actions[i];
            if !Enabled(w.server.compaction) then
              && w'.sent == w.sent + [Reply(a.from, Done)]
              && w'.server.messages == (if w.server.compaction.hasCompactor then a.compacted else w.server.messages)
            else if w.server.turn.streaming || w.server.compaction.waiter.Some? then
              w'.sent == w.sent + [Reply(a.from, Refused(AlreadyStreaming))] && w'.server == w.server
            else
              && w'.sent == w.sent && w'.server.messages == w.server.messages
              && w'.server.compaction.task == Some(a.newRef) && w'.server.compaction.prefix == Some(w.server.messages)
              && w'.server.compaction.waiter == Some(Waiter(a.from, Manual))
  {
    assert run[i + 1] == Step(run[i], actions[i]);
  }

  /** The caller waits, for this task on this prefix. */
  predicate Parked(c: State, from: From, phase: Phase, task: Option<Ref>, prefix: Option<seq<Message>>) {
    c.waiter == Some(Waiter(from, phase)) && c.task == task && c.prefix == prefix
  }

  /** What a blocked checkpoint comes to when no task is running: a task on the longest safe
      prefix of the history, or failure when there is none. */
  predicate BlockedOutright(w': World, sent: seq<Sent>, from: From, protectedCount: int, newRef: Ref) {
    var prefix := Prefix(w'.server.messages, 0, protectedCount);
    if prefix == [] then w'.sent == sent + [Reply(from, Refused(CompactionFailed(ContextLimit)))]
    else w'.sent == sent && Parked(w'.server.compaction, from, Fallback, Some(newRef), Some(prefix))
  }

  lemma CheckpointTells(s: Server, from: From, due: Due, newRef: Ref)
    requires Enabled(s.compaction) && Coherent(s.compaction)
    ensures var r, c := CheckpointReply(s, from, Background, due, newRef), s.compaction;
            if !due.blocking then r.sent == [Reply(from, Adopted(r.server.messages))]
            else if c.task.Some? then r.sent == [] && Parked(r.server.compaction, from, Background, c.task, c.prefix)
            else
              var prefix := Prefix(r.server.messages, 0, ProtectedCount(s));
              if prefix == [] then r.sent == [Reply(from, Refused(CompactionFailed(ContextLimit)))]
              else r.sent == [] && Parked(r.server.compaction, from, Fallback, Some(newRef), Some(prefix))
  {
  }

  /** A checkpoint of the current worker is answered with the history stored now, unless the
      blocking threshold is reached; then the worker waits for the task that is running, or
      for one on the longest safe prefix, or is told that the context is full. */
  lemma CheckpointIsAnswered(run: seq<World>, actions: seq<Action>, i: nat)
    requires PolicyRun(run, actions) && i < |actions| && Submits(run[i], actions[i])
    ensures var w, w', a := run[i], run[i + 1], actions[i];
            && w.server.turn.promptIndex.Some?
            && if !a.due.blocking then w'.sent == w.sent + [Reply(a.from, Adopted(w'.server.messages))]
               else if w.server.compaction.task.Some? then
                 && w'.sent == w.sent
                 && Parked(w'.server.compaction, a.from, Background,
                           w.server.compaction.task, w.server.compaction.prefix)
               else BlockedOutright(w', w.sent, a.from, |a.messages| - w.server.turn.promptIndex.value, a.newRef)
  {
    var w, a := run[i], actions[i];
    assert run[i + 1] == Step(w, a);
    RunKeepsInv(run, actions, i);
    PolicyStays(run, actions, i);
    SubmissionSound(w, a);
    CheckpointTells(w.server.(messages := a.messages), a.from, a.due, a.newRef);
    assert w.sent + [] == w.sent;
  }

  lemma WaiterTold(s: Server, from: From, phase: Phase, due: Due, newRef: Ref)
    requires Enabled(s.compaction) && s.compaction.task.None? && s.compaction.waiter.None?
    ensures var r, c := CheckpointReply(s, from, phase, due, newRef), s.compaction;
            if phase != Background && c.result.Some? && c.result.value.Error? then
              r.sent == [Reply(from, Refused(CompactionFailed(c.result.value.reason)))]
            else if phase == Manual then r.sent == [Reply(from, Done)]
            else if !due.blocking then r.sent == [Reply(from, Adopted(r.server.messages))]
            else if phase == Fallback then r.sent == [Reply(from, Refused(CompactionFailed(ContextLimit)))]
            else
              var prefix := Prefix(r.server.messages, 0, ProtectedCount(s));
              if prefix == [] then r.sent == [Reply(from, Refused(CompactionFailed(ContextLimit)))]
              else r.sent == [] && Parked(r.server.compaction, from, Fallback, Some(newRef), Some(prefix))
  {
  }

  /** The end of the task a caller waits for: its error, unless the task was not started for
      this caller; done, if the caller compacts by hand; otherwise the history stored now, or,
      while the blocking threshold is still reached, one more try and then a full context. */
  lemma WaiterIsAnswered(run: seq<World>, actions: seq<Action>, i: nat)
    requires PolicyRun(run, actions) && i < |actions| && TaskEnds(run[i], actions[i])
    requires run[i].server.compaction.waiter.Some?
    ensures var w, w', a := run[i], run[i + 1], actions[i];
            var from, phase := w.server.compaction.waiter.value.from, w.server.compaction.waiter.value.phase;
            var outcome := Available(w, a).value;
            if phase != Background && outcome.Error? then
              w'.sent == w.sent + [Reply(from, Refused(CompactionFailed(outcome.reason)))]
            else if phase == Manual then w'.sent == w.sent + [Reply(from, Done)]
            else if !a.due.blocking then w'.sent == w.sent + [Reply(from, Adopted(w'.server.messages))]
            else if phase == Fallback then w'.sent == w.sent + [Reply(from, Refused(CompactionFailed(ContextLimit)))]
            else
              w.server.turn.promptIndex.Some?
              && BlockedOutright(w', w.sent, from, |w.server.messages| - w.server.turn.promptIndex.value, a.newRef)
  {
    var w, a := run[i], actions[i];
    assert run[i + 1] == Step(w, a);
    RunKeepsInv(run, actions, i);
    PolicyStays(run, actions, i);
    var waiter := w.server.compaction.waiter.value;
    WaiterTold(w.server.(compaction := AfterTask(w, a).(waiter := None)), waiter.from, waiter.phase, a.due, a.newRef);
    assert w.sent + [] == w.sent;
  }

  lemma UnwaitedTaskIsQuiet(run: seq<World>, actions: seq<Action>, i: nat)
    requires IsRun(run, actions) && i < |actions| && (actions[i].TaskDone? || actions[i].TaskTimeout?)
    requires run[i].server.compaction.waiter.None?
    ensures run[i + 1].sent == run[i].sent
  {
    assert run[i + 1] == Step(run[i], actions[i]);
    assert run[i].sent + [] == run[i].sent;
  }

  /** A task is started on `prefix`, or the compaction state keeps the one it has. */
  predicate StartsExactly(c: State, c': State, due: Due, messages: seq<Message>, protectedCount: int, newRef: Ref) {
    && c.policy.Some?
    && var prefix := Prefix(messages, c.policy.value.keep, protectedCount);
       if c.task.None? && due.background && prefix != [] && c.attempted != Some(prefix)
       then c'.task == Some(newRef) && c'.prefix == Some(prefix) && c'.attempted == Some(prefix)
       else c'.task == c.task && c'.attempted == c.attempted
  }

  lemma BackgroundStarts(c: State, messages: seq<Message>, due: Due, protectedCount: int, newRef: Ref)
    requires Enabled(c) && Coherent(c)
    ensures var taken := TakeResult(c, messages);
            StartsExactly(c, StartBackground(taken.state, taken.messages, due, protectedCount, newRef), due,
                          taken.messages, protectedCount, newRef)
  {
  }

  /** At a checkpoint that does not block, a background task is started exactly when none is
      running, the background threshold is reached, and the history now stored has a safe
      prefix before the prompt, past the kept tokens, that is not the last one tried. */
  lemma CheckpointStartsTask(run: seq<World>, actions: seq<Action>, i: nat)
    requires PolicyRun(run, actions) && i < |actions| && Submits(run[i], actions[i]) && !actions[i].due.blocking
    ensures var w, w', a := run[i], run[i + 1], actions[i];
            && w.server.turn.promptIndex.Some?
            && StartsExactly(w.server.compaction, w'.server.compaction, a.due, w'.server.messages,
                             |a.messages| - w.server.turn.promptIndex.value, a.newRef)
  {
    var w, a := run[i], actions[i];
    assert run[i + 1] == Step(w, a);
    RunKeepsInv(run, actions, i);
    PolicyStays(run, actions, i);
    SubmissionSound(w, a);
    BackgroundStarts(w.server.compaction, a.messages, a.due, |a.messages| - w.server.turn.promptIndex.value, a.newRef);
  }

  /** The same at the end of a turn that succeeded, where only the last message is protected. */
  lemma SuccessStartsTask(run: seq<World>, actions: seq<Action>, i: nat)
    requires PolicyRun(run, actions) && i < |actions| && Succeeds(run[i], actions[i])
    ensures var w, w', a := run[i], run[i + 1], actions[i];
            StartsExactly(w.server.compaction, w'.server.compaction, a.due, w'.server.messages, 1, a.newRef)
  {
    var w, a := run[i], actions[i];
    assert run[i + 1] == Step(w, a);
    RunKeepsInv(run, actions, i);
    PolicyStays(run, actions, i);
    BackgroundStarts(w.server.compaction, a.result.messages, a.due, 1, a.newRef);
  }
}

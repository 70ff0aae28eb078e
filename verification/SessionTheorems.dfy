/** What every run of the session server keeps, and what follows from it. */
module SessionTheorems {
  import opened Common
  import opened Compaction
  import opened Session
  import opened SessionRuns

  // ------------------------------------------------- the server on its own

  /** The same turn, but for the place of its prompt. */
  predicate SameTurn(t: Turn, t': Turn) { t'.(promptIndex := None) == t.(promptIndex := None) }

  /** A checkpoint answered or parked, with the prompt boundary tracked. */
  lemma CheckpointReplySound(s: Server, from: From, phase: Phase, due: Due, newRef: Ref)
    requires Sound(s) && Enabled(s.compaction) && s.compaction.waiter.None?
    requires phase == Manual <==> !s.turn.streaming
    ensures var r := CheckpointReply(s, from, phase, due, newRef);
            && Sound(r.server) && Enabled(r.server.compaction)
            && SameTurn(s.turn, r.server.turn) && r.server.assigns == s.assigns
            && r.server.compaction.policy == s.compaction.policy
            && (r.sent == [] <==> r.server.compaction.waiter.Some?)
            && (r.sent == [] ==> r.server.compaction.waiter.value.from == from && s.turn.streaming)
            && (r.sent != [] ==> |r.sent| == 1 && r.sent[0].Reply? && r.sent[0].from == from)
            && (r.sent != [] && phase != Manual ==>
                  r.sent[0].answer == Adopted(r.server.messages) || r.sent[0].answer.Refused?)
            && (s.turn.streaming ==>
                  r.server.messages[r.server.turn.promptIndex.value..] == s.messages[s.turn.promptIndex.value..])
  {
    var boundary := if s.turn.streaming then s.turn.promptIndex.value else |s.messages|;
    CheckpointKeepsProtected(s.compaction, s.messages, from, phase, ProtectedCount(s), boundary, due, newRef);
  }

  lemma CompactionFinishedSound(s: Server, due: Due, newRef: Ref, from: From, stream: StreamRef)
    requires Enabled(s.compaction) && TurnShape(s) && Bounded(s) && s.compaction.task.None?
    requires Coherent(s.compaction.(waiter := None))
    ensures var r := CompactionFinished(s, due, newRef);
            && Sound(r.server) && r.server.compaction.policy == s.compaction.policy
            && Replies(r.sent, from) + OwedReplies(r.server, from) == OwedReplies(s, from)
            && Ends(r.sent, stream) + OwedEnds(r.server, stream) == OwedEnds(s, stream)
  {
    if s.compaction.waiter.Some? {
      var waiter := s.compaction.waiter.value;
      CheckpointReplySound(s.(compaction := s.compaction.(waiter := None)), waiter.from, waiter.phase, due, newRef);
    } else if !s.turn.streaming {
      AdoptionKeepsSuffix(s.compaction, s.messages, |s.messages|);
    }
  }

  lemma MaybeCompactSound(s: Server, compacted: seq<Message>, due: Due, newRef: Ref)
    requires Sound(s) && !s.turn.streaming && s.compaction.waiter.None?
    ensures var s' := MaybeCompact(s, compacted, due, newRef);
            && Sound(s') && s'.turn == s.turn && s'.compaction.waiter.None? && s'.assigns == s.assigns
            && s'.compaction.policy == s.compaction.policy
  {
    AdoptionKeepsSuffix(s.compaction, s.messages, |s.messages|);
  }

  lemma CountsOfFew(x: Sent, y: Sent, from: From, stream: StreamRef)
    ensures Replies([x], from) == if x.Reply? && x.from == from then 1 else 0
    ensures Ends([x], stream) == if x == Broadcast(stream, StreamDone) then 1 else 0
    ensures Replies([x, y], from) == Replies([x], from) + Replies([y], from)
    ensures Ends([x, y], stream) == Ends([x], stream) + Ends([y], stream)
  {
    assert [x, y] == [x] + [y];
    CountsOfConcat([x], [y], from, stream);
  }

  // ------------------------------------------------------------- one step

  /** A worker free to speak for the current turn finds that turn open and nobody waiting. */
  lemma SpeakerOwnsTurn(w: World, ref: Ref)
    requires Steady(w) && ref in w.workers && w.workers[ref].status in {Running, Failing} && Current(w.server, ref)
    ensures w.server.turn.streaming && w.server.compaction.waiter.None?
    ensures w.server.turn.recipient == Some(w.workers[ref].owner)
  {
  }

  /** The list a worker ends with reaches past everything being summarized. */
  lemma DoneSound(w: World, a: Action)
    requires Steady(w) && Possible(w, a) && a.WorkerDone? && Current(w.server, a.ref)
    ensures w.server.compaction.waiter.None? && Sound(w.server.(turn := FinishTurn(w.server.turn)))
    ensures var finished := w.server.(turn := FinishTurn(w.server.turn), messages := a.result.messages,
                                      assigns := a.result.assigns);
            var after := MaybeCompact(finished, a.compacted, a.due, a.newRef);
            a.result.Succeeded? || !Enabled(w.server.compaction) ==>
              && Sound(finished) && Sound(after) && after.turn == finished.turn
              && after.compaction.waiter.None? && after.compaction.policy == w.server.compaction.policy
  {
    SpeakerOwnsTurn(w, a.ref);
    var finished := w.server.(turn := FinishTurn(w.server.turn), messages := a.result.messages,
                              assigns := a.result.assigns);
    if a.result.Succeeded? || !Enabled(w.server.compaction) {
      assert Sound(finished);
      MaybeCompactSound(finished, a.compacted, a.due, a.newRef);
    }
  }

  /** Aborting pays every debt. */
  lemma AbortPays(s: Server, newRef: Ref, from: From, stream: StreamRef)
    ensures var r := AbortTurn(s, newRef);
            && OwedReplies(r.server, from) == 0 && OwedEnds(r.server, stream) == 0
            && Replies(r.sent, from) == OwedReplies(s, from) && Ends(r.sent, stream) == OwedEnds(s, stream)
  {
    CountsOfConcat(ReleaseWaiter(s).sent, Farewell(s.turn.recipient), from, stream);
    match s.turn.recipient
    case Some(StreamTo(ended)) =>
      CountsOfFew(Broadcast(ended, StreamError(Aborted)), Broadcast(ended, StreamDone), from, stream);
    case _ =>
  }

  /** Whatever a step sends pays for exactly what is no longer owed. */
  predicate Pays(w: World, a: Action, from: From, stream: StreamRef)
    requires Possible(w, a)
  {
    var r := React(w, a);
    && Replies(r.sent, from) + OwedReplies(r.server, from)
       == OwedReplies(w.server, from) + (if IsCall(a) && a.from == from then 1 else 0)
    && Ends(r.sent, stream) + OwedEnds(r.server, stream)
       == OwedEnds(w.server, stream) + (if a.CastStream? && a.stream == stream then 1 else 0)
  }

  predicate Keeps(w: World, a: Action)
    requires Possible(w, a)
  {
    Sound(React(w, a).server) && React(w, a).server.compaction.policy == w.server.compaction.policy
  }

  /** What the current worker submits can be stored in place of the history. */
  lemma SubmissionSound(w: World, a: Action)
    requires Steady(w) && Possible(w, a) && a.WorkerCheckpoint? && Current(w.server, a.ref)
    ensures w.server.turn.streaming && w.server.compaction.waiter.None? && Sound(w.server.(messages := a.messages))
    ensures PromptKept(w.server.(messages := a.messages), Send(w, a)[a.ref])
  {
    SpeakerOwnsTurn(w, a.ref);
    assert PromptKept(w.server, w.workers[a.ref]);
  }

  lemma CheckpointStep(w: World, a: Action, from: From, stream: StreamRef)
    requires Steady(w) && Possible(w, a) && a.WorkerCheckpoint?
    ensures Keeps(w, a) && Pays(w, a, from, stream)
  {
    if Current(w.server, a.ref) {
      SubmissionSound(w, a);
      CheckpointReplySound(w.server.(messages := a.messages), a.from, Background, a.due, a.newRef);
    }
  }

  lemma DoneStep(w: World, a: Action, from: From, stream: StreamRef)
    requires Steady(w) && Possible(w, a) && a.WorkerDone?
    ensures Keeps(w, a) && Pays(w, a, from, stream)
  {
    if Current(w.server, a.ref) {
      SpeakerOwnsTurn(w, a.ref);
      DoneSound(w, a);
    }
  }

  lemma TaskStep(w: World, a: Action, from: From, stream: StreamRef)
    requires Sound(w.server) && Possible(w, a) && (a.TaskDone? || a.TaskTimeout?)
    ensures Keeps(w, a) && Pays(w, a, from, stream)
  {
    var c := w.server.compaction;
    if c.task == Some(a.task) {
      var c' := if a.TaskDone? then Complete(c, a.task, a.outcome) else Cancel(c).(result := Some(Error(Timeout)));
      CompactionFinishedSound(w.server.(compaction := c'), a.due, a.newRef, from, stream);
    }
  }

  lemma AbortKeeps(w: World, a: Action)
    requires Sound(w.server) && Possible(w, a) && (a.CallAbort? || a.CallClear? || a.WorkerEvent?)
    ensures Keeps(w, a)
  {
  }

  lemma AbortCallPays(w: World, a: Action, from: From, stream: StreamRef)
    requires Possible(w, a) && (a.CallAbort? || a.CallClear?)
    ensures Pays(w, a, from, stream)
  {
    var sent := AbortTurn(w.server, a.newRef).sent;
    AbortPays(w.server, a.newRef, from, stream);
    CountsOfConcat(sent, [Reply(a.from, Done)], from, stream);
    CountsOfFew(Reply(a.from, Done), Reply(a.from, Done), from, stream);
  }

  lemma EventPays(w: World, a: Action, from: From, stream: StreamRef)
    requires Possible(w, a) && a.WorkerEvent?
    ensures Pays(w, a, from, stream)
  {
    var progress := Broadcast(a.stream, Progress);
    AbortPays(w.server, a.newRef, from, stream);
    CountsOfConcat([progress], AbortTurn(w.server, a.newRef).sent, from, stream);
    CountsOfFew(progress, progress, from, stream);
  }

  lemma StartStep(w: World, a: Action, from: From, stream: StreamRef)
    requires Sound(w.server) && Possible(w, a)
    requires a.CallRun? || a.CastStream? || a.CallCompact? || a.CallCheckTurn? || a.WorkerCrash?
    ensures Keeps(w, a) && Pays(w, a, from, stream)
  {
    if a.CastStream? {
      CountsOfFew(Broadcast(a.stream, StreamError(AlreadyStreaming)), Broadcast(a.stream, StreamDone), from, stream);
    }
  }

  lemma StepPays(w: World, a: Action, from: From, stream: StreamRef)
    requires Steady(w) && Possible(w, a)
    ensures Keeps(w, a) && Pays(w, a, from, stream)
  {
    match a
    case WorkerCheckpoint(_, _, _, _, _) => CheckpointStep(w, a, from, stream);
    case WorkerDone(_, _, _, _, _) => DoneStep(w, a, from, stream);
    case TaskDone(_, _, _, _) => TaskStep(w, a, from, stream);
    case TaskTimeout(_, _, _) => TaskStep(w, a, from, stream);
    case CallAbort(_, _) => AbortKeeps(w, a); AbortCallPays(w, a, from, stream);
    case CallClear(_, _) => AbortKeeps(w, a); AbortCallPays(w, a, from, stream);
    case WorkerEvent(_, _, _, _) => AbortKeeps(w, a); EventPays(w, a, from, stream);
    case _ => StartStep(w, a, from, stream);
  }

  lemma StepBalanced(w: World, a: Action)
    requires Inv(w) && Possible(w, a)
    ensures Balanced(Step(w, a))
  {
    var w' := Step(w, a);
    forall from
      ensures Replies(w'.sent, from) + OwedReplies(w'.server, from) == if from in w'.calls then 1 else 0
    {
      StepPays(w, a, from, 0);
      CountsOfConcat(w.sent, React(w, a).sent, from, 0);
    }
    forall stream
      ensures Ends(w'.sent, stream) + OwedEnds(w'.server, stream) == if stream in w'.streams then 1 else 0
    {
      StepPays(w, a, 0, stream);
      CountsOfConcat(w.sent, React(w, a).sent, 0, stream);
    }
  }

  predicate Aborts(w: World, a: Action) {
    a.CallAbort? || a.CallClear? || (a.WorkerEvent? && a.stop && Current(w.server, a.ref))
  }

  predicate Starts(w: World, a: Action) { (a.CallRun? || a.CastStream?) && !Busy(w.server) }

  predicate Finishes(w: World, a: Action) { a.WorkerDone? && Current(w.server, a.ref) }

  function Owner(a: Action): Recipient
    requires a.CallRun? || a.CastStream?
  {
    if a.CallRun? then RunCaller(a.from) else StreamTo(a.stream)
  }

  /** The only ways a step moves the turn. */
  predicate TurnMoved(w: World, a: Action, t': Turn) {
    if Aborts(w, a) then t' == AbandonTurn(a.newRef)
    else if Starts(w, a) then t' == StartTurn(Owner(a), |w.server.messages|, a.newRef)
    else if Finishes(w, a) then t' == FinishTurn(w.server.turn)
    else SameTurn(w.server.turn, t')
  }

  lemma TurnMoves(w: World, a: Action)
    requires Steady(w) && Possible(w, a)
    ensures TurnMoved(w, a, React(w, a).server.turn)
  {
    if Finishes(w, a) {
      DoneSound(w, a);
    }
  }

  /** What a step does to the workers, apart from the lists they hold. */
  ghost predicate WorkersMoved(w: World, a: Action, after: map<Ref, Worker>) {
    && after.Keys == w.workers.Keys + (if Starts(w, a) then {a.newRef} else {})
    && (forall r :: r in w.workers ==>
          && after[r].owner == w.workers[r].owner && after[r].prompt == w.workers[r].prompt
          && after[r].captured == w.workers[r].captured
          && (after[r].status == Ended <==> w.workers[r].status == Ended || (a.WorkerDone? && a.ref == r)))
    && (Starts(w, a) ==> after[a.newRef] == NewWorker(w.server, Owner(a), a.prompt))
  }

  lemma SendMoves(w: World, a: Action)
    requires Possible(w, a) && forall r :: r in w.workers ==> r < w.clock
    ensures WorkersMoved(w, a, Send(w, a))
  {
    match a
    case WorkerCheckpoint(_, _, _, _, _) =>
    case WorkerDone(_, _, _, _, _) =>
    case WorkerCrash(_) =>
    case _ =>
  }

  lemma WakeMoves(before: map<Ref, Worker>, sent: seq<Sent>, r: Ref)
    requires r in before
    ensures WakeAll(before, sent).Keys == before.Keys
    ensures var k := WakeAll(before, sent)[r];
            && k.owner == before[r].owner && k.prompt == before[r].prompt && k.captured == before[r].captured
            && (k.status == Ended <==> before[r].status == Ended)
            && (!before[r].status.Blocked? ==> k == before[r])
  {
  }

  lemma WorkersMove(w: World, a: Action, sent: seq<Sent>)
    requires Possible(w, a) && forall r :: r in w.workers ==> r < w.clock
    ensures WorkersMoved(w, a, WakeAll(Send(w, a), sent))
  {
    SendMoves(w, a);
    var before := Send(w, a);
    forall r | r in before
      ensures var k := WakeAll(before, sent)[r];
              && k.owner == before[r].owner && k.prompt == before[r].prompt && k.captured == before[r].captured
              && (k.status == Ended <==> before[r].status == Ended)
              && (!before[r].status.Blocked? ==> k == before[r])
    {
      WakeMoves(before, sent, r);
    }
  }

  lemma StepFenced(w: World, a: Action)
    requires Steady(w) && Possible(w, a)
    ensures Sound(Step(w, a).server) && Fenced(Step(w, a))
  {
    StepPays(w, a, 0, 0);
    TurnMoves(w, a);
    WorkersMove(w, a, React(w, a).sent);
    FencedAfter(w, a, React(w, a).server, WakeAll(Send(w, a), React(w, a).sent));
  }

  lemma FencedAfter(w: World, a: Action, s': Server, after: map<Ref, Worker>)
    requires Steady(w) && Possible(w, a) && Sound(s') && TurnMoved(w, a, s'.turn) && WorkersMoved(w, a, after)
    ensures Fenced(World(s', after, if a.CallCheckTurn? || a.WorkerCrash? then w.clock else a.newRef + 1, [], [], []))
  {
  }

  // ------------------------------------- blocked workers and the prompt index

  /** The caller the server waits for has called, and is not the one calling now. */
  lemma WaiterIsKnown(w: World)
    requires Inv(w) && w.server.compaction.waiter.Some?
    ensures w.server.compaction.waiter.value.from in w.calls
  {
    assert OwedReplies(w.server, w.server.compaction.waiter.value.from) >= 1;
  }

  predicate Aligned(w: World)
    requires Sound(w.server) && Fenced(w)
  {
    Waiting(w) && PromptInv(w)
  }

  lemma AbortAligned(w: World, a: Action)
    requires Steady(w) && Possible(w, a) && Aborts(w, a) && Sound(Step(w, a).server) && Fenced(Step(w, a))
    ensures Aligned(Step(w, a))
  {
    var r := React(w, a);
    assert r.server.turn == AbandonTurn(a.newRef) && r.server.compaction.waiter.None?;
    assert Send(w, a) == w.workers;
    if a.WorkerEvent? {
      SpeakerOwnsTurn(w, a.ref);
    } else {
      assert r.sent == AbortTurn(w.server, a.newRef).sent + [Reply(a.from, Done)];
    }
    forall k | k in w.workers
      ensures !Step(w, a).workers[k].status.Blocked?
    {
      if w.workers[k].status.Blocked? {
        assert r.sent[0] == Reply(w.workers[k].status.from, Refused(Aborted));
      }
    }
  }

  lemma StartAligned(w: World, a: Action)
    requires Steady(w) && Possible(w, a) && Starts(w, a) && Sound(Step(w, a).server) && Fenced(Step(w, a))
    ensures Aligned(Step(w, a))
  {
    assert a.newRef !in w.workers;
  }

  lemma FinishAligned(w: World, a: Action)
    requires Steady(w) && Possible(w, a) && Finishes(w, a) && Sound(Step(w, a).server) && Fenced(Step(w, a))
    ensures Aligned(Step(w, a))
  {
    SpeakerOwnsTurn(w, a.ref);
    DoneSound(w, a);
  }

  /** A checkpoint is parked, or answered once with the history now stored or a refusal. */
  predicate Replied(s: Server, sent: seq<Sent>, from: From) {
    && (sent == [] <==> s.compaction.waiter.Some?)
    && (sent == [] ==> s.compaction.waiter.value.from == from)
    && (sent != [] ==>
          |sent| == 1 && sent[0].Reply? && sent[0].from == from
          && (sent[0].answer == Adopted(s.messages) || sent[0].answer.Refused?))
  }

  /** The worker that asked goes on from its prompt, wherever the prompt is now. */
  lemma PromptAfterReply(s: Server, s': Server, k: Worker, sent: seq<Sent>, from: From)
    requires s.turn.promptIndex.Some? && 0 <= s.turn.promptIndex.value <= |s.messages|
    requires s'.turn.promptIndex.Some? && 0 <= s'.turn.promptIndex.value <= |s'.messages|
    requires s'.messages[s'.turn.promptIndex.value..] == s.messages[s.turn.promptIndex.value..]
    requires PromptKept(s, k) && k.checkpointed && k.status in {Blocked(from), Crashed} && Replied(s', sent, from)
    ensures PromptKept(s', Wake(k, sent))
  {
    var k', p' := Wake(k, sent), s'.turn.promptIndex.value;
    if k'.status == Running {
      assert k'.list == s'.messages && k'.promptAt == p';
      assert s'.messages[p'..][0] == k.list[k.promptAt..][0];
    }
  }

  /** The worker `ref` of the turn asked, or crashed while asking; nobody else is blocked. */
  lemma WaitingAfterReply(w': World, ref: Ref, k: Worker, sent: seq<Sent>, from: From)
    requires Sound(w'.server) && Fenced(w') && w'.server.turn.streaming && Current(w'.server, ref)
    requires ref in w'.workers && w'.workers[ref] == Wake(k, sent)
    requires k.checkpointed && k.status in {Blocked(from), Crashed} && Replied(w'.server, sent, from)
    requires forall r :: r in w'.workers && r != ref ==> !w'.workers[r].status.Blocked?
    ensures Waiting(w')
  {
  }

  lemma ReplyAligned(s: Server, w': World, ref: Ref, k: Worker, sent: seq<Sent>, from: From)
    requires s.turn.promptIndex.Some? && 0 <= s.turn.promptIndex.value <= |s.messages| && PromptKept(s, k)
    requires k.checkpointed && k.status in {Blocked(from), Crashed}
    requires Sound(w'.server) && Enabled(w'.server.compaction) && Fenced(w')
    requires w'.server.turn.streaming && Current(w'.server, ref) && Replied(w'.server, sent, from)
    requires w'.server.messages[w'.server.turn.promptIndex.value..] == s.messages[s.turn.promptIndex.value..]
    requires ref in w'.workers && w'.workers[ref] == Wake(k, sent)
    requires forall r :: r in w'.workers && r != ref ==> !w'.workers[r].status.Blocked?
    ensures Aligned(w')
  {
    PromptAfterReply(s, w'.server, k, sent, from);
    WaitingAfterReply(w', ref, k, sent, from);
  }

  /** The worker of the current turn checkpoints. */
  lemma CheckpointAligned(w: World, a: Action)
    requires Steady(w) && Possible(w, a) && a.WorkerCheckpoint? && Sound(Step(w, a).server) && Fenced(Step(w, a))
    requires Current(w.server, a.ref) && w.server.turn.streaming
    ensures Aligned(Step(w, a))
  {
    SubmissionSound(w, a);
    var s := w.server.(messages := a.messages);
    CheckpointReplySound(s, a.from, Background, a.due, a.newRef);
    ReplyAligned(s, Step(w, a), a.ref, Send(w, a)[a.ref], React(w, a).sent, a.from);
  }

  /** The compaction task ends while a caller waits for it. */
  lemma WaitedTaskAligned(w: World, a: Action)
    requires Steady(w) && Possible(w, a) && (a.TaskDone? || a.TaskTimeout?)
    requires Sound(Step(w, a).server) && Fenced(Step(w, a)) && w.server.compaction.task == Some(a.task)
    requires w.server.compaction.waiter.Some?
    ensures Aligned(Step(w, a))
  {
    var c := w.server.compaction;
    var c' := if a.TaskDone? then Complete(c, a.task, a.outcome) else Cancel(c).(result := Some(Error(Timeout)));
    var s := w.server.(compaction := c'.(waiter := None));
    CheckpointReplySound(s, c.waiter.value.from, c.waiter.value.phase, a.due, a.newRef);
    assert React(w, a) == CheckpointReply(s, c.waiter.value.from, c.waiter.value.phase, a.due, a.newRef);
    if w.server.turn.streaming {
      var ref := w.server.turn.abortRef.value;
      ReplyAligned(s, Step(w, a), ref, w.workers[ref], React(w, a).sent, c.waiter.value.from);
    }
  }

  lemma TaskAligned(w: World, a: Action)
    requires Steady(w) && Possible(w, a) && (a.TaskDone? || a.TaskTimeout?)
    requires Sound(Step(w, a).server) && Fenced(Step(w, a)) && w.server.compaction.task == Some(a.task)
    ensures Aligned(Step(w, a))
  {
    var r := React(w, a);
    if w.server.compaction.waiter.Some? {
      WaitedTaskAligned(w, a);
    } else {
      assert r.sent == [] && r.server.compaction.waiter.None?;
      assert w.server.turn.streaming ==> r.server.messages == w.server.messages && r.server.turn == w.server.turn;
    }
  }

  predicate Routine(w: World, a: Action) {
    && !Aborts(w, a) && !Starts(w, a) && !Finishes(w, a)
    && (a.WorkerCheckpoint? ==> !Current(w.server, a.ref) || !w.server.turn.streaming)
    && ((a.TaskDone? || a.TaskTimeout?) ==> w.server.compaction.task != Some(a.task))
  }

  /** Anything else leaves the server as it is, but for a manual compaction, and speaks
      to nobody but the caller. */
  lemma RoutineReaction(w: World, a: Action, from: From)
    requires Steady(w) && Possible(w, a) && Routine(w, a)
    ensures var r := React(w, a);
            && (r.server == w.server || a.CallCompact?)
            && r.server.turn == w.server.turn && r.server.compaction.policy == w.server.compaction.policy
            && (Enabled(w.server.compaction) ==> r.server.messages == w.server.messages)
            && (w.server.turn.streaming ==> r.server.compaction == w.server.compaction)
            && (AnswerTo(from, r.sent).Some? ==> IsCall(a) && from == a.from)
            && (a.WorkerCheckpoint? ==> r.sent == [Reply(a.from, Refused(Aborted))])
  {
    AnswerNeedsReply(from, React(w, a).sent);
  }

  lemma AnswerNeedsReply(from: From, sent: seq<Sent>)
    ensures AnswerTo(from, sent).Some? ==> exists x :: x in sent && x.Reply? && x.from == from
  {
    if sent == [] || (sent[0].Reply? && sent[0].from == from) {
    } else {
      AnswerNeedsReply(from, sent[1..]);
    }
  }

  /** Blocked workers and the active one stay aligned when only bystanders move. */
  lemma BystandersAligned(w: World, w': World)
    requires Steady(w) && Sound(w'.server) && Fenced(w') && w'.server.turn == w.server.turn
    requires w'.server.compaction.policy == w.server.compaction.policy
    requires Enabled(w.server.compaction) ==> w'.server.messages == w.server.messages
    requires w.server.turn.streaming ==> w'.server.compaction == w.server.compaction
    requires w'.workers.Keys == w.workers.Keys
    requires forall k :: k in w.workers && w.server.turn.streaming && Current(w.server, k) ==>
               w'.workers[k] in {w.workers[k], w.workers[k].(status := Crashed)}
    requires forall k :: k in w.workers && w'.workers[k].status.Blocked? ==> w'.workers[k] == w.workers[k]
    ensures Aligned(w')
  {
  }

  lemma RoutineWorkers(w: World, a: Action, after: map<Ref, Worker>)
    requires Inv(w) && Possible(w, a) && Routine(w, a) && after == WakeAll(Send(w, a), React(w, a).sent)
    ensures after.Keys == w.workers.Keys
    ensures forall k :: k in w.workers && w.server.turn.streaming && Current(w.server, k) ==>
              after[k] in {w.workers[k], w.workers[k].(status := Crashed)}
    ensures forall k :: k in w.workers && after[k].status.Blocked? ==> after[k] == w.workers[k]
  {
    forall k | k in w.workers
      ensures w.server.turn.streaming && Current(w.server, k) ==>
                after[k] in {w.workers[k], w.workers[k].(status := Crashed)}
      ensures after[k].status.Blocked? ==> after[k] == w.workers[k]
    {
      RoutineWorker(w, a, k);
    }
  }

  lemma RoutineAligned(w: World, a: Action)
    requires Inv(w) && Possible(w, a) && Sound(Step(w, a).server) && Fenced(Step(w, a)) && Routine(w, a)
    ensures Aligned(Step(w, a))
  {
    RoutineReaction(w, a, 0);
    RoutineWorkers(w, a, Step(w, a).workers);
    BystandersAligned(w, Step(w, a));
  }

  lemma RoutineWorker(w: World, a: Action, k: Ref)
    requires Inv(w) && Possible(w, a) && Routine(w, a) && k in w.workers
    ensures var k' := Wake(Send(w, a)[k], React(w, a).sent);
            && (w.server.turn.streaming && Current(w.server, k) ==>
                  k' in {w.workers[k], w.workers[k].(status := Crashed)})
            && (k'.status.Blocked? ==> k' == w.workers[k])
  {
    if a.WorkerCheckpoint? && a.ref == k {
      RoutineReaction(w, a, a.from);
      assert AnswerTo(a.from, [Reply(a.from, Refused(Aborted))]) == Some(Refused(Aborted));
    } else if w.workers[k].status.Blocked? {
      WaiterIsKnown(w);
      RoutineReaction(w, a, w.workers[k].status.from);
    }
  }

  lemma StepKeepsInv(w: World, a: Action)
    requires Inv(w) && Possible(w, a)
    ensures Inv(Step(w, a))
  {
    StepFenced(w, a);
    StepBalanced(w, a);
    if Aborts(w, a) { AbortAligned(w, a); }
    else if Starts(w, a) { StartAligned(w, a); }
    else if Finishes(w, a) { FinishAligned(w, a); }
    else if a.WorkerCheckpoint? && Current(w.server, a.ref) && w.server.turn.streaming { CheckpointAligned(w, a); }
    else if (a.TaskDone? || a.TaskTimeout?) && w.server.compaction.task == Some(a.task) { TaskAligned(w, a); }
    else { RoutineAligned(w, a); }
  }

  // ------------------------------------------------------------- whole runs

  lemma {:induction false} RunKeepsInv(run: seq<World>, actions: seq<Action>, i: nat)
    requires IsRun(run, actions) && Initial(run[0]) && i < |run|
    ensures Inv(run[i])
  {
    if i == 0 {
    } else {
      RunKeepsInv(run, actions, i - 1);
      StepKeepsInv(run[i - 1], actions[i - 1]);
    }
  }

  /** In every state of every run, each call received (run, abort, clear, compact, turn
      check, checkpoint) has been replied to exactly once, except the caller of the active
      run and the compaction waiter, which have had no reply yet; nobody else ever gets one. */
  lemma CallsAnsweredExactlyOnce(run: seq<World>, actions: seq<Action>, i: nat, from: From)
    requires IsRun(run, actions) && Initial(run[0]) && i < |run|
    ensures var w := run[i];
            var pending := w.server.turn.recipient == Some(RunCaller(from))
                           || (w.server.compaction.waiter.Some? && w.server.compaction.waiter.value.from == from);
            Replies(w.sent, from) == if from in w.calls && !pending then 1 else 0
  {
    RunKeepsInv(run, actions, i);
    assert OwedReplies(run[i].server, from) >= 0;
  }

  /** Each stream requested gets its end marker exactly once, when its turn is over or refused. */
  lemma StreamsEndExactlyOnce(run: seq<World>, actions: seq<Action>, i: nat, stream: StreamRef)
    requires IsRun(run, actions) && Initial(run[0]) && i < |run|
    ensures var w := run[i];
            Ends(w.sent, stream)
            == if stream in w.streams && w.server.turn.recipient != Some(StreamTo(stream)) then 1 else 0
  {
    RunKeepsInv(run, actions, i);
    assert OwedEnds(run[i].server, stream) >= 0;
  }

  /** A waiting caller always has a running compaction task that will wake it. */
  lemma WaiterHasTask(run: seq<World>, actions: seq<Action>, i: nat)
    requires IsRun(run, actions) && Initial(run[0]) && i < |run|
    ensures run[i].server.compaction.waiter.Some? ==> run[i].server.compaction.task.Some?
  {
    RunKeepsInv(run, actions, i);
  }

  predicate SpokenBy(a: Action, ref: Ref) {
    (a.WorkerCheckpoint? || a.WorkerEvent? || a.WorkerDone? || a.WorkerCrash?) && a.ref == ref
  }

  /** Once a turn is abandoned its worker never becomes current again ... */
  lemma {:induction false} AbandonedForever(run: seq<World>, actions: seq<Action>, ref: Ref, i: nat, j: nat)
    requires IsRun(run, actions) && Initial(run[0]) && i <= j < |run|
    requires ref in run[i].workers && !Current(run[i].server, ref)
    ensures ref in run[j].workers && !Current(run[j].server, ref)
  {
    if i == j {
    } else {
      AbandonedForever(run, actions, ref, i, j - 1);
      RunKeepsInv(run, actions, j - 1);
      TurnMoves(run[j - 1], actions[j - 1]);
      WorkersMove(run[j - 1], actions[j - 1], React(run[j - 1], actions[j - 1]).sent);
    }
  }

  /** ... and nothing it says changes history, assigns, compaction or a later turn. All it
      ever hears is a refusal. */
  lemma AbandonedWorkerIsInert(run: seq<World>, actions: seq<Action>, ref: Ref, i: nat, j: nat)
    requires IsRun(run, actions) && Initial(run[0]) && i <= j < |actions|
    requires ref in run[i].workers && !Current(run[i].server, ref)
    requires SpokenBy(actions[j], ref)
    ensures run[j + 1].server == run[j].server
    ensures forall x :: x in run[j + 1].sent[|run[j].sent|..] ==> x.Reply? && x.answer == Refused(Aborted)
  {
    AbandonedForever(run, actions, ref, i, j);
    assert run[j + 1] == Step(run[j], actions[j]);
    assert run[j + 1].sent[|run[j].sent|..] == React(run[j], actions[j]).sent;
  }

  /** ... not even for the admission of a tool: every turn check it makes is refused. */
  lemma AbandonedWorkerIsNotAdmitted(run: seq<World>, actions: seq<Action>, ref: Ref, i: nat, j: nat, from: From)
    requires IsRun(run, actions) && Initial(run[0]) && i <= j < |actions|
    requires ref in run[i].workers && !Current(run[i].server, ref) && actions[j] == CallCheckTurn(from, ref)
    ensures run[j + 1].sent == run[j].sent + [Reply(from, Refused(Aborted))]
  {
    AbandonedForever(run, actions, ref, i, j);
    assert run[j + 1] == Step(run[j], actions[j]);
  }

  /** What an abort sends goes to those still owed something and tells them so. */
  lemma AbortSends(s: Server, newRef: Ref, x: Sent)
    requires x in AbortTurn(s, newRef).sent
    ensures match x
            case Reply(from, answer) => answer == Refused(Aborted) && OwedReplies(s, from) > 0
            case Broadcast(stream, event) => event in {StreamError(Aborted), StreamDone} && OwedEnds(s, stream) > 0
  {
  }

  /** Aborting or clearing tells everybody who was waiting that they were aborted, and only that. */
  lemma AbortRefusesTheWaiting(run: seq<World>, actions: seq<Action>, i: nat, x: Sent)
    requires IsRun(run, actions) && Initial(run[0]) && i < |actions| && Aborts(run[i], actions[i])
    requires x in React(run[i], actions[i]).sent
    ensures match x
            case Reply(from, answer) =>
              if IsCall(actions[i]) && from == actions[i].from then answer == Done
              else answer == Refused(Aborted) && OwedReplies(run[i].server, from) > 0
            case Broadcast(stream, event) =>
              event == Progress || (event in {StreamError(Aborted), StreamDone} && OwedEnds(run[i].server, stream) > 0)
  {
    var s, a := run[i].server, actions[i];
    if x in AbortTurn(s, a.newRef).sent {
      AbortSends(s, a.newRef, x);
      RunKeepsInv(run, actions, i);
      if IsCall(a) { CallerIsNew(run[i], a); }
    }
  }

  lemma CallerIsNew(w: World, a: Action)
    requires Inv(w) && Possible(w, a) && IsCall(a)
    ensures OwedReplies(w.server, a.from) == 0
  {
    assert a.from !in w.calls;
  }

  /** The final list of a worker holds its own prompt where the index says. */
  lemma FinalListHoldsPrompt(w: World, a: Action)
    requires Steady(w) && Possible(w, a) && Enabled(w.server.compaction) && Finishes(w, a) && a.result.Succeeded?
    ensures w.server.turn.promptIndex.Some? && 0 <= w.server.turn.promptIndex.value < |a.result.messages|
    ensures a.result.messages[w.server.turn.promptIndex.value] == w.workers[a.ref].prompt
    ensures Within(w.server.compaction, w.server.turn.promptIndex.value)
  {
    SpeakerOwnsTurn(w, a.ref);
    var k := w.workers[a.ref];
    assert k.status == Running && PromptKept(w.server, k);
    assert a.result.messages[k.promptAt] == k.list[k.promptAt];
  }

  lemma FinishStores(w: World, a: Action)
    requires Steady(w) && Possible(w, a) && Enabled(w.server.compaction) && Finishes(w, a) && a.result.Succeeded?
    ensures var s := React(w, a).server;
            && s.messages == TakeResult(w.server.compaction, a.result.messages).messages
            && s.assigns == a.result.assigns && !s.turn.streaming
    ensures React(w, a).sent
            == match w.workers[a.ref].owner
               case RunCaller(from) => [Reply(from, Response(a.result.text))]
               case StreamTo(stream) => [Broadcast(stream, StreamDone)]
  {
  }

  /** A turn that succeeds answers its caller with its own result, keeps its assigns, and
      stores everything from its prompt on, even when a summary is adopted on the way out. */
  lemma FinishedTurnIsStored(run: seq<World>, actions: seq<Action>, i: nat)
    requires IsRun(run, actions) && Initial(run[0]) && i < |actions|
    requires Enabled(run[i].server.compaction) && Finishes(run[i], actions[i]) && actions[i].result.Succeeded?
    ensures var p := run[i].server.turn.promptIndex;
            p.Some? && 0 <= p.value < |actions[i].result.messages|
    ensures var own := actions[i].result.messages[run[i].server.turn.promptIndex.value..];
            var stored := run[i + 1].server.messages;
            && own[0] == run[i].workers[actions[i].ref].prompt
            && |own| <= |stored| && stored[|stored| - |own|..] == own
    ensures run[i + 1].server.assigns == actions[i].result.assigns && !run[i + 1].server.turn.streaming
    ensures run[i].server.turn.recipient == Some(run[i].workers[actions[i].ref].owner)
    ensures React(run[i], actions[i]).sent
            == match run[i].workers[actions[i].ref].owner
               case RunCaller(from) => [Reply(from, Response(actions[i].result.text))]
               case StreamTo(stream) => [Broadcast(stream, StreamDone)]
  {
    RunKeepsInv(run, actions, i);
    var w, a := run[i], actions[i];
    SpeakerOwnsTurn(w, a.ref);
    FinalListHoldsPrompt(w, a);
    FinishStores(w, a);
    AdoptionKeepsSuffix(w.server.compaction, a.result.messages, w.server.turn.promptIndex.value);
  }

  predicate Cleared(s: Server) {
    && s.messages == []
    && s.compaction.task.None? && s.compaction.prefix.None? && s.compaction.result.None? && s.compaction.attempted.None?
  }

  lemma CheckpointTask(s: Server, from: From, phase: Phase, due: Due, newRef: Ref)
    requires Enabled(s.compaction)
    ensures CheckpointReply(s, from, phase, due, newRef).server.compaction.task
            in {None, s.compaction.task, Some(newRef)}
  {
  }

  lemma FinishedTask(s: Server, due: Due, newRef: Ref)
    requires Enabled(s.compaction) && s.compaction.task.None?
    ensures CompactionFinished(s, due, newRef).server.compaction.task in {None, Some(newRef)}
  {
    if s.compaction.waiter.Some? {
      var waiter := s.compaction.waiter.value;
      CheckpointTask(s.(compaction := s.compaction.(waiter := None)), waiter.from, waiter.phase, due, newRef);
    }
  }

  /** The compaction task only ever stays, goes, or is replaced by a new one. */
  lemma TaskMoves(w: World, a: Action)
    requires Possible(w, a)
    ensures var task := React(w, a).server.compaction.task;
            || task == None || task == w.server.compaction.task
            || (!a.CallCheckTurn? && !a.WorkerCrash? && task == Some(a.newRef))
  {
    var c := w.server.compaction;
    if a.WorkerCheckpoint? {
      CheckpointTask(w.server.(messages := a.messages), a.from, Background, a.due, a.newRef);
    } else if (a.TaskDone? || a.TaskTimeout?) && c.task == Some(a.task) {
      var c' := if a.TaskDone? then Complete(c, a.task, a.outcome) else Cancel(c).(result := Some(Error(Timeout)));
      FinishedTask(w.server.(compaction := c'), a.due, a.newRef);
    }
  }

  lemma OldTaskStep(w: World, a: Action, task: Ref)
    requires Possible(w, a) && task < w.clock && w.server.compaction.task != Some(task)
    ensures task < Step(w, a).clock && Step(w, a).server.compaction.task != Some(task)
  {
    TaskMoves(w, a);
  }

  lemma {:induction false} OldTaskNeverReturns(run: seq<World>, actions: seq<Action>, i: nat, j: nat, task: Ref)
    requires IsRun(run, actions) && i <= j < |run|
    requires task < run[i].clock && run[i].server.compaction.task != Some(task)
    ensures task < run[j].clock && run[j].server.compaction.task != Some(task)
  {
    if i == j {
    } else {
      OldTaskNeverReturns(run, actions, i, j - 1, task);
      OldTaskStep(run[j - 1], actions[j - 1], task);
    }
  }

  /** Clearing empties the history, and no compaction begun before it can touch what comes after. */
  lemma {:induction false} ClearForgetsCompactions(run: seq<World>, actions: seq<Action>, i: nat, j: nat)
    requires IsRun(run, actions) && Initial(run[0]) && i < j < |actions| && actions[i].CallClear?
    requires (actions[j].TaskDone? || actions[j].TaskTimeout?) && actions[j].task < run[i].clock
    ensures Cleared(run[i + 1].server)
    ensures run[j + 1].server == run[j].server
  {
    assert run[i + 1] == Step(run[i], actions[i]);
    OldTaskNeverReturns(run, actions, i + 1, j, actions[j].task);
    assert run[j + 1] == Step(run[j], actions[j]);
  }

  /** With background compaction, the prompt index names the active turn's own prompt in
      stored history from the first checkpoint on, however often history is rewritten, and
      everything from the prompt on is what the worker submitted. Before the first
      checkpoint it is the place where the prompt will go. */
  lemma PromptIndexTracksPrompt(run: seq<World>, actions: seq<Action>, i: nat)
    requires IsRun(run, actions) && Initial(run[0]) && i < |run|
    requires Enabled(run[i].server.compaction) && run[i].server.turn.streaming
    ensures var s := run[i].server;
            && s.turn.abortRef.Some? && s.turn.abortRef.value in run[i].workers && s.turn.promptIndex.Some?
            && var k, p := run[i].workers[s.turn.abortRef.value], s.turn.promptIndex.value;
               && 0 <= k.promptAt < |k.list| && k.list[k.promptAt] == k.prompt
               && (if k.checkpointed then
                     0 <= p < |s.messages| && s.messages[p] == k.prompt && s.messages[p..] == k.list[k.promptAt..]
                   else p == |s.messages|)
  {
    RunKeepsInv(run, actions, i);
    var s := run[i].server;
    var k, p := run[i].workers[s.turn.abortRef.value], s.turn.promptIndex.value;
    if k.checkpointed {
      assert |s.messages[p..]| == |k.list[k.promptAt..]| > 0;
      assert s.messages[p] == s.messages[p..][0] == k.list[k.promptAt..][0];
    }
  }

  /** During a turn, stored history moves only inside a checkpoint of that turn's worker:
      when it checkpoints, or when the compaction it is blocked on ends. */
  lemma HistoryMovesOnlyAtCheckpoints(run: seq<World>, actions: seq<Action>, i: nat)
    requires IsRun(run, actions) && Initial(run[0]) && i < |actions|
    requires Enabled(run[i].server.compaction) && run[i].server.turn.streaming
    requires run[i + 1].server.turn.streaming && run[i + 1].server.turn.abortRef == run[i].server.turn.abortRef
    requires run[i + 1].server.messages != run[i].server.messages
    ensures var s := run[i].server;
            || (actions[i].WorkerCheckpoint? && Current(s, actions[i].ref))
            || ((actions[i].TaskDone? || actions[i].TaskTimeout?)
                && s.compaction.waiter.Some? && s.compaction.task == Some(actions[i].task)
                && s.turn.abortRef.Some? && s.turn.abortRef.value in run[i].workers
                && run[i].workers[s.turn.abortRef.value].status in {Blocked(s.compaction.waiter.value.from), Crashed})
  {
    RunKeepsInv(run, actions, i);
    TurnMoves(run[i], actions[i]);
    assert run[i + 1] == Step(run[i], actions[i]);
  }

  lemma UndoneStart(w: World, prompt: Message)
    requires w.server.turn == IDLE && w.server.compaction.waiter.None? && w.workers == map[] && w.clock == 0
    requires prompt.role == User && w.calls == []
    ensures var w' := Step(w, CallRun(1, prompt, 0));
            && w'.server == w.server.(turn := StartTurn(RunCaller(1), |w.server.messages|, 0))
            && w'.workers == map[0 := NewWorker(w.server, RunCaller(1), prompt)] && w'.clock == 1 && w'.calls == [1]
  {
  }

  lemma UndoneCompact(w: World, k: Worker)
    requires !Enabled(w.server.compaction) && w.server.compaction.hasCompactor && w.workers == map[0 := k]
    requires k.status == Running && w.clock == 1 && w.calls == [1]
    ensures Possible(w, CallCompact(2, [], 1))
    ensures var w' := Step(w, CallCompact(2, [], 1));
            w'.server == w.server.(messages := []) && w'.workers == map[0 := k] && w'.clock == 2
  {
  }

  lemma UndoneFailure(w: World, k: Worker)
    requires !Enabled(w.server.compaction) && w.server.compaction.hasCompactor && w.workers == map[0 := k]
    requires k.status == Running && k.owner == RunCaller(1) && w.clock == 2 && Current(w.server, 0)
    ensures var a := WorkerDone(0, FailedWith(Timeout, k.captured, 0), k.captured, Due(false, false), 2);
            Possible(w, a) && Step(w, a).server.messages == k.captured
  {
  }

  lemma ThreeSteps(w: World, a: Action, b: Action, c: Action)
    requires Possible(w, a) && Possible(Step(w, a), b) && Possible(Step(Step(w, a), b), c)
    ensures IsRun([w, Step(w, a), Step(Step(w, a), b), Step(Step(Step(w, a), b), c)], [a, b, c])
  {
  }

  /** Without background compaction, compacting by hand while a run is in flight is undone
      when the run fails. */
  lemma SynchronousCompactionIsUndone(old0: Message, prompt: Message) returns (run: seq<World>, actions: seq<Action>)
    requires prompt.role == User
    ensures IsRun(run, actions) && Initial(run[0]) && |run| == 4 && !Enabled(run[0].server.compaction)
    ensures run[2].server.messages == [] && run[3].server.messages == [old0, prompt]
  {
    var idle := State(true, None, None, None, None, None, None);
    var w0 := World(Server(IDLE, [old0], 0, idle), map[], 0, [], [], []);
    var k := NewWorker(w0.server, RunCaller(1), prompt);
    var a, b := CallRun(1, prompt, 0), CallCompact(2, [], 1);
    var c := WorkerDone(0, FailedWith(Timeout, k.captured, 0), k.captured, Due(false, false), 2);
    UndoneStart(w0, prompt);
    var w1 := Step(w0, a);
    UndoneCompact(w1, k);
    var w2 := Step(w1, b);
    UndoneFailure(w2, k);
    ThreeSteps(w0, a, b, c);
    run, actions := [w0, w1, w2, Step(w2, c)], [a, b, c];
    assert k.captured == [old0, prompt];
  }
}

/**
 The session server as a process (lib/condukt/session.ex): its callbacks update the
 process state field by field and send replies as they go.

 The process keeps, as ghost state, the run of messages it has received. `Valid` says that
 this is a run of the state machine of module SessionRuns that ends in the present state
 with exactly the messages sent. Every callback keeps it, so every sequence of callbacks is
 such a run and what is proved of runs holds of the object.
 */
module SessionProcess {
  import opened Common
  import opened Compaction
  import S = Session
  import R = SessionRuns
  import T = SessionTheorems

  class Process {
    var turn: S.Turn
    var messages: seq<Message>
    var assigns: S.Assigns
    var compaction: State
    var sent: seq<S.Sent>
    ghost var run: seq<R.World>
    ghost var actions: seq<R.Action>

    ghost function View(): S.Server
      reads this
    {
      S.Server(turn, messages, assigns, compaction)
    }

    ghost predicate Valid()
      reads this
    {
      && R.IsRun(run, actions) && R.Initial(run[0])
      && Now().server == View() && Now().sent == sent
    }

    /** The state of the world the process has brought about. */
    ghost function Now(): R.World
      reads this
      requires R.IsRun(run, actions)
    {
      run[|actions|]
    }

    ghost predicate Expects(a: R.Action)
      reads this
    {
      Valid() && R.Possible(Now(), a)
    }

    /** The process is in order again, one message further. */
    twostate predicate Received(a: R.Action)
      requires old(Expects(a))
      reads this
    {
      Valid() && run == old(run) + [R.Step(old(Now()), a)] && actions == old(actions) + [a]
    }

    /** The callback has done what `r` says, on top of what had been sent before. */
    twostate predicate Did(r: S.Reaction)
      reads this
    {
      View() == r.server && sent == old(sent) + r.sent
    }

    /** Every caller has had its one reply and every stream its one end marker. */
    ghost predicate AllSettled()
      reads this
      requires R.IsRun(run, actions)
    {
      && (forall from :: from in Now().calls ==> R.Replies(sent, from) == 1)
      && (forall stream :: stream in Now().streams ==> R.Ends(sent, stream) == 1)
    }

    constructor (messages: seq<Message>, compaction: State)
      requires Coherent(compaction) && compaction.task.None? && compaction.prefix.None?
      ensures Valid() && View() == S.Server(S.IDLE, messages, 0, compaction) && sent == [] && actions == []
    {
      this.turn := S.IDLE;
      this.messages := messages;
      this.assigns := 0;
      this.compaction := compaction;
      this.sent := [];
      this.run := [R.World(S.Server(S.IDLE, messages, 0, compaction), map[], 0, [], [], [])];
      this.actions := [];
    }

    /** Takes note of a message once the process has done with it. */
    ghost method Record(a: R.Action)
      requires R.IsRun(run, actions) && R.Initial(run[0]) && R.Possible(Now(), a)
      requires View() == R.React(Now(), a).server && sent == Now().sent + R.React(Now(), a).sent
      modifies this`run, this`actions
      ensures Valid() && run == old(run) + [R.Step(old(Now()), a)] && actions == old(actions) + [a]
    {
      RunExtends(run, actions, a);
      run, actions := run + [R.Step(Now(), a)], actions + [a];
    }

    method Send(message: S.Sent)
      modifies this`sent
      ensures sent == old(sent) + [message]
    {
      sent := sent + [message];
    }

    // ---------------------------------------------------------- turn control

    /** The caller is answered at once or owns the turn; a turn in progress is not disturbed. */
    method HandleRun(from: From, prompt: Message, newRef: Ref)
      requires Expects(R.CallRun(from, prompt, newRef))
      modifies this
      ensures Received(R.CallRun(from, prompt, newRef))
      ensures R.Replies(sent, from) + R.OwedReplies(View(), from) == 1
      ensures old(turn.streaming) || old(compaction.waiter).Some? ==>
                View() == old(View()) && sent == old(sent) + [S.Reply(from, S.Refused(AlreadyStreaming))]
      ensures !old(turn.streaming) && old(compaction.waiter).None? ==>
                turn.streaming && turn.recipient == Some(S.RunCaller(from)) && messages == old(messages)
    {
      ghost var a := R.CallRun(from, prompt, newRef);
      if turn.streaming || compaction.waiter.Some? {
        Send(S.Reply(from, S.Refused(AlreadyStreaming)));
      } else {
        turn := S.StartTurn(S.RunCaller(from), |messages|, newRef);
      }
      Record(a);
      CallIsSettled(run, actions, from);
    }

    /** The stream is ended at once or owns the turn; a turn in progress is not disturbed. */
    method HandleStream(stream: S.StreamRef, prompt: Message, newRef: Ref)
      requires Expects(R.CastStream(stream, prompt, newRef))
      modifies this
      ensures Received(R.CastStream(stream, prompt, newRef))
      ensures R.Ends(sent, stream) + R.OwedEnds(View(), stream) == 1
      ensures old(turn.streaming) || old(compaction.waiter).Some? ==>
                && View() == old(View())
                && sent == old(sent) + [S.Broadcast(stream, S.StreamError(AlreadyStreaming)),
                                        S.Broadcast(stream, S.StreamDone)]
      ensures !old(turn.streaming) && old(compaction.waiter).None? ==>
                turn.streaming && turn.recipient == Some(S.StreamTo(stream)) && messages == old(messages)
    {
      if turn.streaming || compaction.waiter.Some? {
        Send(S.Broadcast(stream, S.StreamError(AlreadyStreaming)));
        Send(S.Broadcast(stream, S.StreamDone));
      } else {
        turn := S.StartTurn(S.StreamTo(stream), |messages|, newRef);
      }
      Record(R.CastStream(stream, prompt, newRef));
      StreamIsSettled(run, actions, stream);
    }

    method AbortTurn(newRef: Ref)
      modifies this`turn, this`compaction, this`sent
      ensures Did(S.AbortTurn(old(View()), newRef))
    {
      if compaction.waiter.Some? {
        Send(S.Reply(compaction.waiter.value.from, S.Refused(Aborted)));
        compaction := compaction.(waiter := None);
      }
      match turn.recipient {
        case Some(RunCaller(from)) => Send(S.Reply(from, S.Refused(Aborted)));
        case Some(StreamTo(stream)) =>
          Send(S.Broadcast(stream, S.StreamError(Aborted)));
          Send(S.Broadcast(stream, S.StreamDone));
        case None =>
      }
      turn := turn.(abortRef := Some(newRef), streaming := false, recipient := None, promptIndex := None);
    }

    /** Nobody is left waiting, and history stays. */
    method HandleAbort(from: From, newRef: Ref)
      requires Expects(R.CallAbort(from, newRef))
      modifies this
      ensures Received(R.CallAbort(from, newRef))
      ensures AllSettled() && !turn.streaming && messages == old(messages)
    {
      AbortTurn(newRef);
      Send(S.Reply(from, S.Done));
      Record(R.CallAbort(from, newRef));
      NobodyOwed(run, actions);
    }

    /** Nobody is left waiting, and neither history nor compaction work is left. */
    method HandleClear(from: From, newRef: Ref)
      requires Expects(R.CallClear(from, newRef))
      modifies this
      ensures Received(R.CallClear(from, newRef))
      ensures AllSettled() && !turn.streaming && T.Cleared(View())
    {
      AbortTurn(newRef);
      compaction := Cancel(compaction).(attempted := None);
      messages := [];
      Send(S.Reply(from, S.Done));
      Record(R.CallClear(from, newRef));
      NobodyOwed(run, actions);
    }

    /** A worker whose turn was over at any time in the past is refused. */
    method HandleCheckTurn(from: From, ref: Ref)
      requires Expects(R.CallCheckTurn(from, ref))
      modifies this`sent, this`run, this`actions
      ensures Received(R.CallCheckTurn(from, ref))
      ensures R.Replies(sent, from) == 1
      ensures (exists j :: 0 <= j < |old(run)| && Abandoned(old(run)[j], ref)) ==>
                sent == old(sent) + [S.Reply(from, S.Refused(Aborted))]
    {
      ghost var w := Now();
      ghost var before, until := run, actions;
      if turn.streaming && turn.abortRef == Some(ref) {
        Send(S.Reply(from, S.Done));
      } else {
        Send(S.Reply(from, S.Refused(Aborted)));
      }
      Record(R.CallCheckTurn(from, ref));
      AnsweredAtOnce(w, R.CallCheckTurn(from, ref), before, until);
      if exists j :: 0 <= j < |before| && Abandoned(before[j], ref) {
        ghost var j :| 0 <= j < |before| && Abandoned(before[j], ref);
        T.AbandonedForever(before, until, ref, j, |until|);
      }
    }

    // ------------------------------------------------------------ compaction

    method PutCompacted(compaction': State, messages': seq<Message>)
      modifies this`turn, this`messages, this`compaction
      ensures View() == S.PutCompacted(old(View()), compaction', messages')
    {
      if turn.promptIndex.Some? {
        turn := turn.(promptIndex := Some(turn.promptIndex.value + |messages'| - |messages|));
      }
      compaction := compaction';
      messages := messages';
    }

    method CheckpointReply(from: From, phase: Phase, due: Due, newRef: Ref)
      requires Enabled(compaction)
      modifies this`turn, this`messages, this`compaction, this`sent
      ensures Did(S.CheckpointReply(old(View()), from, phase, due, newRef))
    {
      var protectedCount := if turn.promptIndex.Some? then |messages| - turn.promptIndex.value else 1;
      var verdict := Checkpoint(compaction, messages, from, phase, protectedCount, due, newRef);
      PutCompacted(verdict.state, verdict.messages);
      match verdict {
        case Continue(_, adopted) => Send(S.Reply(from, if phase == Manual then S.Done else S.Adopted(adopted)));
        case Wait(_, _) =>
        case Failed(reason, _, _) => Send(S.Reply(from, S.Refused(CompactionFailed(reason))));
      }
    }

    /** The worker is answered or is the one waiter; from the prompt on the stored history is
        what the worker submitted; a worker that is not current changes nothing. */
    method HandleCheckpoint(ref: Ref, submitted: seq<Message>, from: From, due: Due, newRef: Ref)
      requires Expects(R.WorkerCheckpoint(ref, from, submitted, due, newRef))
      modifies this
      ensures Received(R.WorkerCheckpoint(ref, from, submitted, due, newRef))
      ensures R.Replies(sent, from) + R.OwedReplies(View(), from) == 1
      ensures !old(S.Current(View(), ref)) ==> View() == old(View())
      ensures old(S.Current(View(), ref)) ==>
                SuffixKept(old(View()).(messages := submitted), View()) && assigns == old(assigns)
    {
      ghost var a := R.WorkerCheckpoint(ref, from, submitted, due, newRef);
      SubmissionKeepsSuffix(run, actions, a);
      if turn.streaming && turn.abortRef == Some(ref) {
        messages := submitted;
        CheckpointReply(from, Background, due, newRef);
      } else {
        Send(S.Reply(from, S.Refused(Aborted)));
      }
      Record(a);
      CallIsSettled(run, actions, from);
    }

    /** The caller is answered or is the one waiter; the turn and, under a policy, history stay. */
    method HandleCompact(from: From, compacted: seq<Message>, newRef: Ref)
      requires Expects(R.CallCompact(from, compacted, newRef))
      modifies this
      ensures Received(R.CallCompact(from, compacted, newRef))
      ensures R.Replies(sent, from) + R.OwedReplies(View(), from) == 1
      ensures turn == old(turn) && (Enabled(compaction) ==> messages == old(messages))
    {
      if compaction.policy.None? {
        if compaction.hasCompactor {
          messages := compacted;
        }
        Send(S.Reply(from, S.Done));
      } else if turn.streaming || compaction.waiter.Some? {
        Send(S.Reply(from, S.Refused(AlreadyStreaming)));
      } else {
        compaction := Start(compaction, messages, newRef).(waiter := Some(Waiter(from, Manual)));
      }
      Record(R.CallCompact(from, compacted, newRef));
      CallIsSettled(run, actions, from);
    }

    method CompactionFinished(due: Due, newRef: Ref)
      requires Enabled(compaction)
      modifies this`turn, this`messages, this`compaction, this`sent
      ensures Did(S.CompactionFinished(old(View()), due, newRef))
    {
      if compaction.waiter.Some? {
        var waiter := compaction.waiter.value;
        compaction := compaction.(waiter := None);
        CheckpointReply(waiter.from, waiter.phase, due, newRef);
      } else if !turn.streaming {
        var taken := TakeResult(compaction, messages);
        PutCompacted(taken.state, taken.messages);
      }
    }

    /** Whoever was waiting is answered or has a new task to wait for; a running turn keeps its
        history from its prompt on; a task that is not the current one changes nothing. */
    method HandleTaskDone(ref: Ref, outcome: Outcome, due: Due, newRef: Ref)
      requires Expects(R.TaskDone(ref, outcome, due, newRef))
      modifies this
      ensures Received(R.TaskDone(ref, outcome, due, newRef))
      ensures WaiterServed(old(View()), View(), sent)
      ensures old(turn.streaming) ==> SuffixKept(old(View()), View())
      ensures old(compaction.task) != Some(ref) ==> View() == old(View()) && sent == old(sent)
    {
      ghost var a := R.TaskDone(ref, outcome, due, newRef);
      TaskKeepsSuffix(run, actions, a);
      ghost var s := View();
      if compaction.task == Some(ref) {
        compaction := compaction.(task := None, result := Some(outcome));
        CompactionFinished(due, newRef);
      }
      Record(a);
      WaiterIsServed(run, actions, s);
    }

    /** As for a result, when the timer of the task fires. */
    method HandleTaskTimeout(ref: Ref, due: Due, newRef: Ref)
      requires Expects(R.TaskTimeout(ref, due, newRef))
      modifies this
      ensures Received(R.TaskTimeout(ref, due, newRef))
      ensures WaiterServed(old(View()), View(), sent)
      ensures old(turn.streaming) ==> SuffixKept(old(View()), View())
      ensures old(compaction.task) != Some(ref) ==> View() == old(View()) && sent == old(sent)
    {
      ghost var a := R.TaskTimeout(ref, due, newRef);
      TaskKeepsSuffix(run, actions, a);
      ghost var s := View();
      if compaction.task == Some(ref) {
        compaction := Cancel(compaction).(result := Some(Error(Timeout)));
        CompactionFinished(due, newRef);
      }
      Record(a);
      WaiterIsServed(run, actions, s);
    }

    // -------------------------------------------------------- worker messages

    /** An event of a turn that is over is dropped; stopping the current one leaves nobody waiting. */
    method HandleEvent(ref: Ref, stream: S.StreamRef, stop: bool, newRef: Ref)
      requires Expects(R.WorkerEvent(ref, stream, stop, newRef))
      modifies this
      ensures Received(R.WorkerEvent(ref, stream, stop, newRef))
      ensures !old(S.Current(View(), ref)) ==> sent == old(sent)
      ensures !(old(S.Current(View(), ref)) && stop) ==> View() == old(View())
      ensures old(S.Current(View(), ref)) && stop ==> AllSettled() && !turn.streaming
    {
      if turn.abortRef == Some(ref) {
        Send(S.Broadcast(stream, S.Progress));
        if stop {
          AbortTurn(newRef);
        }
      }
      Record(R.WorkerEvent(ref, stream, stop, newRef));
      if turn.recipient.None? && compaction.waiter.None? {
        NobodyOwed(run, actions);
      }
    }

    method MaybeCompact(compacted: seq<Message>, due: Due, newRef: Ref)
      modifies this`messages, this`compaction
      ensures View() == S.MaybeCompact(old(View()), compacted, due, newRef)
    {
      if compaction.hasCompactor {
        if compaction.policy.None? {
          messages := compacted;
        } else {
          var taken := TakeResult(compaction, messages);
          messages := taken.messages;
          compaction := StartBackground(taken.state, taken.messages, due, 1, newRef);
        }
      }
    }

    /** The end of the current run leaves nobody waiting, its caller included; a worker that is
        not current changes and sends nothing. */
    method HandleRunComplete(ref: Ref, from: From, result: S.RunResult, compacted: seq<Message>, due: Due, newRef: Ref)
      requires Expects(R.WorkerDone(ref, result, compacted, due, newRef))
      requires Now().workers[ref].owner == S.RunCaller(from)
      modifies this
      ensures Received(R.WorkerDone(ref, result, compacted, due, newRef))
      ensures !old(S.Current(View(), ref)) ==> View() == old(View()) && sent == old(sent)
      ensures old(S.Current(View(), ref)) ==>
                AllSettled() && from in Now().calls && !turn.streaming && assigns == result.assigns
      ensures old(S.Current(View(), ref)) ==>
                sent == old(sent) + [S.Reply(from, if result.Succeeded? then S.Response(result.text)
                                                   else S.Refused(result.reason))]
      ensures old(S.Current(View(), ref)) && old(compaction.policy).None? ==>
                messages == if old(compaction.hasCompactor) then compacted else result.messages
      ensures old(compaction.policy).Some? && result.FailedWith? ==> messages == old(messages)
    {
      ghost var a := R.WorkerDone(ref, result, compacted, due, newRef);
      CompletionSettles(run, actions, a);
      if turn.abortRef != Some(ref) {
        Record(a);
        return;
      }
      Send(S.Reply(from, if result.Succeeded? then S.Response(result.text) else S.Refused(result.reason)));
      if !(result.FailedWith? && compaction.policy.Some?) {
        messages := result.messages;
      }
      turn := S.FinishTurn(turn);
      assigns := result.assigns;
      if result.Succeeded? || compaction.policy.None? {
        MaybeCompact(compacted, due, newRef);
      }
      Record(a);
      NobodyOwed(run, actions);
    }

    /** As for a run; a stream that fails also leaves history and assigns alone. */
    method HandleStreamComplete(ref: Ref, stream: S.StreamRef, result: S.RunResult, compacted: seq<Message>,
                                due: Due, newRef: Ref)
      requires Expects(R.WorkerDone(ref, result, compacted, due, newRef))
      requires Now().workers[ref].owner == S.StreamTo(stream)
      modifies this
      ensures Received(R.WorkerDone(ref, result, compacted, due, newRef))
      ensures !old(S.Current(View(), ref)) ==> View() == old(View()) && sent == old(sent)
      ensures old(S.Current(View(), ref)) ==> AllSettled() && stream in Now().streams && !turn.streaming
      ensures result.FailedWith? ==> messages == old(messages) && assigns == old(assigns)
      ensures old(S.Current(View(), ref)) ==> sent == old(sent) + [S.Broadcast(stream, S.StreamDone)]
      ensures old(S.Current(View(), ref)) && old(compaction.policy).None? && result.Succeeded? ==>
                && assigns == result.assigns
                && messages == if old(compaction.hasCompactor) then compacted else result.messages
    {
      ghost var a := R.WorkerDone(ref, result, compacted, due, newRef);
      CompletionSettles(run, actions, a);
      if turn.abortRef != Some(ref) {
        Record(a);
        return;
      }
      Send(S.Broadcast(stream, S.StreamDone));
      turn := S.FinishTurn(turn);
      if result.Succeeded? {
        messages := result.messages;
        assigns := result.assigns;
        MaybeCompact(compacted, due, newRef);
      }
      Record(a);
      NobodyOwed(run, actions);
    }

    /** A worker dies. Workers are neither linked nor monitored, so the process hears nothing. */
    ghost method WorkerDies(ref: Ref)
      requires Expects(R.WorkerCrash(ref))
      modifies this`run, this`actions
      ensures Received(R.WorkerCrash(ref))
    {
      Record(R.WorkerCrash(ref));
    }
  }

  // -------------------------------------------------- what the callbacks rely on

  lemma RunExtends(run: seq<R.World>, actions: seq<R.Action>, a: R.Action)
    requires R.IsRun(run, actions) && R.Possible(run[|actions|], a)
    ensures R.IsRun(run + [R.Step(run[|actions|], a)], actions + [a])
  {
    var run', actions' := run + [R.Step(run[|actions|], a)], actions + [a];
    forall i | 0 <= i < |actions'|
      ensures R.Possible(run'[i], actions'[i]) && run'[i + 1] == R.Step(run'[i], actions'[i])
    {
      if i < |actions| {
        assert run'[i] == run[i] && actions'[i] == actions[i] && run'[i + 1] == run[i + 1];
      }
    }
  }

  predicate Abandoned(w: R.World, ref: Ref) { ref in w.workers && !S.Current(w.server, ref) }

  lemma CallIsSettled(run: seq<R.World>, actions: seq<R.Action>, from: From)
    requires R.IsRun(run, actions) && R.Initial(run[0]) && from in run[|actions|].calls
    ensures R.Replies(run[|actions|].sent, from) + R.OwedReplies(run[|actions|].server, from) == 1
  {
    T.RunKeepsInv(run, actions, |actions|);
  }

  lemma StreamIsSettled(run: seq<R.World>, actions: seq<R.Action>, stream: S.StreamRef)
    requires R.IsRun(run, actions) && R.Initial(run[0]) && stream in run[|actions|].streams
    ensures R.Ends(run[|actions|].sent, stream) + R.OwedEnds(run[|actions|].server, stream) == 1
  {
    T.RunKeepsInv(run, actions, |actions|);
  }

  lemma NobodyOwed(run: seq<R.World>, actions: seq<R.Action>)
    requires R.IsRun(run, actions) && R.Initial(run[0])
    requires run[|actions|].server.turn.recipient.None? && run[|actions|].server.compaction.waiter.None?
    ensures forall from :: from in run[|actions|].calls ==> R.Replies(run[|actions|].sent, from) == 1
    ensures forall stream :: stream in run[|actions|].streams ==> R.Ends(run[|actions|].sent, stream) == 1
  {
    T.RunKeepsInv(run, actions, |actions|);
    var w := run[|actions|];
    forall from | from in w.calls
      ensures R.Replies(w.sent, from) == 1
    {
      assert R.OwedReplies(w.server, from) == 0;
    }
    forall stream | stream in w.streams
      ensures R.Ends(w.sent, stream) == 1
    {
      assert R.OwedEnds(w.server, stream) == 0;
    }
  }

  /** A fresh caller whose call leaves the server as it is has had its reply. */
  lemma AnsweredAtOnce(w: R.World, a: R.Action, run: seq<R.World>, actions: seq<R.Action>)
    requires R.IsRun(run, actions) && R.Initial(run[0]) && w == run[|actions|] && R.Possible(w, a)
    requires R.IsCall(a) && R.React(w, a).server == w.server
    ensures R.Replies(R.Step(w, a).sent, a.from) == 1
  {
    T.RunKeepsInv(run, actions, |actions|);
    T.StepBalanced(w, a);
    assert a.from !in w.calls;
    assert R.OwedReplies(w.server, a.from) == 0;
  }

  /** From the prompt of the turn on, history is what it was. */
  predicate SuffixKept(s: S.Server, s': S.Server) {
    && s.turn.promptIndex.Some? && s'.turn.promptIndex.Some?
    && (Enabled(s.compaction) ==>
          && 0 <= s.turn.promptIndex.value <= |s.messages| && 0 <= s'.turn.promptIndex.value <= |s'.messages|
          && s'.messages[s'.turn.promptIndex.value..] == s.messages[s.turn.promptIndex.value..])
  }

  lemma SubmissionKeepsSuffix(run: seq<R.World>, actions: seq<R.Action>, a: R.Action)
    requires R.IsRun(run, actions) && R.Initial(run[0]) && R.Possible(run[|actions|], a) && a.WorkerCheckpoint?
    ensures S.Current(run[|actions|].server, a.ref) ==>
              && SuffixKept(run[|actions|].server.(messages := a.messages), R.React(run[|actions|], a).server)
              && R.React(run[|actions|], a).server.assigns == run[|actions|].server.assigns
  {
    var w := run[|actions|];
    T.RunKeepsInv(run, actions, |actions|);
    if S.Current(w.server, a.ref) {
      T.SubmissionSound(w, a);
      T.CheckpointReplySound(w.server.(messages := a.messages), a.from, Background, a.due, a.newRef);
    }
  }

  lemma TaskKeepsSuffix(run: seq<R.World>, actions: seq<R.Action>, a: R.Action)
    requires R.IsRun(run, actions) && R.Initial(run[0]) && R.Possible(run[|actions|], a)
    requires a.TaskDone? || a.TaskTimeout?
    ensures run[|actions|].server.turn.streaming ==>
              SuffixKept(run[|actions|].server, R.React(run[|actions|], a).server)
  {
    T.RunKeepsInv(run, actions, |actions|);
    TaskStepKeepsSuffix(run[|actions|], a);
  }

  lemma TaskStepKeepsSuffix(w: R.World, a: R.Action)
    requires R.Sound(w.server) && R.Possible(w, a) && (a.TaskDone? || a.TaskTimeout?)
    ensures w.server.turn.streaming ==> SuffixKept(w.server, R.React(w, a).server)
  {
    var c := w.server.compaction;
    if c.task == Some(a.task) && c.waiter.Some? {
      var c' := if a.TaskDone? then Complete(c, a.task, a.outcome) else Cancel(c).(result := Some(Error(Timeout)));
      var waiter := c.waiter.value;
      T.CheckpointReplySound(w.server.(compaction := c'.(waiter := None)), waiter.from, waiter.phase, a.due, a.newRef);
    }
  }

  /** Whoever was waiting has had one reply or still waits, and whoever waits has a task. */
  predicate WaiterServed(s: S.Server, s': S.Server, sent: seq<S.Sent>) {
    && (s.compaction.waiter.Some? ==>
          R.Replies(sent, s.compaction.waiter.value.from) + R.OwedReplies(s', s.compaction.waiter.value.from) == 1)
    && (s'.compaction.waiter.Some? ==> s'.compaction.task.Some?)
  }

  lemma WaiterIsServed(run: seq<R.World>, actions: seq<R.Action>, s: S.Server)
    requires R.IsRun(run, actions) && R.Initial(run[0]) && 0 < |actions| && s == run[|actions| - 1].server
    ensures WaiterServed(s, run[|actions|].server, run[|actions|].sent)
  {
    var i := |actions| - 1;
    T.RunKeepsInv(run, actions, i);
    T.RunKeepsInv(run, actions, |actions|);
    if s.compaction.waiter.Some? {
      T.WaiterIsKnown(run[i]);
      assert run[|actions|] == R.Step(run[i], actions[i]);
    }
  }

  /** The worker that completes the current turn is the one its recipient waits for. */
  lemma CompletionSettles(run: seq<R.World>, actions: seq<R.Action>, a: R.Action)
    requires R.IsRun(run, actions) && R.Initial(run[0]) && R.Possible(run[|actions|], a) && a.WorkerDone?
    ensures S.Current(run[|actions|].server, a.ref) ==>
              && R.React(run[|actions|], a).server.compaction.waiter.None?
              && match run[|actions|].workers[a.ref].owner
                 case RunCaller(from) => from in run[|actions|].calls
                 case StreamTo(stream) => stream in run[|actions|].streams
  {
    var w := run[|actions|];
    T.RunKeepsInv(run, actions, |actions|);
    if S.Current(w.server, a.ref) {
      T.SpeakerOwnsTurn(w, a.ref);
      T.DoneSound(w, a);
      OwnerIsKnown(w, w.workers[a.ref].owner);
    }
  }

  lemma OwnerIsKnown(w: R.World, owner: S.Recipient)
    requires R.Inv(w) && w.server.turn.recipient == Some(owner)
    ensures match owner case RunCaller(from) => from in w.calls case StreamTo(stream) => stream in w.streams
  {
    match owner
    case RunCaller(from) => assert R.OwedReplies(w.server, from) >= 1;
    case StreamTo(stream) => assert R.OwedEnds(w.server, stream) == 1;
  }

  /** Whatever callbacks a process has been through, in whatever order, each caller has had
      exactly one reply, except the owner of the turn and the compaction waiter, and each
      stream exactly one end marker, except the owner of the turn. */
  lemma ProcessAnswersExactlyOnce(p: Process, from: From, stream: S.StreamRef)
    requires p.Valid()
    ensures var pending := p.turn.recipient == Some(S.RunCaller(from))
                           || (p.compaction.waiter.Some? && p.compaction.waiter.value.from == from);
            R.Replies(p.sent, from) == if from in p.Now().calls && !pending then 1 else 0
    ensures R.Ends(p.sent, stream)
            == if stream in p.Now().streams && p.turn.recipient != Some(S.StreamTo(stream)) then 1 else 0
  {
    T.CallsAnsweredExactlyOnce(p.run, p.actions, |p.actions|, from);
    T.StreamsEndExactlyOnce(p.run, p.actions, |p.actions|, stream);
  }
}

/**
 What becomes of stored history over whole runs of the session server: where each message
 came from, that what a summary replaced never comes back, that no summary separates a tool
 result from its call, and what a failed run restores when there is no background compaction.
 */
module SessionHistory {
  import opened Common
  import opened Compaction
  import opened Session
  import opened SessionRuns
  import opened SessionTheorems

  // --------------------------------------------------- one step of the history

  predicate Submits(w: World, a: Action) { a.WorkerCheckpoint? && Current(w.server, a.ref) }

  predicate Succeeds(w: World, a: Action) { Finishes(w, a) && a.result.Succeeded? }

  predicate TaskEnds(w: World, a: Action) {
    (a.TaskDone? || a.TaskTimeout?) && w.server.compaction.task == Some(a.task)
  }

  /** The history a step starts from: what the current worker hands in, or what is stored. */
  function Base(w: World, a: Action): seq<Message> {
    if Submits(w, a) then a.messages
    else if Succeeds(w, a) then a.result.messages
    else w.server.messages
  }

  /** The outcome of the compaction task, if one is there to be taken. */
  function Available(w: World, a: Action): Option<Outcome> {
    if TaskEnds(w, a) then Some(if a.TaskDone? then a.outcome else Error(Timeout)) else w.server.compaction.result
  }

  /** The steps that take it. */
  predicate Collects(w: World, a: Action) {
    || Submits(w, a) || Succeeds(w, a)
    || (TaskEnds(w, a) && (w.server.compaction.waiter.Some? || !w.server.turn.streaming))
  }

  predicate Adopts(w: World, a: Action) {
    && Collects(w, a) && Available(w, a).Some? && Available(w, a).value.Ok?
    && w.server.compaction.prefix.Some? && w.server.compaction.prefix.value <= Base(w, a)
  }

  function Summary(w: World, a: Action): seq<Message>
    requires Adopts(w, a)
  {
    Available(w, a).value.replacement
  }

  /** Stored history after the step: nothing, or the base with the captured prefix summarized,
      or the base. */
  function Stored(w: World, a: Action): seq<Message> {
    if a.CallClear? then []
    else if Adopts(w, a) then Summary(w, a) + Base(w, a)[|w.server.compaction.prefix.value|..]
    else Base(w, a)
  }

  /** A worker hands in what is stored, its prompt if that is not stored yet, and more. */
  lemma SubmissionExtends(w: World, a: Action)
    requires Steady(w) && Possible(w, a) && Enabled(w.server.compaction) && (Submits(w, a) || Succeeds(w, a))
    ensures w.server.messages <= Base(w, a) && w.server.turn.streaming && w.server.compaction.waiter.None?
    ensures var p := w.server.turn.promptIndex;
            p.Some? && 0 <= p.value < |Base(w, a)| && Base(w, a)[p.value].role == User
  {
    SpeakerOwnsTurn(w, a.ref);
    var k := w.workers[a.ref];
    assert k.status == Running && PromptKept(w.server, k);
  }

  lemma CheckpointStores(s: Server, from: From, phase: Phase, due: Due, newRef: Ref)
    requires Enabled(s.compaction)
    ensures CheckpointReply(s, from, phase, due, newRef).server.messages
            == TakeResult(s.compaction, s.messages).messages
  {
  }

  /** The compaction state a task's end leaves to be collected. */
  function AfterTask(w: World, a: Action): State
    requires TaskEnds(w, a)
  {
    var c := w.server.compaction;
    if a.TaskDone? then Complete(c, a.task, a.outcome) else Cancel(c).(result := Some(Error(Timeout)))
  }

  lemma TaskEndStores(w: World, a: Action)
    requires Possible(w, a) && TaskEnds(w, a)
    ensures React(w, a).server.messages
            == if Collects(w, a) then TakeResult(AfterTask(w, a), w.server.messages).messages else w.server.messages
  {
    var s := w.server.(compaction := AfterTask(w, a));
    if s.compaction.waiter.Some? {
      var waiter := s.compaction.waiter.value;
      CheckpointStores(s.(compaction := s.compaction.(waiter := None)), waiter.from, waiter.phase, a.due, a.newRef);
    }
  }

  /** With background compaction, a step either clears the history, or extends it and then
      replaces exactly the captured prefix by the task's own summary, or just extends it. */
  lemma HistoryStep(w: World, a: Action)
    requires Steady(w) && Possible(w, a) && Enabled(w.server.compaction)
    ensures React(w, a).server.messages == Stored(w, a)
    ensures w.server.messages <= Base(w, a)
  {
    if Submits(w, a) {
      SubmissionExtends(w, a);
      CheckpointStores(w.server.(messages := a.messages), a.from, Background, a.due, a.newRef);
    } else if Succeeds(w, a) {
      SubmissionExtends(w, a);
      FinishStores(w, a);
    } else if TaskEnds(w, a) {
      TaskEndStores(w, a);
    }
  }

  // ----------------------------------------------- where each message came from

  /** A run of a session with background compaction. */
  ghost predicate PolicyRun(run: seq<World>, actions: seq<Action>) {
    IsRun(run, actions) && Initial(run[0]) && Enabled(run[0].server.compaction)
  }

  lemma {:induction false} PolicyStays(run: seq<World>, actions: seq<Action>, i: nat)
    requires IsRun(run, actions) && Initial(run[0]) && i < |run|
    ensures run[i].server.compaction.policy == run[0].server.compaction.policy
  {
    if i == 0 {
    } else {
      PolicyStays(run, actions, i - 1);
      RunKeepsInv(run, actions, i - 1);
      StepPays(run[i - 1], actions[i - 1], 0, 0);
    }
  }

  lemma HistoryStepAt(run: seq<World>, actions: seq<Action>, i: nat)
    requires PolicyRun(run, actions) && i < |actions|
    ensures run[i + 1].server.messages == Stored(run[i], actions[i])
    ensures run[i].server.messages <= Base(run[i], actions[i])
  {
    RunKeepsInv(run, actions, i);
    PolicyStays(run, actions, i);
    HistoryStep(run[i], actions[i]);
  }

  /** A place where a message was first stored: the step, whether in a summary, and the index
      in the summary or in the history handed in. */
  datatype Origin = Origin(step: nat, summary: bool, index: nat)

  function Fresh(step: nat, summary: bool, lo: nat, hi: nat): seq<Origin> {
    seq(if lo <= hi then hi - lo else 0, k requires 0 <= k => Origin(step, summary, lo + k))
  }

  function NextOrigins(before: seq<Origin>, w: World, a: Action, step: nat): seq<Origin> {
    var grown := Grown(before, w, a, step);
    if a.CallClear? then []
    else if Adopts(w, a) then
      Fresh(step, true, 0, |Summary(w, a)|) + grown[Min(|w.server.compaction.prefix.value|, |grown|)..]
    else grown
  }

  /** The origins of stored history after j steps, message by message. */
  function Origins(run: seq<World>, actions: seq<Action>, j: nat): seq<Origin>
    requires j < |run| == |actions| + 1
  {
    if j == 0 then Fresh(0, false, 0, |run[0].server.messages|)
    else NextOrigins(Origins(run, actions, j - 1), run[j - 1], actions[j - 1], j)
  }

  /** The message `m` was first stored at origin `o`. */
  predicate WrittenAt(run: seq<World>, actions: seq<Action>, o: Origin, m: Message)
    requires |run| == |actions| + 1
  {
    if o.step == 0 then !o.summary && o.index < |run[0].server.messages| && m == run[0].server.messages[o.index]
    else
      && o.step <= |actions|
      && WrittenBy(run[o.step - 1], actions[o.step - 1], o, m)
  }

  predicate WrittenBy(w: World, a: Action, o: Origin, m: Message) {
    if o.summary then Adopts(w, a) && o.index < |Summary(w, a)| && m == Summary(w, a)[o.index]
    else |w.server.messages| <= o.index < |Base(w, a)| && m == Base(w, a)[o.index]
  }

  /** A message stored by a step was written by it, or was stored before with the same origin. */
  predicate CarriedOrWritten(before: seq<Origin>, w: World, a: Action, step: nat, o: Origin, m: Message, l: nat) {
    || (o.step == step && WrittenBy(w, a, o, m))
    || (l < |before| && l < |w.server.messages| && o == before[l] && m == w.server.messages[l])
  }

  function Grown(before: seq<Origin>, w: World, a: Action, step: nat): seq<Origin> {
    before + Fresh(step, false, |before|, |Base(w, a)|)
  }

  /** A message of the history handed in. */
  lemma GrownAt(before: seq<Origin>, w: World, a: Action, step: nat, l: nat)
    requires |before| == |w.server.messages| && w.server.messages <= Base(w, a) && l < |Base(w, a)|
    ensures |Grown(before, w, a, step)| == |Base(w, a)|
    ensures CarriedOrWritten(before, w, a, step, Grown(before, w, a, step)[l], Base(w, a)[l], l)
  {
    if l < |before| {
      assert Base(w, a)[l] == w.server.messages[l];
    } else {
      assert Grown(before, w, a, step)[l] == Origin(step, false, l);
    }
  }

  /** A message of the summary adopted. */
  lemma SummaryAt(before: seq<Origin>, w: World, a: Action, step: nat, k: nat)
    requires Adopts(w, a) && !a.CallClear? && k < |Summary(w, a)| && k < |NextOrigins(before, w, a, step)|
    ensures k < |Stored(w, a)|
    ensures CarriedOrWritten(before, w, a, step, NextOrigins(before, w, a, step)[k], Stored(w, a)[k], k)
  {
    assert NextOrigins(before, w, a, step)[k] == Origin(step, true, k);
  }

  /** A message behind it, which was at place l of the history handed in. */
  lemma ShiftedAt(before: seq<Origin>, w: World, a: Action, step: nat, k: nat, l: nat)
    requires Adopts(w, a) && !a.CallClear? && |before| <= |Base(w, a)| && k < |Stored(w, a)|
    requires k >= |Summary(w, a)| && l == k - |Summary(w, a)| + |w.server.compaction.prefix.value|
    ensures |NextOrigins(before, w, a, step)| == |Stored(w, a)| && l < |Base(w, a)| == |Grown(before, w, a, step)|
    ensures NextOrigins(before, w, a, step)[k] == Grown(before, w, a, step)[l] && Stored(w, a)[k] == Base(w, a)[l]
  {
  }

  lemma NextOriginAt(before: seq<Origin>, w: World, a: Action, step: nat, k: nat) returns (l: nat)
    requires |before| == |w.server.messages| && w.server.messages <= Base(w, a) && k < |Stored(w, a)|
    requires |NextOrigins(before, w, a, step)| == |Stored(w, a)|
    ensures CarriedOrWritten(before, w, a, step, NextOrigins(before, w, a, step)[k], Stored(w, a)[k], l)
  {
    if Adopts(w, a) {
      if k < |Summary(w, a)| {
        SummaryAt(before, w, a, step, k);
        l := k;
      } else {
        l := k - |Summary(w, a)| + |w.server.compaction.prefix.value|;
        ShiftedAt(before, w, a, step, k, l);
        GrownAt(before, w, a, step, l);
      }
    } else {
      GrownAt(before, w, a, step, k);
      l := k;
    }
  }

  lemma NextOriginsFit(before: seq<Origin>, w: World, a: Action, step: nat)
    requires |before| == |w.server.messages| && w.server.messages <= Base(w, a)
    ensures |NextOrigins(before, w, a, step)| == |Stored(w, a)|
  {
  }

  /** Each step stores what its history step says. */
  ghost predicate Tracked(run: seq<World>, actions: seq<Action>) {
    && |run| == |actions| + 1
    && forall i {:trigger actions[i]} :: 0 <= i < |actions| ==>
         run[i + 1].server.messages == Stored(run[i], actions[i]) && run[i].server.messages <= Base(run[i], actions[i])
  }

  lemma PolicyRunIsTracked(run: seq<World>, actions: seq<Action>)
    requires PolicyRun(run, actions)
    ensures Tracked(run, actions)
  {
    forall i | 0 <= i < |actions|
      ensures run[i + 1].server.messages == Stored(run[i], actions[i])
      ensures run[i].server.messages <= Base(run[i], actions[i])
    {
      HistoryStepAt(run, actions, i);
    }
  }

  predicate Accounted(run: seq<World>, actions: seq<Action>, j: nat, o: Origin, m: Message)
    requires |run| == |actions| + 1
  {
    o.step <= j && WrittenAt(run, actions, o, m)
  }

  lemma AccountedAfter(run: seq<World>, actions: seq<Action>, j: nat, before: seq<Origin>,
                       o: Origin, m: Message, l: nat)
    requires 0 < j < |run| == |actions| + 1 && CarriedOrWritten(before, run[j - 1], actions[j - 1], j, o, m, l)
    requires l < |before| == |run[j - 1].server.messages| ==>
               Accounted(run, actions, j - 1, before[l], run[j - 1].server.messages[l])
    requires |before| == |run[j - 1].server.messages|
    ensures Accounted(run, actions, j, o, m)
  {
  }

  ghost predicate AllAccounted(run: seq<World>, actions: seq<Action>, j: nat, os: seq<Origin>)
    requires j < |run| == |actions| + 1
  {
    && |os| == |run[j].server.messages|
    && forall k :: 0 <= k < |os| ==> Accounted(run, actions, j, os[k], run[j].server.messages[k])
  }

  lemma AllAccountedAfter(run: seq<World>, actions: seq<Action>, j: nat, before: seq<Origin>, os: seq<Origin>)
    requires 0 < j < |run| == |actions| + 1 && AllAccounted(run, actions, j - 1, before)
    requires run[j].server.messages == Stored(run[j - 1], actions[j - 1])
    requires run[j - 1].server.messages <= Base(run[j - 1], actions[j - 1])
    requires os == NextOrigins(before, run[j - 1], actions[j - 1], j)
    ensures AllAccounted(run, actions, j, os)
  {
    var stored := run[j].server.messages;
    NextOriginsFit(before, run[j - 1], actions[j - 1], j);
    forall k | 0 <= k < |stored|
      ensures Accounted(run, actions, j, os[k], stored[k])
    {
      var l := NextOriginAt(before, run[j - 1], actions[j - 1], j, k);
      AccountedAfter(run, actions, j, before, os[k], stored[k], l);
    }
  }

  lemma {:induction false} OriginsAccounted(run: seq<World>, actions: seq<Action>, j: nat)
    requires Tracked(run, actions) && j < |run|
    ensures AllAccounted(run, actions, j, Origins(run, actions, j))
  {
    if j == 0 {
    } else {
      OriginsAccounted(run, actions, j - 1);
      AllAccountedAfter(run, actions, j, Origins(run, actions, j - 1), Origins(run, actions, j));
    }
  }

  /** Every stored message is the one first stored at its origin: by start-up, by a worker of
      that time handing it in, or in the summary a task made. */
  lemma EveryMessageHasItsOrigin(run: seq<World>, actions: seq<Action>, j: nat, k: nat)
    requires PolicyRun(run, actions) && j < |run| && k < |run[j].server.messages|
    ensures |Origins(run, actions, j)| == |run[j].server.messages|
    ensures var o := Origins(run, actions, j)[k];
            o.step <= j && WrittenAt(run, actions, o, run[j].server.messages[k])
  {
    PolicyRunIsTracked(run, actions);
    OriginsAccounted(run, actions, j);
    assert Accounted(run, actions, j, Origins(run, actions, j)[k], run[j].server.messages[k]);
  }

  lemma NextOriginsAreOldOrNew(before: seq<Origin>, w: World, a: Action, step: nat, o: Origin)
    requires o in NextOrigins(before, w, a, step)
    ensures o in before || o.step == step
  {
  }

  lemma {:induction false} OriginsNeverReturn(run: seq<World>, actions: seq<Action>, i: nat, j: nat, o: Origin)
    requires i <= j < |run| == |actions| + 1 && o.step <= i && o !in Origins(run, actions, i)
    ensures o !in Origins(run, actions, j)
    decreases j
  {
    if i == j {
    } else {
      OriginsNeverReturn(run, actions, i, j - 1, o);
      if o in Origins(run, actions, j) {
        NextOriginsAreOldOrNew(Origins(run, actions, j - 1), run[j - 1], actions[j - 1], j, o);
      }
    }
  }

  /** There is one message for each origin. */
  lemma OriginFixesMessage(run: seq<World>, actions: seq<Action>, o: Origin, m: Message, m': Message)
    requires |run| == |actions| + 1 && WrittenAt(run, actions, o, m) && WrittenAt(run, actions, o, m')
    ensures m == m'
  {
  }

  /** After i steps stored history holds message `m`, first stored at origin `o`. */
  ghost predicate Holds(run: seq<World>, actions: seq<Action>, i: nat, o: Origin, m: Message)
    requires i < |run| == |actions| + 1
  {
    && |Origins(run, actions, i)| == |run[i].server.messages|
    && exists l :: 0 <= l < |run[i].server.messages|
                   && Origins(run, actions, i)[l] == o && run[i].server.messages[l] == m
  }

  lemma HeldByOrigin(run: seq<World>, actions: seq<Action>, i: nat, o: Origin, m: Message)
    requires PolicyRun(run, actions) && i < |run| && o in Origins(run, actions, i) && WrittenAt(run, actions, o, m)
    ensures Holds(run, actions, i, o, m)
  {
    OriginsFit(run, actions, i);
    var l :| 0 <= l < |Origins(run, actions, i)| && Origins(run, actions, i)[l] == o;
    EveryMessageHasItsOrigin(run, actions, i, l);
    OriginFixesMessage(run, actions, o, m, run[i].server.messages[l]);
  }

  lemma OriginsFit(run: seq<World>, actions: seq<Action>, i: nat)
    requires PolicyRun(run, actions) && i < |run|
    ensures |Origins(run, actions, i)| == |run[i].server.messages|
  {
    PolicyRunIsTracked(run, actions);
    OriginsAccounted(run, actions, i);
  }

  /** If message k of the history stored after j steps was first stored by step i, stored
      history held it after i steps too. */
  ghost predicate HeldSince(run: seq<World>, actions: seq<Action>, i: nat, j: nat, k: nat)
    requires i <= j < |run| == |actions| + 1 && k < |run[j].server.messages|
  {
    && |Origins(run, actions, j)| == |run[j].server.messages|
    && var o := Origins(run, actions, j)[k];
       o.step <= i ==> Holds(run, actions, i, o, run[j].server.messages[k])
  }

  /** What is gone from stored history, by a summary or by clearing, never comes back: a
      message stored now that was first stored by step i has been in stored history ever
      since, so neither a checkpoint nor the end or failure of a turn put it back. */
  lemma DroppedNeverComesBack(run: seq<World>, actions: seq<Action>, i: nat, j: nat, k: nat)
    requires PolicyRun(run, actions) && i <= j < |run| && k < |run[j].server.messages|
    ensures HeldSince(run, actions, i, j, k)
  {
    EveryMessageHasItsOrigin(run, actions, j, k);
    var o := Origins(run, actions, j)[k];
    if o.step <= i {
      if o !in Origins(run, actions, i) { OriginsNeverReturn(run, actions, i, j, o); }
      HeldByOrigin(run, actions, i, o, run[j].server.messages[k]);
    }
  }

  predicate AllDifferent(os: seq<Origin>) { forall k, l :: 0 <= k < l < |os| ==> os[k] != os[l] }

  predicate Before(os: seq<Origin>, step: nat) { forall k :: 0 <= k < |os| ==> os[k].step < step }

  lemma DifferTogether(a: seq<Origin>, b: seq<Origin>)
    requires AllDifferent(a) && AllDifferent(b) && forall k, l :: 0 <= k < |a| && 0 <= l < |b| ==> a[k] != b[l]
    ensures AllDifferent(a + b)
  {
  }

  lemma FreshDiffer(step: nat, summary: bool, lo: nat, hi: nat)
    ensures AllDifferent(Fresh(step, summary, lo, hi))
    ensures forall o :: o in Fresh(step, summary, lo, hi) ==> o.step == step && o.summary == summary
  {
  }

  lemma NextOriginsDiffer(before: seq<Origin>, w: World, a: Action, step: nat)
    requires AllDifferent(before) && Before(before, step)
    ensures AllDifferent(NextOrigins(before, w, a, step)) && Before(NextOrigins(before, w, a, step), step + 1)
  {
    var added := Fresh(step, false, |before|, |Base(w, a)|);
    FreshDiffer(step, false, |before|, |Base(w, a)|);
    DifferTogether(before, added);
    if Adopts(w, a) {
      var grown, summary := before + added, Fresh(step, true, 0, |Summary(w, a)|);
      FreshDiffer(step, true, 0, |Summary(w, a)|);
      DifferTogether(summary, grown[Min(|w.server.compaction.prefix.value|, |grown|)..]);
    }
  }

  lemma {:induction false} OriginsDiffer(run: seq<World>, actions: seq<Action>, j: nat)
    requires j < |run| == |actions| + 1
    ensures AllDifferent(Origins(run, actions, j)) && Before(Origins(run, actions, j), j + 1)
    decreases j
  {
    if j == 0 {
    } else {
      OriginsDiffer(run, actions, j - 1);
      NextOriginsDiffer(Origins(run, actions, j - 1), run[j - 1], actions[j - 1], j);
    }
  }

  /** Nothing is stored twice: two places of stored history hold messages that were written
      at two different origins. */
  lemma NothingIsStoredTwice(run: seq<World>, actions: seq<Action>, j: nat, k: nat, l: nat)
    requires PolicyRun(run, actions) && j < |run| && k < l < |run[j].server.messages|
    ensures |Origins(run, actions, j)| == |run[j].server.messages|
    ensures var o, o' := Origins(run, actions, j)[k], Origins(run, actions, j)[l];
            && o != o' && WrittenAt(run, actions, o, run[j].server.messages[k])
            && WrittenAt(run, actions, o', run[j].server.messages[l])
  {
    EveryMessageHasItsOrigin(run, actions, j, k);
    EveryMessageHasItsOrigin(run, actions, j, l);
    OriginsDiffer(run, actions, j);
  }

  /** A turn that fails leaves stored history as the last checkpoint left it, message by
      message: each has the origin it had, and was there ever since. */
  lemma FailedTurnKeepsHistory(run: seq<World>, actions: seq<Action>, i: nat, j: nat)
    requires PolicyRun(run, actions) && j == i + 1 < |run| && actions[i].WorkerDone? && actions[i].result.FailedWith?
    ensures run[j].server.messages == run[i].server.messages
    ensures Origins(run, actions, j) == Origins(run, actions, i)
    ensures forall h, k :: 0 <= h <= i && 0 <= k < |run[j].server.messages| ==> HeldSince(run, actions, h, j, k)
  {
    HistoryStepAt(run, actions, i);
    OriginsFit(run, actions, i);
    FailureKeepsOrigins(Origins(run, actions, i), run[i], actions[i], j);
    forall h, k | 0 <= h <= i && 0 <= k < |run[j].server.messages|
      ensures HeldSince(run, actions, h, j, k)
    {
      DroppedNeverComesBack(run, actions, h, j, k);
    }
  }

  lemma FailureKeepsOrigins(before: seq<Origin>, w: World, a: Action, step: nat)
    requires |before| == |w.server.messages| && a.WorkerDone? && a.result.FailedWith?
    ensures Stored(w, a) == w.server.messages && NextOrigins(before, w, a, step) == before
  {
  }

  // ------------------------------------------------- whose summary is adopted

  /** The outcome kept is the one the task reported for the prefix kept beside it. */
  ghost predicate Reported(run: seq<World>, actions: seq<Action>, j: nat,
                           prefix: Option<seq<Message>>, outcome: Outcome)
    requires IsRun(run, actions)
  {
    && j < |actions| && TaskEnds(run[j], actions[j]) && run[j].server.compaction.prefix == prefix
    && actions[j].TaskDone? && actions[j].outcome == outcome
  }

  lemma CheckpointKeepsNoResult(s: Server, from: From, phase: Phase, due: Due, newRef: Ref)
    requires Enabled(s.compaction)
    ensures CheckpointReply(s, from, phase, due, newRef).server.compaction.result.None?
  {
  }

  predicate ResultMoved(w: World, a: Action, c': State) {
    c'.result.Some? && c'.result.value.Ok? ==>
      && c'.prefix == w.server.compaction.prefix
      && (c'.result == w.server.compaction.result || (TaskEnds(w, a) && a.TaskDone? && c'.result == Some(a.outcome)))
  }

  lemma TaskEndMovesResult(w: World, a: Action)
    requires Possible(w, a) && TaskEnds(w, a)
    ensures ResultMoved(w, a, React(w, a).server.compaction)
  {
    if w.server.compaction.waiter.Some? {
      var c, waiter := AfterTask(w, a).(waiter := None), w.server.compaction.waiter.value;
      CheckpointKeepsNoResult(w.server.(compaction := c), waiter.from, waiter.phase, a.due, a.newRef);
    }
  }

  lemma ResultMoves(w: World, a: Action)
    requires Steady(w) && Possible(w, a) && Enabled(w.server.compaction)
    ensures ResultMoved(w, a, React(w, a).server.compaction)
  {
    if Submits(w, a) {
      SpeakerOwnsTurn(w, a.ref);
      CheckpointKeepsNoResult(w.server.(messages := a.messages), a.from, Background, a.due, a.newRef);
    } else if TaskEnds(w, a) {
      TaskEndMovesResult(w, a);
    }
  }

  lemma {:induction false} ResultWasReported(run: seq<World>, actions: seq<Action>, i: nat) returns (j: nat)
    requires PolicyRun(run, actions) && i < |run|
    requires run[i].server.compaction.result.Some? && run[i].server.compaction.result.value.Ok?
    ensures j < i && Reported(run, actions, j, run[i].server.compaction.prefix, run[i].server.compaction.result.value)
  {
    assert i > 0;
    RunKeepsInv(run, actions, i - 1);
    PolicyStays(run, actions, i - 1);
    ResultMoves(run[i - 1], actions[i - 1]);
    if run[i].server.compaction.result == run[i - 1].server.compaction.result {
      j := ResultWasReported(run, actions, i - 1);
    } else {
      j := i - 1;
    }
  }

  /** Whatever a summary replaces is what its own task was given: when a step adopts one, the
      task that reported it was, at that moment, working on the very prefix being replaced. */
  lemma SummaryIsItsTasksOwn(run: seq<World>, actions: seq<Action>, i: nat) returns (j: nat)
    requires PolicyRun(run, actions) && i < |actions| && Adopts(run[i], actions[i])
    ensures j <= i && Reported(run, actions, j, run[i].server.compaction.prefix, Ok(Summary(run[i], actions[i])))
    ensures run[i + 1].server.messages
            == Summary(run[i], actions[i]) + Base(run[i], actions[i])[|run[i].server.compaction.prefix.value|..]
  {
    HistoryStepAt(run, actions, i);
    if TaskEnds(run[i], actions[i]) {
      j := i;
    } else {
      j := ResultWasReported(run, actions, i);
    }
  }

  // ------------------------------------------------ summaries and tool batches

  /** The captured prefix is still the beginning of history, and what follows it is no tool result. */
  predicate CleanCut(c: State, messages: seq<Message>) {
    c.prefix.Some? ==>
      && c.prefix.value <= messages
      && (|c.prefix.value| < |messages| ==> messages[|c.prefix.value|].role != ToolResult)
  }

  lemma CutOfBase(w: World, a: Action)
    requires Steady(w) && Possible(w, a) && Enabled(w.server.compaction)
    requires CleanCut(w.server.compaction, w.server.messages)
    ensures CleanCut(w.server.compaction, Base(w, a))
  {
    if Submits(w, a) || Succeeds(w, a) {
      SubmissionExtends(w, a);
      var s, base := w.server, Base(w, a);
      if s.compaction.prefix.Some? {
        var n := |s.compaction.prefix.value|;
        assert n <= s.turn.promptIndex.value;
        assert n < |s.messages| ==> base[n] == s.messages[n];
      }
    }
  }

  /** Where the protected part begins, no batch is split. */
  predicate Splittable(messages: seq<Message>, protectedCount: int) {
    || protectedCount <= 1
    || |messages| <= protectedCount
    || messages[|messages| - protectedCount].role != ToolResult
  }

  lemma NewCut(messages: seq<Message>, keep: nat, protectedCount: int)
    requires Splittable(messages, protectedCount)
    ensures var n := |Prefix(messages, keep, protectedCount)|; 0 < n < |messages| ==> messages[n].role != ToolResult
  {
    PrefixIsLongestSafeCut(messages, keep, protectedCount);
  }

  lemma BackgroundCut(c: State, messages: seq<Message>, due: Due, protectedCount: int, newRef: Ref)
    requires Enabled(c) && CleanCut(c, messages) && Splittable(messages, protectedCount)
    ensures CleanCut(StartBackground(c, messages, due, protectedCount, newRef), messages)
  {
    NewCut(messages, c.policy.value.keep, protectedCount);
  }

  lemma BlockCut(c: State, messages: seq<Message>, from: From, phase: Phase, protectedCount: int, newRef: Ref)
    requires CleanCut(c, messages) && Splittable(messages, protectedCount)
    ensures CleanCut(Block(c, messages, from, phase, protectedCount, newRef).state, messages)
    ensures Block(c, messages, from, phase, protectedCount, newRef).messages == messages
  {
    NewCut(messages, 0, protectedCount);
  }

  lemma TakenCut(c: State, messages: seq<Message>)
    requires CleanCut(c, messages)
    ensures CleanCut(TakeResult(c, messages).state, TakeResult(c, messages).messages)
  {
  }

  lemma CheckpointCut(c: State, messages: seq<Message>, from: From, phase: Phase, protectedCount: int,
                      due: Due, newRef: Ref)
    requires Enabled(c) && CleanCut(c, messages)
    requires phase == Manual || Splittable(TakeResult(c, messages).messages, protectedCount)
    ensures var v := Checkpoint(c, messages, from, phase, protectedCount, due, newRef); CleanCut(v.state, v.messages)
  {
    var taken := TakeResult(c, messages);
    TakenCut(c, messages);
    if phase != Manual {
      BackgroundCut(taken.state, taken.messages, due, protectedCount, newRef);
      BlockCut(taken.state, taken.messages, from, phase, protectedCount, newRef);
    }
  }

  lemma CheckpointReplyCut(s: Server, from: From, phase: Phase, due: Due, newRef: Ref)
    requires Coherent(s.compaction) && Bounded(s) && Enabled(s.compaction) && CleanCut(s.compaction, s.messages)
    requires phase == Manual || (s.turn.promptIndex.Some? && s.turn.promptIndex.value < |s.messages|
                                 && s.messages[s.turn.promptIndex.value].role == User)
    ensures var s' := CheckpointReply(s, from, phase, due, newRef).server; CleanCut(s'.compaction, s'.messages)
  {
    if phase != Manual {
      var p, taken := s.turn.promptIndex.value, TakeResult(s.compaction, s.messages).messages;
      AdoptionKeepsSuffix(s.compaction, s.messages, p);
      var p' := p + |taken| - |s.messages|;
      assert taken[p'] == taken[p'..][0] == s.messages[p..][0];
    }
    CheckpointCut(s.compaction, s.messages, from, phase, ProtectedCount(s), due, newRef);
  }

  lemma SubmitCut(w: World, a: Action)
    requires Steady(w) && Possible(w, a) && Submits(w, a) && CleanCut(w.server.compaction, w.server.messages)
    ensures CleanCut(React(w, a).server.compaction, React(w, a).server.messages)
  {
    CutOfBase(w, a);
    SubmissionExtends(w, a);
    SubmissionSound(w, a);
    CheckpointReplyCut(w.server.(messages := a.messages), a.from, Background, a.due, a.newRef);
  }

  lemma SuccessCut(w: World, a: Action)
    requires Steady(w) && Possible(w, a) && Enabled(w.server.compaction) && Succeeds(w, a)
    requires CleanCut(w.server.compaction, w.server.messages)
    ensures CleanCut(React(w, a).server.compaction, React(w, a).server.messages)
  {
    CutOfBase(w, a);
    var taken := TakeResult(w.server.compaction, a.result.messages);
    TakenCut(w.server.compaction, a.result.messages);
    BackgroundCut(taken.state, taken.messages, a.due, 1, a.newRef);
  }

  lemma PromptIsStored(w: World)
    requires Steady(w) && Enabled(w.server.compaction) && w.server.turn.streaming && w.server.compaction.waiter.Some?
    ensures var s := w.server;
            s.turn.promptIndex.value < |s.messages| && s.messages[s.turn.promptIndex.value].role == User
  {
    var s, k := w.server, w.workers[w.server.turn.abortRef.value];
    var p := s.turn.promptIndex.value;
    assert PromptKept(s, k);
    assert |s.messages[p..]| == |k.list[k.promptAt..]|;
    assert s.messages[p] == s.messages[p..][0] == k.list[k.promptAt..][0];
  }

  lemma TaskEndCut(w: World, a: Action)
    requires Steady(w) && Possible(w, a) && TaskEnds(w, a) && CleanCut(w.server.compaction, w.server.messages)
    ensures CleanCut(React(w, a).server.compaction, React(w, a).server.messages)
  {
    var s := w.server.(compaction := AfterTask(w, a).(waiter := None));
    if w.server.compaction.waiter.Some? {
      var waiter := w.server.compaction.waiter.value;
      if w.server.turn.streaming { PromptIsStored(w); }
      CheckpointReplyCut(s, waiter.from, waiter.phase, a.due, a.newRef);
    } else {
      TakenCut(AfterTask(w, a), w.server.messages);
    }
  }

  lemma StepKeepsCut(w: World, a: Action)
    requires Steady(w) && Possible(w, a) && Enabled(w.server.compaction)
    requires CleanCut(w.server.compaction, w.server.messages)
    ensures CleanCut(React(w, a).server.compaction, React(w, a).server.messages)
  {
    if Submits(w, a) { SubmitCut(w, a); }
    else if Succeeds(w, a) { SuccessCut(w, a); }
    else if TaskEnds(w, a) { TaskEndCut(w, a); }
    else { OtherCut(w, a); }
  }

  lemma OtherCut(w: World, a: Action)
    requires Steady(w) && Possible(w, a) && Enabled(w.server.compaction)
    requires CleanCut(w.server.compaction, w.server.messages)
    requires !Submits(w, a) && !Succeeds(w, a) && !TaskEnds(w, a)
    ensures CleanCut(React(w, a).server.compaction, React(w, a).server.messages)
  {
  }

  /** In every state of every run the prefix being summarized is the beginning of stored
      history and does not end between an assistant's tool calls and their results. */
  lemma {:induction false} CapturesNeverSplitBatches(run: seq<World>, actions: seq<Action>, i: nat)
    requires PolicyRun(run, actions) && i < |run|
    ensures CleanCut(run[i].server.compaction, run[i].server.messages)
  {
    if i == 0 {
    } else {
      CapturesNeverSplitBatches(run, actions, i - 1);
      RunKeepsInv(run, actions, i - 1);
      PolicyStays(run, actions, i - 1);
      StepKeepsCut(run[i - 1], actions[i - 1]);
    }
  }

  /** So no summary made for a session is ever thrown away when it is collected, and what it
      is put in front of never begins with a tool result whose call it swallowed. */
  lemma SummariesAreAlwaysAdopted(run: seq<World>, actions: seq<Action>, i: nat)
    requires PolicyRun(run, actions) && i < |actions| && Collects(run[i], actions[i])
    requires Available(run[i], actions[i]).Some? && Available(run[i], actions[i]).value.Ok?
    ensures Adopts(run[i], actions[i])
    ensures var n, base := |run[i].server.compaction.prefix.value|, Base(run[i], actions[i]);
            n < |base| ==> base[n].role != ToolResult
  {
    RunKeepsInv(run, actions, i);
    PolicyStays(run, actions, i);
    CapturesNeverSplitBatches(run, actions, i);
    CutOfBase(run[i], actions[i]);
  }

  // ------------------------------------------------ without background compaction

  /** A worker keeps what it was started with, and never revives. */
  lemma {:induction false} WorkerStays(run: seq<World>, actions: seq<Action>, ref: Ref, i: nat, j: nat)
    requires IsRun(run, actions) && Initial(run[0]) && i <= j < |run| && ref in run[i].workers
    ensures ref in run[j].workers && run[j].workers[ref].owner == run[i].workers[ref].owner
    ensures run[j].workers[ref].captured == run[i].workers[ref].captured
    ensures run[i].workers[ref].status == SessionRuns.Ended ==> run[j].workers[ref].status == SessionRuns.Ended
  {
    if i == j {
    } else {
      WorkerStays(run, actions, ref, i, j - 1);
      RunKeepsInv(run, actions, j - 1);
      WorkersMove(run[j - 1], actions[j - 1], React(run[j - 1], actions[j - 1]).sent);
    }
  }

  /** The turn started at step t is the one that ends at step i. */
  ghost predicate TurnSpan(run: seq<World>, actions: seq<Action>, t: nat, i: nat) {
    && IsRun(run, actions) && Initial(run[0]) && t < i < |actions| && Starts(run[t], actions[t])
    && actions[i].WorkerDone? && actions[i].ref == actions[t].newRef && Finishes(run[i], actions[i])
  }

  lemma StartsWith(run: seq<World>, actions: seq<Action>, t: nat)
    requires IsRun(run, actions) && Initial(run[0]) && t < |actions| && Starts(run[t], actions[t])
    ensures actions[t].newRef in run[t + 1].workers
    ensures run[t + 1].workers[actions[t].newRef] == NewWorker(run[t].server, Owner(actions[t]), actions[t].prompt)
    ensures run[t + 1].server.messages == run[t].server.messages
    ensures run[t + 1].server.compaction == run[t].server.compaction
  {
    RunKeepsInv(run, actions, t);
    WorkersMove(run[t], actions[t], React(run[t], actions[t]).sent);
  }

  lemma TurnIsHeld(run: seq<World>, actions: seq<Action>, t: nat, i: nat, k: nat)
    requires TurnSpan(run, actions, t, i) && t < k <= i
    ensures Current(run[k].server, actions[t].newRef) && run[k].server.turn.streaming
  {
    var ref := actions[t].newRef;
    StartsWith(run, actions, t);
    WorkerStays(run, actions, ref, t + 1, k);
    WorkerStays(run, actions, ref, k, i);
    RunKeepsInv(run, actions, k);
    if !Current(run[k].server, ref) {
      AbandonedForever(run, actions, ref, k, i);
    }
  }

  /** While a turn runs and there is no policy, only a call to compact changes stored history. */
  lemma InFlightStep(w: World, a: Action)
    requires Steady(w) && Possible(w, a) && !Enabled(w.server.compaction) && w.server.turn.streaming
    requires React(w, a).server.turn.streaming && React(w, a).server.turn.abortRef == w.server.turn.abortRef
    ensures React(w, a).server.compaction == w.server.compaction
    ensures React(w, a).server.messages
            == if a.CallCompact? && w.server.compaction.hasCompactor then a.compacted else w.server.messages
  {
    TurnMoves(w, a);
  }

  /** What the last call to compact among actions t+1 to i-1 left, or `start` if there was none. */
  function LastCompacted(start: seq<Message>, actions: seq<Action>, t: nat, i: nat): seq<Message>
    requires t < i <= |actions|
  {
    if i == t + 1 then start
    else if actions[i - 1].CallCompact? then actions[i - 1].compacted
    else LastCompacted(start, actions, t, i - 1)
  }

  lemma InFlightStepAt(run: seq<World>, actions: seq<Action>, t: nat, i: nat, k: nat)
    requires TurnSpan(run, actions, t, i) && t < k < i && !Enabled(run[k].server.compaction)
    ensures run[k + 1].server.compaction == run[k].server.compaction
    ensures run[k + 1].server.messages
            == if actions[k].CallCompact? && run[k].server.compaction.hasCompactor then actions[k].compacted
               else run[k].server.messages
  {
    RunKeepsInv(run, actions, k);
    TurnIsHeld(run, actions, t, i, k);
    TurnIsHeld(run, actions, t, i, k + 1);
    InFlightStep(run[k], actions[k]);
  }

  lemma {:induction false} InFlightHistory(run: seq<World>, actions: seq<Action>, t: nat, i: nat, k: nat)
    requires TurnSpan(run, actions, t, i) && t < k <= i && !Enabled(run[t].server.compaction)
    ensures run[k].server.compaction == run[t].server.compaction
    ensures run[k].server.messages
            == if run[t].server.compaction.hasCompactor then LastCompacted(run[t].server.messages, actions, t, k)
               else run[t].server.messages
  {
    if k == t + 1 {
      StartsWith(run, actions, t);
    } else {
      InFlightHistory(run, actions, t, i, k - 1);
      InFlightStepAt(run, actions, t, i, k - 1);
    }
  }

  /** Without a policy, a run that fails puts back the history it was started on with its
      prompt, before any end-of-turn compaction. That undoes nothing if and only if the last
      call to compact while it was in flight, if a compactor is configured and there was one,
      gave that same history. A stream that fails leaves stored history alone. */
  lemma FailedRunUndoesOnlyCompactsInFlight(run: seq<World>, actions: seq<Action>, t: nat, i: nat)
    requires TurnSpan(run, actions, t, i) && !Enabled(run[t].server.compaction) && actions[i].result.FailedWith?
    ensures actions[t].CallRun? ==>
              && actions[i].result.messages == run[t].server.messages + [actions[t].prompt]
              && (run[i + 1].server.messages
                  == if run[t].server.compaction.hasCompactor then actions[i].compacted else actions[i].result.messages)
    ensures actions[i].result.messages == run[i].server.messages + [actions[t].prompt]
            <==> !run[t].server.compaction.hasCompactor
                 || LastCompacted(run[t].server.messages, actions, t, i) == run[t].server.messages
    ensures actions[t].CastStream? ==> run[i + 1].server.messages == run[i].server.messages
  {
    var ref, start, prompt := actions[t].newRef, run[t].server.messages, actions[t].prompt;
    StartsWith(run, actions, t);
    WorkerStays(run, actions, ref, t + 1, i);
    InFlightHistory(run, actions, t, i, i);
    assert run[i + 1] == Step(run[i], actions[i]);
    assert actions[i].result.messages == start + [prompt];
    SnocIsInjective(start, run[i].server.messages, prompt);
  }

  lemma SnocIsInjective(a: seq<Message>, b: seq<Message>, m: Message)
    ensures a + [m] == b + [m] <==> a == b
  {
    if a + [m] == b + [m] {
      assert a == (a + [m])[..|a|] == (b + [m])[..|b|] == b;
    }
  }

  lemma {:induction false} NoCompactNoChange(start: seq<Message>, actions: seq<Action>, t: nat, i: nat)
    requires t < i <= |actions| && forall k :: t < k < i ==> !actions[k].CallCompact?
    ensures LastCompacted(start, actions, t, i) == start
  {
    if i == t + 1 {
    } else {
      NoCompactNoChange(start, actions, t, i - 1);
    }
  }

  /** The condition a caller can check: nobody compacts while the run is in flight. */
  lemma NoCompactInFlightNothingComesBack(run: seq<World>, actions: seq<Action>, t: nat, i: nat)
    requires TurnSpan(run, actions, t, i) && !Enabled(run[t].server.compaction) && actions[i].result.FailedWith?
    requires forall k :: t < k < i ==> !actions[k].CallCompact?
    ensures actions[i].result.messages == run[i].server.messages + [actions[t].prompt]
  {
    FailedRunUndoesOnlyCompactsInFlight(run, actions, t, i);
    NoCompactNoChange(run[t].server.messages, actions, t, i);
  }
}

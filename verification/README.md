# Condukt: verified models of its state machines, codecs and matchers

Condukt runs language-model agents: a session server drives turns and compacts their history, a
host-driven variant of the loop leaves every effect to the caller, a sandbox edits and searches
files, and an egress sidecar decides which connections may leave the sandbox. This project models
the parts of it that carry state, branching or arithmetic, and proves what they promise.

`dafny verify dfyconfig.toml` checks the whole project.

| modules | what they model |
|---|---|
| `Compaction`, `Session`, `SessionRuns`, `SessionTheorems`, `SessionHistory`, `SessionReplies`, `SessionProcess` | the session server: turns fenced by a reference, workers that outlive an abort, one compaction task, one waiter, and the prompt index that survives history rewrites |
| `HostPolicy` | host patterns, their compiler and matcher, and the rule pipeline |
| `ControlChannel`, `EgressRuns`, `EgressTheorems` | the sidecar's decision protocol between any number of connections and a peer |
| `Relay` | one connection's head capture and two-way splice |
| `HostSession` | the host-driven agent loop |
| `ShellQuoting`, `SandboxText` | shell quoting, file-name globs and unique-occurrence editing |
| `TraceContext` | the trace header codec |
| `ElfPatch` | the byte patcher for shared objects |
| `LeafCache`, `Retry` | the leaf-certificate cache and bounded retries |

**How runs are modelled.** Concurrent parts are state machines: an action says who does what next
(`Possible` says when it may), `Step` gives the next state, and a run is a sequence of states with
the actions between them. Every theorem about runs holds for every interleaving. In the session
server an action is the delivery of one message: a call, a cast, a worker's next message, or the end
of a compaction task. A worker outlives the turn it was started for and may go on speaking. In the sidecar a
step is one access to shared state.

**Inputs.** References from `make_ref`, request UUIDs, clocks, timers, random draws, what a peer sends,
which writes fail, token estimates and thresholds, what the compactor, the tools, the retry
classifier and the model return, and how a request head parses are parameters or free choices.
References and UUIDs are new when they are made; calls have distinct reply addresses.

**In place.** `SessionProcess.Process`, `ControlChannel.Shared`, `LeafCache.CaContext` and
`SandboxText.Workspace` are classes, because their originals update shared or process state; the ELF
patcher works on an array. Each method is tied to a function on values, and the theorems are about
those functions. A session process also keeps, as ghost state, the run of messages it has received, and
every callback keeps it a run of the state machine that ends in the present state; so the theorems
about runs hold of the object.

**Where the code and its comments differ, the code is modelled.**

- The control channel's own description says a new peer replaces the old one. The accept loop serves the
  next peer only once the previous writer has failed and its reader has ended (`control.rs:111-134`).
- `emit` is described as dropping events when no peer is connected. It drops them only when the queue is
  full (`control.rs:57-61`).
- The relay's two byte counts come back as (client to upstream, upstream to client) and are bound as
  (in, out) (`conn.rs:250`, `conn.rs:299`). The sum is stated, and what `bytesIn` counts.

**Properties that hold only sometimes** come with the exact condition:

- A pattern matches its whole language exactly when each single star is last or stands before a
  literal that begins with a dot.
- Of trace headers that say version 00 the parser accepts those the standard allows and their upper-case forms; an
  accepted one is standard exactly when it holds no upper-case letter.
- A glob pattern that passes the sandbox's filter never leaves its command; it is one word exactly when it is not
  empty, does not begin a comment, and its blanks and a final backslash are escaped.
- The order of tool outputs is irrelevant exactly when the requested ids are distinct, or the turn has used up its requests.
- "Occurs exactly once", as the editor counts, is the plain notion for every text exactly when the needle has no border.
- With background compaction, what a summary replaced never comes back. Without it, a failed run puts back the
  history it was started on, which undoes nothing exactly when the last call to compact while it was
  in flight, if any, left that same history.

## Model

| member | source | states |
|---|---|---|
| `SessionTheorems.CallsAnsweredExactlyOnce` | lib/condukt/session.ex:543-712 | In every state of every run each call received so far has had exactly one reply, except the active run's caller and the compaction waiter, which have had none; no other address ever gets one |
| `SessionTheorems.StreamsEndExactlyOnce` | lib/condukt/session.ex:634-712 | Each stream requested has had exactly one end marker once its turn is over or refused, none while its turn runs, and no other stream ever gets one |
| `SessionTheorems.WaiterHasTask` | lib/condukt/session.ex:596-621 | In every reachable state a waiting caller has a compaction task running that will wake it |
| `SessionTheorems.AbandonedForever` | lib/condukt/session/turn.ex:46-54 | A worker whose turn is no longer current is never current again, whatever happens later |
| `SessionTheorems.AbandonedWorkerIsInert` | lib/condukt/session.ex:653-712 | Nothing such a worker says ever changes history, assigns, compaction or a later turn; all that is sent because of it is a refusal |
| `SessionTheorems.AbandonedWorkerIsNotAdmitted` | lib/condukt/session.ex:591-594 | Every later turn check it makes is answered with an abort |
| `SessionTheorems.AbortRefusesTheWaiting` | lib/condukt/session.ex:1507-1531 | An abort tells only the aborting caller and those still owed something, and tells the latter that they were aborted |
| `SessionTheorems.AbortPays` | lib/condukt/session.ex:1507-1531 | After an abort nobody is owed anything, and each debt was paid exactly as often as it stood |
| `SessionTheorems.FinishedTurnIsStored` | lib/condukt/session.ex:670-707 | With background compaction, a turn that succeeds answers its own caller with its own result, stores its assigns, and stores word for word everything from its prompt on, even if a summary is adopted on the way out |
| `SessionTheorems.PromptIndexTracksPrompt` | lib/condukt/session.ex:1458-1505 | Through any number of checkpoints and adopted summaries the prompt index names the active turn's own prompt in stored history, followed by exactly what its worker holds; before the first checkpoint it is where the prompt will go |
| `SessionTheorems.HistoryMovesOnlyAtCheckpoints` | lib/condukt/session.ex:1474-1492 | While a turn runs, stored history changes only when its worker checkpoints or when the compaction that worker is blocked on ends |
| `SessionHistory.HistoryStep` | lib/condukt/session.ex:596-727 | With background compaction every message of the server either clears stored history, or extends it and then replaces exactly the captured prefix by the task's summary, or just extends it; the history a worker hands in always begins with what is stored |
| `SessionHistory.EveryMessageHasItsOrigin` | lib/condukt/session.ex:613-712 | In every state of every run each stored message is the one first stored at its origin: at start-up, by the worker current at that step, or in the summary adopted at that step |
| `SessionHistory.DroppedNeverComesBack` | lib/condukt/session.ex:678-692 | In every run, a message stored now that was first stored by an earlier step was in stored history, the same message with the same origin, after that step and after every step since; so what was summarized or cleared away is put back neither by a checkpoint nor by the end or failure of a turn |
| `SessionHistory.NothingIsStoredTwice` | lib/condukt/session/compaction.ex:199-215 | In every state of every run any two places of stored history hold messages written at two different origins |
| `SessionHistory.FailedTurnKeepsHistory` | lib/condukt/session.ex:678-712 | With background compaction a turn that fails leaves every stored message as it was, with the origin it had, and each has been stored ever since that origin |
| `SessionHistory.SummaryIsItsTasksOwn` | lib/condukt/session/compaction.ex:175-215 | Whenever a summary is adopted, the task that reported it was at that moment working on the very prefix being replaced, and the new history is that summary and then everything after the prefix |
| `SessionHistory.CapturesNeverSplitBatches` | lib/condukt/session/compaction.ex:107-118 | In every state of every run the prefix being summarized begins stored history and does not end between tool calls and their results |
| `SessionHistory.SummariesAreAlwaysAdopted` | lib/condukt/session/compaction.ex:199-205 | A summary that is collected is never thrown away, and what it is put in front of never begins with a tool result |
| `SessionHistory.FailedRunUndoesOnlyCompactsInFlight` | lib/condukt/session.ex:678-692 | Without a policy, a run started at one step that fails at another puts back the history of the first with its prompt; this equals what was stored, with the prompt, if and only if no compactor is configured or the last call to compact in between, if any, left the history of the first step. A stream that fails leaves history alone |
| `SessionHistory.InFlightHistory` | lib/condukt/session.ex:596-601 | Without a policy, stored history during a turn is what the last call to compact in that turn left, or what it was at the start |
| `SessionHistory.NoCompactInFlightNothingComesBack` | lib/condukt/session.ex:596-601 | If nobody compacts while a run is in flight, its failure brings nothing back |
| `SessionTheorems.SynchronousCompactionIsUndone` | lib/condukt/session.ex:596-601 | A concrete run in which, without background compaction, a prefix compacted away by hand comes back when the run in flight fails |
| `SessionTheorems.OldTaskNeverReturns` | lib/condukt/session/compaction.ex:175-197 | A compaction task that is no longer the current one never becomes it again |
| `SessionTheorems.ClearForgetsCompactions` | lib/condukt/session.ex:579-585 | Clearing empties history and forgets all compaction work, and no result, exit or timeout of a compaction begun before it changes anything afterwards |
| `SessionTheorems.RunKeepsInv` | lib/condukt/session.ex:543-733 | Every reachable state has one turn with one live owner, one waiter at most with a task to wait for, no worker blocked but the waiter, an intact prompt boundary and balanced replies |
| `SessionTheorems.StepKeepsInv` | lib/condukt/session.ex:543-733 | Each single message keeps that invariant |
| `SessionTheorems.CheckpointReplySound` | lib/condukt/session.ex:1458-1472 | A checkpoint is either parked with a waiter or answered once, keeps the protected suffix word for word and moves only the prompt index of the turn |
| `SessionTheorems.CompactionFinishedSound` | lib/condukt/session.ex:1474-1492 | The end of a compaction task keeps the server sound and pays exactly what is no longer owed |
| `SessionTheorems.TurnMoves` | lib/condukt/session/turn.ex:31-54 | The turn changes only by an abort, an admitted start or the end of the current worker, and otherwise only its prompt index moves |
| `SessionReplies.RunStartsExactlyWhenIdle` | lib/condukt/session.ex:543-560 | In every run a call to run is refused as already streaming exactly when a turn is in progress or a caller waits, and otherwise owns the turn, whose prompt will follow the history stored now |
| `SessionReplies.StreamStartsExactlyWhenIdle` | lib/condukt/session.ex:634-645 | The same for streams, which are told of the refusal and then of their end |
| `SessionReplies.OwnerIsToldItsOwnResult` | lib/condukt/session.ex:670-712 | In every run, with and without a policy, the end of a turn tells exactly its owner: a run's caller its own text if it succeeded and its own reason if it failed, a stream that it is over |
| `SessionReplies.ResponsesAreOwn` | lib/condukt/session.ex:678-679 | Whoever has been told that a run succeeded is the caller of a run whose own current worker succeeded, earlier, with that very text |
| `SessionReplies.EndWithoutPolicyIsStored` | lib/condukt/session.ex:678-712 | Without a policy the end of a turn stores the worker's list, or what the compactor made of it, and its assigns; only a stream that fails stores nothing |
| `SessionReplies.AbortTells` | lib/condukt/session.ex:1507-1531 | An abort or a clear tells the compaction waiter, then the owner of the turn, then its own caller, and nobody else |
| `SessionReplies.EventTells` | lib/condukt/session.ex:653-660 | An event of the current turn is passed on, and when the agent stops the turn, those who waited are told after it; other events are dropped |
| `SessionReplies.CurrentWorkerIsAdmitted` | lib/condukt/session.ex:591-594 | In every run a worker's turn check is answered yes exactly as long as it is current and has not ended |
| `SessionReplies.CompactTells` | lib/condukt/session.ex:596-611 | Compacting by hand is done at once without a policy, refused while busy, and otherwise starts a task on the whole history for which the caller waits |
| `SessionReplies.CheckpointIsAnswered` | lib/condukt/session/compaction.ex:70-118 | In every run a checkpoint of the current worker is answered with the history stored now unless the blocking threshold is reached; then the worker waits for the running task, or for a new one on the longest safe prefix, or is told that the context is full if there is none |
| `SessionReplies.WaiterIsAnswered` | lib/condukt/session.ex:1474-1485 | In every run the end of a task tells the caller waiting for it the task's error, or done, or the history stored now, or lets it wait for one more task, each exactly when it should |
| `SessionReplies.UnwaitedTaskIsQuiet` | lib/condukt/session.ex:1487-1492 | The end of a task nobody waits for is told to nobody |
| `SessionReplies.CheckpointStartsTask` | lib/condukt/session/compaction.ex:88-97 | At a checkpoint that does not block, a background task starts exactly when none runs, the background threshold is reached, and the history now stored has a safe prefix before the prompt that is not the last one tried |
| `SessionReplies.SuccessStartsTask` | lib/condukt/session.ex:1431-1435 | The same at the end of a turn that succeeded, where only the last message is protected |
| `Compaction.PrefixIsLongestSafeCut` | lib/condukt/session/compaction.ex:155-173 | For all inputs the walk finds the longest prefix that leaves the protected messages and at least the kept tokens behind, and it cuts a tool result off its call only where two or more messages are protected and the first of them is that result |
| `Compaction.CutIsLast` | lib/condukt/session/compaction.ex:158-170 | The backward walk stops at the last place where history may be cut |
| `Compaction.AdoptionKeepsSuffix` | lib/condukt/session/compaction.ex:199-215 | Adopting a summary keeps every message after the captured prefix, at its shifted place |
| `Compaction.CheckpointKeepsProtected` | lib/condukt/session/compaction.ex:70-118 | A checkpoint keeps the protected suffix word for word, starts no work that reaches into it, and waits exactly when a task is left to wake the caller |
| `SessionProcess.ProcessAnswersExactlyOnce` | lib/condukt/session.ex:543-733 | Whatever callbacks a process object has been through, in whatever order, each caller has had exactly one reply except the owner of the turn and the waiter, and each stream exactly one end marker except the owner of the turn |
| `SessionProcess.Process.HandleRun` | lib/condukt/session.ex:543-560 | The object stays a run of the state machine, one message longer; the caller has its one reply or owns the turn; while busy it is refused and nothing changes, otherwise the turn starts |
| `SessionProcess.Process.HandleStream` | lib/condukt/session.ex:634-645 | As above; the stream has its one end marker or owns the turn |
| `SessionProcess.Process.HandleAbort` | lib/condukt/session.ex:587-589 | The object stays a run of the state machine; every caller so far has had exactly one reply and every stream exactly one end marker; history stays |
| `SessionProcess.Process.HandleClear` | lib/condukt/session.ex:579-585 | As above; every caller so far has had exactly one reply and every stream exactly one end marker, and no history or compaction work is left |
| `SessionProcess.Process.HandleCheckTurn` | lib/condukt/session.ex:591-594 | As above; the caller has its one reply, and a worker whose turn was over at any time in the past is refused |
| `SessionProcess.Process.HandleCompact` | lib/condukt/session.ex:596-611 | As above; the caller has its one reply or is the one waiter; the turn stays, and under a policy history does |
| `SessionProcess.Process.HandleCheckpoint` | lib/condukt/session.ex:613-621 | As above; the worker has its one reply or is the one waiter; from its prompt on stored history is what it submitted; a worker that is not current changes nothing |
| `SessionProcess.Process.HandleTaskDone` | lib/condukt/session.ex:715-722 | As above; whoever was waiting has one reply or a task to wait for, a running turn keeps its history from its prompt on, and a task that is not current changes and sends nothing |
| `SessionProcess.Process.HandleTaskTimeout` | lib/condukt/session.ex:724-727 | As for a result |
| `SessionProcess.Process.HandleEvent` | lib/condukt/session.ex:653-660 | As above; an event of a turn that is over changes and sends nothing, and stopping the current turn leaves every caller and stream settled |
| `SessionProcess.Process.HandleRunComplete` | lib/condukt/session.ex:670-692 | As above; the caller of the current run is sent exactly its own text or its own reason, every caller is settled, and without a policy the list or what the compactor made of it is stored; a worker that is not current changes and sends nothing |
| `SessionProcess.Process.HandleStreamComplete` | lib/condukt/session.ex:694-712 | As above, for streams: one end marker is sent; a stream that fails leaves history and assigns alone |
| `EgressTheorems.ForwardedOnlyWithPermission` | native/condukt_egress/src/proxy/conn.rs:79-126 | In every interleaving a connection is let through only if an Allow rule is the first to decide on its host, or none decides and the default allows, or a Decide rule is the first and a line received earlier permitted that connection's own id while its request was in flight and unanswered |
| `EgressTheorems.RefusedForItsOwnReason` | native/condukt_egress/src/proxy/conn.rs:80-114 | Every other ending is a refusal, and its reason is a Deny rule or the default, or what an earlier line for this very id said while its request was in flight and unanswered, or that this task's timer fired while it held no answer or its request met a full queue |
| `EgressTheorems.PolicySendsOn` | native/condukt_egress/src/proxy/conn.rs:79-83 | In every run the policy sends a connection to be admitted, refused for a Deny rule, refused by default or asked about, each exactly when its first deciding rule or the default says so |
| `EgressTheorems.AnswerSendsOn` | native/condukt_egress/src/proxy/conn.rs:96-101 | In every run an answer that is taken came on a line while the request waited, admits the connection if it permits, and otherwise refuses it with the reason it gave |
| `EgressTheorems.AnswersReachTheirRequests` | native/condukt_egress/src/proxy/control.rs:186-189 | A line that names a request in flight and not yet answered is handed to it |
| `EgressTheorems.AskedExactlyOnce` | native/condukt_egress/src/proxy/control.rs:81-93 | In every state the decider has been asked exactly once about each connection the policy defers that is past asking, and never about another |
| `EgressTheorems.WaitsOnlyWhenQueued` | native/condukt_egress/src/proxy/control.rs:89-95 | A task waits for an answer exactly when its request was put in the queue |
| `EgressTheorems.NobodyIsStuck` | native/condukt_egress/src/proxy/conn.rs:77-136 | Until it is over every connection has a step of its own to take, whatever the peer does |
| `EgressTheorems.OwnStepsGoForward` | native/condukt_egress/src/proxy/conn.rs:77-136 | Each such step brings it nearer its end, of which there are at most eight, and nobody else's step moves it |
| `EgressTheorems.EndsAsItWent` | native/condukt_egress/src/proxy/conn.rs:106-136 | A connection is reported closed or failed as its forwarding went, and denied with the reason it was refused for |
| `EgressTheorems.PendingIsExactlyInFlight` | native/condukt_egress/src/proxy/control.rs:75-102 | In every state the pending ids are exactly those of the requests in flight and not yet answered, and nothing is pending when none is in flight, on every exit |
| `EgressTheorems.ResolvedOnceForGood` | native/condukt_egress/src/proxy/control.rs:176-198 | Each request is resolved at most once, only by a line that names its own id, and what it was handed never changes |
| `EgressTheorems.TrafficIsOrdered` | native/condukt_egress/src/proxy/control.rs:106-156 | Every connection's events are a prefix of Opened then Denied, or Opened, Allowed and one end; an HTTP/2 exchange's, under its own id, are Opened and then Closed; no other id has any. The queue never holds more than 1024 frames; what peers receive across reconnects and failed writes is an in-order subsequence of what was emitted |
| `EgressTheorems.RunKeepsProtocol` | native/condukt_egress/src/proxy/control.rs:66-103 | Every reachable state has distinct ids, pending entries owned by their requests, justified phases and a log that agrees with every answer held |
| `EgressTheorems.StepKeepsProtocol` | native/condukt_egress/src/proxy/control.rs:66-103 | Each single access to shared state keeps that invariant |
| `EgressTheorems.RunKeepsTraffic` | native/condukt_egress/src/proxy/control.rs:137-156 | In every reachable state the emitted events are those each phase stands for, and delivered frames, the frame being written and the queue together are an in-order subsequence of what was emitted |
| `EgressTheorems.NothingElseIsLost` | native/condukt_egress/src/proxy/control.rs:57-61 | As long as no frame met a full queue and no write failed, what peers received, the frame being written and the queue are all that was emitted, in order |
| `EgressTheorems.PeersTakeTurns` | native/condukt_egress/src/proxy/control.rs:111-134 | A peer is served only after the one before it has hung up and a write to it has failed |
| `EgressTheorems.PeerIsDoneUntilTheNext` | native/condukt_egress/src/proxy/control.rs:151-174 | After a failed write nothing is written, and after a hang-up no line is read, until a peer connects |
| `ControlChannel.Shared.Emit` | native/condukt_egress/src/proxy/control.rs:57-61 | A frame is queued, or dropped when the queue is full, and nothing else changes |
| `ControlChannel.Shared.BeginRequest` | native/condukt_egress/src/proxy/control.rs:75-93 | The caller goes on to wait exactly when the queue had room; otherwise the channel is as it was |
| `ControlChannel.Shared.GiveUp` | native/condukt_egress/src/proxy/control.rs:97-101 | Only this request's entry goes |
| `ControlChannel.Shared.HandleLine` | native/condukt_egress/src/proxy/control.rs:176-198 | The entry the line names is taken out and its slot handed over; unknown ids and other frames change nothing |
| `ControlChannel.Shared.WriteLoop` | native/condukt_egress/src/proxy/control.rs:137-156 | With frames arriving while it writes: what was queued and what was accepted meanwhile, in that order, is what was delivered, then the one frame whose write failed, then what is still queued; what is accepted is an in-order part of what arrives, and all of it if it fits; only a failed write loses a frame, and it ends the loop |
| `Relay.CaptureHead` | native/condukt_egress/src/proxy/conn.rs:221-244 | The head is exactly the stream read so far, reading stops at the first head that does not ask for more, and the loop fails exactly on a read error met before that |
| `Relay.Splice` | native/condukt_egress/src/proxy/conn.rs:318-354 | One direction writes an in-order part of what it reads, all of it if no write fails, counts every byte it reads, and stops early only at a failed write |
| `Relay.Forward` | native/condukt_egress/src/proxy/conn.rs:270-303 | For every chunking, what goes upstream is a prefix of the client's stream with the head once, and all of it if reads end in end-of-file and no write fails; likewise downstream; both counts together are all bytes read |
| `HostPolicy.Compile` | native/condukt_egress/src/proxy/policy.rs:167-196 | The loop gives the pattern's token list, which is in normal form and prints back to the pattern |
| `HostPolicy.PrintOfTokens` | native/condukt_egress/src/proxy/policy.rs:167-196 | Printing what any pattern compiles to gives the pattern back |
| `HostPolicy.TokensNormal` | native/condukt_egress/src/proxy/policy.rs:173-193 | Compiled patterns have nonempty star-free literals, no two in a row, and no single star before another star |
| `HostPolicy.NormalFormsAreTheImages` | native/condukt_egress/src/proxy/policy.rs:167-196 | Compiling a printed token list gives it back if and only if it is in that normal form |
| `HostPolicy.MatchIsSound` | native/condukt_egress/src/proxy/policy.rs:205-242 | Whatever the matcher accepts splits into one part per token: the literal, a nonempty part without dots, or any nonempty part |
| `HostPolicy.MatchIsGreedySplitting` | native/condukt_egress/src/proxy/policy.rs:205-242 | For every token list the matcher accepts an input if and only if it splits into one part per token such that the part of each star runs up to the next dot or the end |
| `HostPolicy.MatchIsCompleteExactlyWhenStarsMeetDots` | native/condukt_egress/src/proxy/policy.rs:205-242 | The matcher accepts all of a pattern's language if and only if each of its single stars is last or stands before a literal beginning with a dot |
| `HostPolicy.MatchNeedsDots` | native/condukt_egress/src/proxy/policy.rs:215-229 | An accepted input has a dot for every dot in the literals and one more for every star that does not meet a dot |
| `HostPolicy.FiresOnLanguages` | native/condukt_egress/src/proxy/policy.rs:157-165 | With such patterns a rule fires exactly on the union of its patterns' languages |
| `HostPolicy.FiresOnCovered` | native/condukt_egress/src/proxy/policy.rs:157-165 | Whatever its patterns, a rule fires exactly on the hosts one of them splits in that way, letter case aside |
| `HostPolicy.DecisionIsTheFirstRules` | native/condukt_egress/src/proxy/policy.rs:118-147 | A host is allowed, denied by a rule, denied by default or asked about if and only if the first rule that does not pass it on is an Allow, a Deny or a Decide rule, or there is none and the default says so; exactly that rule is named |
| `HostPolicy.RunPipeline` | native/condukt_egress/src/proxy/policy.rs:118-147 | The loop names the first rule that does not pass the host on and answers Allowed for an Allow rule, Denied for a Deny rule and Ask for a Decide rule; the default answers exactly when there is none |
| `HostPolicy.CaseNeverMatters` | native/condukt_egress/src/proxy/policy.rs:119-165 | ASCII letter case in the host or in any pattern never changes the outcome |
| `HostSession.BatchesAnsweredInOrder` | lib/condukt/host_session.ex:105-159 | In every reachable history a tool batch that is not the last message is followed at once by exactly one result per call, in call order, and then by nothing or another reply |
| `HostSession.AwaitsWhatTheTranscriptOwes` | lib/condukt/host_session.ex:79-140 | The two waiting states never overlap, and which one holds is what the transcript read as a grammar calls for |
| `HostSession.RunKeepsConsistent` | lib/condukt/host_session.ex:79-172 | Every sequence of host inputs, accepted or refused, keeps the session in step with its transcript |
| `HostSession.AtMostSixteenRequests` | lib/condukt/host_session.ex:164-172 | A turn hands out at most sixteen requests, and the counter is their number |
| `HostSession.LimitIsPermanent` | lib/condukt/host_session.ex:126-135 | A session that asks for tools after its sixteenth request answers every further input with an error and stays as it is |
| `HostSession.RequestsCarryTheConversation` | lib/condukt/host_session.ex:168-172 | Every request carries the whole conversation, which only grew, and the tools and system prompt the session was opened with |
| `HostSession.AcceptedExactlyWhenOwed` | lib/condukt/host_session.ex:79-149 | In every reachable session a prompt is accepted exactly between turns, a completion exactly when the transcript is owed a reply and it is an assistant's, and outputs exactly when results are owed, they answer each call once and requests are left |
| `HostSession.RefusedForItsReason` | lib/condukt/host_session.ex:79-135 | Which error refuses everything else |
| `HostSession.PromptIsAppended` | lib/condukt/host_session.ex:79-88 | An accepted prompt is appended as the user's message and starts the count of requests anew |
| `HostSession.CompletionIsAppended` | lib/condukt/host_session.ex:105-112 | An accepted completion is appended; the turn is over exactly when it makes no tool call, and otherwise the host is handed exactly its calls, which are then awaited |
| `HostSession.ResultsAreAppended` | lib/condukt/host_session.ex:126-162 | Whether or not ids repeat, accepted outputs add one result per call, in call order, with the content of the last output for its id, marked if it failed |
| `HostSession.CallsOfBlocksAddUp` | lib/condukt/host_session.ex:108-110 | The calls of two runs of blocks are those of the first and then those of the second |
| `HostSession.OutputsReachTheirCalls` | lib/condukt/host_session.ex:151-162 | With distinct ids each call's result holds the one output given for it, marked if the tool failed, at the call's place |
| `HostSession.OrderIrrelevantWhenDistinct` | lib/condukt/host_session.ex:122-159 | With distinct ids every permutation of the outputs gives the same session and request, or the same error |
| `HostSession.OrderMattersWhenRepeated` | lib/condukt/host_session.ex:153-159 | With a repeated id there are outputs whose order shows in the transcript |
| `HostSession.OrderNeverMattersExactlyWhenDistinct` | lib/condukt/host_session.ex:114-135 | The order of outputs is irrelevant if and only if the ids are distinct or the turn has used up its requests |
| `ShellQuoting.QuotedIsOneWord` | native/condukt_bashkit/src/lib.rs:421-423 | For every string the POSIX lexer reads its quoted form, before any delimiter, as one word equal to the string, and leaves the rest |
| `ShellQuoting.EscapedIsLiteral` | native/condukt_bashkit/src/lib.rs:421-423 | Inside quotes the escaped text adds exactly the string to the word being read |
| `ShellQuoting.GrepScriptIsOneCommand` | native/condukt_bashkit/src/lib.rs:305-315 | Whatever the pattern and root, the search script lexes as one command of four words, the last two being them, followed by its own or-clause |
| `ShellQuoting.ChangeDirIsOneCommand` | native/condukt_bashkit/src/lib.rs:268-272 | Whatever the directory, the prefix of a glob script lexes as a change to exactly that directory |
| `ShellQuoting.SafeGlobStaysInItsCommand` | native/condukt_bashkit/src/lib.rs:286-293 | A pattern that passes the filter adds only words to its command: reading it meets no operator and no command or variable expansion |
| `ShellQuoting.SafeGlobIsOneWordExactlyWhenNothingIsBare` | native/condukt_bashkit/src/lib.rs:264-272 | Such a pattern is read as the one word it stands for if and only if it is not empty, does not begin with a comment sign, and its blanks and a final backslash are escaped |
| `SandboxText.GlobIsItsLanguage` | native/condukt_bashkit/src/lib.rs:446-466 | The matcher accepts a text if and only if it splits into one part per pattern byte: any run, one byte, or the byte itself |
| `SandboxText.CountZeroMeansAbsent` | native/condukt_bashkit/src/lib.rs:414-419 | The count is zero if and only if the needle is empty or absent |
| `SandboxText.CountOneMeansFirstThenNone` | native/condukt_bashkit/src/lib.rs:414-419 | The count is one if and only if the needle is not empty, occurs, and does not occur again after its first occurrence ends |
| `SandboxText.CountIsGreatestDisjoint` | native/condukt_bashkit/src/lib.rs:414-419 | The count is the greatest number of occurrences that do not overlap |
| `SandboxText.CountOneIsOnceExactlyWhenUnbordered` | native/condukt_bashkit/src/lib.rs:414-419 | Counting one agrees with occurring at exactly one place, for every text, if and only if no proper prefix of the needle is also its suffix |
| `SandboxText.BorderHidesOccurrence` | native/condukt_bashkit/src/lib.rs:414-419 | For every needle with a border, a text that holds two occurrences of which one is counted |
| `SandboxText.Workspace.EditFile` | native/condukt_bashkit/src/lib.rs:214-247 | The file changes only when the count is one and the write succeeds; then everything around the first occurrence is kept and it does not occur after it; no other file changes |
| `TraceContext.HeadersRoundTrip` | lib/condukt/trace_context.ex:185-195 | Reading printed headers back recovers trace id, span id, flags and trace state of every valid context, and the rewritten baggage |
| `TraceContext.HeadersSay` | lib/condukt/trace_context.ex:185-199 | What is printed under each of the three names; an empty trace state is not printed |
| `TraceContext.HeaderValueIsTheFirst` | lib/condukt/trace_context.ex:246-257 | A header's value is that of the first one whose name agrees, letter case aside |
| `TraceContext.ExtractionFailsExactly` | lib/condukt/trace_context.ex:60-77 | Extraction reports a missing traceparent exactly when no name agrees, and an invalid one exactly when the parser refuses it |
| `TraceContext.AcceptsExactlyTheLaidOut` | lib/condukt/trace_context.ex:231-277 | Whatever its version, a header is accepted exactly when it is four good fields and then nothing, or more fields if the version is not 00, and gives its own fields in lower case |
| `TraceContext.ParseOfPrint` | lib/condukt/trace_context.ex:197-242 | Every valid context survives printing and parsing |
| `TraceContext.ParsedIsValid` | lib/condukt/trace_context.ex:259-277 | Whatever the parser accepts is a valid lower-case context |
| `TraceContext.AcceptsExactlyVersion00` | lib/condukt/trace_context.ex:231-277 | Of headers that say version 00 the parser accepts exactly those with the fixed 55-character layout, in hex digits of either case |
| `TraceContext.AcceptsTheStandardInAnyCase` | lib/condukt/trace_context.ex:259-277 | Of those headers the parser accepts exactly the ones whose lower case has the layout of section 3.2 of W3C Trace Context |
| `TraceContext.StandardExactlyWhenLower` | lib/condukt/trace_context.ex:266-277 | An accepted one has the standard's layout if and only if it holds no upper-case letter |
| `TraceContext.UpperCaseIsAccepted` | lib/condukt/trace_context.ex:266-267 | A header the parser accepts and section 3.2 of W3C Trace Context forbids |
| `TraceContext.BaggageKeepsTheOthers` | lib/condukt/trace_context.ex:201-229 | For every list of entries, printed baggage holds those that are neither empty nor the session's, each once, unchanged and in order, and then the session's |
| `TraceContext.BaggageEndsWithTheSession` | lib/condukt/trace_context.ex:201-229 | The session's entry is the last of printed baggage and the only one under its key |
| `TraceContext.BaggageOfNothing` | lib/condukt/trace_context.ex:204-211 | Without baggage the session's entry is all there is |
| `TraceContext.RewritingReplaces` | lib/condukt/trace_context.ex:201-219 | Rewriting with a second id gives what rewriting once with that id gives |
| `TraceContext.DecodeOfEncode` | lib/condukt/trace_context.ex:204 | Percent-decoding the session entry's value recovers the id, for all bytes |
| `TraceContext.EncodedIsUnreservedOrEscaped` | lib/condukt/trace_context.ex:204 | Only unreserved characters and percent escapes are printed for an id |
| `TraceContext.UnreservedIsPrintedAsItIs` | lib/condukt/trace_context.ex:204 | An id of unreserved characters is printed as it is |
| `ElfPatch.Patch` | scripts/patch_nif_fini_array.py:39-85 | The in-place run returns the verdict of the file's layout, errors included, and leaves the bytes that verdict calls for |
| `ElfPatch.PatchTouchesOnlyTheValue` | scripts/patch_nif_fini_array.py:65-85 | The length stays; the bytes change exactly when the run returns true, and then only the eight value bytes, which read zero |
| `ElfPatch.PatchedEntryIsTheFirst` | scripts/patch_nif_fini_array.py:53-79 | The entry is the first DT_FINI_ARRAYSZ, with no DT_NULL before it, of the first PT_DYNAMIC segment, in either byte order |
| `ElfPatch.VerdictExactly` | scripts/patch_nif_fini_array.py:47-85 | For an ELF64 file whose first PT_DYNAMIC header is whole, the run returns true if and only if the walk over its section reaches a DT_FINI_ARRAYSZ entry with a nonzero value, and false if and only if it reaches one with zero, or DT_NULL, or passes over all entries; stated on bytes and offsets |
| `ElfPatch.NoDynamicExactly` | scripts/patch_nif_fini_array.py:53-63 | No dynamic segment is reported if and only if every program header is within the file and none is PT_DYNAMIC |
| `ElfPatch.RefusedExactly` | scripts/patch_nif_fini_array.py:41-44 | A file is refused for its first bytes if and only if they are not those of ELF, or the class byte is there and is not that of ELF64 |
| `ElfPatch.LittleDigits` | scripts/patch_nif_fini_array.py:45-49 | Byte i of a little-endian field is its digit of weight 256^i |
| `ElfPatch.BigIsLittleReversed` | scripts/patch_nif_fini_array.py:45-49 | A big-endian field is the little-endian one read backwards |
| `ElfPatch.PatchIsIdempotent` | scripts/patch_nif_fini_array.py:71-82 | A second run returns false and changes nothing, provided no nonzero value byte is one the run reads on its way to the dynamic section |
| `ElfPatch.RerunRetracesExactlyWhenOffTheWay` | scripts/patch_nif_fini_array.py:47-63 | A second run reads the same bytes on its way to the dynamic section if and only if no nonzero value byte is one of them |
| `ElfPatch.OverlapBreaksTheRerun` | scripts/patch_nif_fini_array.py:47-63 | A file whose value doubles as the number of program headers: the first run succeeds and the second finds no dynamic segment |
| `ElfPatch.OverlapPatchesTwice` | scripts/patch_nif_fini_array.py:53-79 | A file whose value doubles as the type of the first program header: both runs succeed, and the second changes further bytes |
| `ElfPatch.WalkProgramHeaders` | scripts/patch_nif_fini_array.py:53-63 | The loop over program headers finds what the search from the first one finds |
| `ElfPatch.WalkDynamic` | scripts/patch_nif_fini_array.py:65-79 | The loop over dynamic entries finds what the search from the first one finds |
| `LeafCache.OneConfigPerHost` | native/condukt_egress/src/proxy/tls.rs:88-101 | In every interleaving, however many callers mint at once, all that are served for a host hold the same config, minted for that host |
| `LeafCache.EntriesAreForever` | native/condukt_egress/src/proxy/tls.rs:98-100 | No cache entry is ever replaced or dropped |
| `LeafCache.CachedIsServed` | native/condukt_egress/src/proxy/tls.rs:89-91 | Once a host has a config, whoever looks it up is served that config and mints nothing |
| `LeafCache.FailsOnlyWhenMintingDoes` | native/condukt_egress/src/proxy/tls.rs:97 | A call fails only if its own minting did, and then the cache stays as it is |
| `LeafCache.FirstConfigIsKept` | native/condukt_egress/src/proxy/tls.rs:98-100 | The first caller to insert is served its own config |
| `LeafCache.CaContext.InsertIfAbsent` | native/condukt_egress/src/proxy/tls.rs:98-100 | The first config stays, and the caller gets the cached one |
| `Retry.CallsAreBoundedAndJustified` | lib/condukt/retry.ex:95-114 | The calls made number between one and max(1, max_attempts); each but the last failed retryably with nothing emitted; the loop stops before max_attempts only on a value, an emission, an error not classed as retryable or an interruption; the result is the last call's or the interruption's |
| `Retry.AttemptExplained` | lib/condukt/retry.ex:100-114 | From any attempt on: how many calls, why each was followed by another, which delays were waited for and what came back |
| `Retry.WaitsAreInRange` | lib/condukt/retry.ex:141-145 | The wait after attempt k is at least min(base * 2^(k-1), max_delay) and at most half of that more, and every whole number in between can be drawn |
| `Retry.OneWaitBetweenCalls` | lib/condukt/retry.ex:102-109 | There is one wait after each call but the last, and after the last only if that wait was interrupted |
| `Retry.TotalWaitBounded` | lib/condukt/retry.ex:141-145 | The total wait is at most one and a half times the smaller of base * (2^(n-1) - 1) and (n - 1) * max_delay |

## Left out

- ElfPatch.PatchIsIdempotent: one direction only. Zeroing a byte on the way may or may not matter: it can turn another program header into PT_DYNAMIC, move the dynamic section onto a copy of itself, or change nothing, so an exact condition would have to repeat both walks on the changed file.
- Relay.Forward: the two directions run one after the other; they share neither reader nor writer, so no interleaving gives anything else. `https_h1` has the same loop over TLS streams and is not modelled twice.
- EgressTheorems.RunKeepsTraffic: a frame that fails to serialize is skipped by the writer; in the model frames always serialize.
- EgressRuns: a connection whose original destination or first bytes cannot be read ends before its first event and never enters the model; an absent reason in an answer is the empty string, which the code treats alike.
- SessionProcess.Process: `Expects` asks of workers what SessionRuns does; helpers shared by the callbacks are tied to the functions of module Session and need no row.
- SessionRuns: only safety. Nothing says that a crashed worker's turn ever ends, because workers are neither linked nor monitored.
- SessionRuns: the list a worker submits at a checkpoint, and ends with under background compaction, extends the list it was last handed, as the native loops do; the loops themselves are not modelled.
- Session: subscribers, steering and follow-up queues, usage accounting, snapshots, telemetry and start-up options.
- Compaction: token estimates, thresholds and cached usage decide only what `Due` says, which is free.
- HostPolicy: strings are sequences of characters; lower-casing is ASCII, as in the code.
- HostSession: equality of sorted id lists is stated as equality of multisets; blank system prompts are not normalised.
- ShellQuoting: in quoted scripts expansions, comments and double quotes end the lexing, since nothing quoted reaches them; what pathname and brace expansion make of a glob pattern is not modelled.
- SandboxText: lossy UTF-8 decoding of a file's bytes, `parse_grep` and running commands.
- TraceContext: trimming and lower-casing of a baggage key is any function that keeps the session's key; header names are ASCII; the process dictionary and the tracing library are left out.
- LeafCache: minting, keys, certificates and the TLS handshake; a minting is a number.
- Retry: the default error classifier.
- EgressRuns: an HTTP/2 exchange is its two events under an id of its own, opened while its connection is forwarding; its bytes are not modelled.
- HTTP/2 framing, server name and request parsing, original-destination lookup and the packet filter rules: foreign libraries or fixed tables.
- Microsandbox, plugs, operations, secrets and redaction: glue with one-branch properties.

/**
 The state a session keeps about background compaction, and the pure functions
 that move it (lib/condukt/session/compaction.ex).

 A message carries its role, its token estimate and an opaque payload. What the
 token thresholds say at a given moment (`due?`) is an input, so every claim
 holds for all estimates and all thresholds. The compactor callback is an input too.
 */
module Compaction {
  import opened Common

  datatype Role = User | Assistant | ToolResult
  datatype Message = Message(role: Role, tokens: nat, payload: int)

  type Ref = nat    // process, task and turn references made by make_ref
  type From = nat   // the reply address of one GenServer call

  datatype Reason = Aborted | AlreadyStreaming | ContextLimit | Timeout | Other(code: int)
                  | CompactionFailed(cause: Reason)
  datatype Outcome = Ok(replacement: seq<Message>) | Error(reason: Reason)
  datatype Phase = Background | Fallback | Manual
  datatype Waiter = Waiter(from: From, phase: Phase)
  datatype Policy = Policy(keep: nat)

  /** What `due?` answers for the blocking and the background threshold. */
  datatype Due = Due(blocking: bool, background: bool)

  datatype State = State(
    hasCompactor: bool,
    policy: Option<Policy>,
    task: Option<Ref>,
    prefix: Option<seq<Message>>,
    result: Option<Outcome>,
    waiter: Option<Waiter>,
    attempted: Option<seq<Message>>)

  predicate Enabled(c: State) { c.policy.Some? }

  // ---------------------------------------------------------------- prefix

  /** Tokens of all messages from index i on. */
  function TokensFrom(messages: seq<Message>, i: nat): nat
    requires i <= |messages|
    decreases |messages| - i
  {
    if i == |messages| then 0 else messages[i].tokens + TokensFrom(messages, i + 1)
  }

  /** The walk from the newest message back: `unseen` messages are still to visit,
      `tokens` is the weight of those already visited. */
  function Cut(messages: seq<Message>, keep: nat, unseen: nat, tokens: nat): (cut: nat)
    requires unseen <= |messages|
    ensures cut <= unseen
  {
    if unseen == 0 then 0
    else
      var tokens := tokens + messages[unseen - 1].tokens;
      if tokens >= keep && messages[unseen - 1].role != ToolResult then unseen - 1
      else Cut(messages, keep, unseen - 1, tokens)
  }

  function Min(a: int, b: int): int { if a <= b then a else b }
  function Max(a: int, b: int): int { if a >= b then a else b }

  function PrefixLength(messages: seq<Message>, keep: nat, protectedCount: int): (n: nat)
    ensures n <= |messages|
    ensures n <= Max(0, |messages| - protectedCount)
  {
    Min(Cut(messages, keep, |messages|, 0), Max(0, |messages| - protectedCount))
  }

  function Prefix(messages: seq<Message>, keep: nat, protectedCount: int): seq<Message> {
    messages[..PrefixLength(messages, keep, protectedCount)]
  }

  /** A place where history may be cut: what stays weighs at least `keep`, and its
      first message is not a tool result. */
  predicate Cuttable(messages: seq<Message>, keep: nat, i: nat)
  {
    i < |messages| && TokensFrom(messages, i) >= keep && messages[i].role != ToolResult
  }

  lemma {:induction false} CutIsLast(messages: seq<Message>, keep: nat, unseen: nat)
    requires unseen <= |messages|
    ensures var cut := Cut(messages, keep, unseen, TokensFrom(messages, unseen));
            && (cut > 0 ==> Cuttable(messages, keep, cut))
            && forall i :: cut < i < unseen ==> !Cuttable(messages, keep, i)
  {
    if unseen == 0 {
    } else {
      CutIsLast(messages, keep, unseen - 1);
    }
  }

  lemma {:induction false} TokensShrink(messages: seq<Message>, i: nat, j: nat)
    requires i <= j <= |messages|
    ensures TokensFrom(messages, i) >= TokensFrom(messages, j)
    decreases j - i
  {
    if i == j {
    } else {
      TokensShrink(messages, i + 1, j);
    }
  }

  /** The walk finds the longest prefix that leaves the protected messages and at least
      `keep` tokens behind and separates no tool result from the call it answers, unless
      the protected part itself begins with one. */
  lemma PrefixIsLongestSafeCut(messages: seq<Message>, keep: nat, protectedCount: int)
    ensures var n, limit := |Prefix(messages, keep, protectedCount)|, Max(0, |messages| - protectedCount);
            && n <= limit
            && (0 < n ==> TokensFrom(messages, n) >= keep)
            && (0 < n < |messages| && messages[n].role == ToolResult ==> n == limit && protectedCount > 1)
            && (forall i :: n < i <= limit ==> !Cuttable(messages, keep, i))
            && (0 < n < limit ==> Cuttable(messages, keep, n))
  {
    CutIsLast(messages, keep, |messages|);
    var n, cut := |Prefix(messages, keep, protectedCount)|, Cut(messages, keep, |messages|, 0);
    TokensShrink(messages, n, cut);
  }

  // ------------------------------------------------------- state transitions

  function Cancel(c: State): State { c.(task := None, prefix := None, result := None) }

  function Start(c: State, prefix: seq<Message>, newRef: Ref): State {
    Cancel(c).(task := Some(newRef), prefix := Some(prefix), attempted := Some(prefix))
  }

  function Complete(c: State, ref: Ref, result: Outcome): State {
    if c.task == Some(ref) then c.(task := None, result := Some(result)) else c
  }

  datatype Taken = Taken(state: State, messages: seq<Message>, error: Option<Reason>)

  function TakeResult(c: State, messages: seq<Message>): Taken {
    match c.result
    case None => Taken(c, messages, None)
    case Some(Error(reason)) => Taken(c.(prefix := None, result := None), messages, Some(reason))
    case Some(Ok(replacement)) =>
      var updated :=
        if c.prefix.Some? && c.prefix.value <= messages then replacement + messages[|c.prefix.value|..]
        else messages;
      Taken(c.(prefix := None, result := None), updated, None)
  }

  function StartBackground(c: State, messages: seq<Message>, due: Due, protectedCount: int, newRef: Ref): State
    requires Enabled(c)
  {
    var prefix := Prefix(messages, c.policy.value.keep, protectedCount);
    if c.task.None? && c.result.None? && prefix != [] && c.attempted != Some(prefix) && due.background
    then Start(c, prefix, newRef)
    else c
  }

  datatype Verdict =
    | Continue(state: State, messages: seq<Message>)
    | Wait(state: State, messages: seq<Message>)
    | Failed(reason: Reason, state: State, messages: seq<Message>)

  function Block(c: State, messages: seq<Message>, from: From, phase: Phase, protectedCount: int,
                 newRef: Ref): Verdict
  {
    if phase == Fallback then Failed(ContextLimit, c, messages)
    else if c.task.Some? then Wait(c.(waiter := Some(Waiter(from, Background))), messages)
    else
      var prefix := Prefix(messages, 0, protectedCount);
      if prefix == [] then Failed(ContextLimit, c, messages)
      else Wait(Start(c, prefix, newRef).(waiter := Some(Waiter(from, Fallback))), messages)
  }

  function Checkpoint(c: State, messages: seq<Message>, from: From, phase: Phase, protectedCount: int,
                      due: Due, newRef: Ref): Verdict
    requires Enabled(c)
  {
    var taken := TakeResult(c, messages);
    if phase != Background && taken.error.Some? then Failed(taken.error.value, taken.state, taken.messages)
    else if phase == Manual then Continue(taken.state, taken.messages)
    else if due.blocking then Block(taken.state, taken.messages, from, phase, protectedCount, newRef)
    else Continue(StartBackground(taken.state, taken.messages, due, protectedCount, newRef), taken.messages)
  }

  // ------------------------------------------------------------- invariants

  /** Work in progress always knows the prefix it was given, a waiter always has work
      to wait for, and nothing runs when no policy was configured. */
  predicate Coherent(c: State) {
    && (c.task.Some? ==> c.prefix.Some? && c.result.None?)
    && (c.result.Some? && c.result.value.Ok? ==> c.prefix.Some?)
    && (c.waiter.Some? ==> c.task.Some?)
    && (Enabled(c) ==> c.hasCompactor)
    && (!Enabled(c) ==> c.task.None? && c.prefix.None? && c.result.None? && c.waiter.None?)
  }

  /** Everything being summarized lies in the first `bound` messages. */
  predicate Within(c: State, bound: int) { c.prefix.Some? ==> |c.prefix.value| <= bound }

  /** Adopting a summary keeps every message from index `boundary` on, provided the
      captured prefix ends at or before it. */
  lemma AdoptionKeepsSuffix(c: State, messages: seq<Message>, boundary: nat)
    requires Coherent(c) && Within(c, boundary) && boundary <= |messages|
    ensures var t := TakeResult(c, messages);
            var boundary' := boundary + |t.messages| - |messages|;
            && 0 <= boundary' <= |t.messages|
            && t.messages[boundary'..] == messages[boundary..]
            && Coherent(t.state.(waiter := None))
            && Within(t.state, boundary') && t.state.result.None?
            && t.state.policy == c.policy && t.state.task == c.task && t.state.waiter == c.waiter
            && (c.task.Some? ==> t.state == c && t.messages == messages)
  {
  }

  /** One checkpoint: the protected suffix survives word for word, the new prefix stays
      clear of it, and the caller waits exactly when a task is left to wake it. */
  lemma CheckpointKeepsProtected(c: State, messages: seq<Message>, from: From, phase: Phase,
                                 protectedCount: int, boundary: nat, due: Due, newRef: Ref)
    requires Enabled(c) && Coherent(c) && c.waiter.None?
    requires Within(c, boundary) && boundary <= |messages|
    requires phase == Manual || protectedCount == |messages| - boundary
    ensures var v := Checkpoint(c, messages, from, phase, protectedCount, due, newRef);
            var boundary' := boundary + |v.messages| - |messages|;
            && 0 <= boundary' <= |v.messages|
            && v.messages[boundary'..] == messages[boundary..]
            && Coherent(v.state) && Enabled(v.state) && Within(v.state, boundary')
            && (v.Wait? <==> v.state.waiter.Some?)
            && (v.Wait? ==> v.state.waiter.value.from == from && phase != Manual
                            && v.state.waiter.value.phase != Manual)
            && (v.state.task == c.task || v.state.task == Some(newRef))
  {
    AdoptionKeepsSuffix(c, messages, boundary);
  }
}

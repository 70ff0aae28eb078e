/** What every interleaving of the egress sidecar keeps. */
module EgressTheorems {
  import opened Common
  import HostPolicy
  import opened ControlChannel
  import opened EgressRuns

  // -------------------------------------------------------------- invariants

  /** A `request_decision` call is in flight. */
  predicate InFlight(p: Phase) { p.Requesting? || p.Waiting? || p.GivingUp? }

  predicate DistinctIds(s: State) {
    forall c, d :: 0 <= c < d < |s.conns| ==> s.conns[c].id != s.conns[d].id
  }

  /** Pending entries are exactly the open requests of their own connections. */
  predicate PendingOwned(s: State) {
    && (forall id :: id in s.channel.pending ==>
          var c := s.channel.pending[id];
          c < |s.conns| && s.conns[c].id == id && InFlight(s.conns[c].phase) && s.conns[c].inbox.None?)
    && (forall c :: 0 <= c < |s.conns| && InFlight(s.conns[c].phase) && s.conns[c].inbox.None? ==>
          s.conns[c].id in s.channel.pending && s.channel.pending[s.conns[c].id] == c)
  }

  /** Only a request that was made can have an answer. */
  predicate InboxShape(s: State, k: Conn) {
    && (k.phase.Accepted? || k.phase.Evaluating? || k.phase.Registering? ==> k.inbox.None?)
    && (k.inbox.Some? ==> PolicyDecision(s, k.host) == HostPolicy.Ask)
    && (k.phase.Registering? || InFlight(k.phase) ==> PolicyDecision(s, k.host) == HostPolicy.Ask)
  }

  /** Why a connection may be forwarded. */
  predicate MayForward(s: State, k: Conn) {
    match PolicyDecision(s, k.host)
    case Allowed => true
    case Denied(_) => false
    case Ask => k.inbox.Some? && k.inbox.value.action == Permit
  }

  /** Why a connection may be refused, for each reason. */
  predicate MayRefuse(s: State, k: Conn, reason: Reason) {
    match PolicyDecision(s, k.host)
    case Allowed => false
    case Denied(why) => reason == ByPolicy(why)
    case Ask =>
      || reason == DeciderTimeout
      || (k.inbox.Some? && k.inbox.value.action == Refuse && reason == Said(k.inbox.value))
  }

  /** The reason a refusing answer gives. */
  function Said(d: Decision): Reason { if d.reason == "" then DeciderDeny else DeciderSays(d.reason) }

  predicate Justified(s: State, k: Conn) {
    match k.phase
    case Admitting => MayForward(s, k)
    case Forwarding => MayForward(s, k)
    case Refusing(reason) => MayRefuse(s, k, reason)
    case Over(Denied(reason)) => MayRefuse(s, k, reason)
    case Over(Closed) => MayForward(s, k)
    case Over(Failed) => MayForward(s, k)
    case Over(_) => false
    case _ => true
  }

  predicate TasksOk(s: State) {
    forall c :: 0 <= c < |s.conns| ==> InboxShape(s, s.conns[c]) && Justified(s, s.conns[c])
  }

  predicate Held(s: State, r: Resolution) {
    r.slot < |s.conns| && s.conns[r.slot].id == r.id && s.conns[r.slot].inbox == Some(r.decision)
  }

  /** Every answer logged is held by the connection with its own id, each id at most once,
      and every answer held is in the log. */
  predicate LogOk(s: State) {
    && (forall i :: 0 <= i < |s.resolved| ==> Held(s, s.resolved[i]))
    && (forall i, j :: 0 <= i < j < |s.resolved| ==> s.resolved[i].id != s.resolved[j].id)
    && (forall c :: 0 <= c < |s.conns| && s.conns[c].inbox.Some? ==>
          Resolution(s.conns[c].id, s.conns[c].inbox.value, c) in s.resolved)
  }

  predicate Protocol(s: State) {
    DistinctIds(s) && PendingOwned(s) && TasksOk(s) && LogOk(s) && |s.channel.queue| <= BUFFER_CAP
  }

  // ------------------------------------------------------------ preservation

  lemma AcceptKeeps(s: State, a: Action)
    requires Protocol(s) && Possible(s, a) && a.Accept?
    ensures Protocol(Step(s, a))
  {
    var s' := Step(s, a);
    forall c | 0 <= c < |s'.conns|
      ensures InboxShape(s', s'.conns[c]) && Justified(s', s'.conns[c])
    {
      assert c < |s.conns| ==> s'.conns[c] == s.conns[c];
    }
  }

  /** A task moving to a phase it may be in, with its inbox untouched. */
  lemma MoveKeeps(s: State, s': State, c: nat)
    requires Protocol(s) && c < |s.conns| && s'.policy == s.policy
    requires |s'.conns| == |s.conns| && s'.resolved == s.resolved && |s'.channel.queue| <= BUFFER_CAP
    requires s'.conns == s.conns[c := s.conns[c].(phase := s'.conns[c].phase)]
    requires InboxShape(s', s'.conns[c]) && Justified(s', s'.conns[c])
    requires PendingOwned(s')
    ensures Protocol(s')
  {
    forall d | 0 <= d < |s'.conns|
      ensures InboxShape(s', s'.conns[d]) && Justified(s', s'.conns[d])
    {
      assert d != c ==> s'.conns[d] == s.conns[d];
    }
  }

  lemma AdvanceKeeps(s: State, a: Action)
    requires Protocol(s) && Possible(s, a) && a.Advance?
    ensures Protocol(Step(s, a))
  {
    var c, s' := a.c, Step(s, a);
    var k := s.conns[c];
    assert InboxShape(s, k) && Justified(s, k);
    assert s'.conns[c] == k.(phase := NextPhase(s, k));
    PendingAfterAdvance(s, c);
    MoveKeeps(s, s', c);
  }

  /** A task moves between phases that own its entry alike, and the map stays. */
  lemma PendingSameMap(s: State, s': State, c: nat)
    requires PendingOwned(s) && c < |s.conns| && s'.channel.pending == s.channel.pending
    requires |s'.conns| == |s.conns| && s'.conns == s.conns[c := s.conns[c].(phase := s'.conns[c].phase)]
    requires InFlight(s'.conns[c].phase) ==> InFlight(s.conns[c].phase)
    requires s.conns[c].id in s.channel.pending ==> InFlight(s'.conns[c].phase)
    ensures PendingOwned(s')
  {
  }

  lemma PendingEntered(s: State, s': State, c: nat)
    requires PendingOwned(s) && DistinctIds(s) && c < |s.conns| && s.conns[c].inbox.None?
    requires s'.channel.pending == s.channel.pending[s.conns[c].id := c] && |s'.conns| == |s.conns|
    requires s'.conns == s.conns[c := s.conns[c].(phase := Requesting)]
    ensures PendingOwned(s')
  {
  }

  lemma PendingLeft(s: State, s': State, c: nat)
    requires PendingOwned(s) && DistinctIds(s) && c < |s.conns|
    requires s'.channel.pending == s.channel.pending - {s.conns[c].id} && |s'.conns| == |s.conns|
    requires s'.conns == s.conns[c := s.conns[c].(phase := Refusing(DeciderTimeout))]
    ensures PendingOwned(s')
  {
  }

  lemma NotInFlightNotPending(s: State, c: nat)
    requires PendingOwned(s) && DistinctIds(s) && c < |s.conns| && s.conns[c].id in s.channel.pending
    ensures InFlight(s.conns[c].phase) && s.channel.pending[s.conns[c].id] == c
  {
  }

  /** The map changes only on entering and leaving it. */
  lemma AdvanceMoves(s: State, c: nat)
    requires c < |s.conns| && Advances(s.conns[c].phase)
    ensures var s', k := AdvanceTask(s, c), s.conns[c];
            && s'.conns == s.conns[c := k.(phase := NextPhase(s, k))]
            && s'.channel.pending == (if k.phase == Registering then s.channel.pending[k.id := c]
                                      else if k.phase == GivingUp then s.channel.pending - {k.id}
                                      else s.channel.pending)
  {
  }

  lemma PendingAfterAdvance(s: State, c: nat)
    requires Protocol(s) && c < |s.conns| && Advances(s.conns[c].phase)
    ensures PendingOwned(AdvanceTask(s, c))
  {
    var s', k := AdvanceTask(s, c), s.conns[c];
    AdvanceMoves(s, c);
    if k.phase == Registering {
      assert InboxShape(s, k);
      PendingEntered(s, s', c);
    } else if k.phase == GivingUp {
      PendingLeft(s, s', c);
    } else {
      if k.id in s.channel.pending { NotInFlightNotPending(s, c); }
      PendingSameMap(s, s', c);
    }
  }

  lemma PendingAfterChoice(s: State, a: Action)
    requires Protocol(s) && Possible(s, a) && (a.TakeAnswer? || a.TimeOut? || a.Complete?)
    ensures PendingOwned(Step(s, a))
  {
    if s.conns[a.c].id in s.channel.pending { NotInFlightNotPending(s, a.c); }
    PendingSameMap(s, Step(s, a), a.c);
  }

  lemma ChoiceKeeps(s: State, a: Action)
    requires Protocol(s) && Possible(s, a) && (a.TakeAnswer? || a.TimeOut? || a.Complete?)
    ensures Protocol(Step(s, a))
  {
    var c, s' := a.c, Step(s, a);
    assert InboxShape(s, s.conns[c]) && Justified(s, s.conns[c]);
    PendingAfterChoice(s, a);
    MoveKeeps(s, s', c);
  }

  lemma AnswerKeeps(s: State, line: Inbound, c: nat)
    requires Protocol(s) && Resolved(s.channel, line) == Some(c)
    ensures Protocol(Receive(s, line))
  {
    var s' := Receive(s, line);
    assert c < |s.conns| && s.conns[c].id == line.id;
    TasksAfterLine(s, s', c);
    PendingAfterLine(s, s', c);
    LogAfterLine(s, line, c);
  }

  lemma LineKeeps(s: State, a: Action)
    requires Protocol(s) && Possible(s, a) && a.Line?
    ensures Protocol(Step(s, a))
  {
    var slot := Resolved(s.channel, a.line);
    if slot.Some? {
      AnswerKeeps(s, a.line, slot.value);
    } else {
      assert Step(s, a).channel.pending == s.channel.pending;
      PeerKeeps(s, Step(s, a));
    }
  }

  lemma PendingAfterLine(s: State, s': State, c: nat)
    requires PendingOwned(s) && DistinctIds(s) && c < |s.conns|
    requires s'.channel.pending == s.channel.pending - {s.conns[c].id} && |s'.conns| == |s.conns|
    requires s'.conns[c].inbox.Some? && s'.conns == s.conns[c := s.conns[c].(inbox := s'.conns[c].inbox)]
    ensures PendingOwned(s')
  {
  }

  lemma TasksAfterLine(s: State, s': State, c: nat)
    requires TasksOk(s) && c < |s.conns| && InFlight(s.conns[c].phase) && s'.policy == s.policy
    requires |s'.conns| == |s.conns| && s'.conns == s.conns[c := s.conns[c].(inbox := s'.conns[c].inbox)]
    ensures TasksOk(s')
  {
    forall d | 0 <= d < |s'.conns|
      ensures InboxShape(s', s'.conns[d]) && Justified(s', s'.conns[d])
    {
      assert InboxShape(s, s.conns[d]) && Justified(s, s.conns[d]);
    }
  }

  lemma LogAfterLine(s: State, line: Inbound, c: nat)
    requires Protocol(s) && Resolved(s.channel, line) == Some(c)
    ensures LogOk(Receive(s, line))
  {
    var s' := Receive(s, line);
    assert s.conns[c].inbox.None? && s.conns[c].id == line.id;
    forall i | 0 <= i < |s.resolved|
      ensures Held(s', s.resolved[i]) && s.resolved[i].id != line.id
    {
      assert Held(s, s.resolved[i]);
    }
  }

  lemma PeerKeeps(s: State, s': State)
    requires Protocol(s) && |s'.channel.queue| <= BUFFER_CAP && s'.channel.pending == s.channel.pending
    requires s'.policy == s.policy && s'.conns == s.conns && s'.resolved == s.resolved
    ensures Protocol(s')
  {
    forall c | 0 <= c < |s'.conns|
      ensures InboxShape(s', s'.conns[c]) && Justified(s', s'.conns[c])
    {
      assert InboxShape(s, s.conns[c]) && Justified(s, s.conns[c]);
    }
    forall i | 0 <= i < |s'.resolved|
      ensures Held(s', s'.resolved[i])
    {
      assert Held(s, s.resolved[i]);
    }
  }

  lemma StepKeepsProtocol(s: State, a: Action)
    requires Protocol(s) && Possible(s, a)
    ensures Protocol(Step(s, a))
  {
    match a
    case Accept(_, _) => AcceptKeeps(s, a);
    case Advance(_) => AdvanceKeeps(s, a);
    case TakeAnswer(_) => ChoiceKeeps(s, a);
    case TimeOut(_) => ChoiceKeeps(s, a);
    case Complete(_, _) => ChoiceKeeps(s, a);
    case Line(_) => LineKeeps(s, a);
    case _ => PeerKeeps(s, Step(s, a));
  }

  lemma {:induction false} RunKeepsProtocol(run: seq<State>, actions: seq<Action>, i: nat)
    requires IsRun(run, actions) && i < |run|
    ensures Protocol(run[i])
  {
    if i == 0 {
    } else {
      RunKeepsProtocol(run, actions, i - 1);
      StepKeepsProtocol(run[i - 1], actions[i - 1]);
    }
  }

  // --------------------------------------------------------------- decisions

  /** An inbox stays as it is, or the empty one of a request in flight is filled from a line
      with its own id. */
  predicate InboxMoves(k: Conn, k': Conn, a: Action) {
    && k'.id == k.id
    && (k'.inbox == k.inbox
        || (k.inbox.None? && InFlight(k.phase) && k'.inbox.Some? && a == Line(Answer(k.id, k'.inbox.value))))
  }

  lemma InboxStep(s: State, a: Action, c: nat)
    requires PendingOwned(s) && Possible(s, a) && c < |s.conns|
    ensures c < |Step(s, a).conns| && InboxMoves(s.conns[c], Step(s, a).conns[c], a)
  {
    if a.Line? && Resolved(s.channel, a.line) == Some(c) {
      assert s.conns[c].inbox.None? && s.conns[c].id == a.line.id;
    }
  }

  lemma RunInboxStep(run: seq<State>, actions: seq<Action>, i: nat, c: nat)
    requires IsRun(run, actions) && i < |actions| && c < |run[i].conns|
    ensures c < |run[i + 1].conns| && InboxMoves(run[i].conns[c], run[i + 1].conns[c], actions[i])
  {
    RunKeepsProtocol(run, actions, i);
    InboxStep(run[i], actions[i], c);
  }

  /** Before step i a peer's line with the id of connection c gave this decision, while its
      request was in flight and unanswered. */
  ghost predicate Answered(run: seq<State>, actions: seq<Action>, i: nat, c: nat, d: Decision)
    requires i < |run| == |actions| + 1 && c < |run[i].conns|
  {
    exists k :: 0 <= k < i && actions[k] == Line(Answer(run[i].conns[c].id, d)) && AwaitsAnswer(run[k], c)
  }

  predicate AwaitsAnswer(s: State, c: nat) {
    c < |s.conns| && InFlight(s.conns[c].phase) && s.conns[c].inbox.None?
  }

  /** Whatever answer a connection holds came in on a line with its own id while it waited. */
  lemma {:induction false} InboxCameFromLine(run: seq<State>, actions: seq<Action>, i: nat, c: nat)
    requires IsRun(run, actions) && i < |run| && c < |run[i].conns| && run[i].conns[c].inbox.Some?
    ensures Answered(run, actions, i, c, run[i].conns[c].inbox.value)
  {
    assert i > 0;
    if c < |run[i - 1].conns| {
      RunInboxStep(run, actions, i - 1, c);
      if run[i - 1].conns[c].inbox.Some? {
        InboxCameFromLine(run, actions, i - 1, c);
      } else {
        assert AwaitsAnswer(run[i - 1], c);
      }
    } else {
      NewcomerHoldsNothing(run[i - 1], actions[i - 1], c);
    }
  }

  lemma NewcomerHoldsNothing(s: State, a: Action, c: nat)
    requires Possible(s, a) && |s.conns| <= c < |Step(s, a).conns|
    ensures Step(s, a).conns[c].phase == Accepted && Step(s, a).conns[c].inbox.None?
  {
  }

  /** The request is given up, or was. */
  predicate GaveUp(p: Phase) { p == GivingUp || p == Refusing(DeciderTimeout) || p == Over(Denied(DeciderTimeout)) }

  /** The step that makes a task give up: its timer fires while it holds no answer, or the
      queue is full when it enqueues its request. */
  predicate GivesUp(s: State, a: Action, c: nat) {
    && c < |s.conns|
    && ((a == TimeOut(c) && s.conns[c].inbox.None?)
        || (a == Advance(c) && s.conns[c].phase == Requesting && Full(s.channel)))
  }

  lemma GivingUpStep(s: State, a: Action, c: nat)
    requires Possible(s, a) && c < |Step(s, a).conns| && GaveUp(Step(s, a).conns[c].phase)
    ensures GivesUp(s, a, c) || (c < |s.conns| && GaveUp(s.conns[c].phase))
  {
  }

  lemma {:induction false} GaveUpForAReason(run: seq<State>, actions: seq<Action>, i: nat, c: nat)
    requires IsRun(run, actions) && i < |run| && c < |run[i].conns| && GaveUp(run[i].conns[c].phase)
    ensures exists k :: 0 <= k < i && GivesUp(run[k], actions[k], c)
  {
    assert i > 0;
    GivingUpStep(run[i - 1], actions[i - 1], c);
    if !GivesUp(run[i - 1], actions[i - 1], c) {
      GaveUpForAReason(run, actions, i - 1, c);
    }
  }

  predicate Admitted(p: Phase) { p.Admitting? || p.Forwarding? || p == Over(Closed) || p == Over(Failed) }

  /** In every interleaving, a connection is let through only if an Allow rule decides on its
      host or the default allows it, or a Decide rule does and a peer's line permitted that
      connection's own id while it waited. */
  lemma ForwardedOnlyWithPermission(run: seq<State>, actions: seq<Action>, i: nat, c: nat)
    requires IsRun(run, actions) && i < |run| && c < |run[i].conns| && Admitted(run[i].conns[c].phase)
    ensures var policy, host := run[i].policy, run[i].conns[c].host;
            || HostPolicy.Permits(policy, host)
            || (HostPolicy.Defers(policy, host)
                && exists reason :: Answered(run, actions, i, c, Decision(Permit, reason)))
  {
    RunKeepsProtocol(run, actions, i);
    var k := run[i].conns[c];
    assert Justified(run[i], k);
    HostPolicy.DecisionIsTheFirstRules(run[i].policy, k.host);
    if PolicyDecision(run[i], k.host) == HostPolicy.Ask {
      InboxCameFromLine(run, actions, i, c);
      assert k.inbox.value == Decision(Permit, k.inbox.value.reason);
    }
  }

  lemma RefusalShape(s: State, k: Conn)
    requires Justified(s, k) && InboxShape(s, k) && k.phase.Over? && !Admitted(k.phase)
    ensures k.phase.kind.Denied?
    ensures match k.phase.kind.reason
            case ByPolicy(why) => PolicyDecision(s, k.host) == HostPolicy.Denied(why)
            case DeciderTimeout => PolicyDecision(s, k.host) == HostPolicy.Ask
            case DeciderSays(text) =>
              text != "" && PolicyDecision(s, k.host) == HostPolicy.Ask && k.inbox == Some(Decision(Refuse, text))
            case DeciderDeny => PolicyDecision(s, k.host) == HostPolicy.Ask && k.inbox == Some(Decision(Refuse, ""))
  {
  }

  /** Every other ending is a refusal, and the reason says which one: a Deny rule or the
      default; what the decider's line for this very id said while it waited; or that this
      task's timer fired while it held no answer, or its request met a full queue. */
  lemma RefusedForItsOwnReason(run: seq<State>, actions: seq<Action>, i: nat, c: nat)
    requires IsRun(run, actions) && i < |run| && c < |run[i].conns| && run[i].conns[c].phase.Over?
    requires !Admitted(run[i].conns[c].phase)
    ensures run[i].conns[c].phase.kind.Denied?
    ensures var policy, host := run[i].policy, run[i].conns[c].host;
            match run[i].conns[c].phase.kind.reason
            case ByPolicy(MatchedDenyList) => HostPolicy.Forbids(policy, host)
            case ByPolicy(ByDefault) => HostPolicy.FallsToDenial(policy, host)
            case DeciderTimeout =>
              HostPolicy.Defers(policy, host) && exists j :: 0 <= j < i && GivesUp(run[j], actions[j], c)
            case DeciderSays(text) =>
              && text != "" && HostPolicy.Defers(policy, host)
              && Answered(run, actions, i, c, Decision(Refuse, text))
            case DeciderDeny =>
              HostPolicy.Defers(policy, host) && Answered(run, actions, i, c, Decision(Refuse, ""))
  {
    RunKeepsProtocol(run, actions, i);
    var k := run[i].conns[c];
    assert Justified(run[i], k) && InboxShape(run[i], k);
    RefusalShape(run[i], k);
    HostPolicy.DecisionIsTheFirstRules(run[i].policy, k.host);
    if k.inbox.Some? { InboxCameFromLine(run, actions, i, c); }
    if k.phase.kind.reason == DeciderTimeout { GaveUpForAReason(run, actions, i, c); }
  }

  // ---------------------------------------------------- where each step leads

  /** The policy sends a connection on exactly as its first rule or its default says. */
  lemma PolicySendsOn(run: seq<State>, actions: seq<Action>, i: nat, c: nat)
    requires IsRun(run, actions) && i < |actions| && actions[i] == Advance(c) && run[i].conns[c].phase == Evaluating
    ensures c < |run[i + 1].conns|
    ensures var policy, host, phase := run[i].policy, run[i].conns[c].host, run[i + 1].conns[c].phase;
            && (phase == Admitting <==> HostPolicy.Permits(policy, host))
            && (phase == Refusing(ByPolicy(HostPolicy.MatchedDenyList)) <==> HostPolicy.Forbids(policy, host))
            && (phase == Refusing(ByPolicy(HostPolicy.ByDefault)) <==> HostPolicy.FallsToDenial(policy, host))
            && (phase == Registering <==> HostPolicy.Defers(policy, host))
  {
    HostPolicy.DecisionIsTheFirstRules(run[i].policy, run[i].conns[c].host);
  }

  /** An answer that is taken came from a peer's line while the request waited; it lets the
      connection through if it permits, and otherwise refuses it with the reason it gave. */
  lemma AnswerSendsOn(run: seq<State>, actions: seq<Action>, i: nat, c: nat)
    requires IsRun(run, actions) && i < |actions| && actions[i] == TakeAnswer(c)
    ensures c < |run[i].conns| && c < |run[i + 1].conns| && run[i].conns[c].inbox.Some?
    ensures var d := run[i].conns[c].inbox.value;
            && Answered(run, actions, i, c, d)
            && run[i + 1].conns[c].phase
               == if d.action == Permit then Admitting
                  else if d.reason == "" then Refusing(DeciderDeny) else Refusing(DeciderSays(d.reason))
  {
    assert Possible(run[i], actions[i]);
    InboxCameFromLine(run, actions, i, c);
  }

  /** A line that names a request in flight and not yet answered is handed to it. */
  lemma AnswersReachTheirRequests(run: seq<State>, actions: seq<Action>, i: nat, c: nat, d: Decision)
    requires IsRun(run, actions) && i < |actions| && AwaitsAnswer(run[i], c)
    requires actions[i] == Line(Answer(run[i].conns[c].id, d))
    ensures c < |run[i + 1].conns| && run[i + 1].conns[c].inbox == Some(d)
  {
    RunKeepsProtocol(run, actions, i);
  }

  /** How many of its own steps a connection has left at most. */
  function StepsLeft(p: Phase): nat {
    match p
    case Accepted => 8 case Evaluating => 7 case Registering => 6 case Requesting => 5 case Waiting => 4
    case GivingUp => 3 case Refusing(_) => 2 case Admitting => 2 case Forwarding => 1 case Over(_) => 0
  }

  predicate OwnStep(a: Action, c: nat) {
    a == Advance(c) || a == TakeAnswer(c) || a == TimeOut(c) || (a.Complete? && a.c == c)
  }

  /** No connection is ever stuck: until it is over it has a step of its own to take, ... */
  lemma NobodyIsStuck(s: State, c: nat)
    requires c < |s.conns| && !s.conns[c].phase.Over?
    ensures exists a :: OwnStep(a, c) && Possible(s, a)
  {
    var p := s.conns[c].phase;
    var a := if Advances(p) then Advance(c)
             else if p == Forwarding then Complete(c, true)
             else if s.conns[c].inbox.Some? then TakeAnswer(c) else TimeOut(c);
    assert OwnStep(a, c) && Possible(s, a);
  }

  lemma OthersStandStill(s: State, a: Action, c: nat)
    requires Possible(s, a) && c < |s.conns| && !OwnStep(a, c)
    ensures c < |Step(s, a).conns|
    ensures var k, k' := s.conns[c], Step(s, a).conns[c]; k'.phase == k.phase && k'.id == k.id && k'.host == k.host
  {
  }

  lemma OwnAdvance(s: State, c: nat)
    requires Possible(s, Advance(c))
    ensures Step(s, Advance(c)).conns[c] == s.conns[c].(phase := NextPhase(s, s.conns[c]))
    ensures StepsLeft(NextPhase(s, s.conns[c])) < StepsLeft(s.conns[c].phase)
  {
  }

  lemma OwnChoice(s: State, a: Action, c: nat)
    requires Possible(s, a) && OwnStep(a, c) && !a.Advance?
    ensures var k, k' := s.conns[c], Step(s, a).conns[c];
            k' == k.(phase := k'.phase) && StepsLeft(k'.phase) < StepsLeft(k.phase)
  {
  }

  /** ... each brings it nearer its end, and nobody else's step moves it. */
  lemma OwnStepsGoForward(s: State, a: Action, c: nat)
    requires Possible(s, a) && c < |s.conns|
    ensures c < |Step(s, a).conns|
    ensures OwnStep(a, c) ==> StepsLeft(Step(s, a).conns[c].phase) < StepsLeft(s.conns[c].phase)
    ensures !OwnStep(a, c) ==> Step(s, a).conns[c].phase == s.conns[c].phase
  {
    if !OwnStep(a, c) {
      OthersStandStill(s, a, c);
    } else if a.Advance? {
      OwnAdvance(s, c);
    } else {
      OwnChoice(s, a, c);
    }
  }

  /** The end a connection reports is how its forwarding went, or the refusal it was heading for. */
  lemma EndsAsItWent(run: seq<State>, actions: seq<Action>, i: nat, c: nat)
    requires IsRun(run, actions) && i < |actions| && c < |run[i].conns| && !run[i].conns[c].phase.Over?
    requires c < |run[i + 1].conns| && run[i + 1].conns[c].phase.Over?
    ensures match run[i + 1].conns[c].phase.kind
            case Closed => actions[i] == Complete(c, true) && run[i].conns[c].phase == Forwarding
            case Failed => actions[i] == Complete(c, false) && run[i].conns[c].phase == Forwarding
            case Denied(reason) => actions[i] == Advance(c) && run[i].conns[c].phase == Refusing(reason)
            case _ => false
  {
    assert Possible(run[i], actions[i]) && run[i + 1] == Step(run[i], actions[i]);
    EndStep(run[i], actions[i], c);
  }

  lemma EndStep(s: State, a: Action, c: nat)
    requires Possible(s, a) && c < |s.conns| && !s.conns[c].phase.Over?
    requires c < |Step(s, a).conns| && Step(s, a).conns[c].phase.Over?
    ensures match Step(s, a).conns[c].phase.kind
            case Closed => a == Complete(c, true) && s.conns[c].phase == Forwarding
            case Failed => a == Complete(c, false) && s.conns[c].phase == Forwarding
            case Denied(reason) => a == Advance(c) && s.conns[c].phase == Refusing(reason)
            case _ => false
  {
    if !OwnStep(a, c) {
      OthersStandStill(s, a, c);
    } else if a.Advance? {
      OwnAdvance(s, c);
    }
  }

  /** In every state the pending ids are exactly those of the requests in flight and not yet
      answered; so nothing is pending once no request is in flight. */
  lemma PendingIsExactlyInFlight(run: seq<State>, actions: seq<Action>, i: nat, id: Id)
    requires IsRun(run, actions) && i < |run|
    ensures id in run[i].channel.pending <==>
            exists c :: 0 <= c < |run[i].conns| && run[i].conns[c].id == id && AwaitsAnswer(run[i], c)
    ensures (forall c :: 0 <= c < |run[i].conns| ==> !InFlight(run[i].conns[c].phase)) ==>
              run[i].channel.pending == map[]
  {
    RunKeepsProtocol(run, actions, i);
    var s := run[i];
    if id in s.channel.pending { assert AwaitsAnswer(s, s.channel.pending[id]); }
    if forall c :: 0 <= c < |s.conns| ==> !InFlight(s.conns[c].phase) {
      assert forall id :: id !in s.channel.pending;
    }
  }

  /** Each id is resolved at most once, only by a line that names it, and for good. */
  lemma {:induction false} ResolvedOnceForGood(run: seq<State>, actions: seq<Action>, i: nat, j: nat, c: nat)
    requires IsRun(run, actions) && i <= j < |run| && c < |run[i].conns|
    ensures c < |run[j].conns| && run[j].conns[c].id == run[i].conns[c].id
    ensures run[i].conns[c].inbox.Some? ==> run[j].conns[c].inbox == run[i].conns[c].inbox
    ensures run[i].conns[c].inbox.None? && run[j].conns[c].inbox.Some? ==>
              exists k :: i <= k < j && actions[k] == Line(Answer(run[i].conns[c].id, run[j].conns[c].inbox.value))
  {
    if i == j {
    } else {
      ResolvedOnceForGood(run, actions, i, j - 1, c);
      RunInboxStep(run, actions, j - 1, c);
    }
  }

  // ------------------------------------------------------------------ events

  /** The kinds of events among `frames` about `id`. */
  function EventsOf(frames: seq<Frame>, id: Id): seq<Kind> {
    if frames == [] then []
    else
      var last := frames[|frames| - 1];
      EventsOf(frames[..|frames| - 1], id) + (if last.Event? && last.id == id then [last.kind] else [])
  }

  /** Opened, then Denied, or Allowed and then Closed or Failed. */
  predicate Lifecycle(kinds: seq<Kind>) {
    || kinds == [] || kinds == [Opened] || kinds == [Opened, Allowed]
    || (|kinds| == 2 && kinds[0] == Opened && kinds[1].Denied?)
    || kinds == [Opened, Allowed, Closed] || kinds == [Opened, Allowed, Failed]
  }

  function EventsSoFar(p: Phase): seq<Kind> {
    match p
    case Accepted => []
    case Forwarding => [Opened, Allowed]
    case Over(Denied(reason)) => [Opened, Denied(reason)]
    case Over(kind) => [Opened, Allowed, kind]
    case _ => [Opened]
  }

  predicate Known(s: State, id: Id) { !NewId(s, id) }

  function ExchangeEvents(x: Exchange): seq<Kind> { if x.done then [Opened, Closed] else [Opened] }

  /** Exchanges have ids of their own. */
  predicate Apart(s: State) {
    && (forall c, x :: 0 <= c < |s.conns| && 0 <= x < |s.exchanges| ==> s.conns[c].id != s.exchanges[x].id)
    && (forall x, y :: 0 <= x < y < |s.exchanges| ==> s.exchanges[x].id != s.exchanges[y].id)
  }

  ghost predicate EventsOk(s: State) {
    && (forall c :: 0 <= c < |s.conns| ==> EventsOf(s.emitted, s.conns[c].id) == EventsSoFar(s.conns[c].phase))
    && (forall x :: 0 <= x < |s.exchanges| ==> EventsOf(s.emitted, s.exchanges[x].id) == ExchangeEvents(s.exchanges[x]))
    && (forall id :: !Known(s, id) ==> EventsOf(s.emitted, id) == [])
  }

  /** The frame a step enqueues or drops. */
  function Emission(s: State, a: Action): seq<Frame>
    requires Possible(s, a)
  {
    match a
    case Advance(c) => if FrameOf(s.conns[c]).Some? then [FrameOf(s.conns[c]).value] else []
    case Complete(c, ok) => [Event(s.conns[c].id, if ok then Closed else Failed)]
    case OpenExchange(_, id) => [Event(id, Opened)]
    case CloseExchange(x) => [Event(s.exchanges[x].id, Closed)]
    case _ => []
  }

  lemma StepEmits(s: State, a: Action)
    requires Possible(s, a)
    ensures var s', e := Step(s, a), Emission(s, a);
            && s'.emitted == s.emitted + e
            && |s.conns| <= |s'.conns| && (forall c :: 0 <= c < |s.conns| ==> s'.conns[c].id == s.conns[c].id)
            && (e != [] ==> s'.delivered == s.delivered && s'.peer == s.peer
                            && (s'.channel.queue == s.channel.queue || s'.channel.queue == s.channel.queue + e))
            && |e| <= 1
  {
  }

  lemma EmitsForTheKnown(s: State, a: Action)
    requires Possible(s, a) && Emission(s, a) != []
    ensures Known(Step(s, a), Emission(s, a)[0].id)
  {
    var s', id := Step(s, a), Emission(s, a)[0].id;
    match a
    case Advance(c) => assert s'.conns[c].id == id;
    case Complete(c, _) => assert s'.conns[c].id == id;
    case OpenExchange(_, _) => assert s'.exchanges[|s.exchanges|].id == id;
    case CloseExchange(x) => assert s'.exchanges[x].id == id;
  }

  /** The events a phase stands for, before and after a task's own step. */
  lemma AdvanceEvents(s: State, k: Conn)
    requires Advances(k.phase)
    ensures EventsSoFar(NextPhase(s, k))
            == EventsSoFar(k.phase) + (match FrameOf(k) case Some(Event(_, kind)) => [kind] case _ => [])
  {
  }

  lemma OneEvent(frame: Frame, id: Id)
    ensures EventsOf([frame], id) == if frame.Event? && frame.id == id then [frame.kind] else []
  {
    assert [frame][..0] == [];
  }

  lemma AdvancePhase(s: State, d: nat, c: nat)
    requires DistinctIds(s) && c < |s.conns| && Possible(s, Advance(d))
    ensures EventsSoFar(Step(s, Advance(d)).conns[c].phase)
            == EventsSoFar(s.conns[c].phase) + EventsOf(Emission(s, Advance(d)), s.conns[c].id)
  {
    var k, e := s.conns[d], Emission(s, Advance(d));
    AdvanceEvents(s, k);
    if e != [] { OneEvent(e[0], s.conns[c].id); }
    if c != d {
      assert k.id != s.conns[c].id;
    }
  }

  lemma CompletePhase(s: State, a: Action, c: nat)
    requires DistinctIds(s) && c < |s.conns| && Possible(s, a) && a.Complete?
    ensures EventsSoFar(Step(s, a).conns[c].phase)
            == EventsSoFar(s.conns[c].phase) + EventsOf(Emission(s, a), s.conns[c].id)
  {
    var kind := if a.ok then Closed else Failed;
    OneEvent(Event(s.conns[a.c].id, kind), s.conns[c].id);
    if c == a.c {
      assert EventsSoFar(Over(kind)) == EventsSoFar(Forwarding) + [kind];
    } else {
      assert Step(s, a).conns[c] == s.conns[c] && s.conns[a.c].id != s.conns[c].id;
    }
  }

  lemma ExchangePhase(s: State, a: Action, c: nat)
    requires Apart(s) && c < |s.conns| && Possible(s, a) && (a.OpenExchange? || a.CloseExchange?)
    ensures Step(s, a).conns == s.conns && EventsOf(Emission(s, a), s.conns[c].id) == []
  {
    OneEvent(Emission(s, a)[0], s.conns[c].id);
  }

  /** The events a phase stands for grow by what the step emits for that connection. */
  lemma PhaseEvents(s: State, a: Action, c: nat)
    requires DistinctIds(s) && Apart(s) && c < |s.conns| && Possible(s, a)
    ensures EventsSoFar(Step(s, a).conns[c].phase)
            == EventsSoFar(s.conns[c].phase) + EventsOf(Emission(s, a), s.conns[c].id)
  {
    if a.Advance? {
      AdvancePhase(s, a.c, c);
    } else if a.Complete? {
      CompletePhase(s, a, c);
    } else if a.OpenExchange? || a.CloseExchange? {
      ExchangePhase(s, a, c);
    } else {
      assert EventsSoFar(Step(s, a).conns[c].phase) == EventsSoFar(s.conns[c].phase);
    }
  }

  lemma ExchangeCloses(s: State, x: nat)
    requires Possible(s, CloseExchange(x))
    ensures ExchangeEvents(Step(s, CloseExchange(x)).exchanges[x])
            == ExchangeEvents(s.exchanges[x]) + EventsOf(Emission(s, CloseExchange(x)), s.exchanges[x].id)
  {
    OneEvent(Event(s.exchanges[x].id, Closed), s.exchanges[x].id);
  }

  lemma ExchangeWaits(s: State, a: Action, x: nat)
    requires Apart(s) && x < |s.exchanges| && Possible(s, a) && a != CloseExchange(x)
    ensures x < |Step(s, a).exchanges| && Step(s, a).exchanges[x] == s.exchanges[x]
    ensures EventsOf(Emission(s, a), s.exchanges[x].id) == []
  {
    if Emission(s, a) != [] {
      OneEvent(Emission(s, a)[0], s.exchanges[x].id);
      if a.Advance? || a.Complete? { assert s.conns[a.c].id != s.exchanges[x].id; }
    }
  }

  /** Likewise for an exchange. */
  lemma ExchangeGrows(s: State, a: Action, x: nat)
    requires Apart(s) && x < |s.exchanges| && Possible(s, a)
    ensures x < |Step(s, a).exchanges| && Step(s, a).exchanges[x].id == s.exchanges[x].id
    ensures ExchangeEvents(Step(s, a).exchanges[x])
            == ExchangeEvents(s.exchanges[x]) + EventsOf(Emission(s, a), s.exchanges[x].id)
  {
    if a == CloseExchange(x) {
      ExchangeCloses(s, x);
    } else {
      ExchangeWaits(s, a, x);
    }
  }

  lemma EventsOfSnoc(frames: seq<Frame>, frame: Frame, id: Id)
    ensures EventsOf(frames + [frame], id)
            == EventsOf(frames, id) + (if frame.Event? && frame.id == id then [frame.kind] else [])
  {
    assert (frames + [frame])[..|frames|] == frames;
  }

  lemma EventsGrow(emitted: seq<Frame>, e: seq<Frame>, id: Id)
    requires |e| <= 1
    ensures EventsOf(emitted + e, id) == EventsOf(emitted, id) + EventsOf(e, id)
    ensures e == [] || e[0].id != id ==> EventsOf(e, id) == []
  {
    if e == [] {
      assert emitted + e == emitted;
    } else {
      EventsOfSnoc(emitted, e[0], id);
      EventsOfSnoc([], e[0], id);
      assert e == [e[0]] == [] + [e[0]];
    }
  }

  lemma NoEventsForStrangers(s: State, e: seq<Frame>, id: Id)
    requires EventsOk(s) && |e| <= 1 && !Known(s, id) && (e != [] ==> e[0].id != id)
    ensures EventsOf(s.emitted + e, id) == []
  {
    EventsGrow(s.emitted, e, id);
  }

  lemma KnownStays(s: State, a: Action, id: Id)
    requires Possible(s, a) && !Known(Step(s, a), id)
    ensures !Known(s, id) && (Emission(s, a) != [] ==> Emission(s, a)[0].id != id)
  {
    if Emission(s, a) != [] { EmitsForTheKnown(s, a); }
    StepEmits(s, a);
    var s' := Step(s, a);
    forall c | 0 <= c < |s.conns|
      ensures s.conns[c].id != id
    {
      assert s'.conns[c].id == s.conns[c].id;
    }
    forall x | 0 <= x < |s.exchanges|
      ensures s.exchanges[x].id != id
    {
      assert s'.exchanges[x].id == s.exchanges[x].id;
    }
  }

  lemma ConnEvents(s: State, a: Action, c: nat)
    requires Protocol(s) && Apart(s) && EventsOk(s) && Possible(s, a) && c < |Step(s, a).conns|
    ensures var s' := Step(s, a); EventsOf(s'.emitted, s'.conns[c].id) == EventsSoFar(s'.conns[c].phase)
  {
    StepEmits(s, a);
    if c < |s.conns| {
      PhaseEvents(s, a, c);
      EventsGrow(s.emitted, Emission(s, a), s.conns[c].id);
    } else {
      NoEventsForStrangers(s, [], Step(s, a).conns[c].id);
    }
  }

  lemma ExchangesEvents(s: State, a: Action, x: nat)
    requires Apart(s) && EventsOk(s) && Possible(s, a) && x < |Step(s, a).exchanges|
    ensures var s' := Step(s, a); EventsOf(s'.emitted, s'.exchanges[x].id) == ExchangeEvents(s'.exchanges[x])
  {
    StepEmits(s, a);
    if x < |s.exchanges| {
      ExchangeGrows(s, a, x);
      EventsGrow(s.emitted, Emission(s, a), s.exchanges[x].id);
    } else {
      EventsGrow(s.emitted, Emission(s, a), a.id);
      OneEvent(Emission(s, a)[0], a.id);
    }
  }

  lemma StepKeepsEvents(s: State, a: Action)
    requires Protocol(s) && Apart(s) && EventsOk(s) && Possible(s, a)
    ensures EventsOk(Step(s, a))
  {
    var s' := Step(s, a);
    forall c | 0 <= c < |s'.conns|
      ensures EventsOf(s'.emitted, s'.conns[c].id) == EventsSoFar(s'.conns[c].phase)
    {
      ConnEvents(s, a, c);
    }
    forall x | 0 <= x < |s'.exchanges|
      ensures EventsOf(s'.emitted, s'.exchanges[x].id) == ExchangeEvents(s'.exchanges[x])
    {
      ExchangesEvents(s, a, x);
    }
    forall id | !Known(s', id)
      ensures EventsOf(s'.emitted, id) == []
    {
      KnownStays(s, a, id);
      StepEmits(s, a);
      NoEventsForStrangers(s, Emission(s, a), id);
    }
  }

  lemma StepKeepsApart(s: State, a: Action)
    requires Apart(s) && Possible(s, a)
    ensures Apart(Step(s, a))
  {
    StepEmits(s, a);
  }

  // ---------------------------------------------------------------- delivery

  /** What peers have, then the frame in the writer's hand, then the queue. */
  function Lane(s: State): seq<Frame> {
    s.delivered + (if s.peer.inHand.Some? then [s.peer.inHand.value] else []) + s.channel.queue
  }

  lemma LaneGrows(s: State, s': State, frame: Frame)
    requires Within(Lane(s), s.emitted) && s'.emitted == s.emitted + [frame]
    requires s'.delivered == s.delivered && s'.peer == s.peer
    requires s'.channel.queue == s.channel.queue || s'.channel.queue == s.channel.queue + [frame]
    ensures Within(Lane(s'), s'.emitted)
  {
    WithinSnoc(Lane(s), s.emitted, frame);
    assert Lane(s') == Lane(s) || Lane(s') == Lane(s) + [frame];
  }

  lemma LaneLoses(s: State, s': State, frame: Frame)
    requires Within(Lane(s), s.emitted) && s'.emitted == s.emitted && s.peer.inHand == Some(frame)
    requires s'.delivered == s.delivered && s'.peer.inHand == None && s'.channel.queue == s.channel.queue
    ensures Within(Lane(s'), s'.emitted)
  {
    WithinDrop(s.delivered, frame, s.channel.queue, s.emitted);
    assert Lane(s') == s.delivered + s.channel.queue;
  }

  lemma StepKeepsLane(s: State, a: Action)
    requires Within(Lane(s), s.emitted) && WriterOk(s) && Possible(s, a)
    ensures Within(Lane(Step(s, a)), Step(s, a).emitted)
  {
    StepEmits(s, a);
    if Emission(s, a) != [] {
      LaneGrows(s, Step(s, a), Emission(s, a)[0]);
    } else if a == WriteFrame(false) {
      LaneLoses(s, Step(s, a), s.peer.inHand.value);
    } else {
      LaneUnmoved(s, a);
    }
  }

  lemma LaneUnmoved(s: State, a: Action)
    requires Possible(s, a) && WriterOk(s) && Emission(s, a) == [] && a != WriteFrame(false)
    ensures Lane(Step(s, a)) == Lane(s)
  {
    match a
    case TakeFrame => assert [s.channel.queue[0]] + s.channel.queue[1..] == s.channel.queue;
    case Advance(_) =>
    case _ =>
  }

  predicate WriterOk(s: State) { s.peer.inHand.Some? ==> s.peer.writing }

  // ------------------------------------------------------- requests and losses

  /** How many request frames for `id` are among `frames`. */
  function RequestsFor(frames: seq<Frame>, id: Id): nat {
    if frames == [] then 0
    else
      RequestsFor(frames[..|frames| - 1], id) + (if frames[|frames| - 1] == DecisionRequest(id) then 1 else 0)
  }

  /** The request has been put to the decider. */
  predicate Asked(s: State, k: Conn) {
    && PolicyDecision(s, k.host) == HostPolicy.Ask
    && !k.phase.Accepted? && !k.phase.Evaluating? && !k.phase.Registering? && !k.phase.Requesting?
  }

  ghost predicate AskedOk(s: State) {
    && (forall c :: 0 <= c < |s.conns| ==>
          RequestsFor(s.emitted, s.conns[c].id) == if Asked(s, s.conns[c]) then 1 else 0)
    && (forall id :: NewId(s, id) ==> RequestsFor(s.emitted, id) == 0)
  }

  lemma RequestsGrow(emitted: seq<Frame>, e: seq<Frame>, id: Id)
    requires |e| <= 1
    ensures RequestsFor(emitted + e, id) == RequestsFor(emitted, id) + (if e == [DecisionRequest(id)] then 1 else 0)
  {
    if e == [] {
      assert emitted + e == emitted;
    } else {
      assert (emitted + e)[..|emitted|] == emitted;
    }
  }

  function Once(b: bool): nat { if b then 1 else 0 }

  /** An own step of a connection asks exactly if it leaves Requesting. */
  lemma OwnAsk(s: State, a: Action, c: nat)
    requires Possible(s, a) && OwnStep(a, c) && InboxShape(s, s.conns[c])
    ensures var k' := Step(s, a).conns[c];
            Once(Asked(s, k')) == Once(Asked(s, s.conns[c])) + Once(Emission(s, a) == [DecisionRequest(s.conns[c].id)])
  {
    if a.Advance? {
      OwnAdvance(s, c);
    } else {
      OwnChoice(s, a, c);
    }
  }

  lemma OthersDoNotAsk(s: State, a: Action, c: nat)
    requires DistinctIds(s) && Possible(s, a) && c < |s.conns| && !OwnStep(a, c)
    ensures Emission(s, a) != [DecisionRequest(s.conns[c].id)]
  {
    if a.Advance? { assert s.conns[a.c].id != s.conns[c].id; }
  }

  /** A step asks for connection c exactly if it is c's own step out of Requesting. */
  lemma AskedStep(s: State, a: Action, c: nat)
    requires DistinctIds(s) && Possible(s, a) && c < |s.conns| && InboxShape(s, s.conns[c])
    ensures c < |Step(s, a).conns| && Step(s, a).conns[c].id == s.conns[c].id && Step(s, a).policy == s.policy
    ensures Once(Asked(Step(s, a), Step(s, a).conns[c]))
            == Once(Asked(s, s.conns[c])) + Once(Emission(s, a) == [DecisionRequest(s.conns[c].id)])
  {
    assert Step(s, a).policy == s.policy;
    if OwnStep(a, c) {
      OwnAsk(s, a, c);
    } else {
      OthersStandStill(s, a, c);
      OthersDoNotAsk(s, a, c);
    }
  }

  lemma AskedAfter(s: State, a: Action, c: nat)
    requires Protocol(s) && AskedOk(s) && Possible(s, a) && c < |Step(s, a).conns|
    ensures var s' := Step(s, a); RequestsFor(s'.emitted, s'.conns[c].id) == if Asked(s', s'.conns[c]) then 1 else 0
  {
    StepEmits(s, a);
    RequestsGrow(s.emitted, Emission(s, a), Step(s, a).conns[c].id);
    if c < |s.conns| {
      AskedStep(s, a, c);
    }
  }

  lemma StepKeepsAsked(s: State, a: Action)
    requires Protocol(s) && AskedOk(s) && Possible(s, a)
    ensures AskedOk(Step(s, a))
  {
    var s' := Step(s, a);
    forall c | 0 <= c < |s'.conns|
      ensures RequestsFor(s'.emitted, s'.conns[c].id) == if Asked(s', s'.conns[c]) then 1 else 0
    {
      AskedAfter(s, a, c);
    }
    forall id | NewId(s', id)
      ensures RequestsFor(s'.emitted, id) == 0
    {
      KnownStays(s, a, id);
      StepEmits(s, a);
      RequestsGrow(s.emitted, Emission(s, a), id);
    }
  }

  lemma InitialAsked(s: State)
    requires Initial(s)
    ensures AskedOk(s)
  {
  }

  lemma {:induction false} RunKeepsAsked(run: seq<State>, actions: seq<Action>, i: nat)
    requires IsRun(run, actions) && i < |run|
    ensures AskedOk(run[i])
  {
    if i == 0 {
      InitialAsked(run[0]);
    } else {
      RunKeepsAsked(run, actions, i - 1);
      RunKeepsProtocol(run, actions, i - 1);
      StepKeepsAsked(run[i - 1], actions[i - 1]);
    }
  }

  /** The decider is asked exactly once about each connection the policy defers, and never
      about another; a task that waits has had its request put in the queue. */
  lemma AskedExactlyOnce(run: seq<State>, actions: seq<Action>, i: nat, c: nat)
    requires IsRun(run, actions) && i < |run| && c < |run[i].conns|
    ensures var s, k := run[i], run[i].conns[c];
            RequestsFor(s.emitted, k.id)
            == if HostPolicy.Defers(s.policy, k.host) && StepsLeft(k.phase) < StepsLeft(Requesting) then 1 else 0
  {
    RunKeepsAsked(run, actions, i);
    RunKeepsProtocol(run, actions, i);
    assert InboxShape(run[i], run[i].conns[c]) && Justified(run[i], run[i].conns[c]);
    HostPolicy.DecisionIsTheFirstRules(run[i].policy, run[i].conns[c].host);
  }

  lemma WaitsOnlyWhenQueued(run: seq<State>, actions: seq<Action>, i: nat, c: nat)
    requires IsRun(run, actions) && i < |actions| && actions[i] == Advance(c) && run[i].conns[c].phase == Requesting
    ensures c < |run[i + 1].conns|
    ensures run[i + 1].conns[c].phase == Waiting <==> |run[i].channel.queue| < BUFFER_CAP
    ensures run[i + 1].conns[c].phase == Waiting ==>
              run[i + 1].channel.queue == run[i].channel.queue + [DecisionRequest(run[i].conns[c].id)]
  {
  }

  /** The step loses a frame: it enqueues one while the queue is full, or a write fails. */
  predicate Loses(s: State, a: Action) {
    Possible(s, a) && (a == WriteFrame(false) || (Emission(s, a) != [] && |s.channel.queue| >= BUFFER_CAP))
  }

  lemma LosslessStep(s: State, a: Action)
    requires WriterOk(s) && Possible(s, a) && !Loses(s, a) && Lane(s) == s.emitted
    ensures Lane(Step(s, a)) == Step(s, a).emitted
  {
    StepEmits(s, a);
    if Emission(s, a) == [] {
      LaneUnmoved(s, a);
      assert s.emitted + [] == s.emitted;
    } else {
      AcceptedStep(s, a);
    }
  }

  lemma AcceptedStep(s: State, a: Action)
    requires Possible(s, a) && Emission(s, a) != [] && |s.channel.queue| < BUFFER_CAP
    ensures Lane(Step(s, a)) == Lane(s) + Emission(s, a)
  {
    StepEmits(s, a);
    assert Step(s, a).channel.queue == s.channel.queue + Emission(s, a);
  }

  /** Nothing else is ever lost: as long as no frame met a full queue and no write failed,
      what peers received, the frame being written and the queue are all that was emitted. */
  lemma {:induction false} NothingElseIsLost(run: seq<State>, actions: seq<Action>, i: nat)
    requires IsRun(run, actions) && i < |run| && forall k :: 0 <= k < i ==> !Loses(run[k], actions[k])
    ensures run[i].delivered + (if run[i].peer.inHand.Some? then [run[i].peer.inHand.value] else [])
            + run[i].channel.queue == run[i].emitted
  {
    if i == 0 {
    } else {
      NothingElseIsLost(run, actions, i - 1);
      RunKeepsTraffic(run, actions, i - 1);
      LosslessStep(run[i - 1], actions[i - 1]);
      assert run[i] == Step(run[i - 1], actions[i - 1]);
    }
  }

  ghost predicate Traffic(s: State) { Apart(s) && EventsOk(s) && WriterOk(s) && Within(Lane(s), s.emitted) }

  lemma StepKeepsWriter(s: State, a: Action)
    requires WriterOk(s) && Possible(s, a)
    ensures WriterOk(Step(s, a))
  {
  }

  lemma StepKeepsTraffic(s: State, a: Action)
    requires Protocol(s) && Traffic(s) && Possible(s, a)
    ensures Traffic(Step(s, a))
  {
    StepKeepsApart(s, a);
    StepKeepsEvents(s, a);
    StepKeepsWriter(s, a);
    StepKeepsLane(s, a);
  }

  lemma InitialTraffic(s: State)
    requires Initial(s)
    ensures Traffic(s)
  {
  }

  lemma {:induction false} RunKeepsTraffic(run: seq<State>, actions: seq<Action>, i: nat)
    requires IsRun(run, actions) && i < |run|
    ensures Traffic(run[i])
  {
    if i == 0 {
      InitialTraffic(run[0]);
    } else {
      RunKeepsTraffic(run, actions, i - 1);
      RunKeepsProtocol(run, actions, i - 1);
      StepKeepsTraffic(run[i - 1], actions[i - 1]);
    }
  }

  /** Each connection's events are a prefix of Opened, then Denied or Allowed and its end; each
      HTTP/2 exchange's are Opened and then Closed; no other id has any. The queue never holds
      more than 1024 frames, and what peers received, across all reconnects and failed writes,
      is an in-order subsequence of what was emitted. */
  lemma TrafficIsOrdered(run: seq<State>, actions: seq<Action>, i: nat)
    requires IsRun(run, actions) && i < |run|
    ensures forall c :: 0 <= c < |run[i].conns| ==> Lifecycle(EventsOf(run[i].emitted, run[i].conns[c].id))
    ensures forall x :: 0 <= x < |run[i].exchanges| ==>
              EventsOf(run[i].emitted, run[i].exchanges[x].id) in {[Opened], [Opened, Closed]}
    ensures forall id :: NewId(run[i], id) ==> EventsOf(run[i].emitted, id) == []
    ensures |run[i].channel.queue| <= BUFFER_CAP
    ensures Within(run[i].delivered, run[i].emitted)
  {
    RunKeepsTraffic(run, actions, i);
    RunKeepsProtocol(run, actions, i);
    LifecycleOfAll(run[i]);
    DeliveredWithin(run[i]);
  }

  lemma LifecycleOfAll(s: State)
    requires Protocol(s) && EventsOk(s)
    ensures forall c :: 0 <= c < |s.conns| ==> Lifecycle(EventsOf(s.emitted, s.conns[c].id))
  {
    forall c | 0 <= c < |s.conns|
      ensures Lifecycle(EventsOf(s.emitted, s.conns[c].id))
    {
      PhaseLifecycle(s, s.conns[c]);
    }
  }

  lemma PhaseLifecycle(s: State, k: Conn)
    requires Justified(s, k)
    ensures Lifecycle(EventsSoFar(k.phase))
  {
  }

  lemma DeliveredWithin(s: State)
    requires Within(Lane(s), s.emitted)
    ensures Within(s.delivered, s.emitted)
  {
    var tail := Lane(s)[|s.delivered|..];
    assert s.delivered + tail == Lane(s);
    WithinPrefix(s.delivered, tail, s.emitted);
  }

  // ------------------------------------------------------------------- peers

  predicate Writes(a: Action) { a.TakeFrame? || a.WriteFrame? }

  predicate Reads(a: Action) { a.Line? || a.HangUp? }

  lemma {:induction false} WriterStaysOff(run: seq<State>, actions: seq<Action>, i: nat, j: nat)
    requires IsRun(run, actions) && i <= j < |run| && !run[i].peer.writing
    requires forall k :: i <= k < j ==> actions[k] != Connect
    ensures !run[j].peer.writing
  {
    if i == j {
    } else {
      WriterStaysOff(run, actions, i, j - 1);
      assert run[j] == Step(run[j - 1], actions[j - 1]);
    }
  }

  lemma {:induction false} ReaderStaysOff(run: seq<State>, actions: seq<Action>, i: nat, j: nat)
    requires IsRun(run, actions) && i <= j < |run| && !run[i].peer.reading
    requires forall k :: i <= k < j ==> actions[k] != Connect
    ensures !run[j].peer.reading
  {
    if i == j {
    } else {
      ReaderStaysOff(run, actions, i, j - 1);
      assert run[j] == Step(run[j - 1], actions[j - 1]);
    }
  }

  /** After a failed write nothing is written, and after a hang-up no line is read, until a
      peer connects. */
  lemma PeerIsDoneUntilTheNext(run: seq<State>, actions: seq<Action>, i: nat, j: nat)
    requires IsRun(run, actions) && i < j < |actions|
    ensures actions[i] == WriteFrame(false) && Writes(actions[j]) ==> exists k :: i < k < j && actions[k] == Connect
    ensures actions[i] == HangUp && Reads(actions[j]) ==> exists k :: i < k < j && actions[k] == Connect
  {
    assert run[i + 1] == Step(run[i], actions[i]) && Possible(run[j], actions[j]);
    if forall k :: i < k < j ==> actions[k] != Connect {
      if actions[i] == WriteFrame(false) { WriterStaysOff(run, actions, i + 1, j); }
      if actions[i] == HangUp { ReaderStaysOff(run, actions, i + 1, j); }
    }
  }

  lemma {:induction false} WriterStaysOn(run: seq<State>, actions: seq<Action>, i: nat, j: nat)
    requires IsRun(run, actions) && i <= j < |run| && run[i].peer.writing
    requires forall k :: i <= k < j ==> actions[k] != WriteFrame(false)
    ensures run[j].peer.writing
  {
    if i == j {
    } else {
      WriterStaysOn(run, actions, i, j - 1);
      assert run[j] == Step(run[j - 1], actions[j - 1]);
    }
  }

  lemma {:induction false} ReaderStaysOn(run: seq<State>, actions: seq<Action>, i: nat, j: nat)
    requires IsRun(run, actions) && i <= j < |run| && run[i].peer.reading
    requires forall k :: i <= k < j ==> actions[k] != HangUp
    ensures run[j].peer.reading
  {
    if i == j {
    } else {
      ReaderStaysOn(run, actions, i, j - 1);
      assert run[j] == Step(run[j - 1], actions[j - 1]);
    }
  }

  /** A peer is served only after the one before it has hung up and a write to it has failed. */
  lemma PeersTakeTurns(run: seq<State>, actions: seq<Action>, i: nat, j: nat)
    requires IsRun(run, actions) && i < j < |actions| && actions[i] == Connect && actions[j] == Connect
    ensures exists k :: i < k < j && actions[k] == WriteFrame(false)
    ensures exists k :: i < k < j && actions[k] == HangUp
  {
    assert run[i + 1] == Step(run[i], actions[i]) && Possible(run[j], actions[j]);
    if forall k :: i < k < j ==> actions[k] != WriteFrame(false) { WriterStaysOn(run, actions, i + 1, j); }
    if forall k :: i < k < j ==> actions[k] != HangUp { ReaderStaysOn(run, actions, i + 1, j); }
  }
}

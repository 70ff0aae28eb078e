/**
 Every interleaving of the sidecar's connection tasks
 (native/condukt_egress/src/proxy/conn.rs, `handle`) with the control channel's peer.

 A step is one access to shared state: an enqueue, a map update, an oneshot being filled
 or read. Whether an answer or the timer wins, what lines a peer sends, when it hangs up
 and which writes fail are all left open. Request ids are fresh.
 */
module EgressRuns {
  import opened Common
  import HostPolicy
  import opened ControlChannel

  datatype Phase =
    | Accepted                    // about to emit Opened
    | Evaluating                  // about to evaluate the policy
    | Registering                 // the policy defers; about to enter the pending map
    | Requesting                  // entered; about to enqueue the request
    | Waiting                     // racing the answer against the timer
    | GivingUp                    // about to leave the pending map
    | Refusing(reason: Reason)    // about to emit Denied
    | Admitting                   // about to emit Allowed
    | Forwarding
    | Over(kind: Kind)

  /** One connection task; `inbox` is its oneshot channel. */
  datatype Conn = Conn(id: Id, host: string, phase: Phase, inbox: Option<Decision>)

  /** One request of an HTTP/2 connection (native/condukt_egress/src/proxy/h2.rs), which
      reports itself under an id of its own on the same queue. */
  datatype Exchange = Exchange(id: Id, done: bool)

  datatype Peer = Peer(reading: bool, writing: bool, inHand: Option<Frame>)

  /** An answer that found a pending request, and the task it was handed to. */
  datatype Resolution = Resolution(id: Id, decision: Decision, slot: Slot)

  datatype State = State(
    policy: HostPolicy.Policy,
    channel: Channel,
    conns: seq<Conn>,
    exchanges: seq<Exchange>,
    peer: Peer,
    emitted: seq<Frame>,               // every frame a task tried to enqueue
    delivered: seq<Frame>,             // every frame some peer received
    resolved: seq<Resolution>)

  datatype Action =
    | Accept(id: Id, host: string)
    | Advance(c: nat)                  // the next step of task c that needs no choice
    | TakeAnswer(c: nat)
    | TimeOut(c: nat)
    | Complete(c: nat, ok: bool)
    | OpenExchange(c: nat, id: Id)     // connection c forwards a request of its own
    | CloseExchange(x: nat)
    | Connect
    | Line(line: Inbound)
    | HangUp
    | TakeFrame
    | WriteFrame(ok: bool)

  predicate Advances(p: Phase) {
    p.Accepted? || p.Evaluating? || p.Registering? || p.Requesting? || p.GivingUp? || p.Refusing? || p.Admitting?
  }

  predicate NewId(s: State, id: Id) {
    && (forall c :: 0 <= c < |s.conns| ==> s.conns[c].id != id)
    && (forall x :: 0 <= x < |s.exchanges| ==> s.exchanges[x].id != id)
  }

  predicate Possible(s: State, a: Action) {
    match a
    case Accept(id, _) => NewId(s, id)
    case Advance(c) => c < |s.conns| && Advances(s.conns[c].phase)
    case TakeAnswer(c) => c < |s.conns| && s.conns[c].phase == Waiting && s.conns[c].inbox.Some?
    case TimeOut(c) => c < |s.conns| && s.conns[c].phase == Waiting && s.conns[c].inbox.None?
    case Complete(c, _) => c < |s.conns| && s.conns[c].phase == Forwarding
    case OpenExchange(c, id) => c < |s.conns| && s.conns[c].phase == Forwarding && NewId(s, id)
    case CloseExchange(x) => x < |s.exchanges| && !s.exchanges[x].done
    case Connect => !s.peer.reading && !s.peer.writing
    case Line(_) => s.peer.reading
    case HangUp => s.peer.reading
    case TakeFrame => s.peer.writing && s.peer.inHand.None? && s.channel.queue != []
    case WriteFrame(_) => s.peer.writing && s.peer.inHand.Some?
  }

  function PolicyDecision(s: State, host: string): HostPolicy.Decision { HostPolicy.Evaluate(s.policy, host).decision }

  /** Where the policy sends a connection. */
  function AfterPolicy(d: HostPolicy.Decision): Phase {
    match d case Allowed => Admitting case Denied(why) => Refusing(ByPolicy(why)) case Ask => Registering
  }

  /** Where an answer sends a connection. */
  function AfterAnswer(d: Decision): Phase {
    if d.action == Permit then Admitting
    else Refusing(if d.reason != "" then DeciderSays(d.reason) else DeciderDeny)
  }

  /** The frame a step enqueues, if it enqueues one. */
  function FrameOf(k: Conn): Option<Frame> {
    match k.phase
    case Accepted => Some(Event(k.id, Opened))
    case Requesting => Some(DecisionRequest(k.id))
    case Refusing(reason) => Some(Event(k.id, Denied(reason)))
    case Admitting => Some(Event(k.id, Allowed))
    case _ => None
  }

  function NextPhase(s: State, k: Conn): Phase
    requires Advances(k.phase)
  {
    match k.phase
    case Accepted => Evaluating
    case Evaluating => AfterPolicy(PolicyDecision(s, k.host))
    case Registering => Requesting
    case Requesting => if Full(s.channel) then GivingUp else Waiting
    case GivingUp => Refusing(DeciderTimeout)
    case Refusing(reason) => Over(Denied(reason))
    case Admitting => Forwarding
  }

  function SetPhase(s: State, c: nat, p: Phase): State
    requires c < |s.conns|
  {
    s.(conns := s.conns[c := s.conns[c].(phase := p)])
  }

  function Emit(s: State, frame: Frame): State {
    s.(channel := Offer(s.channel, frame), emitted := s.emitted + [frame])
  }

  function AdvanceTask(s: State, c: nat): State
    requires c < |s.conns| && Advances(s.conns[c].phase)
  {
    var k := s.conns[c];
    var moved := SetPhase(s, c, NextPhase(s, k));
    if FrameOf(k).Some? then Emit(moved, FrameOf(k).value)
    else if k.phase == Registering then moved.(channel := Register(s.channel, k.id, c))
    else if k.phase == GivingUp then moved.(channel := Unregister(s.channel, k.id))
    else moved
  }

  /** An inbound line fills the inbox of the task whose entry it takes out. */
  function Receive(s: State, line: Inbound): State {
    var slot := Resolved(s.channel, line);
    var cleared := s.(channel := AfterLine(s.channel, line));
    if slot.Some? && slot.value < |s.conns| then
      cleared.(conns := s.conns[slot.value := s.conns[slot.value].(inbox := Some(line.decision))],
               resolved := s.resolved + [Resolution(line.id, line.decision, slot.value)])
    else cleared
  }

  function Step(s: State, a: Action): State
    requires Possible(s, a)
  {
    match a
    case Accept(id, host) => s.(conns := s.conns + [Conn(id, host, Accepted, None)])
    case Advance(c) => AdvanceTask(s, c)
    case TakeAnswer(c) => SetPhase(s, c, AfterAnswer(s.conns[c].inbox.value))
    case TimeOut(c) => SetPhase(s, c, GivingUp)
    case Complete(c, ok) =>
      var kind := if ok then Closed else Failed;
      Emit(SetPhase(s, c, Over(kind)), Event(s.conns[c].id, kind))
    case OpenExchange(_, id) => Emit(s.(exchanges := s.exchanges + [Exchange(id, false)]), Event(id, Opened))
    case CloseExchange(x) =>
      var id := s.exchanges[x].id;
      Emit(s.(exchanges := s.exchanges[x := Exchange(id, true)]), Event(id, Closed))
    case Connect => s.(peer := Peer(true, true, None))
    case Line(line) => Receive(s, line)
    case HangUp => s.(peer := s.peer.(reading := false))
    case TakeFrame =>
      s.(channel := s.channel.(queue := s.channel.queue[1..]), peer := s.peer.(inHand := Some(s.channel.queue[0])))
    case WriteFrame(ok) =>
      if ok then s.(delivered := s.delivered + [s.peer.inHand.value], peer := s.peer.(inHand := None))
      else s.(peer := s.peer.(inHand := None, writing := false))
  }

  predicate Initial(s: State) {
    && s.channel == Channel(map[], []) && s.conns == [] && s.exchanges == [] && s.peer == Peer(false, false, None)
    && s.emitted == [] && s.delivered == [] && s.resolved == []
  }

  ghost predicate IsRun(run: seq<State>, actions: seq<Action>) {
    && |run| == |actions| + 1 && Initial(run[0])
    && forall i {:trigger actions[i]} :: 0 <= i < |actions| ==>
         Possible(run[i], actions[i]) && run[i + 1] == Step(run[i], actions[i])
  }
}

/**
 The control channel of the egress sidecar
 (native/condukt_egress/src/proxy/control.rs): a map of decisions being waited for and a
 bounded outbound queue, shared by every connection and by the peer's reader and writer.
 */
module ControlChannel {
  import opened Common
  import HostPolicy

  type Id = nat      // a request's UUID
  type Slot = nat    // the receiving end of one oneshot channel

  const BUFFER_CAP: nat := 1024

  datatype Verdict = Permit | Refuse
  datatype Decision = Decision(action: Verdict, reason: string)

  datatype Reason = ByPolicy(why: HostPolicy.DenyReason) | DeciderSays(text: string) | DeciderDeny | DeciderTimeout
  datatype Kind = Opened | Allowed | Denied(reason: Reason) | Closed | Failed
  datatype Frame = Event(id: Id, kind: Kind) | DecisionRequest(id: Id)
  datatype Inbound = Answer(id: Id, decision: Decision) | Unknown | Unparsable

  /** The shared state as a value. */
  datatype Channel = Channel(pending: map<Id, Slot>, queue: seq<Frame>)

  /** `try_send`: drop the frame when the buffer is full. */
  function Offer(c: Channel, frame: Frame): Channel {
    if |c.queue| < BUFFER_CAP then c.(queue := c.queue + [frame]) else c
  }

  predicate Full(c: Channel) { |c.queue| >= BUFFER_CAP }

  function Register(c: Channel, id: Id, slot: Slot): Channel { c.(pending := c.pending[id := slot]) }

  function Unregister(c: Channel, id: Id): Channel { c.(pending := c.pending - {id}) }

  /** The slot an inbound line resolves, if any. */
  function Resolved(c: Channel, line: Inbound): Option<Slot> {
    if line.Answer? && line.id in c.pending then Some(c.pending[line.id]) else None
  }

  function AfterLine(c: Channel, line: Inbound): Channel {
    if line.Answer? then Unregister(c, line.id) else c
  }

  /** What happens between two `recv` calls of the write loop: tasks enqueue frames, and the
      next write succeeds or fails. */
  datatype Round = Round(arriving: seq<Frame>, ok: bool)

  /** The channel in place, as the tasks share it behind its locks. */
  class Shared {
    var pending: map<Id, Slot>
    var queue: seq<Frame>

    ghost function View(): Channel
      reads this
    {
      Channel(pending, queue)
    }

    constructor ()
      ensures View() == Channel(map[], [])
    {
      pending := map[];
      queue := [];
    }

    method Emit(frame: Frame)
      modifies this
      ensures View() == Offer(old(View()), frame)
    {
      var _ := TrySend(frame);
    }

    method TrySend(frame: Frame) returns (ok: bool)
      modifies this`queue
      ensures View() == Offer(old(View()), frame)
      ensures ok <==> !Full(old(View()))
    {
      ok := |queue| < BUFFER_CAP;
      if ok {
        queue := queue + [frame];
      }
    }

    /** First critical section and enqueueing of `request_decision`. On a full queue the
        entry it made is gone again; otherwise the caller goes on to wait. */
    method BeginRequest(id: Id, slot: Slot) returns (waiting: bool)
      requires id !in pending
      modifies this
      ensures waiting <==> !Full(old(View()))
      ensures View() == if waiting then Offer(Register(old(View()), id, slot), DecisionRequest(id)) else old(View())
    {
      pending := pending[id := slot];
      waiting := TrySend(DecisionRequest(id));
      if !waiting {
        pending := pending - {id};
        assert pending == old(pending);
      }
    }

    /** Last critical section of `request_decision` when no answer came in time. */
    method GiveUp(id: Id)
      modifies this`pending
      ensures View() == Unregister(old(View()), id)
    {
      pending := pending - {id};
    }

    /** One inbound line: the slot waiting for its id is taken out and handed the decision. */
    method HandleLine(line: Inbound) returns (slot: Option<Slot>)
      modifies this`pending
      ensures slot == Resolved(old(View()), line)
      ensures View() == AfterLine(old(View()), line)
    {
      slot := None;
      match line {
        case Answer(id, _) =>
          if id in pending {
            slot := Some(pending[id]);
            pending := pending - {id};
          } else {
            assert pending == pending - {id};
          }
        case Unknown =>
        case Unparsable =>
      }
    }

    /** Frames from other tasks, dropped once the queue is full. */
    method Arrive(frames: seq<Frame>) returns (ghost accepted: seq<Frame>)
      requires |queue| <= BUFFER_CAP
      modifies this`queue
      ensures |queue| <= BUFFER_CAP && queue == old(queue) + accepted
      ensures accepted == if |old(queue)| + |frames| <= BUFFER_CAP then frames else frames[..BUFFER_CAP - |old(queue)|]
    {
      accepted := [];
      for i := 0 to |frames|
        invariant |queue| <= BUFFER_CAP && queue == old(queue) + accepted
        invariant accepted == if |old(queue)| + i <= BUFFER_CAP then frames[..i]
                              else frames[..BUFFER_CAP - |old(queue)|]
      {
        var ok := TrySend(frames[i]);
        if ok {
          accepted := accepted + [frames[i]];
        }
      }
    }

    /** One peer's write loop, with frames arriving while it writes. Everything queued or
        accepted meanwhile leaves in that order, is the one frame whose write failed, or is
        still queued; only a failed write loses a frame, and it ends the loop. What is accepted
        is an in-order part of what arrives, and all of it if it fits. */
    method WriteLoop(rounds: seq<Round>)
      returns (delivered: seq<Frame>, lost: Option<Frame>, n: nat, ghost accepted: seq<Frame>)
      requires |queue| <= BUFFER_CAP
      modifies this`queue
      ensures |queue| <= BUFFER_CAP && n <= |rounds|
      ensures old(queue) + accepted == delivered + (if lost.Some? then [lost.value] else []) + queue
      ensures Fits(|old(queue)|, accepted, Arrivals(rounds, n))
      ensures if lost.Some? then n > 0 && !rounds[n - 1].ok else n == |rounds|
    {
      delivered, lost, accepted, n := [], None, [], 0;
      while n < |rounds|
        invariant n <= |rounds| && |queue| <= BUFFER_CAP && lost.None?
        invariant old(queue) + accepted == delivered + queue
        invariant Fits(|old(queue)|, accepted, Arrivals(rounds, n))
        decreases |rounds| - n
      {
        ghost var queued := queue;
        ghost var more := Arrive(rounds[n].arriving);
        MoreFits(|old(queue)|, accepted, Arrivals(rounds, n), |queued|, more, rounds[n].arriving);
        MoreQueued(old(queue), accepted, delivered, queued, more);
        accepted := accepted + more;
        n := n + 1;
        if queue != [] {
          var frame := queue[0];
          OneWritten(delivered, queue);
          queue := queue[1..];
          if !rounds[n - 1].ok {
            lost := Some(frame);
            return;
          }
          delivered := delivered + [frame];
        }
      }
    }
  }

  /** An in-order part of what arrives, and all of it if it fits behind what was queued. */
  predicate Fits(queued: nat, accepted: seq<Frame>, arrived: seq<Frame>) {
    Within(accepted, arrived) && (queued + |arrived| <= BUFFER_CAP ==> accepted == arrived)
  }

  lemma MoreFits(start: nat, accepted: seq<Frame>, arrived: seq<Frame>, queued: nat,
                 more: seq<Frame>, arriving: seq<Frame>)
    requires Fits(start, accepted, arrived) && queued <= BUFFER_CAP && queued <= start + |accepted|
    requires more == if queued + |arriving| <= BUFFER_CAP then arriving else arriving[..BUFFER_CAP - queued]
    ensures Fits(start, accepted + more, arrived + arriving)
  {
    TakenWithin(arriving, |more|);
    assert arriving[..|arriving|] == arriving;
    WithinBoth(accepted, arrived, more, arriving);
  }

  lemma MoreQueued(start: seq<Frame>, accepted: seq<Frame>, delivered: seq<Frame>, queued: seq<Frame>, more: seq<Frame>)
    requires start + accepted == delivered + queued
    ensures start + (accepted + more) == delivered + (queued + more)
  {
    assert start + (accepted + more) == (start + accepted) + more;
    assert delivered + (queued + more) == (delivered + queued) + more;
  }

  lemma OneWritten(delivered: seq<Frame>, queued: seq<Frame>)
    requires queued != []
    ensures delivered + queued == delivered + [queued[0]] + queued[1..]
  {
    assert queued == [queued[0]] + queued[1..];
  }

  // --------------------------------------------------------- in-order delivery

  /** In-order subsequence. */
  predicate Within(a: seq<Frame>, b: seq<Frame>)
    decreases |b|
  {
    if a == [] then true
    else if b == [] then false
    else (a[|a| - 1] == b[|b| - 1] && Within(a[..|a| - 1], b[..|b| - 1])) || Within(a, b[..|b| - 1])
  }

  lemma WithinSnoc(a: seq<Frame>, b: seq<Frame>, x: Frame)
    requires Within(a, b)
    ensures Within(a, b + [x]) && Within(a + [x], b + [x])
  {
    assert (b + [x])[..|b|] == b && (a + [x])[..|a|] == a;
  }

  /** Dropping one frame leaves a subsequence. */
  lemma {:induction false} WithinDrop(a: seq<Frame>, x: Frame, tail: seq<Frame>, b: seq<Frame>)
    requires Within(a + [x] + tail, b)
    ensures Within(a + tail, b)
    decreases |b|
  {
    var whole := a + [x] + tail;
    var b' := b[..|b| - 1];
    if Within(whole, b') {
      WithinDrop(a, x, tail, b');
    } else if tail == [] {
      assert whole[..|whole| - 1] == a + tail;
    } else {
      var tail' := tail[..|tail| - 1];
      assert whole[..|whole| - 1] == a + [x] + tail';
      WithinDrop(a, x, tail', b');
      assert (a + tail)[..|a + tail| - 1] == a + tail';
    }
    if a + tail != [] { assert Within(a + tail, b); }
  }

  lemma {:induction false} WithinPrefix(a: seq<Frame>, tail: seq<Frame>, b: seq<Frame>)
    requires Within(a + tail, b)
    ensures Within(a, b)
    decreases |tail|
  {
    if tail == [] {
      assert a + tail == a;
    } else {
      assert a + [tail[0]] + tail[1..] == a + tail;
      WithinDrop(a, tail[0], tail[1..], b);
      WithinPrefix(a, tail[1..], b);
    }
  }

  lemma {:induction false} WithinBoth(a: seq<Frame>, b: seq<Frame>, c: seq<Frame>, d: seq<Frame>)
    requires Within(a, b) && Within(c, d)
    ensures Within(a + c, b + d)
    decreases |d|
  {
    if d == [] {
      assert a + c == a && b + d == b;
    } else {
      var d', x := d[..|d| - 1], d[|d| - 1];
      assert b + d == (b + d') + [x];
      if Within(c, d') {
        WithinBoth(a, b, c, d');
        WithinSnoc(a + c, b + d', x);
      } else {
        var c' := c[..|c| - 1];
        WithinBoth(a, b, c', d');
        WithinSnoc(a + c', b + d', x);
        assert a + c == (a + c') + [x];
      }
    }
  }

  lemma {:induction false} WithinSelf(a: seq<Frame>)
    ensures Within(a, a)
  {
    if a == [] {
    } else {
      WithinSelf(a[..|a| - 1]);
    }
  }

  lemma TakenWithin(frames: seq<Frame>, n: nat)
    requires n <= |frames|
    ensures Within(frames[..n], frames)
  {
    WithinSelf(frames);
    assert frames[..n] + frames[n..] == frames;
    WithinPrefix(frames[..n], frames[n..], frames);
  }

  /** The frames that arrive in the first n rounds. */
  function Arrivals(rounds: seq<Round>, n: nat): seq<Frame>
    requires n <= |rounds|
  {
    if n == 0 then [] else Arrivals(rounds, n - 1) + rounds[n - 1].arriving
  }
}

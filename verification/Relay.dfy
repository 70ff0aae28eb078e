/**
 The HTTP/1 relay of one connection (native/condukt_egress/src/proxy/conn.rs): capture the
 request head, forward it, then splice both directions until each ends.

 A reader is the script of results its reads give; reading past the script is end of
 file. A writer is the script of what each `write_all` does: a failed one may have put part
 of its buffer on the wire. Head parsing is an arbitrary function of the bytes so far.
 */
module Relay {
  type Bytes = seq<bv8>

  datatype Read = Data(bytes: Bytes) | Eof | ReadError
  datatype Write = Wrote | Broke(part: nat)
  datatype Parse = Complete | Partial | Malformed

  /** Reads that bring data bring at least one byte. */
  predicate Readable(script: seq<Read>) {
    forall i :: 0 <= i < |script| && script[i].Data? ==> script[i].bytes != []
  }

  function ReadAt(script: seq<Read>, i: nat): Read { if i < |script| then script[i] else Eof }

  /** The i-th write; beyond the script writes succeed. */
  function WriteAt(writes: seq<Write>, i: nat): Write { if i < |writes| then writes[i] else Wrote }

  /** Number of reads before the first that brings no data: the extent of the stream. */
  function DataReads(script: seq<Read>): (n: nat)
    ensures n <= |script|
    ensures forall i :: 0 <= i < n ==> script[i].Data?
    ensures !ReadAt(script, n).Data?
  {
    if script == [] || !script[0].Data? then 0 else 1 + DataReads(script[1..])
  }

  /** The bytes of the first n reads. */
  function Stream(script: seq<Read>, n: nat): Bytes
    requires n <= DataReads(script)
  {
    if n == 0 then [] else Stream(script, n - 1) + script[n - 1].bytes
  }

  lemma {:induction false} StreamPrefix(script: seq<Read>, m: nat, n: nat)
    requires m <= n <= DataReads(script)
    ensures Stream(script, m) <= Stream(script, n)
  {
    if m == n {
    } else {
      StreamPrefix(script, m, n - 1);
    }
  }

  /** What reaches the wire when `data` is written with the given outcome. */
  function OnWire(data: Bytes, w: Write): Bytes {
    match w case Wrote => data case Broke(part) => if part < |data| then data[..part] else data
  }

  /** The head loop: read until the head parses, turns out malformed, or the client stops.
      `n` data reads went into `head`, which is exactly the stream so far. */
  method CaptureHead(client: seq<Read>, parse: Bytes -> Parse) returns (head: Bytes, n: nat, failed: bool)
    requires Readable(client)
    ensures n <= DataReads(client) && head == Stream(client, n)
    ensures failed <==> n == DataReads(client) && ReadAt(client, n) == ReadError && (n > 0 ==> parse(head) == Partial)
    ensures !failed ==> n == DataReads(client) || parse(head) != Partial
    ensures forall k :: 0 < k < n ==> parse(Stream(client, k)) == Partial
  {
    head, n, failed := [], 0, false;
    while true
      invariant n <= DataReads(client) && head == Stream(client, n) && !failed
      invariant forall k :: 0 < k <= n ==> parse(Stream(client, k)) == Partial
      decreases DataReads(client) - n
    {
      match ReadAt(client, n) {
        case ReadError => failed := true; return;
        case Eof => return;
        case Data(bytes) =>
          assert n < DataReads(client);
          head := head + bytes;
          n := n + 1;
          if parse(head) != Partial { return; }
      }
    }
  }

  /** One direction of the splice, from read `start` on: relays until end of file, a read
      error or a failed write. `total` counts every byte read, relayed or not. */
  method Splice(script: seq<Read>, start: nat, writes: seq<Write>) returns (total: nat, wire: Bytes, n: nat)
    requires Readable(script) && start <= DataReads(script)
    ensures start <= n <= DataReads(script)
    ensures total == |Stream(script, n)| - |Stream(script, start)|
    ensures Stream(script, start) + wire <= Stream(script, n)
    ensures (forall i :: WriteAt(writes, i) == Wrote) ==>
              n == DataReads(script) && Stream(script, start) + wire == Stream(script, n)
    ensures n < DataReads(script) ==> n > start && WriteAt(writes, n - start - 1).Broke?
  {
    total, wire, n := 0, [], start;
    while true
      invariant start <= n <= DataReads(script)
      invariant total == |Stream(script, n)| - |Stream(script, start)|
      invariant Stream(script, start) + wire == Stream(script, n)
      decreases DataReads(script) - n
    {
      match ReadAt(script, n) {
        case Eof => return;
        case ReadError => return;
        case Data(bytes) =>
          assert n < DataReads(script);
          total := total + |bytes|;
          var outcome := WriteAt(writes, n - start);
          n := n + 1;
          assert Stream(script, n) == Stream(script, start) + (wire + bytes);
          assert wire + OnWire(bytes, outcome) <= wire + bytes;
          wire := wire + OnWire(bytes, outcome);
          if outcome.Broke? { return; }
      }
    }
  }

  datatype Transfer = Transfer(bytesIn: nat, bytesOut: nat, upstreamWire: Bytes, clientWire: Bytes, ok: bool)

  /** The whole relay. The two directions share neither reader nor writer, so running one
      after the other gives what any interleaving gives. */
  method Forward(client: seq<Read>, upstream: seq<Read>, parse: Bytes -> Parse,
                 headWrite: Write, upWrites: seq<Write>, downWrites: seq<Write>)
    returns (t: Transfer, ghost headReads: nat, ghost clientReads: nat, ghost upstreamReads: nat)
    requires Readable(client) && Readable(upstream)
    ensures headReads <= clientReads <= DataReads(client) && upstreamReads <= DataReads(upstream)
    ensures t.upstreamWire <= Stream(client, DataReads(client))
    ensures t.clientWire <= Stream(upstream, DataReads(upstream))
    ensures t.ok <==> headWrite == Wrote && !(headReads == DataReads(client) && ReadAt(client, headReads) == ReadError
                                              && (headReads > 0 ==> parse(Stream(client, headReads)) == Partial))
    ensures t.ok ==> t.bytesIn + t.bytesOut == |Stream(client, clientReads)| + |Stream(upstream, upstreamReads)|
    ensures t.ok ==> t.bytesIn == |Stream(client, clientReads)| - |Stream(client, headReads)|
    ensures ReadAt(client, DataReads(client)) == Eof && headWrite == Wrote
            && (forall i :: WriteAt(upWrites, i) == Wrote)
            ==> t.ok && t.upstreamWire == Stream(client, DataReads(client)) && clientReads == DataReads(client)
    ensures t.ok && (forall i :: WriteAt(downWrites, i) == Wrote) ==>
              t.clientWire == Stream(upstream, DataReads(upstream)) && upstreamReads == DataReads(upstream)
  {
    var head, start, failed := CaptureHead(client, parse);
    headReads, clientReads, upstreamReads := start, start, 0;
    if failed {
      return Transfer(0, 0, [], [], false), headReads, clientReads, upstreamReads;
    }
    StreamPrefix(client, start, DataReads(client));
    var sent := OnWire(head, headWrite);
    assert sent <= head;
    if headWrite.Broke? {
      return Transfer(0, 0, sent, [], false), headReads, clientReads, upstreamReads;
    }
    var up, upWire, n := Splice(client, start, upWrites);
    var down, downWire, m := Splice(upstream, 0, downWrites);
    StreamPrefix(client, n, DataReads(client));
    StreamPrefix(upstream, m, DataReads(upstream));
    clientReads, upstreamReads := n, m;
    assert Stream(upstream, 0) + downWire == downWire;
    // The pair comes back as (client to upstream, upstream to client) and is bound as (in, out).
    t := Transfer(up, |head| + down, sent + upWire, downWire, true);
  }
}

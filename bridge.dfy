/** The bridge between the local network stack and the Wisp session: the
    idle-timeout adapter wrapped around every UDP stream, the NAT table that
    maps a `(source, destination)` pair to its stream, and the rule for
    opening a stream per accepted TCP connection. Time is an explicit clock
    reading in milliseconds; the tasks that drive these steps are not
    modelled, each step is one method call. */
module Bridge {
  import opened Wrappers
  import opened BoundedInts
  import opened Net
  import opened WispPacket

  /** A UDP stream times out after thirty seconds without activity. */
  const IDLE_TIMEOUT_MS: nat := 30000

  datatype IoError = TimedOut | Broken

  datatype Poll<T> = Ready(value: T) | Pending

  type Datagram = seq<uint8>

  // ---------------------------------------------------------------------
  // TimeoutStreamSink.

  /** A mux stream together with a timer. Reading or sending re-arms the
      timer; once it fires the read side reports end-of-stream and the write
      side reports `TimedOut`. The wrapped stream is represented by what it
      holds: items delivered by the server and not yet read, whether the
      server ended it, the items accepted for sending and whether the
      sending side has failed. */
  class TimeoutStreamSink {
    const stream: nat
    const duration: nat
    var deadline: int
    /** When the timer was last armed. */
    ghost var armedAt: int

    var inbox: seq<Result<Datagram, IoError>>
    var inboxEnded: bool
    var outbox: seq<Datagram>
    var outboxBroken: bool
    var flushed: nat
    var closed: bool

    /** The timer always fires one idle period after it was last armed. */
    ghost predicate Valid()
      reads this
    {
      duration == IDLE_TIMEOUT_MS && deadline == armedAt + duration && flushed <= |outbox|
    }

    /** A tokio timer is ready once its deadline is reached. */
    predicate Expired(now: int)
      reads this
    {
      now >= deadline
    }

    constructor (now: int, stream: nat)
      ensures Valid()
      ensures this.stream == stream && duration == IDLE_TIMEOUT_MS && deadline == now + IDLE_TIMEOUT_MS
      ensures inbox == [] && !inboxEnded && outbox == [] && !outboxBroken && flushed == 0 && !closed
    {
      this.stream := stream;
      duration := IDLE_TIMEOUT_MS;
      deadline := now + IDLE_TIMEOUT_MS;
      armedAt := now;
      inbox := [];
      inboxEnded := false;
      outbox := [];
      outboxBroken := false;
      flushed := 0;
      closed := false;
    }

    /** `poll_next`: end-of-stream once the timer has fired, without looking
        at the wrapped stream; otherwise re-arm, then take the next item. */
    method PollNext(now: int) returns (r: Poll<Option<Result<Datagram, IoError>>>)
      requires Valid()
      modifies this
      ensures Valid()
      ensures old(Expired(now)) ==> r == Ready(None) && unchanged(this)
      ensures !old(Expired(now)) ==>
                && deadline == now + duration && armedAt == now
                && outbox == old(outbox) && outboxBroken == old(outboxBroken)
                && flushed == old(flushed) && closed == old(closed) && inboxEnded == old(inboxEnded)
                && (old(inbox) != [] ==> r == Ready(Some(old(inbox)[0])) && inbox == old(inbox)[1..])
                && (old(inbox) == [] && inboxEnded ==> r == Ready(None) && inbox == [])
                && (old(inbox) == [] && !inboxEnded ==> r == Pending && inbox == [])
    {
      if Expired(now) {
        return Ready(None);
      }
      deadline := now + duration;
      armedAt := now;
      if inbox != [] {
        r := Ready(Some(inbox[0]));
        inbox := inbox[1..];
      } else if inboxEnded {
        r := Ready(None);
      } else {
        r := Pending;
      }
    }

    /** `poll_ready`: `TimedOut` once the timer has fired, otherwise the
        wrapped sink's readiness. The timer is not re-armed. */
    method PollReady(now: int) returns (r: Result<(), IoError>)
      ensures r == Err(TimedOut) <==> Expired(now)
      ensures r == Err(Broken) <==> !Expired(now) && outboxBroken
      ensures r.Ok? <==> !Expired(now) && !outboxBroken
    {
      if Expired(now) {
        return Err(TimedOut);
      }
      r := if outboxBroken then Err(Broken) else Ok(());
    }

    /** `start_send`: re-arm, then hand the item to the wrapped sink. */
    method StartSend(now: int, item: Datagram) returns (r: Result<(), IoError>)
      requires Valid()
      modifies this
      ensures Valid()
      ensures deadline == now + duration && armedAt == now
      ensures r.Ok? <==> !old(outboxBroken)
      ensures r.Err? ==> r.error == Broken
      ensures outbox == (if r.Ok? then old(outbox) + [item] else old(outbox))
      ensures inbox == old(inbox) && inboxEnded == old(inboxEnded) && outboxBroken == old(outboxBroken)
      ensures flushed == old(flushed) && closed == old(closed)
    {
      deadline := now + duration;
      armedAt := now;
      if outboxBroken {
        return Err(Broken);
      }
      outbox := outbox + [item];
      r := Ok(());
    }

    /** `poll_flush`: delegates; the timer is left alone. */
    method PollFlush() returns (r: Result<(), IoError>)
      requires Valid()
      modifies this
      ensures Valid()
      ensures r.Ok? <==> !outboxBroken
      ensures r.Err? ==> r.error == Broken
      ensures flushed == (if r.Ok? then |outbox| else old(flushed))
      ensures deadline == old(deadline) && armedAt == old(armedAt)
      ensures inbox == old(inbox) && inboxEnded == old(inboxEnded)
      ensures outbox == old(outbox) && outboxBroken == old(outboxBroken) && closed == old(closed)
    {
      if outboxBroken {
        return Err(Broken);
      }
      flushed := |outbox|;
      r := Ok(());
    }

    /** `poll_close`: flushes and closes the wrapped sink; the timer is
        left alone. */
    method PollClose() returns (r: Result<(), IoError>)
      requires Valid()
      modifies this
      ensures Valid()
      ensures r.Ok? <==> !outboxBroken
      ensures r.Ok? ==> closed && flushed == |outbox|
      ensures r.Err? ==> r.error == Broken && unchanged(this)
      ensures deadline == old(deadline) && armedAt == old(armedAt)
      ensures inbox == old(inbox) && inboxEnded == old(inboxEnded)
      ensures outbox == old(outbox) && outboxBroken == old(outboxBroken)
    {
      if outboxBroken {
        return Err(Broken);
      }
      flushed := |outbox|;
      closed := true;
      r := Ok(());
    }

    /** `SinkExt::send`: ready, start, flush. */
    method Send(now: int, item: Datagram) returns (r: Result<(), IoError>)
      requires Valid()
      modifies this
      ensures Valid()
      ensures old(Expired(now)) ==> r == Err(TimedOut) && unchanged(this)
      ensures !old(Expired(now)) && old(outboxBroken) ==> r == Err(Broken) && unchanged(this)
      ensures !old(Expired(now)) && !old(outboxBroken) ==>
                && r.Ok?
                && outbox == old(outbox) + [item] && flushed == |outbox|
                && deadline == now + duration && armedAt == now
                && inbox == old(inbox) && inboxEnded == old(inboxEnded)
                && !outboxBroken && closed == old(closed)
    {
      r := PollReady(now);
      if r.Err? {
        return;
      }
      r := StartSend(now, item);
      if r.Err? {
        return;
      }
      r := PollFlush();
    }

    /** The server delivers an item on the stream. */
    method Deliver(item: Result<Datagram, IoError>)
      requires Valid()
      modifies this
      ensures Valid()
      ensures inbox == old(inbox) + [item]
      ensures deadline == old(deadline) && armedAt == old(armedAt) && inboxEnded == old(inboxEnded)
      ensures outbox == old(outbox) && outboxBroken == old(outboxBroken) && flushed == old(flushed) && closed == old(closed)
    {
      inbox := inbox + [item];
    }

    /** The server ends the stream. */
    method EndInbound()
      requires Valid()
      modifies this
      ensures Valid()
      ensures inboxEnded
      ensures deadline == old(deadline) && armedAt == old(armedAt) && inbox == old(inbox)
      ensures outbox == old(outbox) && outboxBroken == old(outboxBroken) && flushed == old(flushed) && closed == old(closed)
    {
      inboxEnded := true;
    }

    /** The sending side of the stream fails. */
    method BreakOutbound()
      requires Valid()
      modifies this
      ensures Valid()
      ensures outboxBroken
      ensures deadline == old(deadline) && armedAt == old(armedAt) && inbox == old(inbox) && inboxEnded == old(inboxEnded)
      ensures outbox == old(outbox) && flushed == old(flushed) && closed == old(closed)
    {
      outboxBroken := true;
    }
  }

  // ---------------------------------------------------------------------
  // The NAT table.

  /** A UDP flow is known by its local source and remote destination. */
  datatype FlowKey = FlowKey(src: SocketAddr, dest: SocketAddr)

  /** A `client_new_stream` call: the stream type and the destination. */
  datatype StreamRequest = StreamRequest(streamType: StreamType, host: IpAddr, port: uint16)

  /** A datagram written back to the local stack, from the remote end to
      the local source. */
  datatype Reply = Reply(payload: Datagram, from: SocketAddr, to: SocketAddr)

  datatype DispatchOutcome = Sent | Evicted(err: IoError) | Opened | OpenFailed

  datatype TcpOutcome = Forwarding(stream: nat) | TaskPanicked

  class UdpFlows {
    var flows: map<FlowKey, TimeoutStreamSink>
    var requests: seq<StreamRequest>
    var replies: seq<Reply>

    /** Every sink in the table keeps its timer invariant. */
    ghost predicate Valid()
      reads this, flows.Values
    {
      forall k :: k in flows ==> flows[k].Valid()
    }

    constructor ()
      ensures Valid()
      ensures flows == map[] && requests == [] && replies == []
    {
      flows := map[];
      requests := [];
      replies := [];
    }

    /** One datagram from the local stack, as the accept loop handles it:
        a known flow sends through its sink and is evicted on error; an
        unknown flow opens a UDP stream to the destination and, on success,
        is entered in the table. The datagram that opened the flow is not
        sent. */
    method Dispatch(now: int, pkt: Datagram, src: SocketAddr, dest: SocketAddr, open: Option<nat>)
      returns (r: DispatchOutcome)
      requires Valid()
      modifies this, if FlowKey(src, dest) in flows then {flows[FlowKey(src, dest)]} else {}
      ensures Valid()
      ensures replies == old(replies)
      ensures FlowKey(src, dest) in old(flows) ==>
                var sink := old(flows)[FlowKey(src, dest)];
                && requests == old(requests)
                && (r == Sent <==> !old(sink.Expired(now)) && !old(sink.outboxBroken))
                && (r == Sent ==>
                      && flows == old(flows)
                      && sink.outbox == old(sink.outbox) + [pkt] && sink.flushed == |sink.outbox|
                      && sink.deadline == now + IDLE_TIMEOUT_MS
                      && sink.inbox == old(sink.inbox) && sink.inboxEnded == old(sink.inboxEnded)
                      && !sink.outboxBroken && sink.closed == old(sink.closed))
                && (r != Sent ==> r.Evicted? && flows == old(flows) - {FlowKey(src, dest)} && unchanged(sink))
                && (r == Evicted(TimedOut) <==> old(sink.Expired(now)))
      ensures FlowKey(src, dest) !in old(flows) ==>
                && requests == old(requests) + [StreamRequest(Udp, dest.ip, dest.port)]
                && (open.None? ==> r == OpenFailed && flows == old(flows))
                && (open.Some? ==>
                      && r == Opened && FlowKey(src, dest) in flows
                      && fresh(flows[FlowKey(src, dest)])
                      && flows == old(flows)[FlowKey(src, dest) := flows[FlowKey(src, dest)]]
                      && flows[FlowKey(src, dest)].stream == open.value
                      && flows[FlowKey(src, dest)].deadline == now + IDLE_TIMEOUT_MS
                      && flows[FlowKey(src, dest)].outbox == [])
    {
      var key := FlowKey(src, dest);
      if key in flows {
        var sink := flows[key];
        var sent := sink.Send(now, pkt);
        if sent.Err? {
          flows := flows - {key};
          return Evicted(sent.error);
        }
        return Sent;
      }
      requests := requests + [StreamRequest(Udp, dest.ip, dest.port)];
      if open.None? {
        return OpenFailed;
      }
      var sink := new TimeoutStreamSink(now, open.value);
      flows := flows[key := sink];
      r := Opened;
    }

    /** `Dispatch` with the opening datagram sent through the new sink. */
    method DispatchForwardingFirst(now: int, pkt: Datagram, src: SocketAddr, dest: SocketAddr, open: Option<nat>)
      returns (r: DispatchOutcome)
      requires Valid()
      modifies this, if FlowKey(src, dest) in flows then {flows[FlowKey(src, dest)]} else {}
      ensures Valid()
      ensures replies == old(replies)
      ensures FlowKey(src, dest) in old(flows) ==>
                var sink := old(flows)[FlowKey(src, dest)];
                && requests == old(requests)
                && (r == Sent <==> !old(sink.Expired(now)) && !old(sink.outboxBroken))
                && (r == Sent ==>
                      && flows == old(flows)
                      && sink.outbox == old(sink.outbox) + [pkt] && sink.flushed == |sink.outbox|
                      && sink.deadline == now + IDLE_TIMEOUT_MS
                      && sink.inbox == old(sink.inbox) && sink.inboxEnded == old(sink.inboxEnded)
                      && !sink.outboxBroken && sink.closed == old(sink.closed))
                && (r != Sent ==> r.Evicted? && flows == old(flows) - {FlowKey(src, dest)} && unchanged(sink))
                && (r == Evicted(TimedOut) <==> old(sink.Expired(now)))
      ensures FlowKey(src, dest) !in old(flows) ==>
                && requests == old(requests) + [StreamRequest(Udp, dest.ip, dest.port)]
                && (open.None? ==> r == OpenFailed && flows == old(flows))
                && (open.Some? ==>
                      && r == Opened && FlowKey(src, dest) in flows
                      && fresh(flows[FlowKey(src, dest)])
                      && flows == old(flows)[FlowKey(src, dest) := flows[FlowKey(src, dest)]]
                      && flows[FlowKey(src, dest)].stream == open.value
                      && flows[FlowKey(src, dest)].deadline == now + IDLE_TIMEOUT_MS
                      && flows[FlowKey(src, dest)].outbox == [pkt])
    {
      var key := FlowKey(src, dest);
      if key in flows {
        var sink := flows[key];
        var sent := sink.Send(now, pkt);
        if sent.Err? {
          flows := flows - {key};
          return Evicted(sent.error);
        }
        return Sent;
      }
      requests := requests + [StreamRequest(Udp, dest.ip, dest.port)];
      if open.None? {
        return OpenFailed;
      }
      var sink := new TimeoutStreamSink(now, open.value);
      var sent := sink.Send(now, pkt);
      flows := flows[key := sink];
      r := Opened;
    }

    /** One turn of a flow's reader task: a datagram from the server is
        written back with source and destination swapped; end-of-stream or
        a read error ends the task, which then removes the flow's key,
        whichever sink the key maps to by then. */
    method ReaderStep(now: int, key: FlowKey, sink: TimeoutStreamSink) returns (done: bool)
      requires Valid() && sink.Valid()
      modifies this, sink
      ensures Valid() && sink.Valid()
      ensures requests == old(requests)
      // A fired timer ends the reader without touching the sink.
      ensures old(sink.Expired(now)) ==> done && replies == old(replies) && unchanged(sink)
      // Otherwise the timer is re-armed and the next item taken.
      ensures !old(sink.Expired(now)) ==>
                && sink.deadline == now + IDLE_TIMEOUT_MS
                && sink.inbox == (if old(sink.inbox) == [] then [] else old(sink.inbox)[1..])
                && sink.inboxEnded == old(sink.inboxEnded)
                && sink.outbox == old(sink.outbox) && sink.outboxBroken == old(sink.outboxBroken)
                && sink.flushed == old(sink.flushed) && sink.closed == old(sink.closed)
      // A datagram is written back from the destination to the source.
      ensures !old(sink.Expired(now)) && old(sink.inbox) != [] && old(sink.inbox)[0].Ok? ==>
                !done && replies == old(replies) + [Reply(old(sink.inbox)[0].value, key.dest, key.src)]
      // A read error ends the reader.
      ensures !old(sink.Expired(now)) && old(sink.inbox) != [] && old(sink.inbox)[0].Err? ==>
                done && replies == old(replies)
      // With nothing to read, the reader ends exactly when the stream has.
      ensures !old(sink.Expired(now)) && old(sink.inbox) == [] ==>
                (done <==> old(sink.inboxEnded)) && replies == old(replies)
      ensures !done ==> flows == old(flows)
      ensures done ==> flows == old(flows) - {key}
    {
      var item := sink.PollNext(now);
      match item {
        case Pending =>
          done := false;
        case Ready(Some(Ok(pkt))) =>
          replies := replies + [Reply(pkt, key.dest, key.src)];
          done := false;
        case Ready(_) =>
          flows := flows - {key};
          done := true;
      }
    }

    /** `ReaderStep` that removes the key only while it still maps to this
        reader's own sink. */
    method ReaderStepOwnEntry(now: int, key: FlowKey, sink: TimeoutStreamSink) returns (done: bool)
      requires Valid() && sink.Valid()
      modifies this, sink
      ensures Valid() && sink.Valid()
      ensures requests == old(requests)
      // A fired timer ends the reader without touching the sink.
      ensures old(sink.Expired(now)) ==> done && replies == old(replies) && unchanged(sink)
      // Otherwise the timer is re-armed and the next item taken.
      ensures !old(sink.Expired(now)) ==>
                && sink.deadline == now + IDLE_TIMEOUT_MS
                && sink.inbox == (if old(sink.inbox) == [] then [] else old(sink.inbox)[1..])
                && sink.inboxEnded == old(sink.inboxEnded)
                && sink.outbox == old(sink.outbox) && sink.outboxBroken == old(sink.outboxBroken)
                && sink.flushed == old(sink.flushed) && sink.closed == old(sink.closed)
      // A datagram is written back from the destination to the source.
      ensures !old(sink.Expired(now)) && old(sink.inbox) != [] && old(sink.inbox)[0].Ok? ==>
                !done && replies == old(replies) + [Reply(old(sink.inbox)[0].value, key.dest, key.src)]
      // A read error ends the reader.
      ensures !old(sink.Expired(now)) && old(sink.inbox) != [] && old(sink.inbox)[0].Err? ==>
                done && replies == old(replies)
      // With nothing to read, the reader ends exactly when the stream has.
      ensures !old(sink.Expired(now)) && old(sink.inbox) == [] ==>
                (done <==> old(sink.inboxEnded)) && replies == old(replies)
      ensures !done ==> flows == old(flows)
      ensures done ==> flows == if key in old(flows) && old(flows)[key] == sink then old(flows) - {key} else old(flows)
    {
      var item := sink.PollNext(now);
      match item {
        case Pending =>
          done := false;
        case Ready(Some(Ok(pkt))) =>
          replies := replies + [Reply(pkt, key.dest, key.src)];
          done := false;
        case Ready(_) =>
          if key in flows && flows[key] == sink {
            flows := flows - {key};
          }
          done := true;
      }
    }

    /** An accepted TCP connection opens a TCP stream to its destination.
        A failed open ends only that connection's task; copy errors are
        only logged. The UDP table is not touched. */
    method AcceptTcp(dest: SocketAddr, open: Option<nat>) returns (o: TcpOutcome)
      modifies this
      ensures requests == old(requests) + [StreamRequest(Tcp, dest.ip, dest.port)]
      ensures flows == old(flows) && replies == old(replies)
      ensures o.Forwarding? <==> open.Some?
      ensures o.Forwarding? ==> o.stream == open.value
    {
      requests := requests + [StreamRequest(Tcp, dest.ip, dest.port)];
      o := if open.Some? then Forwarding(open.value) else TaskPanicked;
    }
  }

  // ---------------------------------------------------------------------
  // Two flows, as the table handles them step by step.

  const LocalSource := SocketAddr(V4([10, 0, 10, 2]), 40000)
  const DnsServer := SocketAddr(V4([1, 1, 1, 1]), 53)

  /** The first datagram of a new flow opens the stream and is then dropped:
      nothing has been handed to the stream after the open. */
  method FirstDatagramDropped() returns (forwarded: seq<Datagram>)
    ensures forwarded == []
  {
    var table := new UdpFlows();
    var r := table.Dispatch(0, [7], LocalSource, DnsServer, Some(1));
    forwarded := table.flows[FlowKey(LocalSource, DnsServer)].outbox;
  }

  /** With the opening datagram sent through the new sink, it reaches the
      stream. */
  method FirstDatagramForwarded() returns (forwarded: seq<Datagram>)
    ensures forwarded == [[7]]
  {
    var table := new UdpFlows();
    var r := table.DispatchForwardingFirst(0, [7], LocalSource, DnsServer, Some(1));
    forwarded := table.flows[FlowKey(LocalSource, DnsServer)].outbox;
  }

  /** A flow times out on the sending side and is evicted; the next datagram
      opens a second stream under the same key; then the first flow's reader
      sees its timer fired and removes the key, which belonged to the
      second stream: that stream is no longer reachable from the table. */
  method ReaderEvictsSuccessor() returns (successorMapped: bool)
    ensures !successorMapped
  {
    var key := FlowKey(LocalSource, DnsServer);
    var table := new UdpFlows();
    var r1 := table.Dispatch(0, [1], LocalSource, DnsServer, Some(1));
    var first := table.flows[key];
    var r2 := table.Dispatch(IDLE_TIMEOUT_MS, [2], LocalSource, DnsServer, None);
    var r3 := table.Dispatch(IDLE_TIMEOUT_MS + 1, [3], LocalSource, DnsServer, Some(2));
    var done := table.ReaderStep(IDLE_TIMEOUT_MS + 2, key, first);
    successorMapped := key in table.flows;
  }

  /** The same steps with a reader that only removes its own entry leave
      the second stream in the table. */
  method ReaderKeepsSuccessor() returns (successorMapped: bool)
    ensures successorMapped
  {
    var key := FlowKey(LocalSource, DnsServer);
    var table := new UdpFlows();
    var r1 := table.DispatchForwardingFirst(0, [1], LocalSource, DnsServer, Some(1));
    var first := table.flows[key];
    var r2 := table.DispatchForwardingFirst(IDLE_TIMEOUT_MS, [2], LocalSource, DnsServer, None);
    var r3 := table.DispatchForwardingFirst(IDLE_TIMEOUT_MS + 1, [3], LocalSource, DnsServer, Some(2));
    var second := table.flows[key];
    var done := table.ReaderStepOwnEntry(IDLE_TIMEOUT_MS + 2, key, first);
    successorMapped := key in table.flows && table.flows[key] == second;
  }
}

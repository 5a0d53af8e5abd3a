/** The relay worker: one per accepted client connection. It reads the
    client's first packet, sniffs the server name from it, connects through
    the SOCKS5 proxy, forwards the first packet, and then relays in both
    directions, reporting lifecycle, traffic and heartbeat events to the
    monitor. Sockets are scripted `Stream`s, the channel to the monitor is
    an event log, and the wall clock is a sequence of readings, one per
    turn of the relay loop. */
module Forward {
  import opened Common
  import opened Streams
  import Sni
  import opened Socks5
  import opened Monitor

  /** Size of the buffer the first client packet is read into. */
  const FirstReadSize: nat := 8192
  /** Size of the buffer each drain-copy reads into. */
  const DrainBufferSize: nat := 4096
  /** Seconds between two heartbeats of a relaying worker. */
  const HeartbeatInterval: nat := 5

  // ---------------------------------------------------------------------------
  // Drain-copy: `forward_all_to_proxy` and `receive_all_to_client`.

  /** A drain-copy fails when the side it reads from closes. */
  datatype DrainError = PeerClosed

  /** Reads chunks from `src` and writes each to `dst` until a read times
      out, summing their lengths; a zero-length read is an error. Everything
      that was pending on `src` reaches `dst`, in order, whichever way the
      drain ends. `forward_all_to_proxy` is `DrainCopy(client, proxy)` and
      `receive_all_to_client` is `DrainCopy(proxy, client)`. */
  method DrainCopy(src: Stream, dst: Stream) returns (r: Result<nat, DrainError>)
    modifies src`inbox, dst`sent
    ensures dst.sent == old(dst.sent) + PendingBytes(old(src.inbox))
    ensures src.inbox == AfterStop(old(src.inbox))
    ensures r.Err? <==> ClosesFirst(old(src.inbox))
    ensures r.Ok? ==> r.value == |PendingBytes(old(src.inbox))|
  {
    ghost var q0 := src.inbox;
    ghost var sent0 := dst.sent;
    var total: nat := 0;
    while true
      invariant sent0 + PendingBytes(q0) == dst.sent + PendingBytes(src.inbox)
      invariant |dst.sent| == |sent0| + total
      invariant ClosesFirst(q0) == ClosesFirst(src.inbox)
      invariant AfterStop(q0) == AfterStop(src.inbox)
      decreases Backlog(src.inbox)
    {
      ghost var q := src.inbox;
      NextReadStep(q, DrainBufferSize);
      var o := src.Read(DrainBufferSize);
      if o.Timeout? {
        return Ok(total);
      }
      if o.bytes == [] {
        return Err(PeerClosed);
      }
      dst.Write(o.bytes);
      total := total + |o.bytes|;
    }
  }

  /** The payloads of a run of reads, joined. */
  function Concat(chunks: seq<seq<Byte>>): seq<Byte>
  {
    if chunks == [] then [] else chunks[0] + Concat(chunks[1..])
  }

  /** A script that delivers each chunk in one read. */
  function Deliveries(chunks: seq<seq<Byte>>): (q: seq<ReadOutcome>)
    ensures |q| == |chunks|
  {
    if chunks == [] then [] else [Data(chunks[0])] + Deliveries(chunks[1..])
  }

  /** Chunks that arrive before a timeout are all pending, joined in the
      order they arrive; a close in place of the timeout makes the drain
      fail; either way the drain stops right after it. */
  lemma {:induction false} DrainOfChunks(chunks: seq<seq<Byte>>, stop: ReadOutcome, rest: seq<ReadOutcome>)
    requires forall k :: 0 <= k < |chunks| ==> chunks[k] != []
    requires stop == Timeout || stop == Data([])
    ensures PendingBytes(Deliveries(chunks) + [stop] + rest) == Concat(chunks)
    ensures ClosesFirst(Deliveries(chunks) + [stop] + rest) <==> stop == Data([])
    ensures AfterStop(Deliveries(chunks) + [stop] + rest) == rest
  {
    var q := Deliveries(chunks) + [stop] + rest;
    if chunks == [] {
      assert q == [stop] + rest;
      assert q[1..] == rest;
    } else {
      DrainOfChunks(chunks[1..], stop, rest);
      assert q[0] == Data(chunks[0]);
      assert q[1..] == Deliveries(chunks[1..]) + [stop] + rest;
    }
  }

  // ---------------------------------------------------------------------------
  // The worker as a function of its inputs.

  /** How a worker ends. Every case but `ClockStopped` is the end of the
      worker thread in the source (a panic, after the events already sent);
      `ClockStopped` means the clock readings given to the model ran out
      while the connection was still relaying. */
  datatype WorkerExit =
    | ClientGone
    | NoServerName
    | ProxyFailed(error: ConnectError)
    | ProxyClosed
    | ClientClosed
    | ClockStopped

  /** What a worker, or a stretch of its relay loop, produces: the events
      sent to the monitor, how it ends, the bytes written to the client and
      to the proxy, and what remains unread on both sockets. */
  datatype Relay = Relay(
    events: seq<MonitorAction>,
    exit: WorkerExit,
    toClient: seq<Byte>,
    toProxy: seq<Byte>,
    clientQ: seq<ReadOutcome>,
    proxyQ: seq<ReadOutcome>)

  /** `r` after a stretch that sent `events` and wrote `toClient` and
      `toProxy`. */
  function Prepend(events: seq<MonitorAction>, toClient: seq<Byte>, toProxy: seq<Byte>, r: Relay): Relay
  {
    r.(events := events + r.events, toClient := toClient + r.toClient, toProxy := toProxy + r.toProxy)
  }

  /** The traffic event for `n` bytes, if any: lengths are reported in
      kilobytes, and nothing is reported for an empty drain. */
  function Traffic(forward: bool, id: nat, n: nat): seq<MonitorAction>
  {
    if n == 0 then []
    else if forward then [ForwardTraffic(id, n as real / 1000.0)]
    else [ReceiveTraffic(id, n as real / 1000.0)]
  }

  /** The events of one complete turn of the relay loop. */
  function TurnEvents(id: nat, received: nat, forwarded: nat, now: nat, last: nat): seq<MonitorAction>
  {
    Traffic(false, id, received) + Traffic(true, id, forwarded)
      + (if now >= last + HeartbeatInterval then [Heartbeat(id, now)] else [])
  }

  /** The time of the last heartbeat after a turn at `now`. */
  function NextBeat(now: nat, last: nat): nat
  {
    if now >= last + HeartbeatInterval then now else last
  }

  /** The relay loop, one clock reading per turn: drain the proxy into the
      client and report it, drain the client into the proxy and report it,
      then send a heartbeat if at least five seconds have passed since the
      last one (`last` starts at 0). A close on either side ends the worker
      before anything of that drain is reported. */
  function RelayLoop(id: nat, clientQ: seq<ReadOutcome>, proxyQ: seq<ReadOutcome>, clock: seq<nat>, last: nat): (r: Relay)
    ensures Relayed(r.exit)
    ensures |r.events| <= 3 * |clock|
    decreases |clock|
  {
    if clock == [] then Relay([], ClockStopped, [], [], clientQ, proxyQ)
    else if ClosesFirst(proxyQ) then Relay([], ProxyClosed, PendingBytes(proxyQ), [], clientQ, AfterStop(proxyQ))
    else if ClosesFirst(clientQ) then
      Relay(Traffic(false, id, |PendingBytes(proxyQ)|), ClientClosed, PendingBytes(proxyQ), PendingBytes(clientQ),
            AfterStop(clientQ), AfterStop(proxyQ))
    else
      Prepend(TurnEvents(id, |PendingBytes(proxyQ)|, |PendingBytes(clientQ)|, clock[0], last),
              PendingBytes(proxyQ), PendingBytes(clientQ),
              RelayLoop(id, AfterStop(clientQ), AfterStop(proxyQ), clock[1..], NextBeat(clock[0], last)))
  }

  /** The first packet, if the first read brought any bytes. */
  function FirstPacket(clientQ: seq<ReadOutcome>): (p: Option<seq<Byte>>)
    ensures p.Some? ==> 0 < |p.value| <= FirstReadSize
  {
    var o := NextRead(clientQ, FirstReadSize).0;
    if o.Data? && o.bytes != [] then Some(o.bytes) else None
  }

  /** The receive buffer after the first read: the packet, then the zeros it
      was initialised with. Both sniffers are given the whole buffer. */
  function FirstBuffer(packet: seq<Byte>): (buf: seq<Byte>)
    requires |packet| <= FirstReadSize
    ensures |buf| == FirstReadSize && buf[..|packet|] == packet
    ensures forall k :: |packet| <= k < FirstReadSize ==> buf[k] == 0
  {
    packet + Zeros(FirstReadSize - |packet|)
  }

  /** The server name: the TLS sniffer on port 443, the HTTP sniffer (given
      as `httpSniff`, `None` for its failure) on any other port. */
  function SniffServerName(port: nat, buffer: seq<Byte>, httpSniff: seq<Byte> -> Option<seq<Byte>>): (r: Option<seq<Byte>>)
    ensures port == 443 ==> (r.Some? <==> Sni.Header(buffer).Ok? && Sni.ParseClientHello(buffer).Ok?)
    ensures port == 443 && r.Some? ==> |r.value| < |buffer|
  {
    if port == 443 then
      match Sni.ParseClientHello(buffer)
      case Ok(name) => Some(name)
      case Err(_) => None
    else httpSniff(buffer)
  }

  /** `handle_conn`: announce the connection, read and sniff the first
      packet, then go through the proxy. */
  function Worker(id: nat, port: nat, clientQ: seq<ReadOutcome>, proxyQ: seq<ReadOutcome>, reachable: bool,
                  httpSniff: seq<Byte> -> Option<seq<Byte>>, clock: seq<nat>): (r: Relay)
    ensures r.events != [] && r.events[0] == ConnInit(id, port)
    ensures FirstPacket(clientQ).None? ==> r.toProxy == []
  {
    var afterFirst := NextRead(clientQ, FirstReadSize).1;
    match FirstPacket(clientQ)
    case None => Relay([ConnInit(id, port)], ClientGone, [], [], afterFirst, proxyQ)
    case Some(packet) =>
      match SniffServerName(port, FirstBuffer(packet), httpSniff)
      case None => Relay([ConnInit(id, port)], NoServerName, [], [], afterFirst, proxyQ)
      case Some(name) =>
        Prepend([ConnInit(id, port)], [], [], Proxied(id, port, name, packet, afterFirst, proxyQ, reachable, clock))
  }

  /** The rest of `handle_conn` once the name is known: connect through the
      proxy (`reachable` says whether its TCP connection succeeds), forward
      the first packet, then relay. Only an unreachable proxy is reported
      with the zero heartbeat; a failed handshake ends the worker inside the
      connector, before that report. */
  function Proxied(id: nat, port: nat, name: seq<Byte>, packet: seq<Byte>,
                   clientQ: seq<ReadOutcome>, proxyQ: seq<ReadOutcome>, reachable: bool, clock: seq<nat>): (r: Relay)
    ensures r.exit.ProxyFailed? ==> r.toClient == []
    ensures r.exit == ProxyFailed(Unreachable) ==> r.toProxy == [] && r.proxyQ == proxyQ
  {
    if !reachable then Relay([Heartbeat(id, 0)], ProxyFailed(Unreachable), [], [], clientQ, proxyQ)
    else
      var h := SocksHandshake(proxyQ, name, port);
      if h.outcome.Some? then Relay([], ProxyFailed(h.outcome.value), [], h.written, clientQ, h.inbox)
      else
        Prepend([ProxyOk(id, name), ForwardTraffic(id, |packet| as real / 1000.0)], [], h.written + packet,
                RelayLoop(id, clientQ, h.inbox, clock, 0))
  }

  lemma AppendAssoc(a: seq<Byte>, b: seq<Byte>, c: seq<Byte>)
    ensures a + b + c == a + (b + c)
  {
  }

  lemma PrependPrepend(e1: seq<MonitorAction>, c1: seq<Byte>, p1: seq<Byte>,
                       e2: seq<MonitorAction>, c2: seq<Byte>, p2: seq<Byte>, r: Relay)
    ensures Prepend(e1, c1, p1, Prepend(e2, c2, p2, r)) == Prepend(e1 + e2, c1 + c2, p1 + p2, r)
  {
    assert e1 + (e2 + r.events) == (e1 + e2) + r.events;
    assert c1 + (c2 + r.toClient) == (c1 + c2) + r.toClient;
    assert p1 + (p2 + r.toProxy) == (p1 + p2) + r.toProxy;
  }

  // ---------------------------------------------------------------------------
  // The worker as the source runs it.

  /** Clock readings never go backwards, so `now - last` never underflows. */
  predicate Monotone(clock: seq<nat>)
  {
    forall j, k :: 0 <= j < k < |clock| ==> clock[j] <= clock[k]
  }

  /** One turn of the relay loop at time `now`, as the source runs it; the
      clock readings of the later turns, `later`, only serve to state the
      turn's place in the whole loop. `stop` is how the worker ends if it
      does in this turn. */
  method RelayTurn(id: nat, client: Stream, proxy: Stream, now: nat, last: nat, ghost later: seq<nat>)
    returns (step: seq<MonitorAction>, stop: Option<WorkerExit>, newLast: nat,
             ghost received: seq<Byte>, ghost forwarded: seq<Byte>)
    requires client != proxy
    requires last <= now
    modifies client`inbox, client`sent, proxy`inbox, proxy`sent
    ensures client.sent == old(client.sent) + received && proxy.sent == old(proxy.sent) + forwarded
    ensures stop.None? ==>
      RelayLoop(id, old(client.inbox), old(proxy.inbox), [now] + later, last)
        == Prepend(step, received, forwarded, RelayLoop(id, client.inbox, proxy.inbox, later, newLast))
    ensures stop.None? ==> newLast <= now
    ensures stop.Some? ==>
      RelayLoop(id, old(client.inbox), old(proxy.inbox), [now] + later, last)
        == Relay(step, stop.value, received, forwarded, client.inbox, proxy.inbox)
  {
    assert ([now] + later)[0] == now && ([now] + later)[1..] == later;
    ghost var cq, pq := client.inbox, proxy.inbox;
    received, forwarded := PendingBytes(pq), [];
    var receiveLength := DrainCopy(proxy, client);
    if receiveLength.Err? {
      return [], Some(ProxyClosed), last, received, forwarded;
    }
    step := Traffic(false, id, receiveLength.value);
    forwarded := PendingBytes(cq);
    var forwardLength := DrainCopy(client, proxy);
    if forwardLength.Err? {
      return step, Some(ClientClosed), last, received, forwarded;
    }
    step := step + Traffic(true, id, forwardLength.value);
    newLast := last;
    if now - last >= HeartbeatInterval {
      step := step + [Heartbeat(id, now)];
      newLast := now;
    }
    stop := None;
  }

  /** The relay loop of `handle_conn`, with its heartbeat timestamp starting
      at 0. */
  method Relaying(id: nat, client: Stream, proxy: Stream, clock: seq<nat>)
    returns (events: seq<MonitorAction>, exit: WorkerExit)
    requires client != proxy
    requires Monotone(clock)
    modifies client, proxy
    ensures var r := RelayLoop(id, old(client.inbox), old(proxy.inbox), clock, 0);
      && events == r.events && exit == r.exit
      && client.sent == old(client.sent) + r.toClient && proxy.sent == old(proxy.sent) + r.toProxy
      && client.inbox == r.clientQ && proxy.inbox == r.proxyQ
  {
    ghost var w := RelayLoop(id, client.inbox, proxy.inbox, clock, 0);
    ghost var clientSent0, proxySent0 := client.sent, proxy.sent;
    ghost var toClient: seq<Byte> := [];
    ghost var toProxy: seq<Byte> := [];
    events := [];
    var last: nat := 0;
    var k := 0;
    while k < |clock|
      invariant 0 <= k <= |clock|
      invariant k < |clock| ==> last <= clock[k]
      invariant client.sent == clientSent0 + toClient && proxy.sent == proxySent0 + toProxy
      invariant w == Prepend(events, toClient, toProxy, RelayLoop(id, client.inbox, proxy.inbox, clock[k..], last))
    {
      assert clock[k..] == [clock[k]] + clock[k + 1..];
      var step, stop, newLast, received, forwarded := RelayTurn(id, client, proxy, clock[k], last, clock[k + 1..]);
      AppendAssoc(clientSent0, toClient, received);
      AppendAssoc(proxySent0, toProxy, forwarded);
      if stop.Some? {
        events, toClient, toProxy := events + step, toClient + received, toProxy + forwarded;
        return events, stop.value;
      }
      PrependPrepend(events, toClient, toProxy, step, received, forwarded,
                     RelayLoop(id, client.inbox, proxy.inbox, clock[k + 1..], newLast));
      events, toClient, toProxy := events + step, toClient + received, toProxy + forwarded;
      last := newLast;
      k := k + 1;
    }
    return events, ClockStopped;
  }

  /** `handle_conn` from the connection to the proxy on. */
  method ConnectAndRelay(id: nat, client: Stream, proxy: Stream, serverPort: nat, config: ProxyConfig,
                         reachable: bool, serverName: seq<Byte>, packet: seq<Byte>, clock: seq<nat>)
    returns (events: seq<MonitorAction>, exit: WorkerExit)
    requires client != proxy
    requires Monotone(clock)
    modifies client, proxy
    ensures var w := Proxied(id, serverPort, serverName, packet, old(client.inbox), old(proxy.inbox), reachable, clock);
      && events == w.events && exit == w.exit
      && client.sent == old(client.sent) + w.toClient && proxy.sent == old(proxy.sent) + w.toProxy
      && client.inbox == w.clientQ && proxy.inbox == w.proxyQ
  {
    ghost var clientQ, proxyQ, proxySent0 := client.inbox, proxy.inbox, proxy.sent;
    ghost var h := SocksHandshake(proxyQ, serverName, serverPort);
    ghost var w := Proxied(id, serverPort, serverName, packet, clientQ, proxyQ, reachable, clock);
    var failure := Connect(config, proxy, reachable, serverName, serverPort);
    if failure == Some(Unreachable) {
      assert !reachable;
      events, exit := [Heartbeat(id, 0)], ProxyFailed(Unreachable);
      assert w == Relay(events, exit, [], [], clientQ, proxyQ);
    } else if failure.Some? {
      assert reachable && failure == h.outcome && proxy.inbox == h.inbox && proxy.sent == proxySent0 + h.written;
      events, exit := [], ProxyFailed(failure.value);
      assert w == Relay(events, exit, [], h.written, clientQ, h.inbox);
    } else {
      assert reachable && h.outcome.None? && proxy.inbox == h.inbox && proxy.sent == proxySent0 + h.written;
      ghost var loop := RelayLoop(id, clientQ, h.inbox, clock, 0);
      assert w == Prepend([ProxyOk(id, serverName), ForwardTraffic(id, |packet| as real / 1000.0)], [],
                          h.written + packet, loop);
      events, exit := ForwardAndRelay(id, client, proxy, serverName, packet, clock);
      AppendAssoc(proxySent0, h.written, packet + loop.toProxy);
    }
  }

  /** Once the proxy has accepted: send the first packet on, report it, and
      relay until one side goes away. */
  method ForwardAndRelay(id: nat, client: Stream, proxy: Stream, serverName: seq<Byte>, packet: seq<Byte>,
                         clock: seq<nat>)
    returns (events: seq<MonitorAction>, exit: WorkerExit)
    requires client != proxy
    requires Monotone(clock)
    modifies client, proxy
    ensures var w := Prepend([ProxyOk(id, serverName), ForwardTraffic(id, |packet| as real / 1000.0)], [], packet,
                             RelayLoop(id, old(client.inbox), old(proxy.inbox), clock, 0));
      && events == w.events && exit == w.exit
      && client.sent == old(client.sent) + w.toClient && proxy.sent == old(proxy.sent) + w.toProxy
      && client.inbox == w.clientQ && proxy.inbox == w.proxyQ
  {
    ghost var loop := RelayLoop(id, client.inbox, proxy.inbox, clock, 0);
    ghost var proxySent0 := proxy.sent;
    proxy.Write(packet);
    var relayed;
    relayed, exit := Relaying(id, client, proxy, clock);
    AppendAssoc(proxySent0, packet, loop.toProxy);
    events := [ProxyOk(id, serverName), ForwardTraffic(id, |packet| as real / 1000.0)] + relayed;
  }

  /** `handle_conn`: announce the connection, read the first packet, sniff
      the server name from it, then go through the proxy. */
  method HandleConn(id: nat, client: Stream, proxy: Stream, serverPort: nat, config: ProxyConfig,
                    reachable: bool, httpSniff: seq<Byte> -> Option<seq<Byte>>, clock: seq<nat>)
    returns (events: seq<MonitorAction>, exit: WorkerExit)
    requires client != proxy
    requires Monotone(clock)
    modifies client, proxy
    ensures var w := Worker(id, serverPort, old(client.inbox), old(proxy.inbox), reachable, httpSniff, clock);
      && events == w.events && exit == w.exit
      && client.sent == old(client.sent) + w.toClient && proxy.sent == old(proxy.sent) + w.toProxy
      && client.inbox == w.clientQ && proxy.inbox == w.proxyQ
  {
    ghost var clientSent0, proxySent0, proxyQ0 := client.sent, proxy.sent, proxy.inbox;
    assert clientSent0 + [] == clientSent0 && proxySent0 + [] == proxySent0;
    events := [ConnInit(id, serverPort)];
    var first := client.Read(FirstReadSize);
    if first.Timeout? || first.bytes == [] {
      return events, ClientGone;
    }
    var msg := FirstBuffer(first.bytes);
    var serverName: seq<Byte>;
    if serverPort == 443 {
      var sniffed := Sni.GetServerName(msg);
      if sniffed.Err? {
        return events, NoServerName;
      }
      serverName := sniffed.value;
    } else {
      var sniffed := httpSniff(msg);
      if sniffed.None? {
        return events, NoServerName;
      }
      serverName := sniffed.value;
    }
    ghost var p := Proxied(id, serverPort, serverName, first.bytes, client.inbox, proxyQ0, reachable, clock);
    assert [] + p.toClient == p.toClient && [] + p.toProxy == p.toProxy;
    var rest;
    rest, exit := ConnectAndRelay(id, client, proxy, serverPort, config, reachable, serverName, first.bytes, clock);
    events := events + rest;
  }

  // ---------------------------------------------------------------------------
  // The events a worker sends.

  /** The worker got through to the proxy and relayed. */
  predicate Relayed(exit: WorkerExit)
  {
    exit.ProxyClosed? || exit.ClientClosed? || exit.ClockStopped?
  }

  /** An event of the relay loop: a non-empty traffic report or a heartbeat
      with a real timestamp, for the worker's own id. */
  predicate RelayEvent(e: MonitorAction, id: nat)
  {
    match e
    case ForwardTraffic(i, length) => i == id && length > 0.0
    case ReceiveTraffic(i, length) => i == id && length > 0.0
    case Heartbeat(i, t) => i == id && t >= HeartbeatInterval
    case _ => false
  }

  predicate RelayEvents(events: seq<MonitorAction>, id: nat)
  {
    forall k :: 0 <= k < |events| ==> RelayEvent(events[k], id)
  }

  lemma {:induction false} RelayEventsConcat(a: seq<MonitorAction>, b: seq<MonitorAction>, id: nat)
    requires RelayEvents(a, id) && RelayEvents(b, id)
    ensures RelayEvents(a + b, id)
  {
    forall k | 0 <= k < |a + b|
      ensures RelayEvent((a + b)[k], id)
    {
      if k < |a| {
        assert (a + b)[k] == a[k];
      } else {
        assert (a + b)[k] == b[k - |a|];
      }
    }
  }

  /** The relay loop only reports non-empty traffic and live heartbeats for
      its own id, and ends only by a close or the end of the clock. */
  lemma {:induction false} RelayLoopEvents(id: nat, clientQ: seq<ReadOutcome>, proxyQ: seq<ReadOutcome>, clock: seq<nat>, last: nat)
    ensures RelayEvents(RelayLoop(id, clientQ, proxyQ, clock, last).events, id)
    ensures Relayed(RelayLoop(id, clientQ, proxyQ, clock, last).exit)
    decreases |clock|
  {
    if clock != [] && !ClosesFirst(proxyQ) && !ClosesFirst(clientQ) {
      var turn := TurnEvents(id, |PendingBytes(proxyQ)|, |PendingBytes(clientQ)|, clock[0], last);
      var rest := RelayLoop(id, AfterStop(clientQ), AfterStop(proxyQ), clock[1..], NextBeat(clock[0], last));
      RelayLoopEvents(id, AfterStop(clientQ), AfterStop(proxyQ), clock[1..], NextBeat(clock[0], last));
      assert RelayEvents(turn, id);
      RelayEventsConcat(turn, rest.events, id);
    }
  }

  /** The events of a worker once its name is known: an unreachable proxy
      gives the zero heartbeat and nothing else, a failed handshake nothing
      at all, and a working tunnel `ProxyOk` with the name, the first
      packet's traffic and then relay events only. */
  lemma ProxiedProtocol(id: nat, port: nat, name: seq<Byte>, packet: seq<Byte>,
                        clientQ: seq<ReadOutcome>, proxyQ: seq<ReadOutcome>, reachable: bool, clock: seq<nat>)
    ensures var p := Proxied(id, port, name, packet, clientQ, proxyQ, reachable, clock);
      && (p.exit.ProxyFailed? || Relayed(p.exit))
      && (p.exit == ProxyFailed(Unreachable) <==> p.events == [Heartbeat(id, 0)])
      && (p.exit == ProxyFailed(Unreachable) <==> Heartbeat(id, 0) in p.events)
      && (p.exit.ProxyFailed? && p.exit != ProxyFailed(Unreachable) ==> p.events == [])
      && (Relayed(p.exit) ==>
            && |p.events| >= 2
            && p.events[0] == ProxyOk(id, name)
            && p.events[1] == ForwardTraffic(id, |packet| as real / 1000.0)
            && RelayEvents(p.events[2..], id))
  {
    if reachable {
      var h := SocksHandshake(proxyQ, name, port);
      if h.outcome.None? {
        var p := Proxied(id, port, name, packet, clientQ, proxyQ, reachable, clock);
        var loop := RelayLoop(id, clientQ, h.inbox, clock, 0);
        RelayLoopEvents(id, clientQ, h.inbox, clock, 0);
        assert p.events == [ProxyOk(id, name), ForwardTraffic(id, |packet| as real / 1000.0)] + loop.events;
        assert p.exit == loop.exit;
        assert p.events[2..] == loop.events;
        forall k | 0 <= k < |p.events|
          ensures p.events[k] != Heartbeat(id, 0)
        {
          if k >= 2 {
            assert p.events[k] == loop.events[k - 2];
            assert RelayEvent(loop.events[k - 2], id);
          }
        }
      }
    }
  }

  /** How a worker ends before relaying: `ConnInit` always comes first; an
      empty first read ends it as a gone client and a failed sniff as a
      missing name, and a failure other than an unreachable proxy sends
      nothing after `ConnInit`. */
  lemma WorkerProtocol(id: nat, port: nat, clientQ: seq<ReadOutcome>, proxyQ: seq<ReadOutcome>, reachable: bool,
                       httpSniff: seq<Byte> -> Option<seq<Byte>>, clock: seq<nat>)
    ensures var w := Worker(id, port, clientQ, proxyQ, reachable, httpSniff, clock);
      && |w.events| >= 1
      && w.events[0] == ConnInit(id, port)
      && (w.exit == ClientGone <==> FirstPacket(clientQ).None?)
      && (w.exit == NoServerName <==>
            FirstPacket(clientQ).Some?
            && SniffServerName(port, FirstBuffer(FirstPacket(clientQ).value), httpSniff).None?)
      && (!Relayed(w.exit) && w.exit != ProxyFailed(Unreachable) ==> w.events == [ConnInit(id, port)])
  {
    WorkerThroughProxy(id, port, clientQ, proxyQ, reachable, httpSniff, clock);
  }

  /** The zero heartbeat, which makes the monitor drop the record at once,
      is sent exactly when the proxy was unreachable, and then it is the only
      event after `ConnInit`. */
  lemma ZeroHeartbeatOnlyWhenUnreachable(id: nat, port: nat, clientQ: seq<ReadOutcome>, proxyQ: seq<ReadOutcome>, reachable: bool,
                       httpSniff: seq<Byte> -> Option<seq<Byte>>, clock: seq<nat>)
    ensures var w := Worker(id, port, clientQ, proxyQ, reachable, httpSniff, clock);
      && (w.exit == ProxyFailed(Unreachable) <==> w.events == [ConnInit(id, port), Heartbeat(id, 0)])
      && (w.exit == ProxyFailed(Unreachable) <==> Heartbeat(id, 0) in w.events)
  {
    WorkerThroughProxy(id, port, clientQ, proxyQ, reachable, httpSniff, clock);
    var w := Worker(id, port, clientQ, proxyQ, reachable, httpSniff, clock);
    if w.events != [ConnInit(id, port)] {
      var packet := FirstPacket(clientQ).value;
      var name := SniffServerName(port, FirstBuffer(packet), httpSniff).value;
      var p := Proxied(id, port, name, packet, NextRead(clientQ, FirstReadSize).1, proxyQ, reachable, clock);
      ProxiedProtocol(id, port, name, packet, NextRead(clientQ, FirstReadSize).1, proxyQ, reachable, clock);
      assert Heartbeat(id, 0) in w.events <==> Heartbeat(id, 0) in p.events;
    }
  }

  /** A worker that got to relaying announced the proxy connection with the
      sniffed name and the first packet's traffic, and sent nothing after
      them but the relay loop's reports and heartbeats. */
  lemma WorkerRelayed(id: nat, port: nat, clientQ: seq<ReadOutcome>, proxyQ: seq<ReadOutcome>, reachable: bool,
                       httpSniff: seq<Byte> -> Option<seq<Byte>>, clock: seq<nat>)
    ensures var w := Worker(id, port, clientQ, proxyQ, reachable, httpSniff, clock);
      Relayed(w.exit) ==>
        && FirstPacket(clientQ).Some?
        && |w.events| >= 3
        && w.events[1].ProxyOk? && w.events[1].id == id
        && SniffServerName(port, FirstBuffer(FirstPacket(clientQ).value), httpSniff) == Some(w.events[1].serverName)
        && w.events[2] == ForwardTraffic(id, |FirstPacket(clientQ).value| as real / 1000.0)
        && RelayEvents(w.events[3..], id)
  {
    WorkerThroughProxy(id, port, clientQ, proxyQ, reachable, httpSniff, clock);
    var w := Worker(id, port, clientQ, proxyQ, reachable, httpSniff, clock);
    if Relayed(w.exit) {
      var packet := FirstPacket(clientQ).value;
      var name := SniffServerName(port, FirstBuffer(packet), httpSniff).value;
      var p := Proxied(id, port, name, packet, NextRead(clientQ, FirstReadSize).1, proxyQ, reachable, clock);
      ProxiedProtocol(id, port, name, packet, NextRead(clientQ, FirstReadSize).1, proxyQ, reachable, clock);
      assert w.events[3..] == p.events[2..];
    }
  }

  /** The three ways a worker can go: no first packet, no name, or on to the
      proxy with the events of `Proxied` after `ConnInit`. */
  lemma WorkerThroughProxy(id: nat, port: nat, clientQ: seq<ReadOutcome>, proxyQ: seq<ReadOutcome>, reachable: bool,
                       httpSniff: seq<Byte> -> Option<seq<Byte>>, clock: seq<nat>)
    ensures var w := Worker(id, port, clientQ, proxyQ, reachable, httpSniff, clock);
      && (FirstPacket(clientQ).None? ==> w.events == [ConnInit(id, port)] && w.exit == ClientGone)
      && (FirstPacket(clientQ).Some?
          && SniffServerName(port, FirstBuffer(FirstPacket(clientQ).value), httpSniff).None? ==>
            w.events == [ConnInit(id, port)] && w.exit == NoServerName)
    ensures FirstPacket(clientQ).Some?
            && SniffServerName(port, FirstBuffer(FirstPacket(clientQ).value), httpSniff).Some? ==>
      var packet := FirstPacket(clientQ).value;
      var name := SniffServerName(port, FirstBuffer(packet), httpSniff).value;
      var p := Proxied(id, port, name, packet, NextRead(clientQ, FirstReadSize).1, proxyQ, reachable, clock);
      var w := Worker(id, port, clientQ, proxyQ, reachable, httpSniff, clock);
      && w.events == [ConnInit(id, port)] + p.events
      && w.exit == p.exit
      && (p.exit.ProxyFailed? || Relayed(p.exit))
      && (p.exit.ProxyFailed? && p.exit != ProxyFailed(Unreachable) ==> p.events == [])
  {
    if FirstPacket(clientQ).Some? {
      var packet := FirstPacket(clientQ).value;
      var name := SniffServerName(port, FirstBuffer(packet), httpSniff);
      if name.Some? {
        ProxiedProtocol(id, port, name.value, packet, NextRead(clientQ, FirstReadSize).1, proxyQ, reachable, clock);
      }
    }
  }


  // ---------------------------------------------------------------------------
  // Heartbeat cadence.

  /** The timestamps of the heartbeats among `events`, in order. */
  function Beats(events: seq<MonitorAction>): seq<nat>
  {
    if events == [] then []
    else (if events[0].Heartbeat? then [events[0].timestamp] else []) + Beats(events[1..])
  }

  /** Each heartbeat comes at least five seconds after the one before it,
      the first at least five seconds after `last`. */
  predicate Spaced(beats: seq<nat>, last: nat)
  {
    && (beats != [] ==> beats[0] >= last + HeartbeatInterval)
    && forall k :: 0 < k < |beats| ==> beats[k] >= beats[k - 1] + HeartbeatInterval
  }

  lemma {:induction false} BeatsConcat(a: seq<MonitorAction>, b: seq<MonitorAction>)
    ensures Beats(a + b) == Beats(a) + Beats(b)
  {
    if a == [] {
      assert a + b == b;
    } else {
      var head: seq<nat> := if a[0].Heartbeat? then [a[0].timestamp] else [];
      assert (a + b)[0] == a[0] && (a + b)[1..] == a[1..] + b;
      assert Beats(a + b) == head + Beats(a[1..] + b);
      BeatsConcat(a[1..], b);
      assert head + (Beats(a[1..]) + Beats(b)) == (head + Beats(a[1..])) + Beats(b);
    }
  }

  /** The heartbeats of one turn: the turn's time when it beats. */
  lemma TurnBeats(id: nat, received: nat, forwarded: nat, now: nat, last: nat)
    ensures Beats(TurnEvents(id, received, forwarded, now, last))
            == if now >= last + HeartbeatInterval then [now] else []
  {
    var traffic := Traffic(false, id, received) + Traffic(true, id, forwarded);
    var beat: seq<MonitorAction> := if now >= last + HeartbeatInterval then [Heartbeat(id, now)] else [];
    BeatsConcat(traffic, beat);
    BeatsConcat(Traffic(false, id, received), Traffic(true, id, forwarded));
    assert Beats(Traffic(false, id, received)) == [];
    assert Beats(Traffic(true, id, forwarded)) == [];
    assert Beats(beat) == if now >= last + HeartbeatInterval then [now] else [] by {
      if beat != [] {
        assert beat[1..] == [];
      }
    }
  }

  lemma SpacedCons(now: nat, b: seq<nat>, last: nat)
    requires now >= last + HeartbeatInterval && Spaced(b, now)
    ensures Spaced([now] + b, last)
  {
    var c := [now] + b;
    forall k | 0 < k < |c|
      ensures c[k] >= c[k - 1] + HeartbeatInterval
    {
      assert c[k] == b[k - 1];
      if k > 1 {
        assert c[k - 1] == b[k - 2];
      }
    }
  }

  /** Heartbeats of the relay loop are spaced at least five seconds apart,
      starting from the last one before the loop. */
  lemma {:induction false} RelayLoopSpaced(id: nat, clientQ: seq<ReadOutcome>, proxyQ: seq<ReadOutcome>, clock: seq<nat>, last: nat)
    ensures Spaced(Beats(RelayLoop(id, clientQ, proxyQ, clock, last).events), last)
    decreases |clock|
  {
    if clock != [] && !ClosesFirst(proxyQ) && !ClosesFirst(clientQ) {
      var now := clock[0];
      var turn := TurnEvents(id, |PendingBytes(proxyQ)|, |PendingBytes(clientQ)|, now, last);
      var rest := RelayLoop(id, AfterStop(clientQ), AfterStop(proxyQ), clock[1..], NextBeat(now, last));
      RelayLoopSpaced(id, AfterStop(clientQ), AfterStop(proxyQ), clock[1..], NextBeat(now, last));
      TurnBeats(id, |PendingBytes(proxyQ)|, |PendingBytes(clientQ)|, now, last);
      BeatsConcat(turn, rest.events);
      var b := Beats(rest.events);
      if now >= last + HeartbeatInterval {
        assert NextBeat(now, last) == now;
        assert Spaced(b, now);
        assert Beats(RelayLoop(id, clientQ, proxyQ, clock, last).events) == [now] + b;
        SpacedCons(now, b, last);
      } else {
        assert Beats(RelayLoop(id, clientQ, proxyQ, clock, last).events) == b;
      }
    } else if clock != [] && !ClosesFirst(proxyQ) {
      assert Beats(Traffic(false, id, |PendingBytes(proxyQ)|)) == [];
    }
  }

  /** Since the last heartbeat time starts at 0, the first turn that
      completes at a real time beats. */
  lemma FirstTurnBeats(id: nat, clientQ: seq<ReadOutcome>, proxyQ: seq<ReadOutcome>, clock: seq<nat>)
    requires clock != [] && clock[0] >= HeartbeatInterval
    requires !ClosesFirst(proxyQ) && !ClosesFirst(clientQ)
    ensures Beats(RelayLoop(id, clientQ, proxyQ, clock, 0).events) != []
    ensures Beats(RelayLoop(id, clientQ, proxyQ, clock, 0).events)[0] == clock[0]
  {
    var turn := TurnEvents(id, |PendingBytes(proxyQ)|, |PendingBytes(clientQ)|, clock[0], 0);
    var rest := RelayLoop(id, AfterStop(clientQ), AfterStop(proxyQ), clock[1..], clock[0]);
    TurnBeats(id, |PendingBytes(proxyQ)|, |PendingBytes(clientQ)|, clock[0], 0);
    BeatsConcat(turn, rest.events);
  }

  // ---------------------------------------------------------------------------
  // Traffic accounting.

  /** The kilobytes reported forwarded and received by `events`. */
  function ForwardReported(events: seq<MonitorAction>): real
  {
    if events == [] then 0.0
    else (if events[0].ForwardTraffic? then events[0].length else 0.0) + ForwardReported(events[1..])
  }

  function ReceiveReported(events: seq<MonitorAction>): real
  {
    if events == [] then 0.0
    else (if events[0].ReceiveTraffic? then events[0].length else 0.0) + ReceiveReported(events[1..])
  }

  lemma {:induction false} ReportedConcat(a: seq<MonitorAction>, b: seq<MonitorAction>)
    ensures ForwardReported(a + b) == ForwardReported(a) + ForwardReported(b)
    ensures ReceiveReported(a + b) == ReceiveReported(a) + ReceiveReported(b)
  {
    if a == [] {
      assert a + b == b;
    } else {
      assert (a + b)[1..] == a[1..] + b;
      ReportedConcat(a[1..], b);
    }
  }

  lemma TrafficReported(forward: bool, id: nat, n: nat)
    ensures ForwardReported(Traffic(forward, id, n)) == if forward then n as real / 1000.0 else 0.0
    ensures ReceiveReported(Traffic(forward, id, n)) == if forward then 0.0 else n as real / 1000.0
  {
    if n > 0 {
      assert Traffic(forward, id, n)[1..] == [];
    }
  }

  lemma TurnReported(id: nat, received: nat, forwarded: nat, now: nat, last: nat)
    ensures ForwardReported(TurnEvents(id, received, forwarded, now, last)) == forwarded as real / 1000.0
    ensures ReceiveReported(TurnEvents(id, received, forwarded, now, last)) == received as real / 1000.0
  {
    var beat: seq<MonitorAction> := if now >= last + HeartbeatInterval then [Heartbeat(id, now)] else [];
    ReportedConcat(Traffic(false, id, received) + Traffic(true, id, forwarded), beat);
    ReportedConcat(Traffic(false, id, received), Traffic(true, id, forwarded));
    TrafficReported(false, id, received);
    TrafficReported(true, id, forwarded);
    if beat != [] {
      assert beat[1..] == [];
    }
  }

  /** Every byte relayed is reported, in kilobytes, except those of a drain
      that ended with a close: the worker ends before reporting them. */
  lemma {:induction false} RelayLoopTraffic(id: nat, clientQ: seq<ReadOutcome>, proxyQ: seq<ReadOutcome>, clock: seq<nat>, last: nat)
    ensures RelayLoop(id, clientQ, proxyQ, clock, last).exit != ProxyClosed ==>
      ReceiveReported(RelayLoop(id, clientQ, proxyQ, clock, last).events)
        == |RelayLoop(id, clientQ, proxyQ, clock, last).toClient| as real / 1000.0
    ensures RelayLoop(id, clientQ, proxyQ, clock, last).exit != ClientClosed ==>
      ForwardReported(RelayLoop(id, clientQ, proxyQ, clock, last).events)
        == |RelayLoop(id, clientQ, proxyQ, clock, last).toProxy| as real / 1000.0
    ensures ReceiveReported(RelayLoop(id, clientQ, proxyQ, clock, last).events)
        <= |RelayLoop(id, clientQ, proxyQ, clock, last).toClient| as real / 1000.0
    ensures ForwardReported(RelayLoop(id, clientQ, proxyQ, clock, last).events)
        <= |RelayLoop(id, clientQ, proxyQ, clock, last).toProxy| as real / 1000.0
    decreases |clock|
  {
    if clock == [] {
    } else if ClosesFirst(proxyQ) {
    } else if ClosesFirst(clientQ) {
      TrafficReported(false, id, |PendingBytes(proxyQ)|);
    } else {
      var received, forwarded := PendingBytes(proxyQ), PendingBytes(clientQ);
      var turn := TurnEvents(id, |received|, |forwarded|, clock[0], last);
      var rest := RelayLoop(id, AfterStop(clientQ), AfterStop(proxyQ), clock[1..], NextBeat(clock[0], last));
      RelayLoopTraffic(id, AfterStop(clientQ), AfterStop(proxyQ), clock[1..], NextBeat(clock[0], last));
      TurnReported(id, |received|, |forwarded|, clock[0], last);
      ReportedConcat(turn, rest.events);
      assert |received + rest.toClient| == |received| + |rest.toClient|;
      assert |forwarded + rest.toProxy| == |forwarded| + |rest.toProxy|;
    }
  }

  // ---------------------------------------------------------------------------
  // The sniffer on the zero-padded buffer.

  /** A well-formed ClientHello that arrives whole in the first read is
      sniffed correctly: the zeros after it in the buffer change nothing. */
  lemma SniffWholeHello(h: Sni.ClientHello, httpSniff: seq<Byte> -> Option<seq<Byte>>)
    requires Sni.ValidHello(h) && |Sni.EncodeHello(h)| <= FirstReadSize
    ensures SniffServerName(443, FirstBuffer(Sni.EncodeHello(h)), httpSniff)
            == Some(Sni.FirstServerName(h.extensions))
  {
    Sni.ParseEncodedHello(h, Zeros(FirstReadSize - |Sni.EncodeHello(h)|));
  }

  /** A ClientHello cut just before its extensions length, as when it is
      split across reads, is rejected by the parser on its own; but the
      worker sniffs the zero-padded receive buffer, where the two zero bytes
      after the cut read as an empty extensions block, so the worker goes on
      with the empty name. */
  lemma CutHelloSniffedFromZeros(h: Sni.ClientHello, httpSniff: seq<Byte> -> Option<seq<Byte>>)
    requires Sni.ValidHello(h) && |Sni.EncodeHello(h)| <= FirstReadSize
    ensures var n := 47 + |h.sessionId| + |h.cipherSuites| + |h.compressionMethods|;
      && n < |Sni.EncodeHello(h)|
      && Sni.ParseClientHello(Sni.EncodeHello(h)[..n]) == Err(Sni.Truncated)
      && SniffServerName(443, FirstBuffer(Sni.EncodeHello(h)[..n]), httpSniff) == Some([])
  {
    var e := Sni.EncodeHello(h);
    var n := 47 + |h.sessionId| + |h.cipherSuites| + |h.compressionMethods|;
    Sni.HeaderOfEncoded(h);
    Sni.TruncatedHelloRejected(h, n);
    var buf := FirstBuffer(e[..n]);
    Sni.EmptyBlockAfterCut(e, buf, n);
  }

  /** Not every split ClientHello is sniffed from the padding: here the cut
      falls inside a first record of type 10 that the walk skips, the walk
      then lands on padding zeros that read as a server_name record 14 bytes
      into a 19-byte block, and that record's name-length field would lie
      past the block's end, so the sniff fails and the worker ends with no
      server name. */
  lemma CutHelloRejectedFromZeros(httpSniff: seq<Byte> -> Option<seq<Byte>>)
    ensures Sni.ValidHello(Sni.SplitHello()) && |Sni.EncodeHello(Sni.SplitHello())| == 71
    ensures Sni.ParseClientHello(Sni.EncodeHello(Sni.SplitHello())[..60]) == Err(Sni.Truncated)
    ensures SniffServerName(443, FirstBuffer(Sni.EncodeHello(Sni.SplitHello())[..60]), httpSniff) == None
  {
    var e := Sni.EncodeHello(Sni.SplitHello());
    Sni.SplitHelloLayout();
    Sni.TruncatedHelloRejected(Sni.SplitHello(), 60);
    var buf := FirstBuffer(e[..60]);
    Sni.HeaderOfAgreeing(e, buf, 60);
    assert buf[52..56] == buf[..60][52..56] == e[..60][52..56] == e[52..56];
    Sni.SkipIntoPadding(buf);
  }

  // ---------------------------------------------------------------------------
  // What a worker's events do to the monitor's table.

  /** The monitor handling a run of events, all at time `now`. */
  function DispatchAll(s: MonitorState, events: seq<MonitorAction>, now: nat): MonitorState
    decreases |events|
  {
    if events == [] then s else DispatchAll(Dispatch(s, events[0], now), events[1..], now)
  }

  /** A relaying worker never condemns its own record: its relay events keep
      the record where it is, with a non-zero timestamp. */
  lemma {:induction false} RelayKeepsRecord(s: MonitorState, events: seq<MonitorAction>, id: nat, now: nat)
    requires RelayEvents(events, id)
    requires FirstMatch(s.conns, id).Some?
    requires s.conns[FirstMatch(s.conns, id).value].lastTimestamp != 0
    ensures FirstMatch(DispatchAll(s, events, now).conns, id) == FirstMatch(s.conns, id)
    ensures DispatchAll(s, events, now).conns[FirstMatch(s.conns, id).value].lastTimestamp != 0
    decreases |events|
  {
    if events != [] {
      var k := FirstMatch(s.conns, id).value;
      var s1 := Dispatch(s, events[0], now);
      assert RelayEvent(events[0], id);
      assert s1.conns[k] == Updated(s.conns[k], events[0]);
      FirstMatchIsFirst(s1.conns, id, k);
      assert forall j :: 1 <= j < |events| ==> events[1..][j - 1] == events[j];
      RelayKeepsRecord(s1, events[1..], id, now);
    }
  }

  /** A worker whose proxy was unreachable leaves no trace: its record is
      created and condemned, and the next sweep leaves the table as it was
      before the worker started. */
  lemma FailedWorkerLeavesNoTrace(s: MonitorState, id: nat, port: nat, now: nat)
    requires FirstMatch(s.conns, id).None?
    ensures Survivors(DispatchAll(s, [ConnInit(id, port), Heartbeat(id, 0)], now).conns) == Survivors(s.conns)
  {
    var s1 := Dispatch(s, ConnInit(id, port), now);
    assert s1.conns == s.conns + [NewConnection(id, port, now)];
    FirstMatchIsFirst(s1.conns, id, |s.conns|);
    var s2 := Dispatch(s1, Heartbeat(id, 0), now);
    assert [ConnInit(id, port), Heartbeat(id, 0)][1..] == [Heartbeat(id, 0)];
    assert [Heartbeat(id, 0)][1..] == [];
    assert DispatchAll(s1, [Heartbeat(id, 0)], now) == DispatchAll(s2, [], now);
    assert DispatchAll(s, [ConnInit(id, port), Heartbeat(id, 0)], now) == s2;
    DropCondemned(s.conns, s2.conns[|s.conns|], []);
    assert s2.conns == s.conns + [s2.conns[|s.conns|]] + [];
    assert s.conns + [] == s.conns;
  }

  // ---------------------------------------------------------------------------
  // Connection ids.

  /** The id counter both listeners share. */
  class IdCounter {
    var value: nat

    constructor ()
      ensures value == 0
    {
      value := 0;
    }

    /** Increment, then take the new value; the lock makes the two one
        step. */
    method Next() returns (id: nat)
      modifies this
      ensures value == old(value) + 1 && id == value
    {
      value := value + 1;
      id := value;
    }
  }

  /** A listener on one service port; every connection it accepts gets the
      next id of the shared counter. */
  class Listener {
    const port: nat
    const config: ProxyConfig
    const globalId: IdCounter

    constructor (port: nat, config: ProxyConfig, globalId: IdCounter)
      ensures this.port == port && this.config == config && this.globalId == globalId
    {
      this.port := port;
      this.config := config;
      this.globalId := globalId;
    }

    /** One accepted connection: the id its worker is started with. */
    method Accept() returns (id: nat)
      modifies globalId
      ensures globalId.value == old(globalId.value) + 1 && id == globalId.value
    {
      id := globalId.Next();
    }
  }

  /** Connections accepted by listeners that share one counter, in any
      interleaving (`order` names the listener of each accept), get the ids
      that follow the counter's value, one apart, and so all differ. */
  method AcceptInOrder(listeners: seq<Listener>, order: seq<nat>, counter: IdCounter) returns (ids: seq<nat>)
    requires forall k :: 0 <= k < |listeners| ==> listeners[k].globalId == counter
    requires forall k :: 0 <= k < |order| ==> order[k] < |listeners|
    modifies counter
    ensures |ids| == |order| && counter.value == old(counter.value) + |order|
    ensures forall k :: 0 <= k < |ids| ==> ids[k] == old(counter.value) + k + 1
    ensures forall j, k :: 0 <= j < k < |ids| ==> ids[j] < ids[k]
  {
    ids := [];
    for k := 0 to |order|
      invariant |ids| == k && counter.value == old(counter.value) + k
      invariant forall j :: 0 <= j < k ==> ids[j] == old(counter.value) + j + 1
    {
      var id := listeners[order[k]].Accept();
      ids := ids + [id];
    }
  }
}

# procatxy core, modelled in Dafny

procatxy is a forward proxy that sniffs where a client wants to go. It
listens for plain HTTP on port 80 and for TLS on port 443. It reads the
destination host name out of the client's first packet without terminating
TLS: the SNI of a TLS ClientHello, or the `Host` of an HTTP request. It then
opens a tunnel to that host through an upstream SOCKS5 proxy and relays bytes
both ways. A monitor thread collects lifecycle, traffic and heartbeat events
from every relay worker, keeps a table of live connections, and evicts the
dead and stale ones.

This project models the four pieces of sequential logic in that system and
proves properties of them:

- `sni.dfy` (module `Sni`): the ClientHello parser of `src/utils.rs`. It reads
  lengths at fixed offsets and walks the extension records up to the first
  `server_name` (section 3 of RFC 6066). An offset past the end of the buffer
  is a panic in the source and `Err(Truncated)` here. A reference encoder for
  ClientHello records is the inverse of the parser: parsing an encoded record
  gives back the host of its first `server_name` extension.
- `socks5.dfy` (module `Socks5`): the SOCKS5 client of `src/proxy.rs`
  (RFC 1928). It sends the greeting, builds and sends the CONNECT request for a
  domain name, and checks the reply. The server side of the SOCKS5 exchange,
  which reads a request and encodes a reply, is modelled to check it against.
- `monitor.dfy` (module `Monitor`): the `Monitor` of `src/monitor.rs`. It is a
  class whose `seq<Connection>` field and two traffic totals are updated in
  place by event dispatch, by the in-place sweep of condemned records, and by
  the state updates of `draw`. Pure functions over a `MonitorState` value
  specify each method.
- `forward.dfy` (module `Forward`): the relay worker of `src/forward.rs`. It
  covers the two drain-copy loops, `handle_conn` with its event sequence and
  heartbeat cadence, and the shared id counter of `Listener::start`.
  `Worker` specifies the whole worker as a function of its inputs.
  `HandleConn` runs it step by step over `Stream` objects and is proved equal
  to `Worker`.
- `streams.dfy` (module `Streams`) and `common.dfy` (module `Common`): the
  vocabulary the four share. A TCP socket is a `Stream`: a script of what
  successive reads return and a log of what was written. In the script,
  `Data([])` is the zero-length read of a closed peer and `Timeout` is a read
  error or timeout.

Some behaviour of the code is easy to misread. The model follows the code:

- Only an unreachable proxy makes the worker send the zero heartbeat that gets
  its record evicted at once. A failed SOCKS5 handshake, a failed sniff or a
  client that closes right away each end the worker in a panic. Those happen
  before any such event is sent, so the record waits out the 60-second
  staleness rule (`Forward.ZeroHeartbeatOnlyWhenUnreachable`,
  `Forward.WorkerProtocol`).
- The aggregate totals also count traffic for ids that are not in the table
  and for records the sweep has dropped. So they bound the table's sum rather
  than equal it (`Monitor.RunKeepsTableWithinTotals`). Each traffic event for
  an unknown id widens the gap by its length
  (`Monitor.AggregateCountsUnknownIds`).
- Bytes relayed by a drain that then meets a close are written to the peer but
  never reported, because the worker ends first (`Forward.RelayLoopTraffic`).
- The TLS sniffer is given the whole 8192-byte receive buffer, zeros
  included, not just the bytes read. A ClientHello that arrives whole is
  sniffed correctly whatever follows it (`Forward.SniffWholeHello`). A
  ClientHello split across reads may still be parsed out of the zero
  padding, although the parser alone rejects a cut record
  (`Sni.TruncatedHelloRejected`); whether it is depends on where the cut
  falls. Cut just before its extensions length, the two zero bytes after the
  cut read as an empty extensions block and the worker goes on with the
  empty name: it sends a SOCKS5 CONNECT for a zero-length host, and
  `ProxyOk` with the empty name follows only when the proxy is reachable and
  grants it (`Forward.CutHelloSniffedFromZeros`). Cut inside an extension,
  the walk can land on zeros within 9 bytes of the end of the declared
  block; the parser then reports a truncated record and the worker ends
  with `NoServerName` (`Forward.CutHelloRejectedFromZeros`). Cut inside the
  host name, the name comes out with its tail replaced by NUL bytes.
- The method-selection reply of the SOCKS5 handshake is read but never
  checked. A CONNECT reply is accepted when more than two bytes were read and
  its second byte is 0.

## Model

| member | source | states |
|---|---|---|
| Common.Be16 | src/utils.rs:4-6 | a two-byte field read big-endian as `hi*256 + lo` is below 65536 |
| Common.ToBe16OfBe16 | src/utils.rs:4-6 | writing a big-endian length back as two bytes gives the two bytes it was read from |
| Streams.NextRead | src/forward.rs:168-171 | one read returns at most the buffer's capacity and an exhausted script times out (that the rest of the arrival stays pending is `Streams.NextReadStep`) |
| Streams.NextReadStep | src/forward.rs:167-177 | a timeout or a close means nothing was pending; a chunk is the head of the pending bytes and the rest stay pending, so splitting an arrival across reads loses and reorders nothing |
| Streams.Stream.Read | src/forward.rs:168 | a read on a socket consumes the next outcome of its script, cut to the buffer size |
| Streams.Stream.Write | src/forward.rs:175 | a write appends the whole buffer to what the peer has received |
| Sni.Header | src/utils.rs:2-17 | when the header parses, the extensions block it locates lies inside the buffer |
| Sni.HeaderLayout | src/utils.rs:2-17 | the session-id length is the byte at offset 43, the cipher-suites and extensions lengths are big-endian pairs, the compression-methods length is one byte, and the block starts at `46 + sid + cs + 1 + cm + 2` and spans the extensions length |
| Sni.FindServerName | src/utils.rs:19-39 | the walk over the extensions block: a name it finds lies in the block after a 9-byte record header, or is empty (that an encoded block without a server_name record gives the empty name is `Sni.WalkEncoded`) |
| Sni.ParseClientHello | src/utils.rs:1-42 | the whole parser: a name comes only from a buffer whose header parses, and lies inside its extensions block |
| Sni.GetServerName | src/utils.rs:19-41 | the loop over extension records returns exactly what the recursive walk `FindServerName` from offset 0 returns |
| Sni.SkipOther | src/utils.rs:23-30 | a record whose type is not 0 is stepped over by 4 plus its length |
| Sni.ExtensionAt | src/utils.rs:23-26 | at an encoded extension record the type and the length are the big-endian pairs at `i` and `i+2`, and the data follows at `i+4` |
| Sni.HostAt | src/utils.rs:32-35 | inside the data of a server_name record the host length is the big-endian pair 3 bytes in, and the host follows it |
| Sni.StopAtServerName | src/utils.rs:32-38 | at a record of type 0 the result is the `name_length` bytes at `i+9`, the length read big-endian at `i+7` |
| Sni.WalkEncoded | src/utils.rs:19-41 | over encoded extensions the walk finds the host of the first server_name record; later ones are ignored; with none the name is empty |
| Sni.HeaderOfEncoded | src/utils.rs:2-17 | the header of an encoded ClientHello names its session id, cipher suites, compression methods and extensions block, and the block holds exactly the encoded extensions |
| Sni.LaidOutHeader | src/utils.rs:2-17 | any buffer laid out as 43 bytes, then the length-prefixed session id, cipher suites, compression methods and extensions, parses to those four lengths with the block at `49 + sid + cs + cm` |
| Sni.FrontFields | src/utils.rs:2-8 | the session-id length is the byte at 43 and the cipher-suites length the big-endian pair after the session id; what follows the suites starts at `46 + sid + cs` |
| Sni.BackFields | src/utils.rs:8-16 | the compression-methods length is the byte at its start, the extensions length the big-endian pair after the methods, and the extensions follow it |
| Sni.HeaderExtends | src/utils.rs:2-17 | bytes appended to a buffer whose header parses leave the header unchanged |
| Sni.ParseEncodedHello | src/utils.rs:1-42 | round trip: parsing an encoded ClientHello, whatever follows it, gives the host of its first server_name extension, or the empty name if it has none |
| Sni.ParseExtends | src/utils.rs:17 | the parser reads nothing past the extensions block: bytes appended to a buffer with a complete header do not change the result |
| Sni.TruncatedHelloRejected | src/utils.rs:2-35 | a ClientHello cut anywhere before the end of its extensions block is a failure, never a name |
| Sni.EmptyBlockAfterCut | src/utils.rs:12-17 | a buffer that agrees with a well-formed record up to its extensions length and has two zero bytes there parses with an empty extensions block, to the empty name |
| Sni.HeaderOfAgreeing | src/utils.rs:2-17 | the record header is read from the declared lengths alone: a buffer that agrees with a well-formed record up to any cut at or past the start of its extensions block, and is long enough for the declared block, has the same header |
| Sni.SplitHelloLayout | src/utils.rs:2-17 | a concrete 71-byte ClientHello with a 10-byte extension record and a renegotiation record is well-formed, with its extensions block at offset 52 and 19 bytes long |
| Sni.SkipIntoPadding | src/utils.rs:19-35 | a buffer with that header whose block starts with the 10-byte record and has zeros 14 bytes in fails as truncated: the walk skips the record, reads the zeros as a server_name record, and its name-length field lies past the block's end |
| Socks5.PortBytes | src/proxy.rs:32-42 | only ports 80 and 443 have port bytes, and those bytes read big-endian give back the port |
| Socks5.ConnectRequest | src/proxy.rs:28-39 | the request is `05 01 00 03`, the name length mod 256, the name, then the big-endian port; its length is `5 + |name| + 2` |
| Socks5.BuildConnectRequest | src/proxy.rs:28-43 | the byte-by-byte build yields `ConnectRequest` for ports 80 and 443 and the unsupported-port failure for every other port |
| Socks5.CheckConnectReply | src/proxy.rs:46-59 | a reply succeeds exactly when more than 2 bytes were read and byte 1 is 0; 2 bytes or fewer is a short reply; otherwise a rejection carrying byte 1 |
| Socks5.SocksHandshake | src/proxy.rs:19-59 | the handshake never reports unreachability; success means the port was 80 or 443 and exactly the greeting and the request were sent; any other port fails after only the greeting |
| Socks5.Connect | src/proxy.rs:10-60 | an unreachable proxy gives the unreachable error and touches nothing; otherwise the outcome, what is read and what is written are those of `SocksHandshake` |
| Socks5.DecodeConnectRequestIff | src/proxy.rs:28 | a SOCKS5 server decodes the request back to the name and port exactly when the name is shorter than 256 bytes; a longer name, cut to 8 bits in the length byte, gives a request no server can frame |
| Socks5.CheckEncodedReply | src/proxy.rs:47-49 | a well-formed RFC 1928 reply is accepted exactly when its REP field is 0, and rejected with that field otherwise |
| Socks5.HandshakeWithServer | src/proxy.rs:19-53 | against a server that answers each message in one read, the handshake succeeds exactly when the server grants the request, sends the greeting and request, and consumes exactly the two replies |
| Monitor.FirstMatch | src/monitor.rs:118-125 | the position found holds the id and no earlier record does; not found means no record has the id |
| Monitor.FirstMatchIsFirst | src/monitor.rs:118-125 | a match with no earlier match is the position `FirstMatch` returns |
| Monitor.Dispatch | src/monitor.rs:129-171 | ConnInit appends one new record and changes nothing else; every other event changes only the first record with its id, and nothing when none has it; traffic events always add their length to the aggregate |
| Monitor.Survivors | src/monitor.rs:107-116 | the sweep keeps only records from the table, none of them condemned, and never more than there were |
| Monitor.SurvivorsMembers | src/monitor.rs:107-116 | the sweep keeps exactly the records whose timestamp is not 0 |
| Monitor.SurvivorsConcat | src/monitor.rs:107-116 | the sweep of a table is the sweep of its two parts joined, so the kept records stay in their order |
| Monitor.RefreshAll | src/monitor.rs:75-103 | after the render pass each record keeps its id, name, port and totals; its snapshots equal its totals; its timestamp becomes 0 exactly when it was stale (named and over 10 s, or unnamed and over 60 s) |
| Monitor.Refresh | src/monitor.rs:92-102 | one record of the render pass: its snapshots catch up with its totals, and nothing else changes but its timestamp, which either stays or becomes 0 |
| Monitor.DrawState | src/monitor.rs:61-105 | after `draw` every timestamp is still at most now |
| Monitor.SweepAfterDraw | src/monitor.rs:61-105 | a record condemned as stale survives the draw that condemns it and is gone after the next sweep; what remains then is exactly the records that were neither condemned nor stale |
| Monitor.HeartbeatZeroRemoves | src/monitor.rs:165-168 | a zero heartbeat condemns the first record with its id, and the next sweep leaves the table as if that record had never been there |
| Monitor.DropCondemned | src/monitor.rs:110-111 | a condemned record anywhere in the table leaves nothing after a sweep |
| Monitor.Step | src/monitor.rs:127-175 | one turn of the event loop keeps every timestamp at most the current time |
| Monitor.Run | src/monitor.rs:127-176 | a run of the event loop, one tick per turn; afterwards every timestamp is at most the time of the last tick |
| Monitor.RunTotals | src/monitor.rs:151-163 | over any run the aggregates grow by the sum of all traffic lengths handled, including those for unknown ids |
| Monitor.StepKeepsTableWithinTotals | src/monitor.rs:129-174 | one turn keeps the per-record traffic non-negative and its sum within the aggregates |
| Monitor.RunKeepsTableWithinTotals | src/monitor.rs:127-176 | every run of events and render passes keeps the table's traffic within the aggregates |
| Monitor.AggregateCountsUnknownIds | src/monitor.rs:151-163 | for every table, a traffic event for an id the table lacks leaves the table unchanged and widens the gap between the aggregate and the table's sum by its length |
| Monitor.Monitor.constructor | src/monitor.rs:36-45 | a new monitor has an empty table and zero totals |
| Monitor.Monitor.AddConn | src/monitor.rs:47-49 | the record is appended at the end |
| Monitor.Monitor.FindConnById | src/monitor.rs:118-125 | the search loop returns `FirstMatch` |
| Monitor.Monitor.ClearDeadConn | src/monitor.rs:107-116 | the in-place index loop leaves exactly `Survivors` of the old table |
| Monitor.Monitor.Draw | src/monitor.rs:61-105 | the sweep and the per-record update loop leave the state `DrawState` gives |
| Monitor.Monitor.RenderPass | src/monitor.rs:75-103 | the per-record loop of `draw` leaves every record as `Refresh` makes it, in place |
| Monitor.Monitor.Handle | src/monitor.rs:131-171 | handling one event leaves the state `Dispatch` gives |
| Monitor.Monitor.Turn | src/monitor.rs:129-174 | a waiting event is handled and an empty channel is a render pass: the state after is the one `Step` gives |
| Monitor.Monitor.Start | src/monitor.rs:127-176 | the event loop over a run of ticks leaves the state `Run` gives |
| Monitor.RunUnfold | src/monitor.rs:127-176 | a run is its first turn followed by the rest of the run, which starts in a state where every timestamp is at most its next time |
| Monitor.SweepOne | src/monitor.rs:109-115 | one index of the in-place sweep either cuts a condemned record out or steps over a kept one, and the swept prefix stays the sweep of what was visited |
| Forward.DrainCopy | src/forward.rs:161-197 | everything pending on the source reaches the peer in read order whichever way the drain ends; it fails exactly when a close comes before a timeout, and otherwise returns the number of bytes moved |
| Forward.DrainOfChunks | src/forward.rs:167-177 | chunks that arrive before a timeout are all drained, joined in arrival order; a close instead of the timeout makes the drain fail |
| Forward.FirstPacket | src/forward.rs:83-86 | the first packet exists only when the first read brought bytes, and holds at most 8192 of them |
| Forward.FirstBuffer | src/forward.rs:81-91 | the buffer the sniffers see is 8192 bytes, starts with the packet, and is zero after it |
| Forward.SniffServerName | src/forward.rs:87-91 | on port 443 the name is found exactly when the TLS parser succeeds on the buffer, and is shorter than the buffer |
| Forward.RelayLoop | src/forward.rs:124-158 | the relay loop, one clock reading per turn, always ends by a close or the end of the clock, with at most three events per turn |
| Forward.Worker | src/forward.rs:65-159 | the whole worker as a function of its inputs: its first event is ConnInit, and nothing reaches the proxy without a first packet |
| Forward.Proxied | src/forward.rs:94-158 | the worker from the proxy connection on: a proxy failure sends nothing to the client, and an unreachable proxy gets nothing written and nothing read |
| Forward.RelayTurn | src/forward.rs:125-157 | one turn of the relay loop is one step of `RelayLoop`: it either ends the worker with what `RelayLoop` says or leaves the loop's remaining run |
| Forward.Relaying | src/forward.rs:124-158 | the relay loop produces the events, exit, writes and leftover input of `RelayLoop` with the heartbeat time starting at 0 |
| Forward.ConnectAndRelay | src/forward.rs:94-158 | from the proxy connection on, the worker does what `Proxied` says |
| Forward.ForwardAndRelay | src/forward.rs:108-158 | after the proxy accepts, the worker reports ProxyOk and the first packet, forwards that packet, and then does what `RelayLoop` says |
| Forward.HandleConn | src/forward.rs:65-159 | the worker sends the events, ends the way, writes the bytes and leaves the input that `Worker` gives |
| Forward.RelayLoopEvents | src/forward.rs:124-158 | the relay loop only sends non-empty traffic reports and heartbeats with a timestamp of at least 5, all for its own id, and ends only by a close or the end of the clock |
| Forward.WorkerProtocol | src/forward.rs:72-122 | ConnInit comes first; the worker ends with the client gone exactly when the first read brought nothing, and with no server name exactly when the sniff failed; a worker that neither relays nor meets an unreachable proxy sends nothing after ConnInit |
| Forward.ZeroHeartbeatOnlyWhenUnreachable | src/forward.rs:100-107 | the zero heartbeat is sent exactly when the proxy is unreachable, and then the events are ConnInit and that heartbeat only |
| Forward.WorkerRelayed | src/forward.rs:83-158 | a relaying worker had a first packet; its second event is ProxyOk with the sniffed name, its third the first packet's ForwardTraffic, and the rest are relay events for its own id |
| Forward.WorkerThroughProxy | src/forward.rs:81-107 | an empty first read or a failed sniff ends the worker after ConnInit; otherwise the worker is ConnInit followed by what `Proxied` gives, and a failed handshake sends nothing more |
| Forward.ProxiedProtocol | src/forward.rs:94-158 | from the proxy connection on, the worker either fails at the proxy or relays; the zero heartbeat is the only event exactly when the proxy is unreachable; a failed handshake sends nothing; relaying starts with ProxyOk and the first packet's ForwardTraffic |
| Forward.TurnBeats | src/forward.rs:150-157 | a turn sends a heartbeat at its time exactly when at least 5 s have passed since the last one |
| Forward.RelayLoopSpaced | src/forward.rs:150-157 | the heartbeats of the relay loop are at least 5 s apart, the first at least 5 s after the last one before the loop |
| Forward.FirstTurnBeats | src/forward.rs:80 | because the last heartbeat time starts at 0, the first completed turn at a real time sends a heartbeat |
| Forward.TrafficReported | src/forward.rs:127-147 | a drain of `n > 0` bytes is reported as `n/1000` kilobytes in its own direction, and a drain of 0 bytes is not reported |
| Forward.RelayLoopTraffic | src/forward.rs:124-158 | all received bytes are reported unless the proxy side closed, all forwarded bytes unless the client side closed, and never more than were relayed |
| Forward.SniffWholeHello | src/forward.rs:87-88 | a ClientHello that arrives whole in the first read is sniffed as its first server_name, despite the zeros after it in the buffer |
| Forward.CutHelloSniffedFromZeros | src/forward.rs:81-91 | a ClientHello cut just before its extensions length is rejected by the parser alone, but sniffed from the zero-padded buffer as the empty name |
| Forward.CutHelloRejectedFromZeros | src/forward.rs:81-91 | that ClientHello cut after 60 bytes, inside its first extension, is rejected both by the parser alone and from the zero-padded buffer, so the worker finds no name |
| Forward.RelayKeepsRecord | src/forward.rs:124-158 | a relaying worker's events never condemn its record in the monitor or move it |
| Forward.FailedWorkerLeavesNoTrace | src/forward.rs:100-107 | after an unreachable proxy, the worker's two events and the next sweep leave the table as it was |
| Forward.IdCounter.Next | src/forward.rs:45-47 | the counter is incremented and the new value is the id |
| Forward.Listener.Accept | src/forward.rs:43-51 | each accepted connection takes the next value of the shared counter |
| Forward.AcceptInOrder | src/forward.rs:43-53 | accepts on listeners sharing a counter, in any interleaving, get consecutive ids after the counter's value, so all ids differ |

## Left out

- The HTTP `Host` sniffer is not part of this model. Its body is not among the
  files modelled, so `HandleConn` takes it as the function parameter
  `httpSniff`, with `None` for its failure.
- `utils::get_timestamp` is not part of this model. The current time is a
  parameter: `now` for the monitor, and one clock reading per turn of the
  relay loop.
- Threads, `TcpListener` accept, the mpsc channel, the `Mutex` and `Arc`, and
  `sleep` are concurrency and OS plumbing. The channel is an event log on the
  worker side and a sequence of ticks on the monitor side. The counter is a
  plain object whose increment is one step.
- `send_to_monitor` with no sender attached does nothing. Every listener gets
  a sender before it starts, so the model always logs.
- Real socket I/O is left out. A socket is a scripted `Stream`, and a read
  error and a read timeout are the same `Timeout` outcome. Partial writes and
  write errors (an `unwrap` panic) are not modelled: a write delivers the
  whole buffer.
- `TcpStream::connect` to the proxy is the boolean `reachable`. The proxy's IP
  address and port in `ProxyConfig` are therefore not used.
- Every panic ends the worker. The model returns the way it ended as a
  `WorkerExit` or an error value, with the events already sent.
- Floating point: traffic is an exact `real` (`bytes / 1000`), with no f64
  rounding.
- `String::from_utf8(...).unwrap()` validation is not modelled. Host names are
  raw bytes.
- Terminal clearing and all printing in `draw` are left out. Only its state
  updates are modelled.
- `src/main.rs` (argument parsing and wiring) is not part of this model.
- Forward.HandleConn: the source's relay loop never ends by itself; the model
  runs it once per clock reading given and stops with `ClockStopped` when they
  run out.
- Monitor.Monitor.Draw: requires every timestamp to be at most `now`, since
  `now - last_timestamp` on `u64` underflows otherwise; that underflow is not
  modelled.
- Forward.Relaying: requires clock readings that never go backwards, for the
  same `u64` subtraction in the heartbeat test.
- Forward.IdCounter.Next: ids are unbounded naturals; does not model the
  `u32` overflow after 4294967295 connections, which panics in a build with
  overflow checks and wraps to 0, reusing ids, in a release build.

/** The SOCKS5 client side of the proxy (RFC 1928): a "no authentication"
    greeting, then a CONNECT request for a domain name and a port, then a
    check of the reply. The upstream socket is a scripted `Stream`. */
module Socks5 {
  import opened Common
  import opened Streams

  /** Version 5, one method offered, method 0 "no authentication required"
      (section 3 of RFC 1928). */
  const Greeting: seq<Byte> := [0x05, 0x01, 0x00]

  /** The request header: version 5, command 1 (CONNECT), a reserved zero and
      address type 3 (DOMAINNAME), sections 4 and 5 of RFC 1928. */
  const RequestHeader: seq<Byte> := [0x05, 0x01, 0x00, 0x03]

  /** Size of the buffer both handshake replies are read into. */
  const ReplyBufferSize: nat := 512

  /** The upstream proxy configuration, one case per kind of proxy. */
  datatype ProxyConfig = Socks5(ip: string, port: nat)

  /** Why a connection through the proxy was not made. Only `Unreachable`
      is returned as an error by the source; every other case is a panic
      inside the handshake. */
  datatype ConnectError =
    | Unreachable
    | ReadFailed
    | UnsupportedPort
    | ShortReply
    | Rejected(status: Byte)

  /** The two port bytes, high byte first; only the two service ports are
      known. */
  function PortBytes(port: nat): (r: Option<seq<Byte>>)
    ensures r.Some? <==> port == 80 || port == 443
    ensures r.Some? ==> |r.value| == 2 && Be16(r.value[0], r.value[1]) == port
  {
    if port == 443 then Some([0x01, 0xbb])
    else if port == 80 then Some([0x00, 0x50])
    else None
  }

  /** The CONNECT request for `name` and `port`. The length byte is the
      name length cut to 8 bits, as a `u8` cast does. */
  function ConnectRequest(name: seq<Byte>, port: nat): (req: seq<Byte>)
    requires port == 80 || port == 443
    ensures |req| == 5 + |name| + 2
    ensures req[..4] == RequestHeader && req[4] == |name| % 256
    ensures req[5..5 + |name|] == name
    ensures Be16(req[5 + |name|], req[6 + |name|]) == port
  {
    RequestHeader + [|name| % 256] + name + PortBytes(port).value
  }

  /** The request as the source builds it: the header pushed first, then the
      name byte by byte, then the port; any port but 80 and 443 is refused
      before anything is sent. */
  method BuildConnectRequest(name: seq<Byte>, port: nat) returns (r: Result<seq<Byte>, ConnectError>)
    ensures r.Ok? <==> port == 80 || port == 443
    ensures r.Err? ==> r.error == UnsupportedPort
    ensures r.Ok? ==> r.value == ConnectRequest(name, port)
  {
    var data: seq<Byte> := [0x05, 0x01, 0x00, 0x03, |name| % 256];
    for k := 0 to |name|
      invariant data == RequestHeader + [|name| % 256] + name[..k]
    {
      data := data + [name[k]];
    }
    assert name[..|name|] == name;
    if port == 443 {
      data := data + [0x01];
      data := data + [0xbb];
    } else if port == 80 {
      data := data + [0x00];
      data := data + [0x50];
    } else {
      return Err(UnsupportedPort);
    }
    return Ok(data);
  }

  /** The reply test: more than two bytes read and the REP byte (index 1,
      section 6 of RFC 1928) zero. */
  function CheckConnectReply(reply: seq<Byte>): (r: Option<ConnectError>)
    ensures r.None? <==> |reply| > 2 && reply[1] == 0x00
    ensures r == Some(ShortReply) <==> |reply| <= 2
    ensures |reply| > 2 && reply[1] != 0x00 ==> r == Some(Rejected(reply[1]))
  {
    if |reply| > 2 then
      if reply[1] == 0x00 then None else Some(Rejected(reply[1]))
    else Some(ShortReply)
  }

  /** Where a handshake leaves things: its outcome (`None` is success), what
      remains to be read, and what was written. */
  datatype Handshake = Handshake(outcome: Option<ConnectError>, inbox: seq<ReadOutcome>, written: seq<Byte>)

  /** The handshake over an upstream whose replies are scripted by `q`: the
      greeting is sent, the method-selection reply is read and not looked
      at, the request is built and sent, and the reply is checked. */
  function SocksHandshake(q: seq<ReadOutcome>, name: seq<Byte>, port: nat): (h: Handshake)
    ensures h.outcome != Some(Unreachable)
    ensures h.outcome.None? ==> (port == 80 || port == 443) && h.written == Greeting + ConnectRequest(name, port)
    ensures port != 80 && port != 443 ==> h.outcome.Some? && h.written == Greeting
  {
    var (methodReply, q1) := NextRead(q, ReplyBufferSize);
    if methodReply.Timeout? then Handshake(Some(ReadFailed), q1, Greeting)
    else if port != 80 && port != 443 then Handshake(Some(UnsupportedPort), q1, Greeting)
    else
      var written := Greeting + ConnectRequest(name, port);
      var (reply, q2) := NextRead(q1, ReplyBufferSize);
      if reply.Timeout? then Handshake(Some(ReadFailed), q2, written)
      else Handshake(CheckConnectReply(reply.bytes), q2, written)
  }

  /** `Socks5::connect`: open the upstream connection (`reachable` says
      whether the proxy accepted the TCP connection), then run the
      handshake on it. */
  method Connect(config: ProxyConfig, upstream: Stream, reachable: bool, serverName: seq<Byte>, serverPort: nat)
    returns (r: Option<ConnectError>)
    modifies upstream
    ensures !reachable ==> r == Some(Unreachable)
    ensures !reachable ==> upstream.inbox == old(upstream.inbox) && upstream.sent == old(upstream.sent)
    ensures reachable ==>
      var h := SocksHandshake(old(upstream.inbox), serverName, serverPort);
      && r == h.outcome
      && upstream.inbox == h.inbox
      && upstream.sent == old(upstream.sent) + h.written
  {
    if !reachable {
      return Some(Unreachable);
    }
    ghost var q := upstream.inbox;
    ghost var sent0 := upstream.sent;
    upstream.Write(Greeting);
    var methodReply := upstream.Read(ReplyBufferSize);
    if methodReply.Timeout? {
      return Some(ReadFailed);
    }
    var request := BuildConnectRequest(serverName, serverPort);
    if request.Err? {
      return Some(request.error);
    }
    upstream.Write(request.value);
    assert upstream.sent == sent0 + (Greeting + ConnectRequest(serverName, serverPort));
    var reply := upstream.Read(ReplyBufferSize);
    if reply.Timeout? {
      return Some(ReadFailed);
    }
    return CheckConnectReply(reply.bytes);
  }

  // ---------------------------------------------------------------------------
  // The server side of the SOCKS5 exchange (RFC 1928).

  /** Where a CONNECT request asks to go. */
  datatype Target = Target(host: seq<Byte>, port: nat)

  /** How a SOCKS5 server reads a CONNECT request with a domain name: the
      length byte says how many name bytes follow, then two port bytes end
      the request. */
  function DecodeConnectRequest(req: seq<Byte>): Option<Target>
  {
    if |req| < 5 || req[..4] != RequestHeader then None
    else
      var n: nat := req[4];
      if |req| != 5 + n + 2 then None
      else Some(Target(req[5..5 + n], Be16(req[5 + n], req[6 + n])))
  }

  /** The request reaches the proxy intact exactly when the name fits the
      length byte; a name of 256 bytes or more gives a request no server can
      frame. */
  lemma DecodeConnectRequestIff(name: seq<Byte>, port: nat)
    requires port == 80 || port == 443
    ensures DecodeConnectRequest(ConnectRequest(name, port)) == Some(Target(name, port)) <==> |name| < 256
    ensures |name| >= 256 ==> DecodeConnectRequest(ConnectRequest(name, port)) == None
  {
    var req := ConnectRequest(name, port);
    if |name| < 256 {
      assert req[4] == |name|;
    } else {
      assert req[4] < |name|;
    }
  }

  /** A reply as a SOCKS5 server sends it (section 6 of RFC 1928), with an
      IPv4 bound address. */
  function EncodeReply(rep: Byte, boundAddress: seq<Byte>, boundPort: nat): seq<Byte>
    requires |boundAddress| == 4 && boundPort < 0x1_0000
  {
    [0x05, rep, 0x00, 0x01] + boundAddress + ToBe16(boundPort)
  }

  /** Every well-formed reply is judged by its REP field alone: success is
      accepted and any other code is a rejection carrying that code. */
  lemma CheckEncodedReply(rep: Byte, boundAddress: seq<Byte>, boundPort: nat)
    requires |boundAddress| == 4 && boundPort < 0x1_0000
    ensures CheckConnectReply(EncodeReply(rep, boundAddress, boundPort))
      == if rep == 0 then None else Some(Rejected(rep))
  {
    assert EncodeReply(rep, boundAddress, boundPort)[1] == rep;
  }

  /** Against a server that follows RFC 1928 and delivers each reply in one
      read, the handshake succeeds exactly when the server grants the
      request, sends the greeting and the request and nothing else, and
      consumes exactly the two replies. */
  lemma HandshakeWithServer(name: seq<Byte>, port: nat, method_: Byte, rep: Byte,
                            boundAddress: seq<Byte>, boundPort: nat, rest: seq<ReadOutcome>)
    requires port == 80 || port == 443
    requires |boundAddress| == 4 && boundPort < 0x1_0000
    ensures var h := SocksHandshake([Data([0x05, method_]), Data(EncodeReply(rep, boundAddress, boundPort))] + rest,
                                    name, port);
      && h.outcome == (if rep == 0 then None else Some(Rejected(rep)))
      && h.inbox == rest
      && h.written == Greeting + ConnectRequest(name, port)
  {
    var reply := EncodeReply(rep, boundAddress, boundPort);
    var q := [Data([0x05, method_]), Data(reply)] + rest;
    assert q[1..] == [Data(reply)] + rest;
    assert ([Data(reply)] + rest)[1..] == rest;
    CheckEncodedReply(rep, boundAddress, boundPort);
  }
}

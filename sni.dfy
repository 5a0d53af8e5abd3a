/** Server Name Indication sniffing: the host name a TLS client asks for,
    read out of the first record it sends (a ClientHello) by fixed offsets,
    without any TLS processing. An offset past the end of the buffer is a
    panic in the source and `Err(Truncated)` here. */
module Sni {
  import opened Common

  datatype SniError = Truncated

  /** Offset of the session-id length: the 5-byte record header (section
      6.2.1 of RFC 5246), the 4-byte handshake header, the 2-byte version and
      the 32-byte random (section 7.4.1.2 of RFC 5246). */
  const SessionIdLengthOffset: nat := 43

  /** Where the variable-length parts of a ClientHello sit. */
  datatype Layout = Layout(
    sessionIdLength: nat,
    cipherSuitesLength: nat,
    compressionMethodsLength: nat,
    extensionsStart: nat,
    extensionsLength: nat)

  /** The straight-line part of the parser: read the three lengths that
      precede the extensions block, then the block's own length. */
  function Header(msg: seq<Byte>): (r: Result<Layout, SniError>)
    ensures r.Ok? ==> r.value.extensionsStart + r.value.extensionsLength <= |msg|
  {
    if |msg| < SessionIdLengthOffset + 1 then Err(Truncated)
    else
      var sid := msg[SessionIdLengthOffset];
      if |msg| < 46 + sid then Err(Truncated)
      else
        var cs := Be16(msg[44 + sid], msg[45 + sid]);
        var cmStart := 46 + sid + cs;
        if |msg| < cmStart + 1 then Err(Truncated)
        else
          var cm := msg[cmStart];
          var elStart := cmStart + 1 + cm;
          if |msg| < elStart + 2 then Err(Truncated)
          else
            var el := Be16(msg[elStart], msg[elStart + 1]);
            var start := elStart + 2;
            if |msg| < start + el then Err(Truncated)
            else Ok(Layout(sid, cs, cm, start, el))
  }

  /** The walk over the extensions block from offset `i`: a record of any
      type but 0 is skipped by its 4-byte header and its length; at the first
      record of type 0 (server_name, section 3 of RFC 6066) the name length
      sits at offset 7 and the name at offset 9. Running off the end of the
      block without finding one gives the empty name. */
  function FindServerName(ext: seq<Byte>, i: nat): (r: Result<seq<Byte>, SniError>)
    ensures r.Ok? ==> |r.value| + 9 <= |ext| || r.value == []
    decreases |ext| - i
  {
    if i >= |ext| then Ok([])
    else if |ext| < i + 4 then Err(Truncated)
    else
      var extType := Be16(ext[i], ext[i + 1]);
      var length := Be16(ext[i + 2], ext[i + 3]);
      if extType != 0 then FindServerName(ext, i + 4 + length)
      else if |ext| < i + 9 then Err(Truncated)
      else
        var nameLength := Be16(ext[i + 7], ext[i + 8]);
        if |ext| < i + 9 + nameLength then Err(Truncated)
        else Ok(ext[i + 9..i + 9 + nameLength])
  }

  /** The whole parser. */
  function ParseClientHello(msg: seq<Byte>): (r: Result<seq<Byte>, SniError>)
    ensures r.Ok? ==> Header(msg).Ok?
    ensures r.Ok? ==> |r.value| + 9 <= Header(msg).value.extensionsLength || r.value == []
  {
    match Header(msg)
    case Err(e) => Err(e)
    case Ok(l) => FindServerName(msg[l.extensionsStart..l.extensionsStart + l.extensionsLength], 0)
  }

  /** The parser as the source runs it: header offsets in sequence, then a
      loop over the extension records. */
  method GetServerName(msg: seq<Byte>) returns (r: Result<seq<Byte>, SniError>)
    ensures r == ParseClientHello(msg)
  {
    var header := Header(msg);
    if header.Err? {
      return Err(Truncated);
    }
    var start, extensionsLength := header.value.extensionsStart, header.value.extensionsLength;
    var extensions := msg[start..start + extensionsLength];
    var i: nat := 0;
    var serverName: seq<Byte> := [];
    while i < extensionsLength
      invariant FindServerName(extensions, i) == FindServerName(extensions, 0)
      invariant serverName == []
      decreases extensionsLength - i
    {
      if extensionsLength < i + 4 {
        return Err(Truncated);
      }
      var extensionType := Be16(extensions[i], extensions[i + 1]);
      var length := Be16(extensions[i + 2], extensions[i + 3]);
      if extensionType != 0 {
        i := i + 4 + length;
        continue;
      }
      if extensionsLength < i + 9 {
        return Err(Truncated);
      }
      var nameLength := Be16(extensions[i + 7], extensions[i + 8]);
      if extensionsLength < i + 9 + nameLength {
        return Err(Truncated);
      }
      serverName := extensions[i + 9..i + 9 + nameLength];
      break;
    }
    return Ok(serverName);
  }

  // ---------------------------------------------------------------------------
  // A reference encoder for ClientHello records, the inverse of the parser.

  /** An extension as a client sends it: a server_name extension carrying one
      host name, or any other extension, kept as its type and raw data. */
  datatype Extension = ServerName(host: seq<Byte>) | Other(extType: nat, data: seq<Byte>)

  /** The parts of a ClientHello record the parser looks at; `preamble` is the
      43 bytes of headers, version and random that precede the session id. */
  datatype ClientHello = ClientHello(
    preamble: seq<Byte>,
    sessionId: seq<Byte>,
    cipherSuites: seq<Byte>,
    compressionMethods: seq<Byte>,
    extensions: seq<Extension>)

  predicate ValidExtension(e: Extension)
  {
    match e
    case ServerName(host) => |host| + 5 < 0x1_0000
    case Other(t, data) => 0 < t < 0x1_0000 && |data| < 0x1_0000
  }

  function ExtensionType(e: Extension): nat
  {
    if e.ServerName? then 0 else e.extType
  }

  /** The data of an extension. That of server_name is a list of one entry:
      list length, name type 0 (host_name), name length, name. */
  function ExtensionData(e: Extension): seq<Byte>
    requires ValidExtension(e)
  {
    match e
    case ServerName(host) => ToBe16(|host| + 3) + ([0] + (ToBe16(|host|) + host))
    case Other(_, data) => data
  }

  /** The bytes of one extension: type, length, data. */
  function EncodeExtension(e: Extension): (bs: seq<Byte>)
    requires ValidExtension(e)
    ensures |bs| >= 4
  {
    ToBe16(ExtensionType(e)) + (ToBe16(|ExtensionData(e)|) + ExtensionData(e))
  }

  function EncodeExtensions(es: seq<Extension>): seq<Byte>
    requires forall k :: 0 <= k < |es| ==> ValidExtension(es[k])
  {
    if es == [] then [] else EncodeExtension(es[0]) + EncodeExtensions(es[1..])
  }

  /** The host of the first server_name extension, or empty if none. */
  function FirstServerName(es: seq<Extension>): seq<Byte>
  {
    if es == [] then []
    else if es[0].ServerName? then es[0].host
    else FirstServerName(es[1..])
  }

  predicate ValidHello(h: ClientHello)
  {
    && |h.preamble| == SessionIdLengthOffset
    && |h.sessionId| < 256
    && |h.cipherSuites| < 0x1_0000
    && |h.compressionMethods| < 256
    && (forall k :: 0 <= k < |h.extensions| ==> ValidExtension(h.extensions[k]))
    && |EncodeExtensions(h.extensions)| < 0x1_0000
  }

  function EncodeHello(h: ClientHello): seq<Byte>
    requires ValidHello(h)
  {
    var exts := EncodeExtensions(h.extensions);
    h.preamble + ([|h.sessionId|] + (h.sessionId
      + (ToBe16(|h.cipherSuites|) + (h.cipherSuites
      + ([|h.compressionMethods|] + (h.compressionMethods
      + (ToBe16(|exts|) + exts)))))))
  }

  // ---------------------------------------------------------------------------
  // What the parser does with the records the encoder makes.

  /** Walking an encoded list of extensions that starts at offset `|pre|`
      finds the host of the first server_name extension: every other record
      is stepped over by exactly its own size, and later server_name
      extensions are never reached. */
  lemma {:induction false} WalkEncoded(pre: seq<Byte>, es: seq<Extension>)
    requires forall k :: 0 <= k < |es| ==> ValidExtension(es[k])
    ensures FindServerName(pre + EncodeExtensions(es), |pre|) == Ok(FirstServerName(es))
    decreases |es|
  {
    if es == [] {
      assert pre + EncodeExtensions(es) == pre;
    } else {
      var e, i := es[0], |pre|;
      var enc, rest := EncodeExtension(e), EncodeExtensions(es[1..]);
      assert EncodeExtensions(es) == enc + rest;
      var block := pre + (enc + rest);
      assert block[i..] == enc + rest;
      if e.Other? {
        assert block == (pre + enc) + rest;
        SkipOther(block, i, e, rest, |pre + enc|);
        assert forall k :: 0 <= k < |es[1..]| ==> ValidExtension(es[1..][k]);
        WalkEncoded(pre + enc, es[1..]);
        assert FirstServerName(es) == FirstServerName(es[1..]);
      } else {
        StopAtServerName(block, i, e, rest);
        assert FirstServerName(es) == e.host;
      }
    }
  }

  /** A record of another type is stepped over by exactly its own size. */
  lemma SkipOther(block: seq<Byte>, i: nat, e: Extension, rest: seq<Byte>, next: nat)
    requires e.Other? && ValidExtension(e) && i <= |block| && block[i..] == EncodeExtension(e) + rest
    requires next == i + |EncodeExtension(e)|
    ensures FindServerName(block, i) == FindServerName(block, next)
  {
    ExtensionAt(block, i, e, rest);
  }

  /** A server_name record ends the walk with its host. */
  lemma StopAtServerName(block: seq<Byte>, i: nat, e: Extension, rest: seq<Byte>)
    requires e.ServerName? && ValidExtension(e) && i <= |block| && block[i..] == EncodeExtension(e) + rest
    ensures FindServerName(block, i) == Ok(e.host)
  {
    ExtensionAt(block, i, e, rest);
    HostAt(block, i + 4, e.host);
  }

  /** The type and length fields of an encoded extension, and where its data
      lies. */
  lemma ExtensionAt(block: seq<Byte>, i: nat, e: Extension, rest: seq<Byte>)
    requires ValidExtension(e) && i <= |block| && block[i..] == EncodeExtension(e) + rest
    ensures |EncodeExtension(e)| == 4 + |ExtensionData(e)| && i + 4 + |ExtensionData(e)| <= |block|
    ensures Be16(block[i], block[i + 1]) == ExtensionType(e)
    ensures Be16(block[i + 2], block[i + 3]) == |ExtensionData(e)|
    ensures block[i + 4..i + 4 + |ExtensionData(e)|] == ExtensionData(e)
  {
    var data := ExtensionData(e);
    var enc := EncodeExtension(e);
    assert Be16(block[i], block[i + 1]) == ExtensionType(e) by {
      assert block[i] == enc[0] && block[i + 1] == enc[1];
    }
    assert Be16(block[i + 2], block[i + 3]) == |data| by {
      assert block[i + 2] == enc[2] && block[i + 3] == enc[3];
    }
    assert block[i + 4..i + 4 + |data|] == data by {
      assert block[i + 4..i + 4 + |data|] == enc[4..];
    }
  }

  /** The name length and the name inside server_name data. */
  lemma HostAt(block: seq<Byte>, j: nat, host: seq<Byte>)
    requires ValidExtension(ServerName(host))
    requires j + |ExtensionData(ServerName(host))| <= |block|
    requires block[j..j + |ExtensionData(ServerName(host))|] == ExtensionData(ServerName(host))
    ensures j + 5 + |host| <= |block|
    ensures Be16(block[j + 3], block[j + 4]) == |host|
    ensures block[j + 5..j + 5 + |host|] == host
  {
    var data := ExtensionData(ServerName(host));
    assert block[j + 3] == data[3] && block[j + 4] == data[4];
    assert block[j + 5..j + 5 + |host|] == data[5..];
  }

  /** Where the header puts the extensions block: the session-id length is
      the byte at offset 43, the cipher-suites length the big-endian pair
      after the session id, the compression-methods length the byte after the
      cipher suites, the extensions length the big-endian pair after the
      compression methods, and the block starts right after that pair. */
  lemma HeaderLayout(msg: seq<Byte>, sid: nat, cs: nat, cm: nat, el: nat)
    requires 49 + sid + cs + cm + el <= |msg|
    requires msg[43] == sid && Be16(msg[44 + sid], msg[45 + sid]) == cs
    requires msg[46 + sid + cs] == cm
    requires Be16(msg[47 + sid + cs + cm], msg[48 + sid + cs + cm]) == el
    ensures Header(msg) == Ok(Layout(sid, cs, cm, 46 + sid + cs + 1 + cm + 2, el))
  {
  }

  /** Stepping over the front of a suffix: when `a + b` starts at offset
      `n`, `b` starts at `next`, `n + |a|`. */
  lemma DropPrefix(m: seq<Byte>, n: nat, a: seq<Byte>, b: seq<Byte>, next: nat)
    requires n <= |m| && m[n..] == a + b && next == n + |a|
    ensures next <= |m| && m[next..] == b
    ensures |a| > 0 ==> m[n] == a[0]
    ensures |a| > 1 ==> m[n + 1] == a[1]
  {
    assert m[next..] == m[n..][|a|..];
    if |a| > 0 {
      assert m[n] == m[n..][0];
    }
    if |a| > 1 {
      assert m[n + 1] == m[n..][1];
    }
  }

  /** A field behind a one-byte length: the length sits at `n`, and what
      follows the field starts at `next`. */
  lemma Field8(m: seq<Byte>, n: nat, body: seq<Byte>, rest: seq<Byte>, next: nat)
    requires |body| < 256 && n <= |m| && m[n..] == [|body|] + (body + rest) && next == n + 1 + |body|
    ensures m[n] == |body| && m[next..] == rest
  {
    DropPrefix(m, n, [|body|], body + rest, n + 1);
    DropPrefix(m, n + 1, body, rest, next);
  }

  /** A field behind a big-endian two-byte length. */
  lemma Field16(m: seq<Byte>, n: nat, body: seq<Byte>, rest: seq<Byte>, next: nat)
    requires |body| < 0x1_0000 && n <= |m| && m[n..] == ToBe16(|body|) + (body + rest)
    requires next == n + 2 + |body|
    ensures n + 1 < |m| && Be16(m[n], m[n + 1]) == |body| && m[next..] == rest
  {
    DropPrefix(m, n, ToBe16(|body|), body + rest, n + 2);
    DropPrefix(m, n + 2, body, rest, next);
  }

  /** The front of a record laid out as the encoder lays it out: the
      session id and the cipher suites behind their lengths. */
  lemma FrontFields(msg: seq<Byte>, preamble: seq<Byte>, sessionId: seq<Byte>, suites: seq<Byte>,
                    rest: seq<Byte>)
    requires |preamble| == 43 && |sessionId| < 256 && |suites| < 0x1_0000
    requires msg == preamble + ([|sessionId|] + (sessionId + (ToBe16(|suites|) + (suites + rest))))
    ensures |msg| == 46 + |sessionId| + |suites| + |rest|
    ensures msg[43] == |sessionId|
    ensures Be16(msg[44 + |sessionId|], msg[45 + |sessionId|]) == |suites|
    ensures msg[46 + |sessionId| + |suites|..] == rest
  {
    var sid, cs := |sessionId|, |suites|;
    var t1 := ToBe16(cs) + (suites + rest);
    var t0 := [sid] + (sessionId + t1);
    assert msg[0..] == msg;
    DropPrefix(msg, 0, preamble, t0, 43);
    Field8(msg, 43, sessionId, t1, 44 + sid);
    Field16(msg, 44 + sid, suites, rest, 46 + sid + cs);
  }

  /** The back of such a record, from offset `n`: the compression methods
      behind their length, then the extensions length and the extensions. */
  lemma BackFields(msg: seq<Byte>, n: nat, methods: seq<Byte>, exts: seq<Byte>)
    requires |methods| < 256 && |exts| < 0x1_0000
    requires n <= |msg| && msg[n..] == [|methods|] + (methods + (ToBe16(|exts|) + exts))
    ensures |msg| == n + 3 + |methods| + |exts|
    ensures msg[n] == |methods|
    ensures Be16(msg[n + 1 + |methods|], msg[n + 2 + |methods|]) == |exts|
    ensures msg[n + 3 + |methods|..] == exts
  {
    var cm := |methods|;
    Field8(msg, n, methods, ToBe16(|exts|) + exts, n + 1 + cm);
    DropPrefix(msg, n + 1 + cm, ToBe16(|exts|), exts, n + 3 + cm);
  }

  /** The header of a record laid out as the encoder lays it out names its
      parts, and the extensions block fills the rest of the record. */
  lemma LaidOutHeader(msg: seq<Byte>, preamble: seq<Byte>, sessionId: seq<Byte>, suites: seq<Byte>,
                      methods: seq<Byte>, exts: seq<Byte>)
    requires |preamble| == 43 && |sessionId| < 256 && |suites| < 0x1_0000 && |methods| < 256
    requires |exts| < 0x1_0000
    requires msg == preamble + ([|sessionId|] + (sessionId + (ToBe16(|suites|) + (suites
      + ([|methods|] + (methods + (ToBe16(|exts|) + exts)))))))
    ensures Header(msg)
      == Ok(Layout(|sessionId|, |suites|, |methods|, 49 + |sessionId| + |suites| + |methods|, |exts|))
    ensures |msg| == 49 + |sessionId| + |suites| + |methods| + |exts|
    ensures msg[49 + |sessionId| + |suites| + |methods|..] == exts
  {
    var n := 46 + |sessionId| + |suites|;
    FrontFields(msg, preamble, sessionId, suites, [|methods|] + (methods + (ToBe16(|exts|) + exts)));
    BackFields(msg, n, methods, exts);
    HeaderLayout(msg, |sessionId|, |suites|, |methods|, |exts|);
  }

  /** The header of an encoded ClientHello names its own parts, and the
      extensions block fills the rest of the record. */
  lemma HeaderOfEncoded(h: ClientHello)
    requires ValidHello(h)
    ensures Header(EncodeHello(h))
      == Ok(Layout(|h.sessionId|, |h.cipherSuites|, |h.compressionMethods|,
                   49 + |h.sessionId| + |h.cipherSuites| + |h.compressionMethods|,
                   |EncodeExtensions(h.extensions)|))
    ensures |EncodeHello(h)|
      == 49 + |h.sessionId| + |h.cipherSuites| + |h.compressionMethods| + |EncodeExtensions(h.extensions)|
    ensures EncodeHello(h)[49 + |h.sessionId| + |h.cipherSuites| + |h.compressionMethods|..]
      == EncodeExtensions(h.extensions)
  {
    LaidOutHeader(EncodeHello(h), h.preamble, h.sessionId, h.cipherSuites, h.compressionMethods,
      EncodeExtensions(h.extensions));
  }

  /** Round trip: parsing the record the encoder makes yields the host of its
      first server_name extension, or the empty name when it has none,
      whatever bytes follow the record in the buffer. */
  lemma ParseEncodedHello(h: ClientHello, trailing: seq<Byte>)
    requires ValidHello(h)
    ensures ParseClientHello(EncodeHello(h) + trailing) == Ok(FirstServerName(h.extensions))
  {
    var msg := EncodeHello(h) + trailing;
    HeaderOfEncoded(h);
    HeaderExtends(EncodeHello(h), trailing);
    var l := Header(msg).value;
    var exts := EncodeExtensions(h.extensions);
    assert msg[l.extensionsStart..l.extensionsStart + l.extensionsLength] == exts;
    WalkEncoded([], h.extensions);
    assert [] + exts == exts;
  }

  /** Bytes after a complete header change nothing about it. */
  lemma HeaderExtends(m: seq<Byte>, more: seq<Byte>)
    requires Header(m).Ok?
    ensures Header(m + more) == Header(m)
  {
    var msg := m + more;
    assert forall k :: 0 <= k < |m| ==> msg[k] == m[k];
  }

  /** The parser reads nothing past the extensions block: once a buffer holds
      the whole header and block, appending bytes (such as the zero-filled
      rest of a receive buffer) leaves the result, success or failure, as it
      was. */
  lemma ParseExtends(m: seq<Byte>, more: seq<Byte>)
    requires Header(m).Ok?
    ensures ParseClientHello(m + more) == ParseClientHello(m)
  {
    HeaderExtends(m, more);
    var l := Header(m).value;
    var msg := m + more;
    assert msg[l.extensionsStart..l.extensionsStart + l.extensionsLength]
        == m[l.extensionsStart..l.extensionsStart + l.extensionsLength];
  }

  /** A ClientHello cut anywhere before the end of its extensions block is
      rejected as truncated, never parsed into a name. */
  lemma TruncatedHelloRejected(h: ClientHello, n: nat)
    requires ValidHello(h) && n < |EncodeHello(h)|
    ensures ParseClientHello(EncodeHello(h)[..n]) == Err(Truncated)
  {
    var full := EncodeHello(h);
    var m := full[..n];
    HeaderOfEncoded(h);
    assert m + full[n..] == full;
    if Header(m).Ok? {
      HeaderExtends(m, full[n..]);
      assert false;
    }
  }

  /** A buffer that agrees with a well-formed record up to the extensions
      length, and has two zero bytes there, parses as a record with an empty
      extensions block: the empty name. */
  lemma EmptyBlockAfterCut(full: seq<Byte>, buf: seq<Byte>, n: nat)
    requires Header(full).Ok? && Header(full).value.extensionsStart == n + 2
    requires n + 2 <= |buf| && buf[..n] == full[..n]
    requires buf[n] == 0 && buf[n + 1] == 0
    ensures Header(buf) == Ok(Header(full).value.(extensionsLength := 0))
    ensures ParseClientHello(buf) == Ok([])
  {
    var l := Header(full).value;
    var sid := full[SessionIdLengthOffset];
    assert l.sessionIdLength == sid;
    assert buf[SessionIdLengthOffset] == buf[..n][SessionIdLengthOffset];
    assert buf[44 + sid] == buf[..n][44 + sid] && buf[45 + sid] == buf[..n][45 + sid];
    var cmStart := 46 + sid + l.cipherSuitesLength;
    assert buf[cmStart] == buf[..n][cmStart];
    assert buf[n + 2..n + 2] == [];
  }

  /** The header reads nothing at or past the start of the extensions block:
      a buffer that agrees with a well-formed record up to there, and is long
      enough for the block it declares, has the same header. */
  lemma HeaderOfAgreeing(full: seq<Byte>, buf: seq<Byte>, n: nat)
    requires Header(full).Ok? && Header(full).value.extensionsStart <= n <= |full|
    requires n <= |buf| && buf[..n] == full[..n]
    requires Header(full).value.extensionsStart + Header(full).value.extensionsLength <= |buf|
    ensures Header(buf) == Header(full)
  {
    var l := Header(full).value;
    var sid := full[SessionIdLengthOffset];
    assert buf[SessionIdLengthOffset] == buf[..n][SessionIdLengthOffset];
    assert buf[44 + sid] == buf[..n][44 + sid] && buf[45 + sid] == buf[..n][45 + sid];
    var cmStart := 46 + sid + l.cipherSuitesLength;
    assert buf[cmStart] == buf[..n][cmStart];
    var elStart := cmStart + 1 + l.compressionMethodsLength;
    assert buf[elStart] == buf[..n][elStart] && buf[elStart + 1] == buf[..n][elStart + 1];
  }

  /** A 71-byte ClientHello whose first extension is a record of type 10
      with 10 bytes of data, followed by a 5-byte record of type 0xff01. */
  function SplitHello(): ClientHello
  {
    ClientHello(Zeros(43), [], [0x13, 0x01], [0], [Other(0x0a, Zeros(10)), Other(0xff01, [0])])
  }

  lemma SplitExtensions()
    ensures ValidHello(SplitHello())
    ensures |EncodeExtensions(SplitHello().extensions)| == 19
    ensures EncodeExtensions(SplitHello().extensions)[..4] == [0, 10, 0, 10]
  {
    var h := SplitHello();
    var first, second := h.extensions[0], h.extensions[1];
    assert h.extensions[1..] == [second] && [second][1..] == [];
    assert ToBe16(10) == [0, 10];
    assert EncodeExtensions(h.extensions) == EncodeExtension(first) + EncodeExtension(second);
    assert EncodeExtension(first) == [0, 10] + ([0, 10] + Zeros(10));
  }

  lemma SplitHelloLayout()
    ensures ValidHello(SplitHello()) && |EncodeHello(SplitHello())| == 71
    ensures Header(EncodeHello(SplitHello())) == Ok(Layout(0, 2, 1, 52, 19))
    ensures EncodeHello(SplitHello())[52..56] == [0, 10, 0, 10]
  {
    SplitExtensions();
    HeaderOfEncoded(SplitHello());
    var e, exts := EncodeHello(SplitHello()), EncodeExtensions(SplitHello().extensions);
    assert e[52..56] == e[52..][..4];
  }

  /** With that header, the walk skips the first record to offset 14 of the
      19-byte block; zeros there read as a server_name record whose name
      length would lie past the block's end. */
  lemma SkipIntoPadding(buf: seq<Byte>)
    requires Header(buf) == Ok(Layout(0, 2, 1, 52, 19))
    requires buf[52..56] == [0, 10, 0, 10] && buf[66] == 0 && buf[67] == 0
    ensures ParseClientHello(buf) == Err(Truncated)
  {
    var block := buf[52..71];
    assert block[..4] == buf[52..56];
    assert block[0] == 0 && block[1] == 10 && block[2] == 0 && block[3] == 10;
    assert block[14] == 0 && block[15] == 0;
    assert FindServerName(block, 14) == Err(Truncated);
  }
}

/** A TCP stream seen from one end, as a script of what successive `read`
    calls return and a log of every byte written to it. This replaces the
    sockets of the proxy: nothing here touches a network. */
module Streams {
  import opened Common

  /** What one `read` call yields. `Data([])` is the zero-length read by which
      the peer signals that it closed; `Timeout` is the error a socket with a
      read timeout returns when nothing arrived in time. On a socket without a
      read timeout, the same outcome stands for any other read error. */
  datatype ReadOutcome = Timeout | Data(bytes: seq<Byte>)

  /** How much of a script is left, counting every outcome and every byte. */
  function Backlog(q: seq<ReadOutcome>): nat
  {
    if q == [] then 0 else 1 + (if q[0].Data? then |q[0].bytes| else 0) + Backlog(q[1..])
  }

  /** One `read` into a buffer of `cap` bytes: the next outcome of the script,
      cut to the buffer size when more has arrived than fits (the rest stays
      pending for the next read). Once the script is used up nothing more
      arrives, and a read times out. */
  function NextRead(q: seq<ReadOutcome>, cap: nat): (r: (ReadOutcome, seq<ReadOutcome>))
    requires cap > 0
    ensures r.0.Data? ==> |r.0.bytes| <= cap
    ensures q != [] ==> Backlog(r.1) < Backlog(q)
    ensures q == [] ==> r == (Timeout, [])
  {
    if q == [] then (Timeout, [])
    else
      match q[0]
      case Timeout => (Timeout, q[1..])
      case Data(b) =>
        if |b| <= cap then (Data(b), q[1..])
        else
          var rest := [Data(b[cap..])] + q[1..];
          assert rest[1..] == q[1..];
          (Data(b[..cap]), rest)
  }

  /** The bytes that are pending on a stream right now: the payloads, in
      order, up to the first timeout or close. */
  function PendingBytes(q: seq<ReadOutcome>): seq<Byte>
  {
    if q == [] then []
    else
      match q[0]
      case Timeout => []
      case Data(b) => if b == [] then [] else b + PendingBytes(q[1..])
  }

  /** The peer closes before the next timeout. */
  predicate ClosesFirst(q: seq<ReadOutcome>)
  {
    q != [] &&
    match q[0]
    case Timeout => false
    case Data(b) => b == [] || ClosesFirst(q[1..])
  }

  /** What remains of the script after the first timeout or close. */
  function AfterStop(q: seq<ReadOutcome>): seq<ReadOutcome>
  {
    if q == [] then []
    else if q[0] == Timeout || q[0] == Data([]) then q[1..]
    else AfterStop(q[1..])
  }

  /** One read, seen against the pending bytes: a timeout or a close means
      nothing was pending, and a chunk of data is the head of what was
      pending, the rest of which is still pending afterwards. Splitting an
      arrival across two reads loses and reorders nothing. */
  lemma {:induction false} NextReadStep(q: seq<ReadOutcome>, cap: nat)
    requires cap > 0
    ensures NextRead(q, cap).0 == Timeout ==>
              PendingBytes(q) == [] && !ClosesFirst(q) && NextRead(q, cap).1 == AfterStop(q)
    ensures NextRead(q, cap).0 == Data([]) ==>
              PendingBytes(q) == [] && ClosesFirst(q) && NextRead(q, cap).1 == AfterStop(q)
    ensures NextRead(q, cap).0.Data? && NextRead(q, cap).0.bytes != [] ==>
              && PendingBytes(q) == NextRead(q, cap).0.bytes + PendingBytes(NextRead(q, cap).1)
              && ClosesFirst(q) == ClosesFirst(NextRead(q, cap).1)
              && AfterStop(q) == AfterStop(NextRead(q, cap).1)
  {
    if q != [] && q[0].Data? && |q[0].bytes| > cap {
      var b := q[0].bytes;
      var rest := [Data(b[cap..])] + q[1..];
      assert rest[0] == Data(b[cap..]) && rest[1..] == q[1..];
      assert b[cap..] != [];
      assert b[..cap] + b[cap..] == b;
      calc {
        PendingBytes(q);
        b + PendingBytes(q[1..]);
        (b[..cap] + b[cap..]) + PendingBytes(q[1..]);
        b[..cap] + (b[cap..] + PendingBytes(q[1..]));
        b[..cap] + PendingBytes(rest);
      }
    }
  }

  /** One end of a TCP stream. */
  class Stream {
    /** What the peer will deliver, one outcome per read. */
    var inbox: seq<ReadOutcome>
    /** Every byte written to this stream, in order. */
    var sent: seq<Byte>

    constructor (script: seq<ReadOutcome>)
      ensures inbox == script && sent == []
    {
      inbox := script;
      sent := [];
    }

    /** `read` into a buffer of `cap` bytes. */
    method Read(cap: nat) returns (o: ReadOutcome)
      requires cap > 0
      modifies this`inbox
      ensures (o, inbox) == NextRead(old(inbox), cap)
    {
      var r := NextRead(inbox, cap);
      o, inbox := r.0, r.1;
    }

    /** `write` of a whole buffer. */
    method Write(bytes: seq<Byte>)
      modifies this`sent
      ensures sent == old(sent) + bytes
    {
      sent := sent + bytes;
    }
  }
}

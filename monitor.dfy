/** The monitor: the single consumer of the events that relay workers send.
    It keeps a table of connections and two aggregate traffic totals,
    updates them event by event, and on each idle tick sweeps condemned
    records out of the table and condemns the stale ones. Traffic is counted
    in kilobytes as exact reals. */
module Monitor {
  import opened Common

  /** One row of the table. */
  datatype Connection = Connection(
    id: nat,
    serverName: Option<seq<Byte>>,
    serverPort: nat,
    totalForward: real,
    totalReceive: real,
    lastFrameForward: real,
    lastFrameReceive: real,
    lastTimestamp: nat)

  /** The events relay workers send. */
  datatype MonitorAction =
    | ConnInit(id: nat, port: nat)
    | ProxyOk(id: nat, serverName: seq<Byte>)
    | ForwardTraffic(id: nat, length: real)
    | ReceiveTraffic(id: nat, length: real)
    | Heartbeat(id: nat, timestamp: nat)

  /** The monitor's whole state: the table and the two totals. */
  datatype MonitorState = MonitorState(conns: seq<Connection>, totalForward: real, totalReceive: real)

  /** Seconds without a heartbeat after which a named connection is stale. */
  const NamedTimeout: nat := 10
  /** Seconds without a heartbeat after which a connection still waiting for
      its proxy is stale. */
  const ConnectingTimeout: nat := 60

  /** The record a ConnInit event creates. */
  function NewConnection(id: nat, port: nat, now: nat): Connection
  {
    Connection(id, None, port, 0.0, 0.0, 0.0, 0.0, now)
  }

  /** The position of the first record with this id. */
  function FirstMatch(conns: seq<Connection>, id: nat): (r: Option<nat>)
    ensures r.Some? ==> r.value < |conns| && conns[r.value].id == id
    ensures r.Some? ==> forall j :: 0 <= j < r.value ==> conns[j].id != id
    ensures r.None? ==> forall j :: 0 <= j < |conns| ==> conns[j].id != id
  {
    if conns == [] then None
    else if conns[0].id == id then Some(0)
    else match FirstMatch(conns[1..], id)
      case None => None
      case Some(k) => Some(k + 1)
  }

  /** The forward length an event adds to the aggregate, whether or not its
      connection is in the table. */
  function ForwardLength(a: MonitorAction): real
  {
    if a.ForwardTraffic? then a.length else 0.0
  }

  function ReceiveLength(a: MonitorAction): real
  {
    if a.ReceiveTraffic? then a.length else 0.0
  }

  /** The new value of the first record an event names. */
  function Updated(c: Connection, a: MonitorAction): Connection
    requires !a.ConnInit?
  {
    match a
    case ProxyOk(_, name) => c.(serverName := Some(name))
    case ForwardTraffic(_, length) => c.(totalForward := c.totalForward + length)
    case ReceiveTraffic(_, length) => c.(totalReceive := c.totalReceive + length)
    case Heartbeat(_, timestamp) => c.(lastTimestamp := timestamp)
  }

  /** One event. ConnInit appends a record; every other event changes one
      field of the first record with its id and nothing else, or nothing at
      all when no record has that id. Traffic events add to the aggregate in
      either case. */
  function Dispatch(s: MonitorState, a: MonitorAction, now: nat): (r: MonitorState)
    ensures a.ConnInit? ==> r.conns == s.conns + [NewConnection(a.id, a.port, now)]
    ensures !a.ConnInit? ==> |r.conns| == |s.conns|
    ensures !a.ConnInit? ==>
      forall j :: 0 <= j < |s.conns| && FirstMatch(s.conns, a.id) != Some(j) ==> r.conns[j] == s.conns[j]
    ensures !a.ConnInit? && FirstMatch(s.conns, a.id).Some? ==>
      var k := FirstMatch(s.conns, a.id).value;
      r.conns[k] == Updated(s.conns[k], a)
    ensures r.totalForward == s.totalForward + ForwardLength(a)
    ensures r.totalReceive == s.totalReceive + ReceiveLength(a)
  {
    var conns :=
      if a.ConnInit? then s.conns + [NewConnection(a.id, a.port, now)]
      else match FirstMatch(s.conns, a.id)
        case None => s.conns
        case Some(k) => s.conns[k := Updated(s.conns[k], a)];
    MonitorState(conns, s.totalForward + ForwardLength(a), s.totalReceive + ReceiveLength(a))
  }

  /** The records the sweep keeps: those not condemned, in their order. */
  function Survivors(conns: seq<Connection>): (r: seq<Connection>)
    ensures |r| <= |conns|
    ensures forall c :: c in r ==> c in conns && c.lastTimestamp != 0
  {
    if conns == [] then []
    else if conns[0].lastTimestamp == 0 then Survivors(conns[1..])
    else [conns[0]] + Survivors(conns[1..])
  }

  /** Every timestamp in the table is at most `now`. */
  predicate StampsBefore(conns: seq<Connection>, now: nat)
  {
    forall c :: c in conns ==> c.lastTimestamp <= now
  }

  /** No heartbeat for longer than the timeout for the record's phase. */
  predicate Stale(c: Connection, now: nat)
    requires c.lastTimestamp <= now
  {
    || (c.serverName.Some? && now - c.lastTimestamp > NamedTimeout)
    || (c.serverName.None? && now - c.lastTimestamp > ConnectingTimeout)
  }

  /** A record after the render pass: the last-frame snapshots catch up with
      the totals, and a stale record is condemned. */
  function Refresh(c: Connection, now: nat): (r: Connection)
    requires c.lastTimestamp <= now
    ensures r.lastFrameForward == r.totalForward == c.totalForward
    ensures r.lastFrameReceive == r.totalReceive == c.totalReceive
    ensures r.(lastFrameForward := c.lastFrameForward, lastFrameReceive := c.lastFrameReceive,
               lastTimestamp := c.lastTimestamp) == c
    ensures r.lastTimestamp == 0 || r.lastTimestamp == c.lastTimestamp
  {
    var snapped := c.(lastFrameForward := c.totalForward, lastFrameReceive := c.totalReceive);
    if Stale(c, now) then snapped.(lastTimestamp := 0) else snapped
  }

  /** The render pass over a whole table. Each record keeps its id, name,
      port and totals; its snapshots equal its totals afterwards; its
      timestamp stays unless it was stale, when it becomes 0. */
  function RefreshAll(conns: seq<Connection>, now: nat): (r: seq<Connection>)
    requires StampsBefore(conns, now)
    ensures |r| == |conns|
    ensures forall k :: 0 <= k < |r| ==> r[k] == Refresh(conns[k], now)
    ensures forall k :: 0 <= k < |r| ==>
      && r[k].id == conns[k].id && r[k].serverName == conns[k].serverName
      && r[k].serverPort == conns[k].serverPort
      && r[k].totalForward == conns[k].totalForward && r[k].totalReceive == conns[k].totalReceive
      && r[k].lastFrameForward == r[k].totalForward && r[k].lastFrameReceive == r[k].totalReceive
      && r[k].lastTimestamp == (if Stale(conns[k], now) then 0 else conns[k].lastTimestamp)
  {
    if conns == [] then [] else [Refresh(conns[0], now)] + RefreshAll(conns[1..], now)
  }

  /** `draw`: sweep first, then the render pass over what is left. */
  function DrawState(s: MonitorState, now: nat): (r: MonitorState)
    requires StampsBefore(s.conns, now)
    ensures StampsBefore(r.conns, now)
  {
    s.(conns := RefreshAll(Survivors(s.conns), now))
  }

  /** One turn of the monitor's loop: an event that was waiting, handled at
      time `now`, or an empty channel, which means a render pass. */
  datatype Tick = Received(action: MonitorAction, now: nat) | Idle(now: nat)

  /** A heartbeat is not stamped later than the moment it is handled. */
  predicate NotFromFuture(t: Tick)
  {
    t.Received? && t.action.Heartbeat? ==> t.action.timestamp <= t.now
  }

  /** Clock readings never go backwards and no heartbeat comes from the
      future. */
  predicate Chronological(ticks: seq<Tick>)
  {
    && (forall j, k :: 0 <= j < k < |ticks| ==> ticks[j].now <= ticks[k].now)
    && (forall k :: 0 <= k < |ticks| ==> NotFromFuture(ticks[k]))
  }

  function Step(s: MonitorState, t: Tick): (r: MonitorState)
    requires StampsBefore(s.conns, t.now) && NotFromFuture(t)
    ensures StampsBefore(r.conns, t.now)
  {
    match t
    case Received(a, now) => Dispatch(s, a, now)
    case Idle(now) => DrawState(s, now)
  }

  function Run(s: MonitorState, ticks: seq<Tick>): (r: MonitorState)
    requires Chronological(ticks)
    requires ticks != [] ==> StampsBefore(s.conns, ticks[0].now)
    ensures ticks != [] ==> StampsBefore(r.conns, ticks[|ticks| - 1].now)
    decreases |ticks|
  {
    if ticks == [] then s
    else Run(Step(s, ticks[0]), ticks[1..])
  }

  // ---------------------------------------------------------------------------
  // Properties of the sweep and the render pass.

  /** The sweep keeps exactly the records that are not condemned. */
  lemma {:induction false} SurvivorsMembers(conns: seq<Connection>, c: Connection)
    ensures c in Survivors(conns) <==> c in conns && c.lastTimestamp != 0
  {
    if conns != [] {
      SurvivorsMembers(conns[1..], c);
      assert conns == [conns[0]] + conns[1..];
    }
  }

  /** Sweeping two parts is sweeping the whole: the sweep keeps the order
      of what it keeps. */
  lemma {:induction false} SurvivorsConcat(a: seq<Connection>, b: seq<Connection>)
    ensures Survivors(a + b) == Survivors(a) + Survivors(b)
  {
    if a == [] {
      assert a + b == b;
    } else {
      assert (a + b)[1..] == a[1..] + b;
      SurvivorsConcat(a[1..], b);
    }
  }

  /** The records that remain after this draw and the next sweep: those
      neither condemned nor stale now. */
  function Fresh(conns: seq<Connection>, now: nat): (r: seq<Connection>)
    requires StampsBefore(conns, now)
    ensures forall c :: c in r ==> c in conns
  {
    if conns == [] then []
    else if conns[0].lastTimestamp == 0 || Stale(conns[0], now) then Fresh(conns[1..], now)
    else [conns[0]] + Fresh(conns[1..], now)
  }

  /** A record condemned by staleness stays in the table through the draw
      that condemns it and is gone after the next sweep; what remains then is
      exactly the fresh records, refreshed. */
  lemma {:induction false} SweepAfterDraw(conns: seq<Connection>, now: nat)
    requires StampsBefore(conns, now)
    ensures |RefreshAll(Survivors(conns), now)| == |Survivors(conns)|
    ensures Survivors(RefreshAll(Survivors(conns), now)) == RefreshAll(Fresh(conns, now), now)
  {
    if conns != [] {
      var c := conns[0];
      SweepAfterDraw(conns[1..], now);
      if c.lastTimestamp != 0 {
        var rest := Survivors(conns[1..]);
        assert Survivors(conns) == [c] + rest;
        assert RefreshAll([c] + rest, now) == [Refresh(c, now)] + RefreshAll(rest, now);
        SurvivorsConcat([Refresh(c, now)], RefreshAll(rest, now));
        if !Stale(c, now) {
          assert RefreshAll(Fresh(conns, now), now)
              == [Refresh(c, now)] + RefreshAll(Fresh(conns[1..], now), now);
        }
      }
    }
  }

  /** A zero heartbeat condemns the first record with its id, and the next
      sweep removes that record (and any other condemned one). */
  lemma HeartbeatZeroRemoves(s: MonitorState, id: nat, now: nat)
    requires FirstMatch(s.conns, id).Some?
    ensures var k := FirstMatch(s.conns, id).value;
      Survivors(Dispatch(s, Heartbeat(id, 0), now).conns) == Survivors(s.conns[..k] + s.conns[k + 1..])
  {
    var k := FirstMatch(s.conns, id).value;
    var dead := s.conns[k].(lastTimestamp := 0);
    assert Dispatch(s, Heartbeat(id, 0), now).conns == s.conns[k := dead];
    DropCondemned(s.conns[..k], dead, s.conns[k + 1..]);
    assert s.conns[k := dead] == s.conns[..k] + [dead] + s.conns[k + 1..];
  }

  /** A condemned record in the middle of a table leaves nothing behind. */
  lemma DropCondemned(a: seq<Connection>, dead: Connection, b: seq<Connection>)
    requires dead.lastTimestamp == 0
    ensures Survivors(a + [dead] + b) == Survivors(a + b)
  {
    assert Survivors([dead]) == [] by {
      assert [dead][1..] == [];
    }
    SurvivorsConcat(a, [dead]);
    assert Survivors(a + [dead]) == Survivors(a);
    SurvivorsConcat(a + [dead], b);
    SurvivorsConcat(a, b);
  }

  // ---------------------------------------------------------------------------
  // The aggregate totals.

  function ForwardSum(ticks: seq<Tick>): real
  {
    if ticks == [] then 0.0
    else (if ticks[0].Received? then ForwardLength(ticks[0].action) else 0.0) + ForwardSum(ticks[1..])
  }

  function ReceiveSum(ticks: seq<Tick>): real
  {
    if ticks == [] then 0.0
    else (if ticks[0].Received? then ReceiveLength(ticks[0].action) else 0.0) + ReceiveSum(ticks[1..])
  }

  /** The aggregates grow by the length of every traffic event handled,
      including events for ids that are not (or no longer) in the table. */
  lemma {:induction false} RunTotals(s: MonitorState, ticks: seq<Tick>)
    requires Chronological(ticks)
    requires ticks != [] ==> StampsBefore(s.conns, ticks[0].now)
    ensures Run(s, ticks).totalForward == s.totalForward + ForwardSum(ticks)
    ensures Run(s, ticks).totalReceive == s.totalReceive + ReceiveSum(ticks)
    decreases |ticks|
  {
    if ticks != [] {
      RunTotals(Step(s, ticks[0]), ticks[1..]);
    }
  }

  /** Total forward and receive traffic recorded in a table. */
  function TableForward(conns: seq<Connection>): real
  {
    if conns == [] then 0.0 else conns[0].totalForward + TableForward(conns[1..])
  }

  function TableReceive(conns: seq<Connection>): real
  {
    if conns == [] then 0.0 else conns[0].totalReceive + TableReceive(conns[1..])
  }

  /** The table holds no negative traffic and never more than the
      aggregates: the aggregates also count traffic of unknown ids and of
      swept records, so they bound the table rather than equal it. */
  predicate TableWithinTotals(s: MonitorState)
  {
    && (forall c :: c in s.conns ==> c.totalForward >= 0.0 && c.totalReceive >= 0.0)
    && TableForward(s.conns) <= s.totalForward
    && TableReceive(s.conns) <= s.totalReceive
  }

  /** Traffic events never carry a negative length. */
  predicate NonNegativeTraffic(ticks: seq<Tick>)
  {
    forall k :: 0 <= k < |ticks| ==> ticks[k].Received? ==>
      ForwardLength(ticks[k].action) >= 0.0 && ReceiveLength(ticks[k].action) >= 0.0
  }

  lemma {:induction false} TableConcat(a: seq<Connection>, b: seq<Connection>)
    ensures TableForward(a + b) == TableForward(a) + TableForward(b)
    ensures TableReceive(a + b) == TableReceive(a) + TableReceive(b)
  {
    if a == [] {
      assert a + b == b;
    } else {
      assert (a + b)[1..] == a[1..] + b;
      TableConcat(a[1..], b);
    }
  }

  lemma {:induction false} SurvivorsTable(conns: seq<Connection>)
    requires forall c :: c in conns ==> c.totalForward >= 0.0 && c.totalReceive >= 0.0
    ensures TableForward(Survivors(conns)) <= TableForward(conns)
    ensures TableReceive(Survivors(conns)) <= TableReceive(conns)
  {
    if conns != [] {
      SurvivorsTable(conns[1..]);
    }
  }

  lemma {:induction false} RefreshAllTable(conns: seq<Connection>, now: nat)
    requires StampsBefore(conns, now)
    ensures TableForward(RefreshAll(conns, now)) == TableForward(conns)
    ensures TableReceive(RefreshAll(conns, now)) == TableReceive(conns)
  {
    if conns != [] {
      RefreshAllTable(conns[1..], now);
    }
  }

  lemma UpdateTable(conns: seq<Connection>, k: nat, c: Connection)
    requires k < |conns|
    ensures TableForward(conns[k := c]) == TableForward(conns) - conns[k].totalForward + c.totalForward
    ensures TableReceive(conns[k := c]) == TableReceive(conns) - conns[k].totalReceive + c.totalReceive
  {
    assert conns == conns[..k] + [conns[k]] + conns[k + 1..];
    assert conns[k := c] == conns[..k] + [c] + conns[k + 1..];
    TableConcat(conns[..k] + [conns[k]], conns[k + 1..]);
    TableConcat(conns[..k], [conns[k]]);
    TableConcat(conns[..k] + [c], conns[k + 1..]);
    TableConcat(conns[..k], [c]);
  }

  /** One step keeps the table within the aggregates. */
  lemma StepKeepsTableWithinTotals(s: MonitorState, t: Tick)
    requires StampsBefore(s.conns, t.now) && NotFromFuture(t)
    requires TableWithinTotals(s)
    requires t.Received? ==> ForwardLength(t.action) >= 0.0 && ReceiveLength(t.action) >= 0.0
    ensures TableWithinTotals(Step(s, t))
  {
    var r := Step(s, t);
    match t
    case Idle(now) =>
      var swept := Survivors(s.conns);
      SurvivorsTable(s.conns);
      RefreshAllTable(swept, now);
    case Received(a, now) =>
      if a.ConnInit? {
        TableConcat(s.conns, [NewConnection(a.id, a.port, now)]);
      } else if FirstMatch(s.conns, a.id).Some? {
        var k := FirstMatch(s.conns, a.id).value;
        assert r.conns == s.conns[k := Updated(s.conns[k], a)];
        UpdateTable(s.conns, k, Updated(s.conns[k], a));
      } else {
        assert r.conns == s.conns;
      }
  }

  /** Every run keeps the table within the aggregates. */
  lemma {:induction false} RunKeepsTableWithinTotals(s: MonitorState, ticks: seq<Tick>)
    requires Chronological(ticks) && NonNegativeTraffic(ticks)
    requires ticks != [] ==> StampsBefore(s.conns, ticks[0].now)
    requires TableWithinTotals(s)
    ensures TableWithinTotals(Run(s, ticks))
    decreases |ticks|
  {
    if ticks != [] {
      StepKeepsTableWithinTotals(s, ticks[0]);
      RunKeepsTableWithinTotals(Step(s, ticks[0]), ticks[1..]);
    }
  }

  /** Traffic reported for an id the table does not hold is counted in the
      aggregate only: the table is unchanged and the gap between the
      aggregate and the table's sum grows by the reported length. */
  lemma AggregateCountsUnknownIds(s: MonitorState, id: nat, length: real, now: nat)
    requires FirstMatch(s.conns, id).None?
    ensures var r := Dispatch(s, ForwardTraffic(id, length), now);
      && r.conns == s.conns
      && r.totalForward - TableForward(r.conns) == s.totalForward - TableForward(s.conns) + length
    ensures var r := Dispatch(s, ReceiveTraffic(id, length), now);
      && r.conns == s.conns
      && r.totalReceive - TableReceive(r.conns) == s.totalReceive - TableReceive(s.conns) + length
  {
  }

  // ---------------------------------------------------------------------------
  // The monitor as the source runs it: an object whose fields the event loop
  // updates in place.

  class Monitor {
    var connList: seq<Connection>
    var totalForwardTraffic: real
    var totalReceiveTraffic: real

    function State(): MonitorState
      reads this
    {
      MonitorState(connList, totalForwardTraffic, totalReceiveTraffic)
    }

    constructor ()
      ensures State() == MonitorState([], 0.0, 0.0)
    {
      connList := [];
      totalForwardTraffic := 0.0;
      totalReceiveTraffic := 0.0;
    }

    method AddConn(conn: Connection)
      modifies this`connList
      ensures connList == old(connList) + [conn]
    {
      connList := connList + [conn];
    }

    method FindConnById(id: nat) returns (r: Option<nat>)
      ensures r == FirstMatch(connList, id)
    {
      var k := 0;
      while k < |connList|
        invariant 0 <= k <= |connList|
        invariant forall j :: 0 <= j < k ==> connList[j].id != id
      {
        if connList[k].id == id {
          FirstMatchIsFirst(connList, id, k);
          return Some(k);
        }
        k := k + 1;
      }
      return None;
    }

    /** Removes the condemned records in place, one index at a time. */
    method ClearDeadConn()
      modifies this`connList
      ensures connList == Survivors(old(connList))
    {
      ghost var original := connList;
      var i := 0;
      ghost var j := 0;
      while i < |connList|
        invariant 0 <= i <= |connList| && 0 <= j <= |original|
        invariant connList[..i] == Survivors(original[..j])
        invariant connList[i..] == original[j..]
        decreases |connList| - i
      {
        SweepOne(original, j, connList, i);
        if connList[i].lastTimestamp == 0 {
          connList := connList[..i] + connList[i + 1..];
        } else {
          i := i + 1;
        }
        j := j + 1;
      }
      assert original[..j] == original;
    }

    /** The state updates of `draw`: sweep, then per record catch the
        snapshots up and condemn it if stale. */
    method Draw(now: nat)
      requires StampsBefore(connList, now)
      modifies this`connList
      ensures State() == DrawState(old(State()), now)
    {
      ClearDeadConn();
      RenderPass(now);
    }

    /** The loop of `draw` over the swept table, updating each record in
        place. */
    method RenderPass(now: nat)
      requires StampsBefore(connList, now)
      modifies this`connList
      ensures connList == RefreshAll(old(connList), now)
    {
      ghost var swept := connList;
      for k := 0 to |connList|
        invariant |connList| == |swept|
        invariant forall j :: 0 <= j < k ==> connList[j] == Refresh(swept[j], now)
        invariant forall j :: k <= j < |connList| ==> connList[j] == swept[j]
      {
        var conn := connList[k];
        conn := conn.(lastFrameForward := conn.totalForward, lastFrameReceive := conn.totalReceive);
        if conn.serverName.Some? && now - conn.lastTimestamp > NamedTimeout {
          conn := conn.(lastTimestamp := 0);
        }
        if conn.serverName.None? && now - conn.lastTimestamp > ConnectingTimeout {
          conn := conn.(lastTimestamp := 0);
        }
        assert swept[k] in swept;
        connList := connList[k := conn];
      }
    }

    /** One event from the channel. */
    method Handle(action: MonitorAction, now: nat)
      modifies this
      ensures State() == Dispatch(old(State()), action, now)
    {
      ghost var s := State();
      match action
      case ConnInit(id, port) =>
        AddConn(NewConnection(id, port, now));
        assert State() == Dispatch(s, action, now);
      case ProxyOk(id, name) =>
        var found := FindConnById(id);
        if found.Some? {
          var k := found.value;
          connList := connList[k := connList[k].(serverName := Some(name))];
        }
        DispatchFound(s, action, now, found);
        assert State() == Dispatch(s, action, now);
      case ForwardTraffic(id, length) =>
        var found := FindConnById(id);
        if found.Some? {
          var k := found.value;
          connList := connList[k := connList[k].(totalForward := connList[k].totalForward + length)];
        }
        totalForwardTraffic := totalForwardTraffic + length;
        DispatchFound(s, action, now, found);
        assert State() == Dispatch(s, action, now);
      case ReceiveTraffic(id, length) =>
        var found := FindConnById(id);
        if found.Some? {
          var k := found.value;
          connList := connList[k := connList[k].(totalReceive := connList[k].totalReceive + length)];
        }
        totalReceiveTraffic := totalReceiveTraffic + length;
        DispatchFound(s, action, now, found);
        assert State() == Dispatch(s, action, now);
      case Heartbeat(id, timestamp) =>
        var found := FindConnById(id);
        if found.Some? {
          var k := found.value;
          connList := connList[k := connList[k].(lastTimestamp := timestamp)];
        }
        DispatchFound(s, action, now, found);
        assert State() == Dispatch(s, action, now);
    }

    /** One turn of `start`: an event waiting in the channel is handled, an
        empty channel means a render pass. */
    method Turn(t: Tick)
      requires StampsBefore(connList, t.now) && NotFromFuture(t)
      modifies this
      ensures State() == Step(old(State()), t)
    {
      match t {
        case Received(action, now) =>
          Handle(action, now);
        case Idle(now) =>
          Draw(now);
      }
    }

    /** The event loop `start`, over a finite run of ticks. */
    method Start(ticks: seq<Tick>)
      requires Chronological(ticks)
      requires ticks != [] ==> StampsBefore(connList, ticks[0].now)
      modifies this
      ensures State() == Run(old(State()), ticks)
    {
      var k := 0;
      while k < |ticks|
        invariant 0 <= k <= |ticks|
        invariant Chronological(ticks[k..])
        invariant k < |ticks| ==> StampsBefore(connList, ticks[k].now)
        invariant Run(old(State()), ticks) == Run(State(), ticks[k..])
      {
        RunUnfold(State(), ticks[k..]);
        assert ticks[k..][1..] == ticks[k + 1..];
        Turn(ticks[k]);
        k := k + 1;
      }
    }
  }

  /** One step of a run: the first tick is handled in a state it may be
      handled in, and the rest of the run starts from the state it leaves. */
  lemma RunUnfold(s: MonitorState, ticks: seq<Tick>)
    requires Chronological(ticks) && ticks != [] && StampsBefore(s.conns, ticks[0].now)
    ensures NotFromFuture(ticks[0]) && Chronological(ticks[1..])
    ensures |ticks| > 1 ==> StampsBefore(Step(s, ticks[0]).conns, ticks[1].now)
    ensures Run(s, ticks) == Run(Step(s, ticks[0]), ticks[1..])
  {
    var r := Step(s, ticks[0]).conns;
    if |ticks| > 1 {
      assert ticks[0].now <= ticks[1].now;
      assert forall c :: c in r ==> c.lastTimestamp <= ticks[1].now;
    }
  }

  /** One index of the in-place sweep: a condemned record is cut out of the
      list, any other is kept, and either way the swept prefix and the
      unvisited suffix stay in step with the original list. */
  lemma SweepOne(original: seq<Connection>, j: nat, list: seq<Connection>, i: nat)
    requires i < |list| && j <= |original|
    requires list[..i] == Survivors(original[..j]) && list[i..] == original[j..]
    ensures j < |original|
    ensures list[i].lastTimestamp == 0 ==>
      var next := list[..i] + list[i + 1..];
      next[..i] == Survivors(original[..j + 1]) && next[i..] == original[j + 1..]
    ensures list[i].lastTimestamp != 0 ==>
      list[..i + 1] == Survivors(original[..j + 1]) && list[i + 1..] == original[j + 1..]
  {
    assert list[i..][0] == list[i];
    var c := original[j];
    assert list[i] == c && list[i + 1..] == original[j + 1..];
    assert original[..j + 1] == original[..j] + [c];
    SurvivorsConcat(original[..j], [c]);
    assert [c][1..] == [];
    if c.lastTimestamp == 0 {
      var next := list[..i] + list[i + 1..];
      assert next[..i] == list[..i] && next[i..] == list[i + 1..];
    } else {
      assert list[..i + 1] == list[..i] + [c];
    }
  }

  /** An event other than ConnInit, once the first record with its id has
      been looked up. */
  lemma DispatchFound(s: MonitorState, a: MonitorAction, now: nat, found: Option<nat>)
    requires !a.ConnInit? && found == FirstMatch(s.conns, a.id)
    ensures Dispatch(s, a, now) == MonitorState(
      if found.Some? then s.conns[found.value := Updated(s.conns[found.value], a)] else s.conns,
      s.totalForward + ForwardLength(a), s.totalReceive + ReceiveLength(a))
  {
  }

  /** A match at `k` with no match before it is what FirstMatch finds. */
  lemma {:induction false} FirstMatchIsFirst(conns: seq<Connection>, id: nat, k: nat)
    requires k < |conns| && conns[k].id == id
    requires forall j :: 0 <= j < k ==> conns[j].id != id
    ensures FirstMatch(conns, id) == Some(k)
  {
    if k > 0 {
      FirstMatchIsFirst(conns[1..], id, k - 1);
    }
  }
}

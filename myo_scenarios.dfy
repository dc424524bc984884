/** Client-side runs of a session: how a host drives `Myo` through its
    callbacks, and what the transport sees as a result. */
module MyoScenarios {
  import opened MyoConstants
  import opened CommandList
  import opened MyoGatt
  import opened MyoSession

  /** The requests the two queues stand for, writes first. */
  function Ops(writes: seq<Descriptor>, queuedReads: seq<Characteristic>): (ops: seq<GattOp>)
    ensures |ops| == |writes| + |queuedReads|
  {
    seq(|writes|, i requires 0 <= i < |writes| => WriteDesc(writes[i]))
      + seq(|queuedReads|, i requires 0 <= i < |queuedReads| => ReadChar(queuedReads[i].uuid))
  }

  /** The queued requests not yet issued: all but the outstanding head. */
  function Unissued(writes: seq<Descriptor>, queuedReads: seq<Characteristic>): seq<GattOp> {
    var ops := Ops(writes, queuedReads);
    if ops == [] then [] else ops[1..]
  }

  /** Taking one request off the queues moves the new head from the unissued
      requests to the issued ones. */
  lemma UnissuedStep(writes: seq<Descriptor>, queuedReads: seq<Characteristic>)
    requires writes != [] || queuedReads != []
    ensures writes != [] ==>
      Unissued(writes, queuedReads)
      == Issued(NextRequest(writes[1..], queuedReads)) + Unissued(writes[1..], queuedReads)
    ensures writes == [] ==>
      Unissued(writes, queuedReads)
      == Issued(NextRequest(writes, queuedReads[1..])) + Unissued(writes, queuedReads[1..])
  {
    var ops := Ops(writes, queuedReads);
    var w', r' := if writes != [] then writes[1..] else writes,
                  if writes != [] then queuedReads else queuedReads[1..];
    var next := Ops(w', r');
    assert ops[1..] == next;
    if next != [] {
      assert Issued(NextRequest(w', r')) == [next[0]];
      assert next == [next[0]] + next[1..];
    }
  }

  /** One completion callback keeps "issued so far, then still unissued"
      fixed. */
  lemma DrainStep(whole: seq<GattOp>, t: seq<GattOp>,
                  w: seq<Descriptor>, r: seq<Characteristic>, w': seq<Descriptor>, r': seq<Characteristic>)
    requires t + Unissued(w, r) == whole
    requires (w != [] && w' == w[1..] && r' == r) || (w == [] && r != [] && w' == [] && r' == r[1..])
    ensures t + Issued(NextRequest(w', r')) + Unissued(w', r') == whole
  {
    UnissuedStep(w, r);
  }

  /** The head request followed by the unissued ones is every queued
      request, writes first, each queue in order. */
  lemma RequestOrder(writes: seq<Descriptor>, queuedReads: seq<Characteristic>)
    ensures Issued(NextRequest(writes, queuedReads)) + Unissued(writes, queuedReads) == Ops(writes, queuedReads)
  {
    var ops := Ops(writes, queuedReads);
    if ops != [] {
      assert Issued(NextRequest(writes, queuedReads)) == [ops[0]];
      assert ops == [ops[0]] + ops[1..];
    }
  }

  /** The transport delivers one completion callback per outstanding request
      until both queues are empty. Under write precedence the requests still
      queued go out exactly in queue order, writes first, and nothing else
      is issued. */
  method DrainQueues(m: Myo)
    requires m.WritesFirst()
    modifies m`writeQueue, m`readQueue, m`transport, m`writePending, m`readPending
    ensures m.writeQueue == [] && m.readQueue == [] && m.WritesFirst()
    ensures m.transport == old(m.transport) + Unissued(old(m.writeQueue), old(m.readQueue))
  {
    while m.writeQueue != [] || m.readQueue != []
      invariant m.WritesFirst()
      invariant m.transport + Unissued(m.writeQueue, m.readQueue)
                == old(m.transport) + Unissued(old(m.writeQueue), old(m.readQueue))
      decreases |m.writeQueue| + |m.readQueue|
    {
      ghost var w, r, t := m.writeQueue, m.readQueue, m.transport;
      if m.writeQueue != [] {
        m.OnDescriptorWrite();
      } else {
        m.OnCharacteristicRead();
      }
      DrainStep(old(m.transport) + Unissued(old(m.writeQueue), old(m.readQueue)),
                t, w, r, m.writeQueue, m.readQueue);
    }
    assert Unissued([], []) == [];
  }

  /** A fresh session that has discovered `server` and then received every
      completion callback: the head request goes out during discovery, ahead
      of the keep-awake command write, and the others follow in queue order,
      so (`RequestOrder`) every descriptor write the EMG and IMU lookups
      queued goes out, in order, before the information read. */
  method DiscoverThenDrain(m: Myo, server: GattServer, now: int)
    requires m.writeQueue == [] && m.readQueue == [] && !m.writePending && !m.readPending
    modifies m
    ensures m.writeQueue == [] && m.readQueue == [] && m.WritesFirst()
    ensures var ws, rs := EmgWrites(server) + ImuWrites(server), ControlReads(server);
      m.transport == old(m.transport) + Issued(NextRequest(ws, rs))
                     + KeepAwakeWrite(CommandOf(server), m.gattOpen) + Unissued(ws, rs)
  {
    ghost var t0 := m.transport;
    m.OnServicesDiscovered(server, GATT_SUCCESS, now);
    ghost var ws, rs := m.writeQueue, m.readQueue;
    ghost var head := Issued(NextRequest(ws, rs));
    ghost var keepAwake := KeepAwakeWrite(CommandOf(server), m.gattOpen);
    assert ws == EmgWrites(server) + ImuWrites(server) && rs == ControlReads(server);
    assert FirstWrite([], ws) + ReadIssued([], ws, rs) == head;
    assert m.transport == t0 + head + keepAwake;
    ghost var t1 := m.transport;
    DrainQueues(m);
    assert m.transport == t1 + Unissued(ws, rs);
  }

  /** `writeDescriptor` issues its write as soon as the write queue was empty,
      even while a characteristic read is outstanding: write precedence then
      no longer holds. A lookup that queues descriptors after the information
      read has gone out, such as a second discovery, reaches this state. */
  method WriteDuringRead(m: Myo, d: Descriptor)
    requires m.writeQueue == [] && m.readQueue != [] && m.WritesFirst()
    modifies m`writeQueue, m`transport, m`writePending
    ensures m.transport == old(m.transport) + [WriteDesc(d)]
    ensures m.writePending && m.readPending
    ensures !m.WritesFirst()
  {
    m.WriteDescriptor(d);
  }

  /** A control service whose command characteristic accepts writes. */
  function ControlOnly(): (g: GattServer)
    ensures g.WellFormed()
  {
    GattServer(map[SERVICE_CONTROL_ID := Service(map[CHAR_COMMAND_ID :=
      Characteristic(CHAR_COMMAND_ID, PROPERTY_WRITE, [], false, false)])])
  }

  /** Connect, link up and discover a device offering only the control
      service: the session is READY, has written the keep-awake command once
      and restarted its keep-alive clock. */
  method ConnectToReady(now: int) returns (m: Myo)
    ensures fresh(m)
    ensures m.connectionStatus == READY && m.controlStatus == NOT_STREAMING && m.gattOpen
    ensures m.CommandWritable() && m.lastKeepAlive == now
    ensures m.transport == [ConnectGatt, DiscoverServices, WriteChar(UnSleep())]
  {
    m := new Myo();
    m.Connect();
    m.OnConnectionStateChange(STATE_CONNECTED);
    assert m.connectionStatus == CONNECTED && m.transport == [ConnectGatt, DiscoverServices];
    var g := ControlOnly();
    LookupIdsDistinct();
    assert EmgWrites(g) == [] && ImuWrites(g) == [] && ControlReads(g) == [];
    assert CommandOf(g) == Some(Characteristic(CHAR_COMMAND_ID, PROPERTY_WRITE, [], false, false));
    assert FirstWrite([], EmgWrites(g) + ImuWrites(g)) == [];
    assert KeepAwakeWrite(CommandOf(g), true) == [WriteChar(UnSleep())];
    m.OnServicesDiscovered(g, GATT_SUCCESS, now);
  }

  /** From READY: start EMG streaming, stop it, then lose the link and
      disconnect once more; the second disconnect reports the same state
      and closes the link again. */
  method StreamThenDisconnect(m: Myo)
    requires m.connectionStatus == READY && m.CommandWritable() && m.gattOpen
    modifies m
    ensures m.connectionStatus == DISCONNECTED && m.controlStatus == NOT_STREAMING
    ensures m.transport == old(m.transport) + [WriteChar(EmgFilteredOnly()), WriteChar(StopStreaming()),
                                               CloseGatt, CloseGatt]
  {
    var started := m.SendCommand(EmgFilteredOnly());
    assert started && m.controlStatus == STREAMING;
    var stopped := m.SendCommand(StopStreaming());
    StartExcludesStop(StopStreaming());
    assert stopped && m.controlStatus == NOT_STREAMING;
    m.OnConnectionStateChange(STATE_DISCONNECTED);
    m.Disconnect();
  }

  /** `n` keep-awake command writes. */
  function UnSleepWrites(n: nat): (ops: seq<GattOp>)
    ensures |ops| == n && forall i :: 0 <= i < n ==> ops[i] == WriteChar(UnSleep())
  {
    seq(n, _ => WriteChar(UnSleep()))
  }

  /** The keep-alive clock after `sends`, starting from `lastKeepAlive`. */
  function LastSend(lastKeepAlive: int, sends: seq<int>): int {
    if sends == [] then lastKeepAlive else sends[|sends| - 1]
  }

  /** One step of `KeepAliveSends`: the sends over `times` are the sends at
      its head followed by the sends over the rest from the clock they leave. */
  lemma KeepAliveSendsStep(keepAlive: bool, lastKeepAlive: int, times: seq<int>, i: nat)
    requires i < |times|
    ensures var due := KeepAliveDue(keepAlive, lastKeepAlive, times[i]);
      KeepAliveSends(keepAlive, lastKeepAlive, times[i..])
      == (if due then [times[i]] else [])
         + KeepAliveSends(keepAlive, if due then times[i] else lastKeepAlive, times[i + 1..])
  {
    assert times[i..][1..] == times[i + 1..];
  }

  /** Notifications arriving at `times`, in order, each ending with the
      keep-alive step of `onCharacteristicChanged`: the clock ends at the last
      keep-alive sent, and the log gains one keep-awake write per element of
      `KeepAliveSends` (so their spacing is `KeepAliveSpacing`'s). */
  method KeepAliveRun(m: Myo, times: seq<int>)
    modifies m`lastKeepAlive, m`characteristicCommand, m`controlStatus, m`transport
    ensures var sends := KeepAliveSends(m.keepAlive, old(m.lastKeepAlive), times);
      && m.lastKeepAlive == LastSend(old(m.lastKeepAlive), sends)
      && m.transport == old(m.transport)
           + (if old(m.CommandWritable()) && m.gattOpen then UnSleepWrites(|sends|) else [])
    ensures m.CommandWritable() == old(m.CommandWritable()) && m.controlStatus == old(m.controlStatus)
  {
    ghost var sent: seq<int> := [];
    var i := 0;
    while i < |times|
      invariant 0 <= i <= |times|
      invariant KeepAliveSends(m.keepAlive, old(m.lastKeepAlive), times)
                == sent + KeepAliveSends(m.keepAlive, m.lastKeepAlive, times[i..])
      invariant m.lastKeepAlive == LastSend(old(m.lastKeepAlive), sent)
      invariant m.transport == old(m.transport)
                + (if old(m.CommandWritable()) && m.gattOpen then UnSleepWrites(|sent|) else [])
      invariant m.CommandWritable() == old(m.CommandWritable()) && m.controlStatus == old(m.controlStatus)
    {
      KeepAliveSendsStep(m.keepAlive, m.lastKeepAlive, times, i);
      if KeepAliveDue(m.keepAlive, m.lastKeepAlive, times[i]) {
        sent := sent + [times[i]];
      }
      m.KeepAlive(times[i]);
      i := i + 1;
    }
    assert times[i..] == [];
  }

  /** A steady 25-second stream, one notification per millisecond, right
      after the keep-alive clock was set at 0: exactly two keep-awake writes. */
  method TwentyFiveSecondKeepAlive(m: Myo)
    requires m.keepAlive && m.lastKeepAlive == 0 && m.CommandWritable() && m.gattOpen
    modifies m`lastKeepAlive, m`characteristicCommand, m`controlStatus, m`transport
    ensures m.transport == old(m.transport) + [WriteChar(UnSleep()), WriteChar(UnSleep())]
  {
    TwentyFiveSecondStream();
    KeepAliveRun(m, Ticks(1, 25000));
    assert UnSleepWrites(2) == [WriteChar(UnSleep()), WriteChar(UnSleep())];
  }
}

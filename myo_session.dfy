/** One armband session (Myo.kt, together with the stateful half of its
    abstract base MyoEmg.kt): connection and streaming status, the two GATT
    queues that put descriptor writes ahead of characteristic reads, command
    dispatch, notification routing and the keep-alive rule.

    The host stack is replaced by `transport`, the log of operations the
    session issues, and by `GattServer` values that say what discovery found.
    The status subjects become the fields `connectionStatus` and
    `controlStatus`; the data processors become the sequences of samples
    published so far. */
module MyoSession {
  import opened MyoConstants
  import opened CommandList
  import opened MyoGatt
  import opened MyoEmg
  import opened ByteReading

  datatype MyoStatus = CONNECTED | CONNECTING | READY | DISCONNECTED
  datatype MyoControlStatus = STREAMING | NOT_STREAMING

  /** Android's `BluetoothGatt.GATT_SUCCESS`. */
  const GATT_SUCCESS := 0
  /** Android's `BluetoothProfile.STATE_DISCONNECTED` and `STATE_CONNECTED`. */
  const STATE_DISCONNECTED := 0
  const STATE_CONNECTED := 2
  /** Bytes taken from an IMU notification per published sample. */
  const IMU_SAMPLE_SIZE := 10

  /** The frequency setter: values at or above the device maximum become 0
      (no sub-sampling); every other value, negative ones included, is kept. */
  function NormalizeFrequency(value: int): (f: int)
    ensures f < MYO_MAX_FREQUENCY
    ensures f == value || (f == 0 && value >= MYO_MAX_FREQUENCY)
  {
    if value >= MYO_MAX_FREQUENCY then 0 else value
  }

  /** Whatever non-negative value is set, the stream is either delivered
      unsampled or gated with a period between 5 ms and one second; at or
      above the maximum it is unsampled, and just below it the gate is 5 ms. */
  lemma StoredFrequencyPeriod(value: int)
    requires value >= 0
    ensures var d := SamplingFor(NormalizeFrequency(value));
            d.Unsampled? || 5 <= d.periodMs <= 1000
    ensures value >= MYO_MAX_FREQUENCY ==> SamplingFor(NormalizeFrequency(value)).Unsampled?
    ensures SamplingFor(NormalizeFrequency(MYO_MAX_FREQUENCY - 1)) == Sampled(5)
  {
    var f := NormalizeFrequency(value);
    if f != 0 {
      PeriodBounds(f);
    }
    PeriodBounds(MYO_MAX_FREQUENCY - 1);
  }

  /** The status a successfully written command leaves behind: streaming
      after a start command, not streaming after a stop command, otherwise
      unchanged. */
  function ControlStatusAfter(command: Command, status: MyoControlStatus): (s: MyoControlStatus)
    ensures IsStartStreamingCommand(command) ==> s == STREAMING
    ensures IsStopStreamingCommand(command) ==> s == NOT_STREAMING
    ensures !IsStartStreamingCommand(command) && !IsStopStreamingCommand(command) ==> s == status
  {
    if IsStartStreamingCommand(command) then STREAMING
    else if IsStopStreamingCommand(command) then NOT_STREAMING
    else status
  }

  /** A four-byte command with a mode byte set is a start command, as the
      code as written answers without reading past the end. */
  lemma FourByteStartStreams(status: MyoControlStatus)
    ensures IsStartStreamingAsWritten([1, 3, 1, 0]) == Value(true)
    ensures ControlStatusAfter([1, 3, 1, 0], status) == STREAMING
  {
  }

  /** The keep-awake command never changes the streaming status. */
  lemma UnSleepKeepsControlStatus(status: MyoControlStatus)
    ensures ControlStatusAfter(UnSleep(), status) == status
  {
    ShortCommandsDoNotStream(0, COMAND_SLEEP_MODE_NEVER);
  }

  /** The keep-alive rule: enabled, and strictly more than the interval
      since the last keep-alive. */
  predicate KeepAliveDue(keepAlive: bool, lastKeepAlive: int, now: int) {
    keepAlive && now > lastKeepAlive + KEEP_ALIVE_INTERVAL_MS
  }

  /** The times at which keep-alive commands go out when notifications arrive
      at `times`, in order, starting from the keep-alive clock `lastKeepAlive`. */
  function KeepAliveSends(keepAlive: bool, lastKeepAlive: int, times: seq<int>): seq<int>
    decreases |times|
  {
    if times == [] then []
    else if KeepAliveDue(keepAlive, lastKeepAlive, times[0])
    then [times[0]] + KeepAliveSends(keepAlive, times[0], times[1..])
    else KeepAliveSends(keepAlive, lastKeepAlive, times[1..])
  }

  /** Every keep-alive is sent at a notification time, strictly more than the
      interval after the previous one (the first one after the initial clock),
      and none is sent while the flag is off. */
  lemma {:induction false} KeepAliveSpacing(keepAlive: bool, lastKeepAlive: int, times: seq<int>)
    decreases |times|
    ensures var sends := KeepAliveSends(keepAlive, lastKeepAlive, times);
      && (forall i :: 0 <= i < |sends| ==> sends[i] in times)
      && (|sends| > 0 ==> sends[0] > lastKeepAlive + KEEP_ALIVE_INTERVAL_MS)
      && (forall i :: 0 < i < |sends| ==> sends[i] > sends[i - 1] + KEEP_ALIVE_INTERVAL_MS)
      && (!keepAlive ==> sends == [])
  {
    if times != [] {
      var rest := times[1..];
      if KeepAliveDue(keepAlive, lastKeepAlive, times[0]) {
        KeepAliveSpacing(keepAlive, times[0], rest);
        var tail := KeepAliveSends(keepAlive, times[0], rest);
        forall i | 0 <= i < |tail| ensures tail[i] in times {
          assert tail[i] in rest;
        }
      } else {
        KeepAliveSpacing(keepAlive, lastKeepAlive, rest);
      }
    }
  }

  /** Notification times `start`, `start + 1`, ..., one per millisecond. */
  function Ticks(start: int, n: nat): (ts: seq<int>)
    ensures |ts| == n && forall i :: 0 <= i < n ==> ts[i] == start + i
    decreases n
  {
    if n == 0 then [] else [start] + Ticks(start + 1, n - 1)
  }

  /** Under a steady stream of one notification per millisecond, starting
      within one interval of the last keep-alive, one keep-alive goes out per
      10001 ms: a 25-second stream right after READY sends two. */
  lemma {:induction false} SteadyStreamSends(lastKeepAlive: int, start: int, n: nat)
    requires lastKeepAlive < start <= lastKeepAlive + KEEP_ALIVE_INTERVAL_MS + 1
    decreases n
    ensures |KeepAliveSends(true, lastKeepAlive, Ticks(start, n))|
            == (start + n - 1 - lastKeepAlive) / (KEEP_ALIVE_INTERVAL_MS + 1)
  {
    if n > 0 {
      var ts := Ticks(start, n);
      assert ts[0] == start && ts[1..] == Ticks(start + 1, n - 1);
      if KeepAliveDue(true, lastKeepAlive, start) {
        SteadyStreamSends(start, start + 1, n - 1);
      } else {
        SteadyStreamSends(lastKeepAlive, start + 1, n - 1);
      }
    }
  }

  lemma TwentyFiveSecondStream()
    ensures |KeepAliveSends(true, 0, Ticks(1, 25000))| == 2
  {
    SteadyStreamSends(0, 1, 25000);
  }

  /** One IMU notification becomes two 10-byte samples read back to back. */
  function ImuSplit(data: seq<Byte>): (samples: seq<seq<Byte>>)
    requires |data| >= 2 * IMU_SAMPLE_SIZE
    ensures |samples| == 2 && |samples[0]| == |samples[1]| == IMU_SAMPLE_SIZE
    ensures samples[0] + samples[1] == data[..2 * IMU_SAMPLE_SIZE]
  {
    [data[..IMU_SAMPLE_SIZE], data[IMU_SAMPLE_SIZE..2 * IMU_SAMPLE_SIZE]]
  }

  /** The descriptor writes the EMG subscription enqueues. */
  function EmgWrites(g: GattServer): seq<Descriptor> {
    match GetService(g, SERVICE_EMG_DATA_ID)
    case Some(s) => NotificationDescriptors(EmgCharacteristics(s))
    case None => []
  }

  /** The descriptor writes the IMU subscription enqueues. */
  function ImuWrites(g: GattServer): seq<Descriptor> {
    match GetService(g, SERVICE_IMU_DATA_ID)
    case Some(s) => NotificationDescriptors([GetCharacteristic(s, CHAR_IMU_DATA_ID)])
    case None => []
  }

  /** The characteristic reads the control-service lookup enqueues. */
  function ControlReads(g: GattServer): seq<Characteristic> {
    match GetService(g, SERVICE_CONTROL_ID)
    case Some(s) =>
      (match GetCharacteristic(s, CHAR_INFO_ID)
       case Some(c) => [c]
       case None => [])
    case None => []
  }

  /** The command characteristic discovery resolves, if any. */
  function CommandOf(g: GattServer): Option<Characteristic> {
    match GetService(g, SERVICE_CONTROL_ID)
    case Some(s) => GetCharacteristic(s, CHAR_COMMAND_ID)
    case None => None
  }

  /** The write issued when descriptors `added` join the write queue `queued`:
      the first of them, and only if the queue was empty. */
  function FirstWrite(queued: seq<Descriptor>, added: seq<Descriptor>): seq<GattOp> {
    if queued == [] && added != [] then [WriteDesc(added[0])] else []
  }

  /** The read issued when characteristics `added` join the read queue
      `pendingReads` while `pendingWrites` are queued: the first of them, and
      only if both queues were empty. */
  function ReadIssued(pendingReads: seq<Characteristic>, pendingWrites: seq<Descriptor>,
                      added: seq<Characteristic>): seq<GattOp> {
    if pendingReads == [] && pendingWrites == [] && added != [] then [ReadChar(added[0].uuid)] else []
  }

  /** The keep-awake write sending to command characteristic `cmd` issues. */
  function KeepAwakeWrite(cmd: Option<Characteristic>, gattOpen: bool): seq<GattOp> {
    if cmd.Some? && cmd.value.properties == PROPERTY_WRITE && gattOpen then [WriteChar(UnSleep())] else []
  }

  /** Queuing `a` and then `b` issues what queuing `a + b` at once would. */
  lemma FirstWriteAppend(queued: seq<Descriptor>, a: seq<Descriptor>, b: seq<Descriptor>)
    ensures FirstWrite(queued, a) + FirstWrite(queued + a, b) == FirstWrite(queued, a + b)
  {
    if a != [] {
      assert (a + b)[0] == a[0];
    }
  }

  /** The request the queues say should be outstanding: the head write, or
      with no write queued the head read. */
  function NextRequest(writes: seq<Descriptor>, queuedReads: seq<Characteristic>): Option<GattOp> {
    if writes != [] then Some(WriteDesc(writes[0]))
    else if queuedReads != [] then Some(ReadChar(queuedReads[0].uuid))
    else None
  }

  function Issued(op: Option<GattOp>): seq<GattOp> {
    match op
    case Some(o) => [o]
    case None => []
  }

  class Myo {
    /** Sub-sampling frequency in Hz; 0 means every frame is delivered. */
    var frequency: int
    var keepAlive: bool
    var lastKeepAlive: int
    var connectionStatus: MyoStatus
    var controlStatus: MyoControlStatus
    /** Whether `gatt` is non-null, i.e. `connect` has been called. */
    var gattOpen: bool

    var serviceControl: Option<Service>
    var characteristicCommand: Option<Characteristic>
    var characteristicInfo: Option<Characteristic>
    var serviceImu: Option<Service>
    var characteristicImu0: Option<Characteristic>
    var serviceEmg: Option<Service>
    var characteristicEmg0: Option<Characteristic>
    var characteristicEmg1: Option<Characteristic>
    var characteristicEmg2: Option<Characteristic>
    var characteristicEmg3: Option<Characteristic>

    /** Descriptor writes not yet acknowledged; the head is the one issued. */
    var writeQueue: seq<Descriptor>
    /** Characteristic reads not yet acknowledged. */
    var readQueue: seq<Characteristic>
    /** Every operation issued to the transport, oldest first. */
    var transport: seq<GattOp>
    /** Whether the transport is working on a descriptor write (necessarily
        the head of the write queue) and on a characteristic read (the head
        of the read queue). */
    ghost var writePending: bool
    ghost var readPending: bool

    /** Samples published on the EMG and IMU data processors. */
    var emgSamples: seq<seq<Byte>>
    var imuSamples: seq<seq<Byte>>
    const byteReaderEmg: ByteReader
    const byteReaderImu: ByteReader

    ghost predicate Valid()
      reads this, byteReaderEmg, byteReaderImu
    {
      byteReaderEmg != byteReaderImu && byteReaderEmg.Valid() && byteReaderImu.Valid()
    }

    /** Write precedence: exactly the head request is outstanding, so no read
        is outstanding while a write is queued. */
    ghost predicate WritesFirst()
      reads this
    {
      writePending == (writeQueue != []) && readPending == (writeQueue == [] && readQueue != [])
    }

    /** The four EMG characteristic fields, in order. */
    function EmgFields(): seq<Option<Characteristic>>
      reads this
    {
      [characteristicEmg0, characteristicEmg1, characteristicEmg2, characteristicEmg3]
    }

    predicate CommandWritable()
      reads this
    {
      characteristicCommand.Some? && characteristicCommand.value.properties == PROPERTY_WRITE
    }

    constructor ()
      ensures Valid() && WritesFirst()
      ensures frequency == 0 && keepAlive && lastKeepAlive == 0
      ensures connectionStatus == DISCONNECTED && controlStatus == NOT_STREAMING && !gattOpen
      ensures serviceControl == serviceImu == serviceEmg == None
      ensures characteristicCommand == characteristicInfo == characteristicImu0 == None
      ensures characteristicEmg0 == characteristicEmg1 == None
      ensures characteristicEmg2 == characteristicEmg3 == None
      ensures writeQueue == [] && readQueue == [] && transport == [] && !writePending && !readPending
      ensures emgSamples == [] && imuSamples == []
    {
      frequency := 0;
      keepAlive := true;
      lastKeepAlive := 0;
      connectionStatus := DISCONNECTED;
      controlStatus := NOT_STREAMING;
      gattOpen := false;
      serviceControl, characteristicCommand, characteristicInfo := None, None, None;
      serviceImu, characteristicImu0 := None, None;
      serviceEmg, characteristicEmg0, characteristicEmg1 := None, None, None;
      characteristicEmg2, characteristicEmg3 := None, None;
      writeQueue, readQueue, transport := [], [], [];
      writePending, readPending := false, false;
      emgSamples, imuSamples := [], [];
      byteReaderEmg := new ByteReader();
      byteReaderImu := new ByteReader();
    }

    /** The `frequency` setter. */
    method SetFrequency(value: int)
      modifies this`frequency
      ensures frequency < MYO_MAX_FREQUENCY
      ensures value >= MYO_MAX_FREQUENCY ==> frequency == 0
      ensures value < MYO_MAX_FREQUENCY ==> frequency == value
    {
      frequency := NormalizeFrequency(value);
    }

    method Connect()
      modifies this`connectionStatus, this`gattOpen, this`transport
      ensures connectionStatus == CONNECTING && gattOpen
      ensures transport == old(transport) + [ConnectGatt]
    {
      connectionStatus := CONNECTING;
      gattOpen := true;
      transport := transport + [ConnectGatt];
    }

    /** Closes the link if one was opened and reports "disconnected, not
        streaming" whatever the state was; a second call reports the same. */
    method Disconnect()
      modifies this`controlStatus, this`connectionStatus, this`transport
      ensures controlStatus == NOT_STREAMING && connectionStatus == DISCONNECTED
      ensures transport == old(transport) + (if gattOpen then [CloseGatt] else [])
    {
      if gattOpen {
        transport := transport + [CloseGatt];
      }
      controlStatus := NOT_STREAMING;
      connectionStatus := DISCONNECTED;
    }

    method IsConnected() returns (b: bool)
      ensures b <==> connectionStatus == CONNECTED || connectionStatus == READY
    {
      b := connectionStatus == CONNECTED || connectionStatus == READY;
    }

    method IsStreaming() returns (b: bool)
      ensures b <==> controlStatus == STREAMING
    {
      b := controlStatus == STREAMING;
    }

    /** The delivery of the EMG stream for the current frequency. */
    method DataFlowableEmg() returns (d: Delivery)
      ensures d.Unsampled? <==> frequency == 0
      ensures frequency > 0 ==> d.periodMs * frequency <= 1000 < (d.periodMs + 1) * frequency
      ensures frequency < 0 ==>
        d.periodMs <= 0 && d.periodMs * frequency <= 1000 < (d.periodMs - 1) * frequency
      ensures 0 < frequency < MYO_MAX_FREQUENCY ==> 5 <= d.periodMs <= 1000
    {
      d := SamplingFor(frequency);
      if 0 < frequency < MYO_MAX_FREQUENCY {
        PeriodBounds(frequency);
      }
    }

    /** The delivery of the IMU stream: the same choice as for EMG. */
    method DataFlowableImuGyro() returns (d: Delivery)
      ensures d.Unsampled? <==> frequency == 0
      ensures frequency > 0 ==> d.periodMs * frequency <= 1000 < (d.periodMs + 1) * frequency
      ensures frequency < 0 ==>
        d.periodMs <= 0 && d.periodMs * frequency <= 1000 < (d.periodMs - 1) * frequency
      ensures 0 < frequency < MYO_MAX_FREQUENCY ==> 5 <= d.periodMs <= 1000
    {
      d := SamplingFor(frequency);
      if 0 < frequency < MYO_MAX_FREQUENCY {
        PeriodBounds(frequency);
      }
    }

    /** Writes `command` to the command characteristic. Fails, leaving the
        streaming status alone, when that characteristic is unresolved or its
        properties are not exactly "write". Otherwise the streaming status
        follows a start or stop command before the write is issued. */
    method SendCommand(command: Command) returns (ok: bool)
      modifies this`characteristicCommand, this`controlStatus, this`transport
      ensures ok <==> old(CommandWritable())
      ensures CommandWritable() == old(CommandWritable())
      ensures characteristicCommand ==
        if old(characteristicCommand).Some?
        then Some(old(characteristicCommand).value.(value := command)) else None
      ensures controlStatus == if ok then ControlStatusAfter(command, old(controlStatus)) else old(controlStatus)
      ensures transport == old(transport) + (if ok && gattOpen then [WriteChar(command)] else [])
    {
      if characteristicCommand.Some? {
        characteristicCommand := Some(characteristicCommand.value.(value := command));
        if characteristicCommand.value.properties == PROPERTY_WRITE {
          if IsStartStreamingCommand(command) {
            controlStatus := STREAMING;
          } else if IsStopStreamingCommand(command) {
            controlStatus := NOT_STREAMING;
          }
          if gattOpen {
            transport := transport + [WriteChar(command)];
          }
          return true;
        }
      }
      return false;
    }

    method OnConnectionStateChange(newState: int)
      modifies this`connectionStatus, this`controlStatus, this`transport
      ensures newState == STATE_CONNECTED ==>
        connectionStatus == CONNECTED && controlStatus == old(controlStatus)
        && transport == old(transport) + [DiscoverServices]
      ensures newState == STATE_DISCONNECTED ==>
        connectionStatus == DISCONNECTED && controlStatus == NOT_STREAMING
        && transport == old(transport) + (if gattOpen then [CloseGatt] else [])
      ensures newState != STATE_CONNECTED && newState != STATE_DISCONNECTED ==>
        connectionStatus == old(connectionStatus) && controlStatus == old(controlStatus)
        && transport == old(transport)
    {
      if newState == STATE_CONNECTED {
        connectionStatus := CONNECTED;
        transport := transport + [DiscoverServices];
      } else if newState == STATE_DISCONNECTED {
        Disconnect();
      }
    }

    /** `writeDescriptor`: queues `d` and issues it at once when it is the only
        queued write, whether or not a read is outstanding. */
    method WriteDescriptor(d: Descriptor)
      modifies this`writeQueue, this`transport, this`writePending
      ensures writeQueue == old(writeQueue) + [d]
      ensures transport == old(transport) + FirstWrite(old(writeQueue), [d])
      ensures writePending == (old(writePending) || old(writeQueue) == [])
      ensures old(WritesFirst()) && (old(writeQueue) != [] || readQueue == []) ==> WritesFirst()
    {
      writeQueue := writeQueue + [d];
      if |writeQueue| == 1 {
        transport := transport + [WriteDesc(d)];
        writePending := true;
      }
    }

    /** Subscribes to each present characteristic of `cs` in turn: when
        notification registration succeeds and the client-configuration
        descriptor exists, that descriptor is set to "enable notification"
        and written through `WriteDescriptor`. */
    method EnableNotifications(cs: seq<Option<Characteristic>>)
      modifies this`writeQueue, this`transport, this`writePending
      ensures writeQueue == old(writeQueue) + NotificationDescriptors(cs)
      ensures transport == old(transport) + FirstWrite(old(writeQueue), NotificationDescriptors(cs))
      ensures writePending == (old(writePending) || (old(writeQueue) == [] && NotificationDescriptors(cs) != []))
      ensures old(WritesFirst()) && (old(writeQueue) != [] || readQueue == []) ==> WritesFirst()
    {
      var i := 0;
      while i < |cs|
        invariant 0 <= i <= |cs|
        invariant writeQueue == old(writeQueue) + NotificationDescriptors(cs[..i])
        invariant transport == old(transport) + FirstWrite(old(writeQueue), NotificationDescriptors(cs[..i]))
        invariant writePending == (old(writePending) || (old(writeQueue) == [] && NotificationDescriptors(cs[..i]) != []))
      {
        assert cs[..i + 1][..i] == cs[..i];
        var c := cs[i];
        if Subscribes(c) {
          WriteDescriptor(EnableDescriptor(c.value));
        }
        i := i + 1;
      }
      assert cs[..i] == cs;
    }

    /** `FindGattServiceEmg`: resolves the EMG service and its four
        characteristics and subscribes to them in order 0..3. Without the
        service nothing but the service field changes. */
    method FindGattServiceEmg(server: GattServer)
      modifies this`serviceEmg, this`characteristicEmg0, this`characteristicEmg1
      modifies this`characteristicEmg2, this`characteristicEmg3
      modifies this`writeQueue, this`transport, this`writePending
      ensures serviceEmg == GetService(server, SERVICE_EMG_DATA_ID)
      ensures serviceEmg.Some? ==> EmgFields() == EmgCharacteristics(serviceEmg.value)
      ensures serviceEmg.None? ==>
        EmgFields() == old(EmgFields()) && writeQueue == old(writeQueue) && transport == old(transport)
      ensures writeQueue == old(writeQueue) + EmgWrites(server)
      ensures transport == old(transport) + FirstWrite(old(writeQueue), EmgWrites(server))
      ensures old(WritesFirst()) && (old(writeQueue) != [] || readQueue == []) ==> WritesFirst()
    {
      serviceEmg := GetService(server, SERVICE_EMG_DATA_ID);
      if serviceEmg.Some? {
        var s := serviceEmg.value;
        characteristicEmg0 := GetCharacteristic(s, CHAR_EMG_0_ID);
        characteristicEmg1 := GetCharacteristic(s, CHAR_EMG_1_ID);
        characteristicEmg2 := GetCharacteristic(s, CHAR_EMG_2_ID);
        characteristicEmg3 := GetCharacteristic(s, CHAR_EMG_3_ID);
        EnableNotifications([characteristicEmg0, characteristicEmg1, characteristicEmg2, characteristicEmg3]);
      }
    }

    /** `FindGattServiceImu`: resolves the IMU service and its data
        characteristic and subscribes to it. */
    method FindGattServiceImu(server: GattServer)
      modifies this`serviceImu, this`characteristicImu0
      modifies this`writeQueue, this`transport, this`writePending
      ensures serviceImu == GetService(server, SERVICE_IMU_DATA_ID)
      ensures serviceImu.Some? ==> characteristicImu0 == GetCharacteristic(serviceImu.value, CHAR_IMU_DATA_ID)
      ensures serviceImu.None? ==> characteristicImu0 == old(characteristicImu0)
      ensures writeQueue == old(writeQueue) + ImuWrites(server)
      ensures transport == old(transport) + FirstWrite(old(writeQueue), ImuWrites(server))
      ensures old(WritesFirst()) && (old(writeQueue) != [] || readQueue == []) ==> WritesFirst()
    {
      serviceImu := GetService(server, SERVICE_IMU_DATA_ID);
      if serviceImu.Some? {
        characteristicImu0 := GetCharacteristic(serviceImu.value, CHAR_IMU_DATA_ID);
        EnableNotifications([characteristicImu0]);
      }
    }

    /** Queues a read of `c`, issued at once only when it is the only queued
        read and no write is queued: descriptor writes go first. */
    method EnqueueRead(c: Characteristic)
      modifies this`readQueue, this`transport, this`readPending
      ensures readQueue == old(readQueue) + [c]
      ensures var readNow := old(readQueue) == [] && writeQueue == [];
        && transport == old(transport) + (if readNow then [ReadChar(c.uuid)] else [])
        && readPending == (old(readPending) || readNow)
      ensures old(WritesFirst()) ==> WritesFirst()
    {
      readQueue := readQueue + [c];
      if |readQueue| == 1 && |writeQueue| == 0 {
        transport := transport + [ReadChar(c.uuid)];
        readPending := true;
      }
    }

    /** Stores the command characteristic discovery found; when there is one,
        restarts the keep-alive clock, sends the keep-awake command and
        reports READY. */
    method ResolveCommand(cmd: Option<Characteristic>, now: int)
      modifies this`characteristicCommand, this`lastKeepAlive, this`connectionStatus
      modifies this`controlStatus, this`transport
      ensures characteristicCommand == if cmd.Some? then Some(cmd.value.(value := UnSleep())) else None
      ensures lastKeepAlive == if cmd.Some? then now else old(lastKeepAlive)
      ensures connectionStatus == if cmd.Some? then READY else old(connectionStatus)
      ensures controlStatus == old(controlStatus)
      ensures transport == old(transport) + KeepAwakeWrite(cmd, gattOpen)
    {
      characteristicCommand := cmd;
      if characteristicCommand.Some? {
        lastKeepAlive := now;
        UnSleepKeepsControlStatus(controlStatus);
        var _ := SendCommand(UnSleep());
        connectionStatus := READY;
      }
    }

    /** `FindGattServiceServiceControl`: queues a read of the information
        characteristic, then resolves the command characteristic. Without
        the control service nothing but the service field changes. */
    method FindGattServiceServiceControl(server: GattServer, now: int)
      modifies this`serviceControl, this`characteristicInfo, this`characteristicCommand
      modifies this`readQueue, this`transport, this`readPending
      modifies this`lastKeepAlive, this`connectionStatus, this`controlStatus
      ensures serviceControl == GetService(server, SERVICE_CONTROL_ID)
      ensures controlStatus == old(controlStatus)
      ensures readQueue == old(readQueue) + ControlReads(server)
      ensures serviceControl.None? ==>
        characteristicInfo == old(characteristicInfo) && characteristicCommand == old(characteristicCommand)
        && transport == old(transport) && readPending == old(readPending)
        && lastKeepAlive == old(lastKeepAlive) && connectionStatus == old(connectionStatus)
      ensures serviceControl.Some? ==>
        var cmd := CommandOf(server);
        var readNow := old(readQueue) == [] && writeQueue == [] && ControlReads(server) != [];
        && characteristicInfo == GetCharacteristic(serviceControl.value, CHAR_INFO_ID)
        && characteristicCommand == (if cmd.Some? then Some(cmd.value.(value := UnSleep())) else None)
        && lastKeepAlive == (if cmd.Some? then now else old(lastKeepAlive))
        && connectionStatus == (if cmd.Some? then READY else old(connectionStatus))
        && transport == old(transport) + ReadIssued(old(readQueue), writeQueue, ControlReads(server))
             + KeepAwakeWrite(cmd, gattOpen)
        && readPending == (old(readPending) || readNow)
      ensures old(WritesFirst()) ==> WritesFirst()
    {
      serviceControl := GetService(server, SERVICE_CONTROL_ID);
      if serviceControl.Some? {
        var s := serviceControl.value;
        characteristicInfo := GetCharacteristic(s, CHAR_INFO_ID);
        assert ControlReads(server) == if characteristicInfo.Some? then [characteristicInfo.value] else [];
        if characteristicInfo.Some? {
          EnqueueRead(characteristicInfo.value);
        }
        assert CommandOf(server) == GetCharacteristic(s, CHAR_COMMAND_ID);
        ResolveCommand(GetCharacteristic(s, CHAR_COMMAND_ID), now);
      }
    }

    /** The EMG lookup followed by the IMU lookup: their descriptor writes
        join the write queue in that order, and the first of them is issued
        when the queue was empty. */
    method FindDataServices(server: GattServer)
      modifies this`serviceEmg, this`characteristicEmg0, this`characteristicEmg1
      modifies this`characteristicEmg2, this`characteristicEmg3
      modifies this`serviceImu, this`characteristicImu0
      modifies this`writeQueue, this`transport, this`writePending
      ensures serviceEmg == GetService(server, SERVICE_EMG_DATA_ID)
      ensures serviceImu == GetService(server, SERVICE_IMU_DATA_ID)
      ensures serviceEmg.Some? ==> EmgFields() == EmgCharacteristics(serviceEmg.value)
      ensures serviceEmg.None? ==> EmgFields() == old(EmgFields())
      ensures serviceImu.Some? ==> characteristicImu0 == GetCharacteristic(serviceImu.value, CHAR_IMU_DATA_ID)
      ensures serviceImu.None? ==> characteristicImu0 == old(characteristicImu0)
      ensures writeQueue == old(writeQueue) + (EmgWrites(server) + ImuWrites(server))
      ensures transport == old(transport) + FirstWrite(old(writeQueue), EmgWrites(server) + ImuWrites(server))
      ensures old(WritesFirst()) && (old(writeQueue) != [] || readQueue == []) ==> WritesFirst()
    {
      ghost var w0, t0 := writeQueue, transport;
      FindGattServiceEmg(server);
      ghost var emg := EmgFields();
      FindGattServiceImu(server);
      assert EmgFields() == emg;
      FirstWriteAppend(w0, EmgWrites(server), ImuWrites(server));
    }

    /** The three lookups of a successful discovery, EMG, IMU and control in
        that order, so every descriptor write is queued before the
        information read. */
    method FindGattServices(server: GattServer, now: int)
      modifies this`serviceEmg, this`characteristicEmg0, this`characteristicEmg1
      modifies this`characteristicEmg2, this`characteristicEmg3
      modifies this`serviceImu, this`characteristicImu0
      modifies this`serviceControl, this`characteristicInfo, this`characteristicCommand
      modifies this`writeQueue, this`readQueue, this`transport, this`writePending, this`readPending
      modifies this`lastKeepAlive, this`connectionStatus, this`controlStatus
      ensures
        && serviceEmg == GetService(server, SERVICE_EMG_DATA_ID)
        && serviceImu == GetService(server, SERVICE_IMU_DATA_ID)
        && serviceControl == GetService(server, SERVICE_CONTROL_ID)
      ensures serviceEmg.Some? ==> EmgFields() == EmgCharacteristics(serviceEmg.value)
      ensures serviceEmg.None? ==> EmgFields() == old(EmgFields())
      ensures serviceImu.Some? ==> characteristicImu0 == GetCharacteristic(serviceImu.value, CHAR_IMU_DATA_ID)
      ensures serviceImu.None? ==> characteristicImu0 == old(characteristicImu0)
      ensures serviceControl.Some? ==> characteristicInfo == GetCharacteristic(serviceControl.value, CHAR_INFO_ID)
      ensures serviceControl.None? ==>
        characteristicInfo == old(characteristicInfo) && characteristicCommand == old(characteristicCommand)
      ensures
        && writeQueue == old(writeQueue) + (EmgWrites(server) + ImuWrites(server))
        && readQueue == old(readQueue) + ControlReads(server)
      ensures
        transport == old(transport)
          + FirstWrite(old(writeQueue), EmgWrites(server) + ImuWrites(server))
          + ReadIssued(old(readQueue), writeQueue, ControlReads(server))
          + KeepAwakeWrite(CommandOf(server), gattOpen)
      ensures
        var cmd := CommandOf(server);
        && (cmd.Some? ==> characteristicCommand == Some(cmd.value.(value := UnSleep())))
        && (serviceControl.Some? && cmd.None? ==> characteristicCommand == None)
        && connectionStatus == (if cmd.Some? then READY else old(connectionStatus))
        && lastKeepAlive == (if cmd.Some? then now else old(lastKeepAlive))
        && controlStatus == old(controlStatus)
      ensures old(WritesFirst()) && (old(writeQueue) != [] || old(readQueue) == [])
        ==> WritesFirst()
    {
      FindDataServices(server);
      FindGattServiceServiceControl(server, now);
    }

    /** `onServicesDiscovered`: on failure nothing changes; on success the
        services are looked up as `FindGattServices` states. */
    method OnServicesDiscovered(server: GattServer, status: int, now: int)
      modifies this`serviceEmg, this`characteristicEmg0, this`characteristicEmg1
      modifies this`characteristicEmg2, this`characteristicEmg3
      modifies this`serviceImu, this`characteristicImu0
      modifies this`serviceControl, this`characteristicInfo, this`characteristicCommand
      modifies this`writeQueue, this`readQueue, this`transport, this`writePending, this`readPending
      modifies this`lastKeepAlive, this`connectionStatus, this`controlStatus
      ensures status != GATT_SUCCESS ==> unchanged(this)
      ensures status == GATT_SUCCESS ==>
        && serviceEmg == GetService(server, SERVICE_EMG_DATA_ID)
        && serviceImu == GetService(server, SERVICE_IMU_DATA_ID)
        && serviceControl == GetService(server, SERVICE_CONTROL_ID)
      ensures status == GATT_SUCCESS && serviceEmg.Some? ==> EmgFields() == EmgCharacteristics(serviceEmg.value)
      ensures status == GATT_SUCCESS && serviceEmg.None? ==> EmgFields() == old(EmgFields())
      ensures status == GATT_SUCCESS && serviceImu.Some? ==> characteristicImu0 == GetCharacteristic(serviceImu.value, CHAR_IMU_DATA_ID)
      ensures status == GATT_SUCCESS && serviceImu.None? ==> characteristicImu0 == old(characteristicImu0)
      ensures status == GATT_SUCCESS && serviceControl.Some? ==> characteristicInfo == GetCharacteristic(serviceControl.value, CHAR_INFO_ID)
      ensures status == GATT_SUCCESS && serviceControl.None? ==>
        characteristicInfo == old(characteristicInfo) && characteristicCommand == old(characteristicCommand)
      ensures status == GATT_SUCCESS ==>
        && writeQueue == old(writeQueue) + (EmgWrites(server) + ImuWrites(server))
        && readQueue == old(readQueue) + ControlReads(server)
      ensures status == GATT_SUCCESS ==>
        transport == old(transport)
          + FirstWrite(old(writeQueue), EmgWrites(server) + ImuWrites(server))
          + ReadIssued(old(readQueue), writeQueue, ControlReads(server))
          + KeepAwakeWrite(CommandOf(server), gattOpen)
      ensures status == GATT_SUCCESS ==>
        var cmd := CommandOf(server);
        && (cmd.Some? ==> characteristicCommand == Some(cmd.value.(value := UnSleep())))
        && (serviceControl.Some? && cmd.None? ==> characteristicCommand == None)
        && connectionStatus == (if cmd.Some? then READY else old(connectionStatus))
        && lastKeepAlive == (if cmd.Some? then now else old(lastKeepAlive))
        && controlStatus == old(controlStatus)
      ensures status == GATT_SUCCESS && old(WritesFirst()) && (old(writeQueue) != [] || old(readQueue) == [])
        ==> WritesFirst()
    {
      if status == GATT_SUCCESS {
        FindGattServices(server, now);
      }
    }

    /** `onDescriptorWrite`: the head write is done; the next write is issued
        if one is queued, otherwise the head read if one is queued. Under
        write precedence, afterwards again exactly the head request is
        outstanding. */
    method OnDescriptorWrite()
      requires writeQueue != []
      modifies this`writeQueue, this`transport, this`writePending, this`readPending
      ensures writeQueue == old(writeQueue)[1..]
      ensures transport == old(transport) + Issued(NextRequest(writeQueue, readQueue))
      ensures writePending == (writeQueue != [])
      ensures readPending == (old(readPending) || (writeQueue == [] && readQueue != []))
      ensures !old(readPending) ==> WritesFirst()
    {
      writeQueue := writeQueue[1..];
      if |writeQueue| > 0 {
        transport := transport + [WriteDesc(writeQueue[0])];
      } else if |readQueue| > 0 {
        transport := transport + [ReadChar(readQueue[0].uuid)];
        readPending := true;
      }
      writePending := |writeQueue| > 0;
    }

    /** `onCharacteristicRead`: the head read is done; the next read is issued
        if one is queued, whether or not writes are queued. The information
        dump it logs is not modelled. */
    method OnCharacteristicRead()
      requires readQueue != []
      modifies this`readQueue, this`transport, this`readPending
      ensures readQueue == old(readQueue)[1..]
      ensures transport == old(transport) + (if readQueue != [] then [ReadChar(readQueue[0].uuid)] else [])
      ensures readPending == (readQueue != [])
      ensures old(WritesFirst()) && writeQueue == [] ==> WritesFirst()
    {
      readQueue := readQueue[1..];
      if |readQueue| > 0 {
        transport := transport + [ReadChar(readQueue[0].uuid)];
      }
      readPending := |readQueue| > 0;
    }

    /** `putEmgDataToDataProcessor`: rebinds the EMG reader to this payload
        and publishes its first and second halves. */
    method PutEmgDataToDataProcessor(data: seq<Byte>)
      requires Valid() && |data| >= EMG_ARRAY_SIZE
      modifies this`emgSamples, byteReaderEmg
      ensures Valid()
      ensures emgSamples == old(emgSamples) + EmgSplit(data)
      ensures byteReaderEmg.byteData == data && byteReaderEmg.Remaining() == |data| - EMG_ARRAY_SIZE
    {
      byteReaderEmg.SetByteData(data);
      var first := byteReaderEmg.GetBytes(EMG_ARRAY_SIZE / 2);
      emgSamples := emgSamples + [first];
      var second := byteReaderEmg.GetBytes(EMG_ARRAY_SIZE / 2);
      emgSamples := emgSamples + [second];
    }

    /** `putImuDataToDataProcessor`: rebinds the IMU reader to this payload
        and publishes two 10-byte samples read back to back. */
    method PutImuDataToDataProcessor(data: seq<Byte>)
      requires Valid() && |data| >= 2 * IMU_SAMPLE_SIZE
      modifies this`imuSamples, byteReaderImu
      ensures Valid()
      ensures imuSamples == old(imuSamples) + ImuSplit(data)
      ensures byteReaderImu.byteData == data && byteReaderImu.Remaining() == |data| - 2 * IMU_SAMPLE_SIZE
    {
      byteReaderImu.SetByteData(data);
      var first := byteReaderImu.GetBytes(IMU_SAMPLE_SIZE);
      imuSamples := imuSamples + [first];
      var second := byteReaderImu.GetBytes(IMU_SAMPLE_SIZE);
      imuSamples := imuSamples + [second];
    }

    /** `onCharacteristicChanged`: routes the payload to the EMG decoder when
        the identifier ends with the EMG postfix and to the IMU decoder when
        it is the IMU data characteristic; then, when the keep-alive is due,
        restarts the keep-alive clock and sends the keep-awake command. */
    method OnCharacteristicChanged(uuid: Uuid, data: seq<Byte>, now: int)
      requires Valid()
      requires EndsWith(uuid, CHAR_EMG_POSTFIX) ==> |data| >= EMG_ARRAY_SIZE
      requires uuid == CHAR_IMU_DATA_ID ==> |data| >= 2 * IMU_SAMPLE_SIZE
      modifies this`emgSamples, this`imuSamples, byteReaderEmg, byteReaderImu
      modifies this`lastKeepAlive, this`characteristicCommand, this`controlStatus, this`transport
      ensures Valid()
      ensures emgSamples == old(emgSamples) + (if EndsWith(uuid, CHAR_EMG_POSTFIX) then EmgSplit(data) else [])
      ensures imuSamples == old(imuSamples) + (if uuid == CHAR_IMU_DATA_ID then ImuSplit(data) else [])
      ensures lastKeepAlive == if KeepAliveDue(keepAlive, old(lastKeepAlive), now) then now else old(lastKeepAlive)
      ensures transport == old(transport)
        + (if KeepAliveDue(keepAlive, old(lastKeepAlive), now) && old(CommandWritable()) && gattOpen
           then [WriteChar(UnSleep())] else [])
      ensures CommandWritable() == old(CommandWritable())
      ensures characteristicCommand ==
        if KeepAliveDue(keepAlive, old(lastKeepAlive), now) && old(characteristicCommand).Some?
        then Some(old(characteristicCommand).value.(value := UnSleep())) else old(characteristicCommand)
      ensures controlStatus == old(controlStatus)
      ensures EndsWith(uuid, CHAR_EMG_POSTFIX) ==>
        byteReaderEmg.byteData == data && byteReaderEmg.Remaining() == |data| - EMG_ARRAY_SIZE
      ensures !EndsWith(uuid, CHAR_EMG_POSTFIX) ==> unchanged(byteReaderEmg)
      ensures uuid == CHAR_IMU_DATA_ID ==>
        byteReaderImu.byteData == data && byteReaderImu.Remaining() == |data| - 2 * IMU_SAMPLE_SIZE
      ensures uuid != CHAR_IMU_DATA_ID ==> unchanged(byteReaderImu)
    {
      RoutingIsDisjoint(uuid);
      if EndsWith(uuid, CHAR_EMG_POSTFIX) {
        PutEmgDataToDataProcessor(data);
      }
      if uuid == CHAR_IMU_DATA_ID {
        PutImuDataToDataProcessor(data);
      }
      KeepAlive(now);
    }

    /** The keep-alive step closing `onCharacteristicChanged`: when due,
        restart the clock and send the keep-awake command. */
    method KeepAlive(now: int)
      modifies this`lastKeepAlive, this`characteristicCommand, this`controlStatus, this`transport
      ensures lastKeepAlive == if KeepAliveDue(keepAlive, old(lastKeepAlive), now) then now else old(lastKeepAlive)
      ensures transport == old(transport)
        + (if KeepAliveDue(keepAlive, old(lastKeepAlive), now) && old(CommandWritable()) && gattOpen
           then [WriteChar(UnSleep())] else [])
      ensures CommandWritable() == old(CommandWritable())
      ensures characteristicCommand ==
        if KeepAliveDue(keepAlive, old(lastKeepAlive), now) && old(characteristicCommand).Some?
        then Some(old(characteristicCommand).value.(value := UnSleep())) else old(characteristicCommand)
      ensures controlStatus == old(controlStatus)
    {
      if KeepAliveDue(keepAlive, lastKeepAlive, now) {
        lastKeepAlive := now;
        UnSleepKeepsControlStatus(controlStatus);
        var _ := SendCommand(UnSleep());
      }
    }
  }
}

# myonnaise protocol engine in Dafny

A model of the protocol engine of `myonnaise`, an Android library that talks
to the Thalmic Myo armband over Bluetooth Low Energy. The model covers:

- the vendor command codec: the set-streaming, vibrate and sleep-mode byte
  commands and the start-/stop-streaming classifiers (`CommandList`);
- the protocol constants: UUID strings, option values and limits
  (`MyoConstants`);
- the device session `Myo` (`MyoSession`). This is a class with the
  connection and streaming status, the frequency setter and the keep-alive
  rule. It has command dispatch and the three service lookups run on
  discovery. It has the two request queues that put descriptor writes ahead
  of characteristic reads, and it routes notifications to the EMG and IMU
  decoders;
- the EMG half of the session, its abstract base `MyoEmg`. Its pure part is
  the sub-sampling period, the subscription order and the 16 → 8 + 8 split
  (`MyoEmg`). Its stateful part sits in the `Myo` class;
- the Android GATT objects the session reads, as values (`MyoGatt`), and the
  byte cursor it decodes with (`ByteReading`);
- client runs of a whole session (`MyoScenarios`).

The Android stack is replaced by `transport`, the log of every operation the
session issues (`ConnectGatt`, `DiscoverServices`, `WriteDesc`, `ReadChar`,
`WriteChar`, `CloseGatt`). A `GattServer` value stands for what service
discovery found. The status subjects are the fields `connectionStatus` and
`controlStatus`. The data processors are the sequences of samples published
so far. The clock is a parameter `now`. Two ghost flags, `writePending` and
`readPending`, record whether the transport is working on a descriptor write
and on a characteristic read. `WritesFirst` is write precedence: exactly the
head request is outstanding.

Kotlin `Byte` is the newtype `MyoConstants.Byte`, and `toByte()` wraps
around modulo 256 (`ToByte`). Kotlin's truncating `Int` division is
`MyoEmg.KotlinDiv`.

## Model

Source paths are relative to the repository root.

| member | source | states |
|---|---|---|
| MyoConstants.ToByte | myonnaise/src/main/java/com/ncorti/myonnaise/CommandList.kt:22-24 | `toByte()` gives the byte congruent to the value modulo 256, and it is the identity on [-128, 127] |
| MyoConstants.OptionValuesAreLossless | myonnaise/src/main/java/com/ncorti/myonnaise/MyoConstants.kt:72-116 | every enumerated vibration, EMG, IMU, classifier and sleep value lies in [0, 127] and survives `toByte()` unchanged |
| MyoConstants.StopModesAreZero | myonnaise/src/main/java/com/ncorti/myonnaise/MyoConstants.kt:79-107 | the "none/disable" values of EMG, IMU and classifier are 0 and are members of their enumerations |
| MyoConstants.LimitsAreSound | myonnaise/src/main/java/com/ncorti/myonnaise/MyoConstants.kt:54-69 | `EMG_ARRAY_SIZE` is even with 8-byte halves; the maximum frequency and the keep-alive interval are positive |
| MyoConstants.EmgIdsCarryPostfix | myonnaise/src/main/java/com/ncorti/myonnaise/MyoConstants.kt:31-45 | each of the four EMG characteristic identifiers ends with `CHAR_EMG_POSTFIX` |
| MyoConstants.Emg0CarriesPostfix | myonnaise/src/main/java/com/ncorti/myonnaise/MyoConstants.kt:32 | `CHAR_EMG_0_ID` ends with the EMG postfix |
| MyoConstants.Emg1CarriesPostfix | myonnaise/src/main/java/com/ncorti/myonnaise/MyoConstants.kt:34 | `CHAR_EMG_1_ID` ends with the EMG postfix |
| MyoConstants.Emg2CarriesPostfix | myonnaise/src/main/java/com/ncorti/myonnaise/MyoConstants.kt:36 | `CHAR_EMG_2_ID` ends with the EMG postfix |
| MyoConstants.Emg3CarriesPostfix | myonnaise/src/main/java/com/ncorti/myonnaise/MyoConstants.kt:38 | `CHAR_EMG_3_ID` ends with the EMG postfix |
| MyoConstants.LookupIdsDistinct | myonnaise/src/main/java/com/ncorti/myonnaise/MyoConstants.kt:6-21 | the control, EMG and IMU service identifiers are pairwise distinct, and so are the information and command characteristic identifiers |
| MyoConstants.NonEmgIdsLackPostfix | myonnaise/src/main/java/com/ncorti/myonnaise/MyoConstants.kt:17-23 | the IMU data, command and information identifiers do not end with the EMG postfix |
| MyoConstants.RoutingIsDisjoint | myonnaise/src/main/java/com/ncorti/myonnaise/Myo.kt:261-268 | no identifier takes both the EMG branch (postfix test) and the IMU branch (equality test) of notification routing |
| CommandList.Vibration | myonnaise/src/main/java/com/ncorti/myonnaise/CommandList.kt:21-26 | `vibration(t)` is 3 bytes and decodes as a vibrate command carrying `t.toByte()` |
| CommandList.SetStreaming | myonnaise/src/main/java/com/ncorti/myonnaise/CommandList.kt:31-38 | `setStreaming(e, i, c)` is 5 bytes and decodes as a set-streaming command carrying the three modes as bytes |
| CommandList.SleepMode | myonnaise/src/main/java/com/ncorti/myonnaise/CommandList.kt:43-48 | `sleepMode(m)` is 3 bytes and decodes as a sleep-mode command carrying `m.toByte()` |
| CommandList.StopStreaming | myonnaise/src/main/java/com/ncorti/myonnaise/CommandList.kt:51-53 | `stopStreaming()` is the byte array `[1, 3, 0, 0, 0]` |
| CommandList.EmgFilteredOnly | myonnaise/src/main/java/com/ncorti/myonnaise/CommandList.kt:56-58 | decodes as set-streaming with EMG filtered and IMU/classifier off, and is a start-streaming command |
| CommandList.EmgUnfilteredOnly | myonnaise/src/main/java/com/ncorti/myonnaise/CommandList.kt:61-63 | decodes as set-streaming with EMG raw and IMU/classifier off, and is a start-streaming command |
| CommandList.VibrationShort | myonnaise/src/main/java/com/ncorti/myonnaise/CommandList.kt:66-68 | decodes as a short vibration |
| CommandList.VibrationMedium | myonnaise/src/main/java/com/ncorti/myonnaise/CommandList.kt:71-73 | decodes as a medium vibration |
| CommandList.VibrationLong | myonnaise/src/main/java/com/ncorti/myonnaise/CommandList.kt:76-78 | decodes as a long vibration |
| CommandList.UnSleep | myonnaise/src/main/java/com/ncorti/myonnaise/CommandList.kt:81-83 | the keep-awake command is `[9, 1, 1]`, a "never sleep" sleep-mode command |
| CommandList.NormalSleep | myonnaise/src/main/java/com/ncorti/myonnaise/CommandList.kt:86-88 | the normal-sleep command is `[9, 1, 0]`, a "normal" sleep-mode command |
| CommandList.ConvenienceBuilders | myonnaise/src/main/java/com/ncorti/myonnaise/CommandList.kt:51-88 | each convenience builder equals its parameterised builder with the documented option value |
| CommandList.EncodeDecodeRoundTrip | myonnaise/src/main/java/com/ncorti/myonnaise/CommandList.kt:21-48 | decoding a built command gives back what it was built from, and every recognised byte array is rebuilt to itself |
| CommandList.IsStartStreamingAsWritten | myonnaise/src/main/java/com/ncorti/myonnaise/CommandList.kt:92-95 | the classifier as written; when it indexes out of range, the index is the array size |
| CommandList.AsWrittenFailsExactly | myonnaise/src/main/java/com/ncorti/myonnaise/CommandList.kt:93-95 | the as-written classifier reads out of range exactly on 4-byte arrays `[1, _, 0, 0]` |
| CommandList.AsWrittenCounterexample | myonnaise/src/main/java/com/ncorti/myonnaise/CommandList.kt:93-95 | on `[1, 3, 0, 0]` the as-written classifier reads index 4, past the end |
| CommandList.CorrectedAgreesWhereDefined | myonnaise/src/main/java/com/ncorti/myonnaise/CommandList.kt:92-95 | wherever the classifier as written answers, the corrected one gives the same answer; on the inputs where it reads out of range, the corrected one answers false |
| CommandList.StartStreamingOnFiveBytes | myonnaise/src/main/java/com/ncorti/myonnaise/CommandList.kt:92-95 | on 5-byte commands the classifier as written stays in range and answers: byte 0 is 0x01 and some byte at offset 2, 3 or 4 is non-zero |
| CommandList.StopStreamingIff | myonnaise/src/main/java/com/ncorti/myonnaise/CommandList.kt:98 | stop streaming iff the array is byte-for-byte `[1, 3, 0, 0, 0]` |
| CommandList.SetStreamingClassified | myonnaise/src/main/java/com/ncorti/myonnaise/CommandList.kt:31-38 | for enumerated modes, bytes 2..4 decode back to the modes; stop holds iff all modes are 0 and start iff some mode is not |
| CommandList.StartExcludesStop | myonnaise/src/main/java/com/ncorti/myonnaise/CommandList.kt:92-98 | no byte array is both a start and a stop command |
| CommandList.ShortCommandsDoNotStream | myonnaise/src/main/java/com/ncorti/myonnaise/CommandList.kt:93 | vibration and sleep-mode commands are neither start nor stop commands, and the as-written guard rejects them without indexing |
| MyoGatt.GetService | myonnaise/src/main/java/com/ncorti/myonnaise/Myo.kt:179 | a service is found iff discovery reported it, and it is that service |
| MyoGatt.GetCharacteristic | myonnaise/src/main/java/com/ncorti/myonnaise/Myo.kt:181 | a characteristic is found iff the service has it, and it is that characteristic |
| MyoGatt.NotificationDescriptorsSelect | myonnaise/src/main/java/com/ncorti/myonnaise/MyoEmg.kt:49-59 | the subscription loop enqueues one enable descriptor per subscribed characteristic, none for the others, in list order |
| MyoGatt.NotificationDescriptorsEnable | myonnaise/src/main/java/com/ncorti/myonnaise/MyoEmg.kt:54 | every descriptor the loop enqueues carries the enable-notification value |
| MyoEmg.KotlinDiv | myonnaise/src/main/java/com/ncorti/myonnaise/MyoEmg.kt:30 | Kotlin division truncates toward zero: for each sign of the operands it is the quotient of the magnitudes with the sign of the product |
| MyoEmg.SamplingFor | myonnaise/src/main/java/com/ncorti/myonnaise/MyoEmg.kt:26-32 | unsampled iff the frequency is 0; otherwise the period is the largest p with p·f ≤ 1000 for f > 0, and the non-positive p with p·f ≤ 1000 < (p − 1)·f for f < 0 |
| MyoEmg.PeriodBounds | myonnaise/src/main/java/com/ncorti/myonnaise/MyoEmg.kt:30 | for every frequency in [1, 199] the period lies in [5, 1000] ms |
| MyoEmg.EmgSplit | myonnaise/src/main/java/com/ncorti/myonnaise/MyoEmg.kt:67-69 | a notification becomes two 8-byte samples that concatenate to its first 16 bytes |
| MyoEmg.EmgCharacteristics | myonnaise/src/main/java/com/ncorti/myonnaise/MyoEmg.kt:37-47 | the lookup list has the four EMG characteristics of the service, in order 0..3 |
| MyoEmg.EmgSubscriptionOrder | myonnaise/src/main/java/com/ncorti/myonnaise/MyoEmg.kt:42-59 | the EMG lookup enqueues at most four enable descriptors, one per subscribed EMG characteristic and for no other, in characteristic order |
| ByteReading.ByteReader.constructor | myonnaise/src/main/java/com/ncorti/myonnaise/MyoEmg.kt:12 | a new reader has no data and offset 0 |
| ByteReading.ByteReader.SetByteData | myonnaise/src/main/java/com/ncorti/myonnaise/MyoEmg.kt:65 | binding a payload puts the cursor back at offset 0 |
| ByteReading.ByteReader.GetBytes | myonnaise/src/main/java/com/ncorti/myonnaise/MyoEmg.kt:68-69 | `getBytes(n)` returns the next `n` bytes and advances the cursor by `n` |
| MyoSession.NormalizeFrequency | myonnaise/src/main/java/com/ncorti/myonnaise/Myo.kt:47-50 | the stored frequency is below the maximum; it is the value, or 0 when the value is at or above the maximum |
| MyoSession.StoredFrequencyPeriod | myonnaise/src/main/java/com/ncorti/myonnaise/Myo.kt:47-50 | for a non-negative value the stored frequency gives either no sampling or a period in [5, 1000] ms; 199 Hz gives 5 ms |
| MyoSession.FourByteStartStreams | myonnaise/src/main/java/com/ncorti/myonnaise/Myo.kt:332-333 | the 4-byte command `[1, 3, 1, 0]` is a start command (the code as written answers true without reading index 4), so a successful send sets STREAMING |
| MyoSession.ControlStatusAfter | myonnaise/src/main/java/com/ncorti/myonnaise/Myo.kt:332-336 | after a start command the status is STREAMING, after a stop command NOT_STREAMING, otherwise unchanged |
| MyoSession.UnSleepKeepsControlStatus | myonnaise/src/main/java/com/ncorti/myonnaise/Myo.kt:193 | the keep-awake command never changes the streaming status |
| MyoSession.KeepAliveSpacing | myonnaise/src/main/java/com/ncorti/myonnaise/Myo.kt:270-275 | keep-alives go out only at notification times, each more than 10000 ms after the previous one (the first after the initial clock), and never with the flag off |
| MyoSession.SteadyStreamSends | myonnaise/src/main/java/com/ncorti/myonnaise/Myo.kt:270-275 | under one notification per millisecond, exactly one keep-alive goes out per 10001 ms |
| MyoSession.TwentyFiveSecondStream | myonnaise/src/main/java/com/ncorti/myonnaise/Myo.kt:270-275 | a 25-second stream after READY sends two keep-alives |
| MyoSession.ImuSplit | myonnaise/src/main/java/com/ncorti/myonnaise/Myo.kt:296-297 | an IMU notification becomes two 10-byte samples that concatenate to its first 20 bytes |
| MyoSession.FirstWriteAppend | myonnaise/src/main/java/com/ncorti/myonnaise/Myo.kt:167-171 | queuing the EMG descriptors and then the IMU descriptors issues what queuing them together would |
| MyoSession.Myo.constructor | myonnaise/src/main/java/com/ncorti/myonnaise/Myo.kt:47-85 | a new session is DISCONNECTED, NOT_STREAMING, frequency 0, keep-alive on, nothing resolved, queues and log empty |
| MyoSession.Myo.SetFrequency | myonnaise/src/main/java/com/ncorti/myonnaise/Myo.kt:47-50 | values at or above 200 store 0; every other value, negative ones included, is stored unchanged |
| MyoSession.Myo.Connect | myonnaise/src/main/java/com/ncorti/myonnaise/Myo.kt:91-94 | the status becomes CONNECTING and the link is opened |
| MyoSession.Myo.Disconnect | myonnaise/src/main/java/com/ncorti/myonnaise/Myo.kt:100-104 | from any state: DISCONNECTED and NOT_STREAMING, with the link closed if one was opened |
| MyoSession.Myo.IsConnected | myonnaise/src/main/java/com/ncorti/myonnaise/Myo.kt:109-111 | true iff the status is CONNECTED or READY |
| MyoSession.Myo.IsStreaming | myonnaise/src/main/java/com/ncorti/myonnaise/Myo.kt:116 | true iff the control status is STREAMING |
| MyoSession.Myo.DataFlowableEmg | myonnaise/src/main/java/com/ncorti/myonnaise/MyoEmg.kt:26-32 | unsampled iff the frequency is 0; else the period is 1000/frequency truncated toward zero: the largest p with p·f ≤ 1000 for f > 0 (within [5, 1000] ms for a storable positive frequency), and the non-positive p with p·f ≤ 1000 < (p − 1)·f for f < 0 |
| MyoSession.Myo.DataFlowableImuGyro | myonnaise/src/main/java/com/ncorti/myonnaise/Myo.kt:141-147 | the same period choice for the IMU stream, for positive, zero and negative frequencies |
| MyoSession.Myo.SendCommand | myonnaise/src/main/java/com/ncorti/myonnaise/Myo.kt:328-342 | succeeds iff the command characteristic is resolved with properties exactly "write"; only then the status follows the command and one characteristic write is issued (if the link is open); the value is set whenever it is resolved |
| MyoSession.Myo.OnConnectionStateChange | myonnaise/src/main/java/com/ncorti/myonnaise/Myo.kt:345-357 | link-up: CONNECTED and discovery issued; link-down: everything `disconnect` does; any other state: nothing changes |
| MyoSession.Myo.WriteDescriptor | myonnaise/src/main/java/com/ncorti/myonnaise/Myo.kt:309-315 | appends to the write queue and issues that write iff the queue was empty, even while a read is outstanding |
| MyoSession.Myo.EnableNotifications | myonnaise/src/main/java/com/ncorti/myonnaise/MyoEmg.kt:49-59 | the loop queues the enable descriptors of the subscribed characteristics, in order, issuing the first iff the write queue was empty |
| MyoSession.Myo.FindGattServiceEmg | myonnaise/src/main/java/com/ncorti/myonnaise/MyoEmg.kt:34-61 | resolves the EMG service and its four characteristics and queues their enable descriptors; without the service no EMG field, queue or log changes |
| MyoSession.Myo.FindGattServiceImu | myonnaise/src/main/java/com/ncorti/myonnaise/Myo.kt:200-224 | resolves the IMU service and its data characteristic and queues its enable descriptor |
| MyoSession.Myo.EnqueueRead | myonnaise/src/main/java/com/ncorti/myonnaise/Myo.kt:185-188 | appends to the read queue and issues the read iff it is the only queued read and no write is queued |
| MyoSession.Myo.ResolveCommand | myonnaise/src/main/java/com/ncorti/myonnaise/Myo.kt:190-196 | with a command characteristic: restarts the keep-alive clock at `now`, sends the keep-awake command, becomes READY; streaming status unchanged |
| MyoSession.Myo.FindGattServiceServiceControl | myonnaise/src/main/java/com/ncorti/myonnaise/Myo.kt:178-198 | without the control service nothing but the service field changes; with it the information read is queued, then the command characteristic is resolved as `ResolveCommand` says |
| MyoSession.Myo.FindDataServices | myonnaise/src/main/java/com/ncorti/myonnaise/Myo.kt:167-171 | the EMG and IMU services and their characteristics are resolved (unchanged without the service); the EMG then the IMU descriptors join the write queue, and the first is issued iff the queue was empty |
| MyoSession.Myo.FindGattServices | myonnaise/src/main/java/com/ncorti/myonnaise/Myo.kt:166-175 | every service and characteristic field is resolved as the three lookups state; all descriptor writes are queued before the information read; the log gains the head write (or the read), then the keep-awake write; precedence is kept |
| MyoSession.Myo.OnServicesDiscovered | myonnaise/src/main/java/com/ncorti/myonnaise/Myo.kt:159-176 | a non-success status changes nothing; success resolves every field and queues and issues requests as `FindGattServices` states |
| MyoSession.Myo.OnDescriptorWrite | myonnaise/src/main/java/com/ncorti/myonnaise/Myo.kt:317-326 | removes the head write; issues the next write, else the head read, else nothing; with no read outstanding before, precedence holds after |
| MyoSession.Myo.OnCharacteristicRead | myonnaise/src/main/java/com/ncorti/myonnaise/Myo.kt:226-256 | removes the head read and issues the next read iff one remains, whatever writes are queued |
| MyoSession.Myo.PutEmgDataToDataProcessor | myonnaise/src/main/java/com/ncorti/myonnaise/MyoEmg.kt:63-71 | publishes bytes 0..7 then 8..15 of this payload; the reader is left with the payload's bytes past 16 (none for a 16-byte payload) |
| MyoSession.Myo.PutImuDataToDataProcessor | myonnaise/src/main/java/com/ncorti/myonnaise/Myo.kt:278-307 | publishes bytes 0..9 then 10..19 of this payload, read from a reader rebound to it |
| MyoSession.Myo.OnCharacteristicChanged | myonnaise/src/main/java/com/ncorti/myonnaise/Myo.kt:258-276 | routes EMG-postfix identifiers to the EMG decoder and the IMU identifier to the IMU decoder; each decoder's reader is rebound to this payload, the other left alone; then, iff the keep-alive is due, the clock restarts and the command characteristic gets the keep-awake value and one write; otherwise neither changes |
| MyoSession.Myo.KeepAlive | myonnaise/src/main/java/com/ncorti/myonnaise/Myo.kt:270-275 | iff the flag is on and more than 10000 ms passed: clock set to `now`, the command characteristic's value set to the keep-awake command and one write issued (when writable); otherwise clock, characteristic and log are unchanged |
| MyoScenarios.RequestOrder | myonnaise/src/main/java/com/ncorti/myonnaise/Myo.kt:82-85 | the outstanding head plus the unissued requests are all queued requests, writes first, each queue in order |
| MyoScenarios.DrainQueues | myonnaise/src/main/java/com/ncorti/myonnaise/Myo.kt:317-326 | under write precedence, completion callbacks empty both queues and issue exactly the unissued requests, writes first, in queue order |
| MyoScenarios.DiscoverThenDrain | myonnaise/src/main/java/com/ncorti/myonnaise/Myo.kt:159-198 | after discovery and all callbacks the log holds the head request, the keep-awake write, then every other queued request in order: all descriptor writes before the information read |
| MyoScenarios.WriteDuringRead | myonnaise/src/main/java/com/ncorti/myonnaise/Myo.kt:309-315 | a descriptor write queued while a read is outstanding is issued at once, and write precedence is lost |
| MyoScenarios.ConnectToReady | myonnaise/src/main/java/com/ncorti/myonnaise/Myo.kt:91-94 | connect, link-up and discovery of a control-only device end READY, not streaming, with log `[connect, discover, keep-awake write]` |
| MyoScenarios.KeepAliveRun | myonnaise/src/main/java/com/ncorti/myonnaise/Myo.kt:270-275 | notifications at `times` through the keep-alive step leave the clock at the last send of `KeepAliveSends` and log one keep-awake write per send, so the sends through the class are the ones `KeepAliveSpacing` spaces |
| MyoScenarios.TwentyFiveSecondKeepAlive | myonnaise/src/main/java/com/ncorti/myonnaise/Myo.kt:270-275 | a 25-second stream, one notification per millisecond from clock 0, logs exactly two keep-awake writes |
| MyoScenarios.StreamThenDisconnect | myonnaise/src/main/java/com/ncorti/myonnaise/Myo.kt:328-357 | start and stop streaming, link-down and a second disconnect end DISCONNECTED, not streaming, with both command writes and two closes logged |

## Left out

- Android and RxJava plumbing: `BehaviorSubject`, `PublishProcessor`, the
  timer-driven drop of `sample(...)` (only its period is modelled),
  `Flowable`/`Observable` accessors, `Log.d`.
- The `String.format` dump of the information characteristic in
  `onCharacteristicRead`: it only logs.
- Conversion of sample bytes to `FloatArray`: samples are the byte values.
- `ByteReader` is not part of this model. The cursor reset on binding new
  data and `getBytes(n)` returning the next `n` bytes are stated as its
  contract.
- `SleppMode` is not part of this model. `SleppMode.NEVER` is taken to be 1,
  `COMAND_SLEEP_MODE_NEVER`.
- Android constants are taken from the platform: `GATT_SUCCESS` 0,
  `STATE_CONNECTED` 2, `STATE_DISCONNECTED` 0, `PROPERTY_WRITE` 0x08,
  `ENABLE_NOTIFICATION_VALUE` `[1, 0]`.
- `connectGatt` returning `null` is not modelled: `connect` always opens the link.
- `setCharacteristicNotification` is not logged. Its answer is the
  `notificationAccepted` field of each characteristic.
- `System.currentTimeMillis` is the parameter `now`. `lastKeepAlive` is an
  unbounded integer, so `Long` overflow is not modelled.
- Callback concurrency on the Binder thread is not modelled. Each callback
  runs to completion.
- A null or short notification payload makes the source throw. The decoders
  require at least 16 (EMG) or 20 (IMU) bytes instead.
- `remove()` on an empty queue throws. `OnDescriptorWrite` and
  `OnCharacteristicRead` require a non-empty queue instead.
- Writes from `sendCommand` are not serialised with the two queues. The model
  logs them when they are issued and does not include them in write precedence.
- The queues are never cleared on disconnect, in the source as in the model.
- MyoSession.Myo.SendCommand: only for a 4-byte command `[1, _, 0, 0]` to a
  writable command characteristic, the source sets the value and then throws
  at CommandList.kt:95 (called from Myo.kt:332), so it writes nothing and
  returns nothing. The model classifies with the corrected
  `IsStartStreamingCommand`, which answers false there: it writes the
  command, returns true and leaves the streaming status alone. On every
  other command, 4-byte ones included, the model classifies as the source
  does. Exceptions are not modelled.
- MyoSession.ControlStatusAfter: on those same `[1, _, 0, 0]` commands the
  source throws instead of producing a status; the model returns the old
  status.
- `Myonnaise.kt` (scanning), `MyoCompoments/Emg.kt` (commented out), the
  presenters of the sample app and the display bounds
  `MYO_MAX_VALUE`/`MYO_MIN_VALUE` are outside the protocol engine.

## Where the model follows the code

- The frequency setter does not reject negative values. A negative stored
  frequency gives a non-positive period (`MyoEmg.SamplingFor`).
- A second `disconnect` closes the link again and reports the same state.
- `onCharacteristicRead` issues the next read even when writes are queued.
  `writeDescriptor` issues a write even while a read is outstanding
  (`MyoScenarios.WriteDuringRead`). Write precedence therefore holds only for
  the discovery order EMG, IMU, control (`MyoScenarios.DiscoverThenDrain`).

## Findings

| source | as written | input that shows it | evidently intended | confidence | as-written member | corrected member |
|---|---|---|---|---|---|---|
| myonnaise/src/main/java/com/ncorti/myonnaise/CommandList.kt:93-95 | the guard `size >= 4` admits 4-byte arrays, and the last disjunct reads index 4 | `[1, 3, 0, 0]`: bytes 2 and 3 are zero, so index 4 is read, past the end | read index 4 only when it exists: the failing inputs answer false, every other answer is unchanged | not executed | CommandList.IsStartStreamingAsWritten (AsWrittenCounterexample) | CommandList.IsStartStreamingCommand (CorrectedAgreesWhereDefined) |

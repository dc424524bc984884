/** The vendor command set of the Myo armband (CommandList.kt): builders
    for the byte commands and the two streaming classifiers. */
module CommandList {
  import opened MyoConstants

  /** A command is the raw byte array written to the command characteristic. */
  type Command = seq<Byte>

  /** The meaning of a command, read back from its wire layout. The source
      has no decoder; this one is the reference the builders are checked against. */
  datatype Decoded =
    | SetStreamingCmd(emg: Byte, imu: Byte, classifier: Byte)
    | VibrateCmd(vibration: Byte)
    | SleepModeCmd(mode: Byte)
    | Unrecognised

  function Decode(c: Command): Decoded {
    if |c| == 5 && c[0] == 0x01 && c[1] == 0x03 then SetStreamingCmd(c[2], c[3], c[4])
    else if |c| == 3 && c[0] == 0x03 && c[1] == 0x01 then VibrateCmd(c[2])
    else if |c| == 3 && c[0] == 0x09 && c[1] == 0x01 then SleepModeCmd(c[2])
    else Unrecognised
  }

  /** Writes a decoded command back to bytes through the builders. */
  function Encode(d: Decoded): Command
    requires !d.Unrecognised?
  {
    match d
    case SetStreamingCmd(e, i, k) => SetStreaming(e as int, i as int, k as int)
    case VibrateCmd(t) => Vibration(t as int)
    case SleepModeCmd(m) => SleepMode(m as int)
  }

  /** `vibration(t)`: command 0x03, payload length 1, the vibration type. */
  function Vibration(vibrationType: int): (c: Command)
    ensures |c| == 3
    ensures Decode(c) == VibrateCmd(ToByte(vibrationType))
  {
    [0x03, 1, ToByte(vibrationType)]
  }

  /** `setStreaming(e, i, c)`: command 0x01, payload length 3, the three modes. */
  function SetStreaming(emgMode: int, imuMode: int, classMode: int): (c: Command)
    ensures |c| == 5
    ensures Decode(c) == SetStreamingCmd(ToByte(emgMode), ToByte(imuMode), ToByte(classMode))
  {
    [0x01, 3, ToByte(emgMode), ToByte(imuMode), ToByte(classMode)]
  }

  /** `sleepMode(m)`: command 0x09, payload length 1, the sleep mode. */
  function SleepMode(sleepMode: int): (c: Command)
    ensures |c| == 3
    ensures Decode(c) == SleepModeCmd(ToByte(sleepMode))
  {
    [0x09, 1, ToByte(sleepMode)]
  }

  /** `setStreaming()` with every argument left at its default. */
  function StopStreaming(): (c: Command)
    ensures c == [1, 3, 0, 0, 0]
  {
    SetStreaming(COMAND_EMG_NONE, COMAND_IMU_NONE, COMAND_CLASSIFIER_DISABLE)
  }

  function EmgFilteredOnly(): (c: Command)
    ensures Decode(c) == SetStreamingCmd(COMAND_EMG_FILTERED as Byte, 0, 0)
    ensures IsStartStreamingCommand(c)
  {
    SetStreaming(COMAND_EMG_FILTERED, COMAND_IMU_NONE, COMAND_CLASSIFIER_DISABLE)
  }

  function EmgUnfilteredOnly(): (c: Command)
    ensures Decode(c) == SetStreamingCmd(COMAND_EMG_RAW as Byte, 0, 0)
    ensures IsStartStreamingCommand(c)
  {
    SetStreaming(COMAND_EMG_RAW, COMAND_IMU_NONE, COMAND_CLASSIFIER_DISABLE)
  }

  function VibrationShort(): (c: Command)
    ensures Decode(c) == VibrateCmd(COMAND_VIBRATION_SHORT as Byte)
  {
    Vibration(COMAND_VIBRATION_SHORT)
  }

  function VibrationMedium(): (c: Command)
    ensures Decode(c) == VibrateCmd(COMAND_VIBRATION_MEDIUM as Byte)
  {
    Vibration(COMAND_VIBRATION_MEDIUM)
  }

  function VibrationLong(): (c: Command)
    ensures Decode(c) == VibrateCmd(COMAND_VIBRATION_LONG as Byte)
  {
    Vibration(COMAND_VIBRATION_LONG)
  }

  /** The keep-awake command the session sends on connection and as keep-alive. */
  function UnSleep(): (c: Command)
    ensures c == [0x09, 1, 1]
    ensures Decode(c) == SleepModeCmd(COMAND_SLEEP_MODE_NEVER as Byte)
  {
    SleepMode(COMAND_SLEEP_MODE_NEVER)
  }

  function NormalSleep(): (c: Command)
    ensures c == [0x09, 1, 0]
    ensures Decode(c) == SleepModeCmd(COMAND_SLEEP_MODE_NORMAL as Byte)
  {
    SleepMode(COMAND_SLEEP_MODE_NORMAL)
  }

  /** "Start streaming" classifier, corrected: at least four bytes, header
      byte 0x01, and some mode byte set, where offset 4 counts only when it
      exists. */
  predicate IsStartStreamingCommand(x: Command) {
    |x| >= 4 && x[0] == 0x01 && (x[2] != 0 || x[3] != 0 || (|x| >= 5 && x[4] != 0))
  }

  /** "Stop streaming" classifier: byte-for-byte equality with `stopStreaming()`. */
  predicate IsStopStreamingCommand(x: Command) {
    x == StopStreaming()
  }

  /** Outcome of evaluating a Kotlin expression that may index out of range. */
  datatype Eval = Value(b: bool) | IndexOutOfBounds(index: int)

  /** The start-streaming classifier as written: the guard admits four-byte
      arrays, `||` short-circuits, and offset 4 is read only when offsets 2
      and 3 are both zero. */
  function IsStartStreamingAsWritten(x: Command): (r: Eval)
    ensures r.IndexOutOfBounds? ==> r.index == |x|
  {
    if !(|x| >= 4) then Value(false)
    else if x[0] != 0x01 then Value(false)
    else if x[2] != 0 then Value(true)
    else if x[3] != 0 then Value(true)
    else if 4 >= |x| then IndexOutOfBounds(4)
    else Value(x[4] != 0)
  }

  /** The as-written classifier fails exactly on four-byte arrays whose first
      byte is 0x01 and whose bytes 2 and 3 are zero. */
  lemma AsWrittenFailsExactly(x: Command)
    ensures IsStartStreamingAsWritten(x).IndexOutOfBounds?
            <==> |x| == 4 && x[0] == 0x01 && x[2] == 0 && x[3] == 0
  {
  }

  /** A concrete input the guard `size >= 4` lets through to the read of offset 4. */
  lemma AsWrittenCounterexample()
    ensures IsStartStreamingAsWritten([1, 3, 0, 0]) == IndexOutOfBounds(4)
  {
  }

  /** Wherever the code as written answers, the corrected classifier gives the
      same answer; on the inputs where it reads out of range, the corrected
      one answers false. */
  lemma CorrectedAgreesWhereDefined(x: Command)
    ensures IsStartStreamingAsWritten(x).Value? ==> IsStartStreamingAsWritten(x) == Value(IsStartStreamingCommand(x))
    ensures IsStartStreamingAsWritten(x).IndexOutOfBounds? ==> !IsStartStreamingCommand(x)
  {
  }

  /** On five-byte commands the code as written never reads out of range, and
      it answers "header byte 0x01 and some mode byte set". */
  lemma StartStreamingOnFiveBytes(x: Command)
    requires |x| == 5
    ensures IsStartStreamingAsWritten(x) == Value(x[0] == 0x01 && (x[2] != 0 || x[3] != 0 || x[4] != 0))
  {
  }

  lemma StopStreamingIff(x: Command)
    ensures IsStopStreamingCommand(x) <==> x == [1, 3, 0, 0, 0]
  {
  }

  /** On every `setStreaming` command with enumerated modes, decoding gives
      back the modes, and exactly one of start and stop holds: stop iff all
      three modes are off. */
  lemma SetStreamingClassified(e: int, i: int, k: int)
    requires IsEmgMode(e) && IsImuMode(i) && IsClassifierMode(k)
    ensures var d := Decode(SetStreaming(e, i, k));
            d.emg as int == e && d.imu as int == i && d.classifier as int == k
    ensures IsStopStreamingCommand(SetStreaming(e, i, k)) <==> e == 0 && i == 0 && k == 0
    ensures IsStartStreamingCommand(SetStreaming(e, i, k)) <==> !(e == 0 && i == 0 && k == 0)
  {
    OptionValuesAreLossless(e);
    OptionValuesAreLossless(i);
    OptionValuesAreLossless(k);
    var c := SetStreaming(e, i, k);
    assert c[2] as int == e && c[3] as int == i && c[4] as int == k;
  }

  /** No command is classified both as start and as stop. */
  lemma StartExcludesStop(x: Command)
    ensures !(IsStartStreamingCommand(x) && IsStopStreamingCommand(x))
  {
  }

  /** Vibration and sleep commands are three bytes long, so neither classifier
      holds of them, and the as-written classifier answers false without
      reading past the end. */
  lemma ShortCommandsDoNotStream(t: int, m: int)
    ensures !IsStartStreamingCommand(Vibration(t)) && !IsStopStreamingCommand(Vibration(t))
    ensures !IsStartStreamingCommand(SleepMode(m)) && !IsStopStreamingCommand(SleepMode(m))
    ensures IsStartStreamingAsWritten(Vibration(t)) == Value(false)
    ensures IsStartStreamingAsWritten(SleepMode(m)) == Value(false)
  {
  }

  /** Every command decodes to the meaning it was built from, and every
      recognised byte array is re-encoded to itself. */
  lemma EncodeDecodeRoundTrip(d: Decoded, c: Command)
    ensures !d.Unrecognised? ==> Decode(Encode(d)) == d
    ensures !Decode(c).Unrecognised? ==> Encode(Decode(c)) == c
  {
    if !Decode(c).Unrecognised? {
      match Decode(c)
      case SetStreamingCmd(e, i, k) =>
        assert SetStreaming(e as int, i as int, k as int) == c;
      case VibrateCmd(t) =>
        assert Vibration(t as int) == c;
      case SleepModeCmd(m) =>
        assert SleepMode(m as int) == c;
    }
  }

  /** Convenience builders agree with the parameterised ones. */
  lemma ConvenienceBuilders()
    ensures UnSleep() == SleepMode(1) && NormalSleep() == SleepMode(0)
    ensures StopStreaming() == SetStreaming(0, 0, 0)
    ensures EmgFilteredOnly() == SetStreaming(2, 0, 0) && EmgUnfilteredOnly() == SetStreaming(3, 0, 0)
    ensures VibrationShort() == Vibration(1) && VibrationMedium() == Vibration(2)
    ensures VibrationLong() == Vibration(3)
  {
  }
}

/** Identifiers, option values and limits of the Myo armband protocol
    (the top-level constants of MyoConstants.kt). */
module MyoConstants {

  /** A Kotlin `Byte`: a signed two's-complement 8-bit value. */
  newtype Byte = x: int | -128 <= x < 128

  /** Kotlin's `Int.toByte()`: the byte congruent to `i` modulo 256. */
  function ToByte(i: int): (b: Byte)
    ensures (b as int - i) % 256 == 0
    ensures -128 <= i < 128 ==> b as int == i
  {
    (((i + 128) % 256) - 128) as Byte
  }

  /** A 128-bit UUID in Java's canonical lower-case `toString()` form. */
  type Uuid = string

  const SERVICE_CONTROL_ID: Uuid := "d5060001-a904-deb9-4748-2c7f4a124842"
  const SERVICE_EMG_DATA_ID: Uuid := "d5060005-a904-deb9-4748-2c7f4a124842"
  const SERVICE_IMU_DATA_ID: Uuid := "d5060002-a904-deb9-4748-2c7f4a124842"
  const SERVICE_CLASSIFIER_ID: Uuid := "d5060003-a904-deb9-4748-2c7f4a124842"
  const SERVICE_BATTERY_ID: Uuid := "d506180f-a904-deb9-4748-2c7f4a124842"

  const CHAR_INFO_ID: Uuid := "d5060101-a904-deb9-4748-2c7f4a124842"
  const CHAR_FIRMWARE_ID: Uuid := "d5060201-a904-deb9-4748-2c7f4a124842"
  const CHAR_COMMAND_ID: Uuid := "d5060401-a904-deb9-4748-2c7f4a124842"
  const CHAR_IMU_DATA_ID: Uuid := "d5060402-a904-deb9-4748-2c7f4a124842"
  const CHAR_MOTION_EVENT_ID: Uuid := "d5060502-a904-deb9-4748-2c7f4a124842"
  const CHAR_CLASSIFIER_EVENT_ID: Uuid := "d5060103-a904-deb9-4748-2c7f4a124842"
  const CHAR_BATTERY_LEVEL_ID: Uuid := "d5062a19-a904-deb9-4748-2c7f4a124842"

  const CHAR_EMG_0_ID: Uuid := "d5060105-a904-deb9-4748-2c7f4a124842"
  const CHAR_EMG_1_ID: Uuid := "d5060205-a904-deb9-4748-2c7f4a124842"
  const CHAR_EMG_2_ID: Uuid := "d5060305-a904-deb9-4748-2c7f4a124842"
  const CHAR_EMG_3_ID: Uuid := "d5060405-a904-deb9-4748-2c7f4a124842"

  const DATA_DEVICE_NAME_ID: Uuid := "d5062a00-a904-deb9-4748-2c7f4a124842"

  /** Common tail of every EMG characteristic identifier. */
  const CHAR_EMG_POSTFIX: string := "05-a904-deb9-4748-2c7f4a124842"

  /** Android's client characteristic configuration descriptor. */
  const CHAR_CLIENT_CONFIG: Uuid := "00002902-0000-1000-8000-00805f9b34fb"

  /** Bytes in one EMG notification. */
  const EMG_ARRAY_SIZE := 16
  /** Highest sampling frequency of the device, in Hz. */
  const MYO_MAX_FREQUENCY := 200
  const MYO_CHANNELS := 18
  /** Interval between two keep-alive commands, in milliseconds. */
  const KEEP_ALIVE_INTERVAL_MS := 10000

  const COMAND_VIBRATION_NONE := 0
  const COMAND_VIBRATION_SHORT := 1
  const COMAND_VIBRATION_MEDIUM := 2
  const COMAND_VIBRATION_LONG := 3

  const COMAND_EMG_NONE := 0
  const COMAND_EMG_FILTERED := 2
  const COMAND_EMG_RAW := 3

  const COMAND_IMU_NONE := 0
  const COMAND_IMU_DATA := 1
  const COMAND_IMU_EVENTS := 2
  const COMAND_IMU_ALL := 3
  const COMAND_IMU_RAW := 4

  const COMAND_CLASSIFIER_DISABLE := 0
  const COMAND_CLASSIFIER_ENABLE := 1

  const COMAND_SLEEP_MODE_NORMAL := 0
  const COMAND_SLEEP_MODE_NEVER := 1

  predicate IsVibrationType(t: int) {
    t == COMAND_VIBRATION_NONE || t == COMAND_VIBRATION_SHORT
    || t == COMAND_VIBRATION_MEDIUM || t == COMAND_VIBRATION_LONG
  }

  predicate IsEmgMode(m: int) {
    m == COMAND_EMG_NONE || m == COMAND_EMG_FILTERED || m == COMAND_EMG_RAW
  }

  predicate IsImuMode(m: int) {
    m == COMAND_IMU_NONE || m == COMAND_IMU_DATA || m == COMAND_IMU_EVENTS
    || m == COMAND_IMU_ALL || m == COMAND_IMU_RAW
  }

  predicate IsClassifierMode(m: int) {
    m == COMAND_CLASSIFIER_DISABLE || m == COMAND_CLASSIFIER_ENABLE
  }

  predicate IsSleepMode(m: int) {
    m == COMAND_SLEEP_MODE_NORMAL || m == COMAND_SLEEP_MODE_NEVER
  }

  predicate IsEmgCharacteristicId(id: Uuid) {
    id == CHAR_EMG_0_ID || id == CHAR_EMG_1_ID || id == CHAR_EMG_2_ID || id == CHAR_EMG_3_ID
  }

  /** Kotlin's `String.endsWith`. */
  predicate EndsWith(s: string, suffix: string) {
    |suffix| <= |s| && s[|s| - |suffix|..] == suffix
  }

  /** Every enumerated option value survives `toByte()` unchanged, so
      distinct options give distinct command bytes. */
  lemma OptionValuesAreLossless(m: int)
    requires IsVibrationType(m) || IsEmgMode(m) || IsImuMode(m)
             || IsClassifierMode(m) || IsSleepMode(m)
    ensures 0 <= m < 128 && ToByte(m) as int == m
  {
  }

  /** The "off" value of each streaming option is zero. */
  lemma StopModesAreZero()
    ensures COMAND_EMG_NONE == 0 && COMAND_IMU_NONE == 0 && COMAND_CLASSIFIER_DISABLE == 0
    ensures IsEmgMode(COMAND_EMG_NONE) && IsImuMode(COMAND_IMU_NONE)
    ensures IsClassifierMode(COMAND_CLASSIFIER_DISABLE)
  {
  }

  /** An EMG notification splits into two equal halves, and the limits are positive. */
  lemma LimitsAreSound()
    ensures EMG_ARRAY_SIZE == 2 * (EMG_ARRAY_SIZE / 2) && EMG_ARRAY_SIZE / 2 == 8
    ensures MYO_MAX_FREQUENCY > 0 && KEEP_ALIVE_INTERVAL_MS > 0
  {
  }

  /** Each EMG characteristic identifier carries the EMG postfix. */
  lemma EmgIdsCarryPostfix(id: Uuid)
    requires IsEmgCharacteristicId(id)
    ensures EndsWith(id, CHAR_EMG_POSTFIX)
  {
    if id == CHAR_EMG_0_ID {
      Emg0CarriesPostfix();
    } else if id == CHAR_EMG_1_ID {
      Emg1CarriesPostfix();
    } else if id == CHAR_EMG_2_ID {
      Emg2CarriesPostfix();
    } else {
      Emg3CarriesPostfix();
    }
  }

  lemma Emg0CarriesPostfix()
    ensures EndsWith(CHAR_EMG_0_ID, CHAR_EMG_POSTFIX)
  {
    assert CHAR_EMG_0_ID[6..] == CHAR_EMG_POSTFIX;
  }

  lemma Emg1CarriesPostfix()
    ensures EndsWith(CHAR_EMG_1_ID, CHAR_EMG_POSTFIX)
  {
    assert CHAR_EMG_1_ID[6..] == CHAR_EMG_POSTFIX;
  }

  lemma Emg2CarriesPostfix()
    ensures EndsWith(CHAR_EMG_2_ID, CHAR_EMG_POSTFIX)
  {
    assert CHAR_EMG_2_ID[6..] == CHAR_EMG_POSTFIX;
  }

  lemma Emg3CarriesPostfix()
    ensures EndsWith(CHAR_EMG_3_ID, CHAR_EMG_POSTFIX)
  {
    assert CHAR_EMG_3_ID[6..] == CHAR_EMG_POSTFIX;
  }

  /** The services the session looks up have distinct identifiers, and so
      do the information and command characteristics. */
  lemma LookupIdsDistinct()
    ensures SERVICE_CONTROL_ID != SERVICE_EMG_DATA_ID && SERVICE_CONTROL_ID != SERVICE_IMU_DATA_ID
    ensures SERVICE_EMG_DATA_ID != SERVICE_IMU_DATA_ID
    ensures CHAR_INFO_ID != CHAR_COMMAND_ID
  {
    assert SERVICE_CONTROL_ID[7] != SERVICE_EMG_DATA_ID[7];
    assert SERVICE_CONTROL_ID[7] != SERVICE_IMU_DATA_ID[7];
    assert SERVICE_EMG_DATA_ID[7] != SERVICE_IMU_DATA_ID[7];
    assert CHAR_INFO_ID[5] != CHAR_COMMAND_ID[5];
  }

  /** The IMU, command and information characteristics do not carry the EMG
      postfix: the position where it would start differs ("02", "01"). */
  lemma NonEmgIdsLackPostfix()
    ensures !EndsWith(CHAR_IMU_DATA_ID, CHAR_EMG_POSTFIX)
    ensures !EndsWith(CHAR_COMMAND_ID, CHAR_EMG_POSTFIX)
    ensures !EndsWith(CHAR_INFO_ID, CHAR_EMG_POSTFIX)
  {
    var at := |CHAR_IMU_DATA_ID| - |CHAR_EMG_POSTFIX|;
    assert CHAR_IMU_DATA_ID[at..][1] != CHAR_EMG_POSTFIX[1];
    assert CHAR_COMMAND_ID[at..][1] != CHAR_EMG_POSTFIX[1];
    assert CHAR_INFO_ID[at..][1] != CHAR_EMG_POSTFIX[1];
  }

  /** A notification is routed to at most one of the EMG and IMU decoders. */
  lemma RoutingIsDisjoint(u: Uuid)
    ensures !(EndsWith(u, CHAR_EMG_POSTFIX) && u == CHAR_IMU_DATA_ID)
  {
    NonEmgIdsLackPostfix();
  }
}

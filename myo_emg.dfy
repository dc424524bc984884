/** The value-level parts of the EMG half of the session (MyoEmg.kt): the
    sub-sampling period, the characteristics subscribed to, and the split of
    one notification into two samples. */
module MyoEmg {
  import opened MyoConstants
  import opened MyoGatt

  /** How a data stream is delivered to subscribers: every frame, or at most
      one frame per period (RxJava's `sample(period, MILLISECONDS)`). */
  datatype Delivery = Unsampled | Sampled(periodMs: int)

  /** Kotlin's `Int` division, which truncates toward zero. */
  function KotlinDiv(a: int, b: int): (q: int)
    requires b != 0
    ensures a >= 0 && b > 0 ==> q == a / b
    ensures a >= 0 && b < 0 ==> q == -(a / -b)
    ensures a < 0 && b > 0 ==> q == -(-a / b)
    ensures a < 0 && b < 0 ==> q == -a / -b
  {
    var m := (if a < 0 then -a else a) / (if b < 0 then -b else b);
    if (a < 0) != (b < 0) then -m else m
  }

  /** The delivery `dataFlowableEmg` (and `dataFlowableImuGyro`) picks for a
      stored frequency: unsampled at 0, otherwise a period of 1000/frequency ms. */
  function SamplingFor(frequency: int): (d: Delivery)
    ensures d.Unsampled? <==> frequency == 0
    ensures frequency > 0 ==>
      d.periodMs >= 0 && d.periodMs * frequency <= 1000 < (d.periodMs + 1) * frequency
    ensures frequency < 0 ==>
      d.periodMs <= 0 && d.periodMs * frequency <= 1000 < (d.periodMs - 1) * frequency
  {
    if frequency == 0 then Unsampled else Sampled(KotlinDiv(1000, frequency))
  }

  /** For a frequency strictly between 0 and the device maximum the period
      lies between 5 ms and one second. */
  lemma PeriodBounds(frequency: int)
    requires 0 < frequency < MYO_MAX_FREQUENCY
    ensures SamplingFor(frequency).Sampled?
    ensures 5 <= SamplingFor(frequency).periodMs <= 1000
  {
  }

  /** One 16-byte EMG notification becomes two 8-byte samples: the first
      half, then the second. */
  function EmgSplit(data: seq<Byte>): (halves: seq<seq<Byte>>)
    requires |data| >= EMG_ARRAY_SIZE
    ensures |halves| == 2
    ensures |halves[0]| == |halves[1]| == EMG_ARRAY_SIZE / 2
    ensures halves[0] + halves[1] == data[..EMG_ARRAY_SIZE]
  {
    [data[..EMG_ARRAY_SIZE / 2], data[EMG_ARRAY_SIZE / 2..EMG_ARRAY_SIZE]]
  }

  /** The identifier of the k-th EMG characteristic. */
  function EmgId(k: nat): Uuid
    requires k < 4
  {
    if k == 0 then CHAR_EMG_0_ID
    else if k == 1 then CHAR_EMG_1_ID
    else if k == 2 then CHAR_EMG_2_ID
    else CHAR_EMG_3_ID
  }

  /** The EMG characteristics of the EMG service, looked up in order 0..3. */
  function EmgCharacteristics(s: Service): (cs: seq<Option<Characteristic>>)
    ensures |cs| == 4
    ensures forall k :: 0 <= k < 4 ==> cs[k] == GetCharacteristic(s, EmgId(k))
  {
    [GetCharacteristic(s, CHAR_EMG_0_ID), GetCharacteristic(s, CHAR_EMG_1_ID),
     GetCharacteristic(s, CHAR_EMG_2_ID), GetCharacteristic(s, CHAR_EMG_3_ID)]
  }

  /** The EMG subscription enqueues at most four descriptor writes, one per
      EMG characteristic that is subscribed to and none for the others, each
      with the enable-notification value, in characteristic order 0, 1, 2, 3. */
  lemma EmgSubscriptionOrder(g: GattServer)
    requires g.WellFormed() && SERVICE_EMG_DATA_ID in g.services
    ensures var cs := EmgCharacteristics(g.services[SERVICE_EMG_DATA_ID]);
      var ds, ps := NotificationDescriptors(cs), SubscribedPositions(cs);
      && |ds| == |ps| <= 4
      && (forall i :: 0 <= i < |ds| ==>
            ps[i] < 4 && ds[i] == Descriptor(EmgId(ps[i]), ENABLE_NOTIFICATION_VALUE))
      && (forall i, j :: 0 <= i < j < |ps| ==> ps[i] < ps[j])
      && (forall k :: 0 <= k < 4 && Subscribes(cs[k]) ==> k in ps)
  {
    var s := g.services[SERVICE_EMG_DATA_ID];
    var cs := EmgCharacteristics(s);
    NotificationDescriptorsSelect(cs);
    var ps := SubscribedPositions(cs);
    forall i | 0 <= i < |ps|
      ensures cs[ps[i]].value.uuid == EmgId(ps[i])
    {
      assert EmgId(ps[i]) in s.characteristics;
    }
  }
}

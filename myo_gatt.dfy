/** The part of the host Bluetooth stack the session talks to, as values:
    what service discovery found, the descriptors the session writes, and
    the operations it issues. */
module MyoGatt {
  import opened MyoConstants

  datatype Option<+T> = None | Some(value: T)

  /** Android's `BluetoothGattCharacteristic.PROPERTY_WRITE`. */
  const PROPERTY_WRITE := 0x08
  /** Android's `BluetoothGattDescriptor.ENABLE_NOTIFICATION_VALUE`. */
  const ENABLE_NOTIFICATION_VALUE: seq<Byte> := [0x01, 0x00]

  /** A characteristic as the stack reports it. `notificationAccepted` is what
      `setCharacteristicNotification(c, true)` answers for it, and
      `hasClientConfig` whether it carries the client-configuration descriptor. */
  datatype Characteristic = Characteristic(
    uuid: Uuid,
    properties: int,
    value: seq<Byte>,
    notificationAccepted: bool,
    hasClientConfig: bool)

  datatype Service = Service(characteristics: map<Uuid, Characteristic>)

  /** The services found by discovery, by identifier. */
  datatype GattServer = GattServer(services: map<Uuid, Service>) {
    /** The stack hands out each characteristic under its own identifier. */
    ghost predicate WellFormed() {
      forall sid, cid :: sid in services && cid in services[sid].characteristics
        ==> services[sid].characteristics[cid].uuid == cid
    }
  }

  /** The client-configuration descriptor of a characteristic, with the value
      the session sets before writing it. */
  datatype Descriptor = Descriptor(characteristic: Uuid, value: seq<Byte>)

  /** An operation the session asks the transport to perform. */
  datatype GattOp =
    | ConnectGatt
    | CloseGatt
    | DiscoverServices
    | WriteDesc(descriptor: Descriptor)
    | ReadChar(characteristic: Uuid)
    | WriteChar(bytes: seq<Byte>)

  /** `gatt.getService(id)`. */
  function GetService(g: GattServer, id: Uuid): (r: Option<Service>)
    ensures r.Some? <==> id in g.services
    ensures r.Some? ==> r.value == g.services[id]
  {
    if id in g.services then Some(g.services[id]) else None
  }

  /** `service.getCharacteristic(id)`. */
  function GetCharacteristic(s: Service, id: Uuid): (r: Option<Characteristic>)
    ensures r.Some? <==> id in s.characteristics
    ensures r.Some? ==> r.value == s.characteristics[id]
  {
    if id in s.characteristics then Some(s.characteristics[id]) else None
  }

  /** A characteristic the session subscribes to: present, notification
      registration accepted, client-configuration descriptor present. */
  predicate Subscribes(c: Option<Characteristic>) {
    c.Some? && c.value.notificationAccepted && c.value.hasClientConfig
  }

  function EnableDescriptor(c: Characteristic): Descriptor {
    Descriptor(c.uuid, ENABLE_NOTIFICATION_VALUE)
  }

  /** The descriptor writes a subscription loop over `cs` enqueues, in order. */
  function NotificationDescriptors(cs: seq<Option<Characteristic>>): seq<Descriptor> {
    if cs == [] then []
    else
      var last := cs[|cs| - 1];
      NotificationDescriptors(cs[..|cs| - 1])
        + (if Subscribes(last) then [EnableDescriptor(last.value)] else [])
  }

  /** The positions in `cs` of the characteristics subscribed to, in order. */
  function SubscribedPositions(cs: seq<Option<Characteristic>>): seq<nat> {
    if cs == [] then []
    else
      SubscribedPositions(cs[..|cs| - 1])
        + (if Subscribes(cs[|cs| - 1]) then [|cs| - 1] else [])
  }

  /** The subscription loop enqueues one enable-notification descriptor for
      each subscribed characteristic and no other, in the characteristics'
      order. */
  lemma {:induction false} NotificationDescriptorsSelect(cs: seq<Option<Characteristic>>)
    ensures var ds, ps := NotificationDescriptors(cs), SubscribedPositions(cs);
      && |ds| == |ps| <= |cs|
      && (forall i :: 0 <= i < |ps| ==>
            ps[i] < |cs| && Subscribes(cs[ps[i]]) && ds[i] == EnableDescriptor(cs[ps[i]].value))
      && (forall i, j :: 0 <= i < j < |ps| ==> ps[i] < ps[j])
      && (forall k :: 0 <= k < |cs| && Subscribes(cs[k]) ==> k in ps)
  {
    if cs != [] {
      var init := cs[..|cs| - 1];
      NotificationDescriptorsSelect(init);
      var ps0 := SubscribedPositions(init);
      var ps := SubscribedPositions(cs);
      forall k | 0 <= k < |cs| && Subscribes(cs[k])
        ensures k in ps
      {
        if k < |cs| - 1 {
          assert init[k] == cs[k];
          assert k in ps0;
        }
      }
      forall i | 0 <= i < |ps0|
        ensures ps0[i] < |init| && cs[ps0[i]] == init[ps0[i]]
      {
      }
    }
  }

  /** Every descriptor the loop enqueues carries the enable-notification value. */
  lemma {:induction false} NotificationDescriptorsEnable(cs: seq<Option<Characteristic>>)
    ensures forall d :: d in NotificationDescriptors(cs) ==> d.value == ENABLE_NOTIFICATION_VALUE
  {
    if cs != [] {
      NotificationDescriptorsEnable(cs[..|cs| - 1]);
    }
  }
}

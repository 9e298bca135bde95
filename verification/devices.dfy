/**
 * The Device record and `DeviceService`: the JSON projection of a device and
 * the listing of a user's devices.
 */
module Devices {
  import opened Wrappers
  import opened Documents
  import opened Sessions
  import Errors

  /** A token entry as the projection reads it: only whether it was revoked. */
  datatype DeviceToken = DeviceToken(revokedAt: Option<Time>)

  /** A stored device, with the fields the device service reads. */
  datatype Device = Device(
    id: ObjectId,
    user: Option<ObjectId>,
    agents: seq<string>,
    hosts: seq<IPAddress>,
    tokens: seq<DeviceToken>,
    createdAt: Time,
    updatedAt: Time)

  /** The JSON projection of a device. */
  datatype DeviceView = DeviceView(
    id: ObjectId,
    agent: Option<string>,
    host: string,
    loggedIn: bool,
    createdAt: Time,
    updatedAt: Time)

  /** `new Device()` at time `now`: no owner and empty histories. */
  function NewDevice(id: ObjectId, now: Time): (d: Device)
    ensures d.id == id && d.user.None?
    ensures d.agents == [] && d.hosts == [] && d.tokens == []
    ensures d.createdAt == d.updatedAt == now
  {
    Device(id, None, [], [], [], now, now)
  }

  /** `findById(id)`: the stored device with that id, if any. */
  function FindDevice(devices: seq<Device>, id: ObjectId): (r: Option<Device>)
    ensures r.Some? ==> r.value in devices && r.value.id == id
    ensures r.None? <==> forall d <- devices :: d.id != id
  {
    if devices == [] then None
    else if devices[0].id == id then Some(devices[0])
    else FindDevice(devices[1..], id)
  }

  /**
   * `transformDevice`: the last agent, the address of the last host and
   * whether the last token is unrevoked. `None` stands for the TypeError
   * thrown when there is no host to read an address from.
   */
  function TransformDevice(d: Device): (r: Option<DeviceView>)
    ensures r.Some? <==> |d.hosts| > 0
    ensures r.Some? ==>
      && r.value.id == d.id
      && r.value.createdAt == d.createdAt && r.value.updatedAt == d.updatedAt
      && r.value.host == d.hosts[|d.hosts| - 1].address
      && (r.value.agent.Some? <==> |d.agents| > 0)
      && (|d.agents| > 0 ==> r.value.agent.value == d.agents[|d.agents| - 1])
      && (r.value.loggedIn <==> |d.tokens| > 0 && d.tokens[|d.tokens| - 1].revokedAt.None?)
  {
    if |d.hosts| == 0 then None
    else
      Some(DeviceView(
        d.id,
        if |d.agents| > 0 then Some(d.agents[|d.agents| - 1]) else None,
        d.hosts[|d.hosts| - 1].address,
        if |d.tokens| > 0 then d.tokens[|d.tokens| - 1].revokedAt.None? else false,
        d.createdAt,
        d.updatedAt))
  }

  /** Only the last token decides `loggedIn`; the ones before it are ignored. */
  lemma LoggedInReadsLastTokenOnly(d: Device, earlier: seq<DeviceToken>, last: DeviceToken)
    requires |d.hosts| > 0
    ensures TransformDevice(d.(tokens := earlier + [last])).value.loggedIn <==> last.revokedAt.None?
  {
  }

  /** The devices owned by `user`, in store order (the `find({user})` query). */
  function OwnedBy(devices: seq<Device>, user: ObjectId): (owned: seq<Device>)
    ensures |owned| <= |devices|
    ensures forall d :: d in owned <==> d in devices && d.user == Some(user)
  {
    if devices == [] then []
    else if devices[0].user == Some(user) then [devices[0]] + OwnedBy(devices[1..], user)
    else OwnedBy(devices[1..], user)
  }

  /**
   * `getByUser`: the projection of every device the user owns, in store
   * order; any failure while projecting becomes the default ServiceError.
   */
  function GetByUser(devices: seq<Device>, user: ObjectId): (r: Result<seq<DeviceView>, Errors.ServiceError>)
    ensures r.Success? <==> forall d <- devices :: d.user == Some(user) ==> |d.hosts| > 0
    ensures r.Success? ==>
      && |r.value| == |OwnedBy(devices, user)|
      && forall i :: 0 <= i < |r.value| ==> TransformDevice(OwnedBy(devices, user)[i]) == Some(r.value[i])
    ensures r.Failure? ==> r.error == Errors.NewServiceError(None, None)
  {
    if devices == [] then Success([])
    else
      var rest := GetByUser(devices[1..], user);
      if devices[0].user != Some(user) then rest
      else
        match TransformDevice(devices[0])
        case None => Failure(Errors.NewServiceError(None, None))
        case Some(v) => if rest.Failure? then rest else Success([v] + rest.value)
  }

  /** A single stored device is selected iff the user owns it. */
  lemma OwnedByOne(d: Device, user: ObjectId)
    ensures OwnedBy([d], user) == if d.user == Some(user) then [d] else []
  {
  }

  /**
   * The query keeps store order: selecting from two stretches of the store
   * one after the other is selecting from their concatenation.
   */
  lemma {:induction false} OwnedByAppend(a: seq<Device>, b: seq<Device>, user: ObjectId)
    ensures OwnedBy(a + b, user) == OwnedBy(a, user) + OwnedBy(b, user)
  {
    if a == [] {
      assert a + b == b;
    } else {
      assert (a + b)[0] == a[0] && (a + b)[1..] == a[1..] + b;
      OwnedByAppend(a[1..], b, user);
    }
  }

  /** A device without an owner never shows up in any user's listing. */
  lemma OwnerlessDeviceNotListed(devices: seq<Device>, d: Device, user: ObjectId)
    requires d.user.None?
    ensures OwnedBy(devices + [d], user) == OwnedBy(devices, user)
  {
    OwnedByAppend(devices, [d], user);
    OwnedByOne(d, user);
  }
}

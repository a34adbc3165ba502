/**
 * The four attach and detach handlers as they run: fetch the instance, copy its devices, change
 * one key of the copy, patch the copy back. Each is proved against `Handled`, and `Handled`
 * against the read and patch steps of the protocol.
 */
module DeviceRoutes {
  import opened Wrappers
  import opened Errors
  import opened Devices
  import opened DeviceProtocol
  import LxdClient
  import References

  /** How LXD answers a GET: normally, with a reply that carries no devices, or with an error. */
  datatype Weather = Fine | Bare | Down(error: LxdError)

  /**
   * How LXD answers a PATCH of an instance it has: with an operation, with an error and no change,
   * or with the change made and its reply lost, which the client raises as an error too.
   */
  datatype PatchAnswer = Done(metadata: LxdClient.Json) | Rejected(error: LxdError) | Lost(error: LxdError)

  /** The reply to a GET; the code looks for its `devices` entry. */
  datatype InstanceReply = InstanceReply(devices: Option<DeviceMap>)

  /** LXD's instances. A patch replaces the devices of the instance it names. */
  class Daemon {
    var instances: Store

    constructor (store: Store)
      ensures instances == store
    {
      instances := store;
    }

    method Get(target: Target, weather: Weather) returns (r: Result<InstanceReply, LxdError>)
      ensures r == GetReply(instances, target, weather)
    {
      if weather.Down? {
        return Failure(weather.error);
      }
      if target !in instances {
        return Failure(ErrorForStatus(404));
      }
      return Success(InstanceReply(if weather.Bare? then None else Some(instances[target])));
    }

    method Patch(target: Target, devices: DeviceMap, answer: PatchAnswer)
      returns (r: Result<LxdClient.Json, LxdError>)
      modifies this
      ensures instances == Patched(old(instances), target, devices, answer)
      ensures r == PatchReply(old(instances), target, answer)
    {
      if answer.Rejected? {
        return Failure(answer.error);
      }
      r := PatchReply(instances, target, answer);
      if target in instances {
        instances := instances[target := devices];
      }
    }

    /** The handler is suspended; when it resumes, other requests have left `store` behind. */
    method Await(store: Store)
      modifies this
      ensures instances == store
    {
      instances := store;
    }
  }

  function GetReply(store: Store, target: Target, weather: Weather): Result<InstanceReply, LxdError> {
    if weather.Down? then Failure(weather.error)
    else if target !in store then Failure(ErrorForStatus(404))
    else Success(InstanceReply(if weather.Bare? then None else Some(store[target])))
  }

  function PatchReply(store: Store, target: Target, answer: PatchAnswer): Result<LxdClient.Json, LxdError> {
    match answer
    case Done(metadata) => if target in store then Success(metadata) else Failure(ErrorForStatus(404))
    case Rejected(error) => Failure(error)
    case Lost(error) => Failure(error)
  }

  /** The store after a patch, whatever the client learns of it. */
  function Patched(store: Store, target: Target, devices: DeviceMap, answer: PatchAnswer): Store {
    if answer.Rejected? || target !in store then store else store[target := devices]
  }

  /** A handler's own reply: a reference to the operation that LXD started, or an HTTP error status. */
  type HttpReply = Result<References.AsyncRef, int>

  /**
   * What a handler leaves in the store, and its reply. An error status does not mean that nothing was
   * patched: LXD's reply may have been lost, or no reference can be built from it.
   */
  function Handled(store: Store, request: Request, target: Target,
                   get: Weather, meanwhile: Store, patch: PatchAnswer): (Store, HttpReply)
  {
    match GetReply(store, target, get)
    case Failure(error) => (store, Failure(HttpStatus(error)))
    case Success(reply) =>
      var after := Patched(meanwhile, target, EditedCopy(EditOf(request), reply.devices), patch);
      match PatchReply(meanwhile, target, patch)
      case Failure(error) => (after, Failure(HttpStatus(error)))
      case Success(metadata) => (after, Referred(metadata))
  }

  function Referred(metadata: LxdClient.Json): HttpReply {
    match References.ToAsyncRef(metadata)
    case Success(ref) => Success(ref)
    case Failure(_) => Failure(500)
  }

  method AttachVolume(lxd: Daemon, pool: string, name: string, target: Target,
                      get: Weather, meanwhile: Store, patch: PatchAnswer) returns (r: HttpReply)
    modifies lxd
    ensures (lxd.instances, r)
            == Handled(old(lxd.instances), Request.AttachVolume(pool, name), target, get, meanwhile, patch)
  {
    var inst := lxd.Get(target, get);
    if inst.Failure? {
      return Failure(HttpStatus(inst.error));
    }
    var devices: DeviceMap := map[];
    if inst.value.devices.Some? {
      devices := inst.value.devices.value;
    }
    var deviceKey := "vol_" + name;
    devices := devices[deviceKey := map["type" := "disk", "pool" := pool, "volume" := name, "path" := "/mnt/data"]];
    lxd.Await(meanwhile);
    var result := lxd.Patch(target, devices, patch);
    if result.Failure? {
      return Failure(HttpStatus(result.error));
    }
    return Referred(result.value);
  }

  method DetachVolume(lxd: Daemon, pool: string, name: string, target: Target,
                      get: Weather, meanwhile: Store, patch: PatchAnswer) returns (r: HttpReply)
    modifies lxd
    ensures (lxd.instances, r)
            == Handled(old(lxd.instances), Request.DetachVolume(pool, name), target, get, meanwhile, patch)
  {
    var inst := lxd.Get(target, get);
    if inst.Failure? {
      return Failure(HttpStatus(inst.error));
    }
    var devices: DeviceMap := map[];
    if inst.value.devices.Some? {
      devices := inst.value.devices.value;
    }
    var deviceKey := "vol_" + name;
    devices := devices - {deviceKey};
    lxd.Await(meanwhile);
    var result := lxd.Patch(target, devices, patch);
    if result.Failure? {
      return Failure(HttpStatus(result.error));
    }
    return Referred(result.value);
  }

  method AttachNic(lxd: Daemon, name: string, deviceName: Option<string>, nicName: string, target: Target,
                   get: Weather, meanwhile: Store, patch: PatchAnswer) returns (r: HttpReply)
    modifies lxd
    ensures (lxd.instances, r)
            == Handled(old(lxd.instances), Request.AttachNic(name, deviceName, nicName), target, get, meanwhile, patch)
  {
    var inst := lxd.Get(target, get);
    if inst.Failure? {
      return Failure(HttpStatus(inst.error));
    }
    var devices: DeviceMap := map[];
    if inst.value.devices.Some? {
      devices := inst.value.devices.value;
    }
    var deviceKey := if deviceName.Some? && deviceName.value != "" then deviceName.value else "nic_" + name;
    devices := devices[deviceKey := map["type" := "nic", "network" := name, "name" := nicName]];
    lxd.Await(meanwhile);
    var result := lxd.Patch(target, devices, patch);
    if result.Failure? {
      return Failure(HttpStatus(result.error));
    }
    return Referred(result.value);
  }

  method DetachNic(lxd: Daemon, name: string, deviceName: Option<string>, target: Target,
                   get: Weather, meanwhile: Store, patch: PatchAnswer) returns (r: HttpReply)
    modifies lxd
    ensures (lxd.instances, r)
            == Handled(old(lxd.instances), Request.DetachNic(name, deviceName), target, get, meanwhile, patch)
  {
    var inst := lxd.Get(target, get);
    if inst.Failure? {
      return Failure(HttpStatus(inst.error));
    }
    var devices: DeviceMap := map[];
    if inst.value.devices.Some? {
      devices := inst.value.devices.value;
    }
    var deviceKey := if deviceName.Some? && deviceName.value != "" then deviceName.value else "nic_" + name;
    devices := devices - {deviceKey};
    lxd.Await(meanwhile);
    var result := lxd.Patch(target, devices, patch);
    if result.Failure? {
      return Failure(HttpStatus(result.error));
    }
    return Referred(result.value);
  }

  /**
   * A handler is the protocol's read step, whatever the other requests do, and its patch step;
   * an error from LXD is the failing step, which changes nothing. A lost reply is a patch step all
   * the same, so what holds of every run of the protocol holds with lost replies too.
   */
  lemma HandlerIsReadThenPatch(calls: Calls, s: State, id: nat, get: Weather, meanwhile: Store, patch: PatchAnswer)
    requires id in calls && id !in s.started && id !in s.flights && !get.Bare?
    requires s.store.Keys == meanwhile.Keys
    ensures var call := calls[id];
            var got := Step(calls, s, if get.Down? || call.target !in s.store then ReadFails(id) else Read(id));
            var resumed := got.(store := if id in got.flights then meanwhile else s.store);
            var done := Step(calls, resumed, if patch.Rejected? then PatchFails(id) else Patch(id));
            var (store, reply) := Handled(s.store, call.request, call.target, get, meanwhile, patch);
            && done.store == store
            && id in done.started && id !in done.flights
            && (reply.Success? <==> get.Fine? && call.target in s.store && patch.Done?
                                    && References.ToAsyncRef(patch.metadata).Success?)
  {
  }

  /**
   * A handler that runs undisturbed keeps the instance's other devices exactly when the reply
   * carried the devices or there were no others: fetching first is what preserves them.
   */
  lemma FetchPreservesOthers(store: Store, request: Request, target: Target, get: Weather, patch: PatchAnswer)
    requires target in store && !get.Down? && !patch.Rejected?
    ensures var after := Handled(store, request, target, get, store, patch).0;
            var key := EditOf(request).key;
            target in after &&
            ((forall other :: other != key ==> Lookup(after[target], other) == Lookup(store[target], other))
             <==> get.Fine? || store[target].Keys <= {key})
  {
    var after, edit := Handled(store, request, target, get, store, patch).0, EditOf(request);
    var seen := if get.Bare? then map[] else store[target];
    forall other
      ensures Lookup(after[target], other) == if other == edit.key then edit.Outcome() else Lookup(seen, other)
    {
      ApplyLookup(edit, seen, other);
    }
    if get.Bare? && !(store[target].Keys <= {edit.key}) {
      var other :| other in store[target] && other != edit.key;
      assert Lookup(after[target], other) != Lookup(store[target], other);
    }
  }

  /**
   * Attach then detach, undisturbed, gives back the whole store exactly when the key was fresh,
   * whatever the client learns of the two patches.
   */
  lemma AttachDetachRestores(store: Store, attach: Request, detach: Request, target: Target,
                             first: PatchAnswer, second: PatchAnswer)
    requires target in store && EditOf(attach).Put? && EditOf(detach).Remove?
    requires EditOf(attach).key == EditOf(detach).key && !first.Rejected? && !second.Rejected?
    ensures var attached := Handled(store, attach, target, Fine, store, first).0;
            Handled(attached, detach, target, Fine, attached, second).0 == store
            <==> EditOf(attach).key !in store[target]
  {
    var attached := Handled(store, attach, target, Fine, store, first).0;
    var restored := Handled(attached, detach, target, Fine, attached, second).0;
    DetachUndoesAttach(EditOf(attach), EditOf(detach), store[target]);
    assert restored == store[target := EditOf(detach).Apply(EditOf(attach).Apply(store[target]))];
    assert restored[target] == store[target] ==> restored == store;
  }

  // ---- What each route does, key by key and entry by entry ----

  /** The devices a handler starts from: those of the reply, read before anyone else's patches in between. */
  function Seen(store: Store, target: Target, get: Weather): DeviceMap
    requires target in store
  {
    if get.Bare? then map[] else store[target]
  }

  /** Every instance but one is as the other requests left it, and that one differs from `seen` at one key only. */
  ghost predicate OnlyKeyChanged(meanwhile: Store, after: Store, target: Target, seen: DeviceMap, key: string) {
    && target in after && after.Keys == meanwhile.Keys
    && (forall t :: t in after && t != target ==> after[t] == meanwhile[t])
    && forall other :: other != key ==> Lookup(after[target], other) == Lookup(seen, other)
  }

  lemma EditChangesOneKey(store: Store, request: Request, target: Target, get: Weather, meanwhile: Store,
                          patch: PatchAnswer)
    requires target in store && target in meanwhile && !get.Down? && !patch.Rejected?
    ensures var after := Handled(store, request, target, get, meanwhile, patch).0;
            && OnlyKeyChanged(meanwhile, after, target, Seen(store, target, get), EditOf(request).key)
            && Lookup(after[target], EditOf(request).key) == EditOf(request).Outcome()
  {
    forall key
      ensures Lookup(EditOf(request).Apply(Seen(store, target, get)), key)
              == if key == EditOf(request).key then EditOf(request).Outcome() else Lookup(Seen(store, target, get), key)
    {
      ApplyLookup(EditOf(request), Seen(store, target, get), key);
    }
  }

  /** Detaching volume `v`, from whatever pool, removes the device `vol_` + `v` and touches nothing else. */
  lemma DetachVolumeEffect(store: Store, pool: string, v: string, target: Target, get: Weather, meanwhile: Store,
                           patch: PatchAnswer)
    requires target in store && target in meanwhile && !get.Down? && !patch.Rejected?
    ensures var after := Handled(store, Request.DetachVolume(pool, v), target, get, meanwhile, patch).0;
            && OnlyKeyChanged(meanwhile, after, target, Seen(store, target, get), "vol_" + v)
            && "vol_" + v !in after[target]
  {
    EditChangesOneKey(store, Request.DetachVolume(pool, v), target, get, meanwhile, patch);
  }

  /** Attaching volume `v` puts a disk with these four entries under `vol_` + `v` and touches nothing else. */
  lemma AttachVolumeEffect(store: Store, pool: string, v: string, target: Target, get: Weather, meanwhile: Store,
                           patch: PatchAnswer)
    requires target in store && target in meanwhile && !get.Down? && !patch.Rejected?
    ensures var after := Handled(store, Request.AttachVolume(pool, v), target, get, meanwhile, patch).0;
            && OnlyKeyChanged(meanwhile, after, target, Seen(store, target, get), "vol_" + v)
            && "vol_" + v in after[target]
            && var device := after[target]["vol_" + v];
               && device.Keys == {"type", "pool", "volume", "path"}
               && device["type"] == "disk" && device["pool"] == pool
               && device["volume"] == v && device["path"] == "/mnt/data"
  {
    EditChangesOneKey(store, Request.AttachVolume(pool, v), target, get, meanwhile, patch);
  }

  /** Detaching a NIC removes the device of the name given, or else `nic_` + the network's. */
  lemma DetachNicEffect(store: Store, network: string, name: Option<string>, target: Target, get: Weather,
                        meanwhile: Store, patch: PatchAnswer)
    requires target in store && target in meanwhile && !get.Down? && !patch.Rejected?
    ensures var after := Handled(store, Request.DetachNic(network, name), target, get, meanwhile, patch).0;
            var key := if name == None || name == Some("") then "nic_" + network else name.value;
            OnlyKeyChanged(meanwhile, after, target, Seen(store, target, get), key) && key !in after[target]
  {
    EditChangesOneKey(store, Request.DetachNic(network, name), target, get, meanwhile, patch);
  }

  /** Attaching a NIC puts a device with these three entries under that name. */
  lemma AttachNicEffect(store: Store, network: string, name: Option<string>, nic: string, target: Target, get: Weather,
                        meanwhile: Store, patch: PatchAnswer)
    requires target in store && target in meanwhile && !get.Down? && !patch.Rejected?
    ensures var after := Handled(store, Request.AttachNic(network, name, nic), target, get, meanwhile, patch).0;
            var key := if name == None || name == Some("") then "nic_" + network else name.value;
            && OnlyKeyChanged(meanwhile, after, target, Seen(store, target, get), key)
            && key in after[target]
            && var device := after[target][key];
               && device.Keys == {"type", "network", "name"}
               && device["type"] == "nic" && device["network"] == network && device["name"] == nic
  {
    EditChangesOneKey(store, Request.AttachNic(network, name, nic), target, get, meanwhile, patch);
  }

  /** Attaching volume `v` and detaching it restores the store exactly when `vol_` + `v` was fresh, pools aside. */
  lemma VolumeRoundTrip(store: Store, pool: string, pool': string, v: string, target: Target,
                        first: PatchAnswer, second: PatchAnswer)
    requires target in store && !first.Rejected? && !second.Rejected?
    ensures var attached := Handled(store, Request.AttachVolume(pool, v), target, Fine, store, first).0;
            Handled(attached, Request.DetachVolume(pool', v), target, Fine, attached, second).0 == store
            <==> "vol_" + v !in store[target]
  {
    AttachDetachRestores(store, Request.AttachVolume(pool, v), Request.DetachVolume(pool', v), target, first, second);
  }

  /** The same for a NIC, under one network and one device name. */
  lemma NicRoundTrip(store: Store, network: string, name: Option<string>, nic: string, target: Target,
                     first: PatchAnswer, second: PatchAnswer)
    requires target in store && !first.Rejected? && !second.Rejected?
    ensures var attached := Handled(store, Request.AttachNic(network, name, nic), target, Fine, store, first).0;
            Handled(attached, Request.DetachNic(network, name), target, Fine, attached, second).0 == store
            <==> (if name == None || name == Some("") then "nic_" + network else name.value) !in store[target]
  {
    AttachDetachRestores(store, Request.AttachNic(network, name, nic), Request.DetachNic(network, name), target,
                         first, second);
  }

  /**
   * When a handler answers with an error: a failed GET leaves all as it was, a rejected or impossible
   * PATCH leaves what the others did, and the reply has LXD's own error; a 404 is a missing instance.
   */
  lemma ErrorsChangeNothing(store: Store, request: Request, target: Target, get: Weather, meanwhile: Store,
                            patch: PatchAnswer)
    ensures var (after, reply) := Handled(store, request, target, get, meanwhile, patch);
            && (get.Down? ==> after == store && reply == Failure(HttpStatus(get.error)))
            && (!get.Down? && target !in store ==> after == store && reply == Failure(404))
            && (!get.Down? && target in store && patch.Rejected? ==>
                  after == meanwhile && reply == Failure(HttpStatus(patch.error)))
            && (!get.Down? && target in store && patch.Done? && target !in meanwhile ==>
                  after == meanwhile && reply == Failure(404))
            && (!get.Down? && target in store && patch.Lost? ==> reply == Failure(HttpStatus(patch.error)))
            && (!get.Down? && target in store && patch.Done? && target in meanwhile ==>
                  match References.ToAsyncRef(patch.metadata)
                  case Success(ref) => reply == Success(ref)
                  case Failure(_) => reply == Failure(500))
  {
  }
}

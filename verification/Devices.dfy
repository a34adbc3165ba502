/** Instance devices and the edits that the attach and detach routes make to them. */
module Devices {
  import opened Wrappers

  /** A device is a string table such as type, pool, volume and path. */
  type Device = map<string, string>
  type DeviceMap = map<string, Device>

  /** The four attach and detach routes with their parameters. */
  datatype Request =
    | AttachVolume(pool: string, volume: string)
    | DetachVolume(pool: string, volume: string)
    | AttachNic(network: string, deviceName: Option<string>, nicName: string)
    | DetachNic(network: string, deviceName: Option<string>)

  /** The single-key change a route makes to its copy of the device map. */
  datatype Edit = Put(key: string, device: Device) | Remove(key: string) {
    /** What a lookup of `key` finds once the edit is made. */
    function Outcome(): Option<Device> {
      if Put? then Some(device) else None
    }

    function Apply(devices: DeviceMap): DeviceMap {
      match this
      case Put(k, d) => devices[k := d]
      case Remove(k) => devices - {k}
    }
  }

  function Lookup(devices: DeviceMap, key: string): Option<Device> {
    if key in devices then Some(devices[key]) else None
  }

  function VolumeKey(volume: string): string {
    "vol_" + volume
  }

  function NicKey(network: string): string {
    "nic_" + network
  }

  /** `device_name or f"nic_{name}"`: an empty name counts as no name. */
  function ChosenNicKey(network: string, deviceName: Option<string>): string {
    if deviceName.Some? && deviceName.value != "" then deviceName.value else NicKey(network)
  }

  function VolumeDevice(pool: string, volume: string): Device {
    map["type" := "disk", "pool" := pool, "volume" := volume, "path" := "/mnt/data"]
  }

  function NicDevice(network: string, nicName: string): Device {
    map["type" := "nic", "network" := network, "name" := nicName]
  }

  function EditOf(request: Request): Edit {
    match request
    case AttachVolume(pool, volume) => Put(VolumeKey(volume), VolumeDevice(pool, volume))
    case DetachVolume(_, volume) => Remove(VolumeKey(volume))
    case AttachNic(network, name, nic) => Put(ChosenNicKey(network, name), NicDevice(network, nic))
    case DetachNic(network, name) => Remove(ChosenNicKey(network, name))
  }

  /** An edit settles its own key and leaves every other lookup alone. */
  lemma ApplyLookup(e: Edit, devices: DeviceMap, key: string)
    ensures Lookup(e.Apply(devices), key) == if key == e.key then e.Outcome() else Lookup(devices, key)
  {
  }

  /** Two device maps with the same lookups are the same map. */
  lemma SameLookups(a: DeviceMap, b: DeviceMap)
    requires forall key :: Lookup(a, key) == Lookup(b, key)
    ensures a == b
  {
    forall key
      ensures key in a <==> key in b
      ensures key in a && key in b ==> a[key] == b[key]
    {
      assert Lookup(a, key) == Lookup(b, key);
    }
  }

  /** Default keys are injective in the name, and the two families never meet. */
  lemma DefaultKeysSeparate(a: string, b: string)
    ensures VolumeKey(a) == VolumeKey(b) <==> a == b
    ensures NicKey(a) == NicKey(b) <==> a == b
    ensures VolumeKey(a) != NicKey(b)
  {
    assert VolumeKey(a)[4..] == a && VolumeKey(b)[4..] == b;
    assert NicKey(a)[4..] == a && NicKey(b)[4..] == b;
    assert VolumeKey(a)[0] == 'v' && NicKey(b)[0] == 'n';
  }

  /**
   * The pool is not part of a volume's key: of two attachments made one after the other,
   * the first survives exactly when the volume names differ or the attachments are the same.
   */
  lemma FirstVolumeSurvives(devices: DeviceMap, pool: string, volume: string, pool': string, volume': string)
    ensures var both := EditOf(AttachVolume(pool', volume')).Apply(EditOf(AttachVolume(pool, volume)).Apply(devices));
            Lookup(both, VolumeKey(volume)) == Some(VolumeDevice(pool, volume))
            <==> volume != volume' || pool == pool'
  {
    DefaultKeysSeparate(volume, volume');
    if volume == volume' && pool != pool' {
      assert VolumeDevice(pool, volume)["pool"] != VolumeDevice(pool', volume)["pool"];
    }
  }

  /** A NIC route reaches a volume's device exactly when the caller names that device. */
  lemma NicReachesVolume(network: string, deviceName: Option<string>, volume: string)
    ensures ChosenNicKey(network, deviceName) == VolumeKey(volume) <==> deviceName == Some(VolumeKey(volume))
  {
    DefaultKeysSeparate(volume, network);
  }

  /** Attaching and then detaching restores the map exactly when the key was fresh. */
  lemma DetachUndoesAttach(put: Edit, remove: Edit, devices: DeviceMap)
    requires put.Put? && remove.Remove? && put.key == remove.key
    ensures remove.Apply(put.Apply(devices)) == devices <==> put.key !in devices
  {
    if put.key !in devices {
      forall key
        ensures Lookup(remove.Apply(put.Apply(devices)), key) == Lookup(devices, key)
      {
      }
      SameLookups(remove.Apply(put.Apply(devices)), devices);
    }
  }

  /** Repeating an edit changes nothing. */
  lemma EditsAreIdempotent(e: Edit, devices: DeviceMap)
    ensures e.Apply(e.Apply(devices)) == e.Apply(devices)
  {
  }

  /** Two edits commute on every map exactly when their keys differ or they agree on the outcome. */
  lemma EditsCommute(a: Edit, b: Edit)
    ensures (forall devices :: a.Apply(b.Apply(devices)) == b.Apply(a.Apply(devices)))
            <==> a.key != b.key || a.Outcome() == b.Outcome()
  {
    if a.key != b.key || a.Outcome() == b.Outcome() {
      forall devices
        ensures a.Apply(b.Apply(devices)) == b.Apply(a.Apply(devices))
      {
        forall key
          ensures Lookup(a.Apply(b.Apply(devices)), key) == Lookup(b.Apply(a.Apply(devices)), key)
        {
        }
        SameLookups(a.Apply(b.Apply(devices)), b.Apply(a.Apply(devices)));
      }
    } else {
      var none: DeviceMap := map[];
      assert Lookup(a.Apply(b.Apply(none)), a.key) != Lookup(b.Apply(a.Apply(none)), a.key);
    }
  }
}

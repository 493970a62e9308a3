/**
 * The older notification client of the single-file program: a registry without events,
 * whose default-device rule re-marks every record, whose add, remove and state-change
 * handlers do nothing, and whose volume handler assumes the device is tracked.
 */
module LegacyNotificationClient {
  import opened Wrappers
  import opened AudioModel
  import opened RegistrySpec

  class AudioDeviceNotificationClient {
    /** Tracked devices by id. */
    var devices: Registry

    ghost predicate Valid()
      reads this
    {
      KeysMatchIds(devices)
    }

    constructor ()
      ensures Valid() && devices == map[]
    {
      devices := map[];
    }

    /** Every record becomes default exactly when it has the notified direction and id. */
    method OnDefaultDeviceChanged(flow: DataFlow, role: Role, id: string)
      requires Valid()
      modifies this
      ensures Valid()
      ensures devices == LegacyDefaultChangedTo(old(devices), flow, id)
    {
      ghost var before := devices;
      var pending := devices.Keys;
      while pending != {}
        invariant pending <= before.Keys && devices.Keys == before.Keys
        invariant forall k :: k in before ==>
          devices[k] == if k in pending then before[k] else LegacyDefaultChangedTo(before, flow, id)[k]
        decreases pending
      {
        var k :| k in pending;
        var info := devices[k];
        devices := devices[k := info.(isDefault := info.flow == flow && info.id == id)];
        pending := pending - {k};
      }
    }

    /** The handler body is disabled: nothing changes. */
    method OnDeviceAdded(id: string)
      ensures devices == old(devices)
    {
    }

    /** The handler body is disabled: nothing changes. */
    method OnDeviceRemoved(id: string)
      ensures devices == old(devices)
    {
    }

    /** The handler body is disabled: nothing changes. */
    method OnDeviceStateChanged(id: string, newState: DeviceState)
      ensures devices == old(devices)
    {
    }

    /** Property changes are ignored. */
    method OnPropertyValueChanged(id: string)
      ensures devices == old(devices)
    {
    }

    /** Upserts a record for every endpoint the backend enumerates as active, never marked
        default; records already tracked and not enumerated are kept. */
    method InitializeDevices(b: Backend)
      requires Valid()
      modifies this
      ensures Valid()
      ensures devices == DiscoveredAll(old(devices), b, b.order, false)
    {
      var i := 0;
      while i < |b.order|
        invariant 0 <= i <= |b.order|
        invariant devices == DiscoveredAll(old(devices), b, b.order[..i], false)
      {
        var id := b.order[i];
        DiscoveredAllStep(old(devices), b, b.order, i, false);
        if id in b.endpoints && b.endpoints[id].state == Active {
          devices := devices[id := NewRecord(b, id, false)];
        }
        i := i + 1;
      }
      assert b.order[..|b.order|] == b.order;
      DiscoveredAllKeepsKeys(old(devices), b, b.order, false);
    }

    /** Sets volume and mute of the notified device, which must be tracked: the handler
        looks the id up without checking. */
    method VolumeNotificationHandler(id: string, reading: VolumeReading)
      requires Valid() && id in devices
      modifies this
      ensures Valid()
      ensures devices == LegacyVolumeChangedTo(old(devices), id, reading)
    {
      devices := devices[id := devices[id].(volume := reading.percent, isMuted := reading.muted)];
    }

    /** Forgets every tracked device. */
    method Dispose()
      modifies this
      ensures devices == map[]
    {
      devices := map[];
    }
  }

  /**
   * The single-file program's run: initialise, then apply one default-device change. The
   * initial records carry no default flag; afterwards a record is default exactly when it
   * has the notified direction and id, so at most one record of the whole registry is.
   */
  method InitializeThenDefaultChange(b: Backend, flow: DataFlow, role: Role, id: string)
    returns (initial: Registry, after: Registry)
    ensures initial.Keys == after.Keys == ActiveAmong(b, b.order)
    ensures forall k :: k in initial ==> !initial[k].isDefault
    ensures forall k :: k in after ==> (after[k].isDefault <==> after[k].flow == flow && k == id)
    ensures forall j, k :: j in after && k in after && after[j].isDefault && after[k].isDefault ==> j == k
  {
    var client := new AudioDeviceNotificationClient();
    client.InitializeDevices(b);
    initial := client.devices;
    DiscoveredAllContents(map[], b, b.order, false);
    client.OnDefaultDeviceChanged(flow, role, id);
    after := client.devices;
    LegacyAtMostOneDefault(initial, flow, id);
  }
}

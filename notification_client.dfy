/**
 * The notification client of the service: the device registry, the handlers the audio
 * subsystem calls when devices come, go or change, and the volume commands. Each handler
 * runs as one atomic step; a handler's effect on the registry is stated by the transition
 * functions of RegistrySpec, and the events it emits are appended to `events`.
 */
module NotificationClient {
  import opened Wrappers
  import opened AudioModel
  import opened RegistrySpec

  class AudioDeviceNotificationClient {
    /** Tracked devices by id. */
    var devices: Registry
    /** The step of the increment and decrement commands, in percent. */
    var stepVolume: real
    /** Every change event emitted so far, oldest first. */
    var events: seq<ChangeEvent>
    /** Volume handlers installed per device id. */
    var subscriptions: map<string, nat>

    ghost predicate Valid()
      reads this
    {
      KeysMatchIds(devices) && ValidStep(stepVolume)
    }

    constructor ()
      ensures Valid()
      ensures devices == map[] && stepVolume == 2.0 && events == [] && subscriptions == map[]
    {
      devices := map[];
      stepVolume := 2.0;
      events := [];
      subscriptions := map[];
    }

    /** Accepts a new step only in (0, 100]; otherwise reports an error and keeps the old one. */
    method SetStepVolume(value: real) returns (accepted: bool)
      requires Valid()
      modifies this`stepVolume
      ensures Valid()
      ensures accepted <==> ValidStep(value)
      ensures stepVolume == if accepted then value else old(stepVolume)
    {
      if value <= 0.0 || value > 100.0 {
        return false;
      }
      stepVolume := value;
      accepted := true;
    }

    // -------------------------------------------------------------------------
    // Commands on the default render endpoint. None of them touches the registry.

    method SetMute(b: Backend) returns (o: Outcome)
      ensures AimsAtDefaultRender(b, o)
      ensures o.Wrote? ==> o.action == SetMuted(true)
    {
      if !b.HasDefaultRender() {
        return BackendFailed;
      }
      var reading := b.LiveReading(b.defaultRender.value);
      if reading.Some? {
        o := Wrote(b.defaultRender.value, SetMuted(true));
      } else {
        o := NoVolumeControl;
      }
    }

    method SetUnMute(b: Backend) returns (o: Outcome)
      ensures AimsAtDefaultRender(b, o)
      ensures o.Wrote? ==> o.action == SetMuted(false)
    {
      if !b.HasDefaultRender() {
        return BackendFailed;
      }
      var reading := b.LiveReading(b.defaultRender.value);
      if reading.Some? {
        o := Wrote(b.defaultRender.value, SetMuted(false));
      } else {
        o := NoVolumeControl;
      }
    }

    /** Writes the negation of the endpoint's current mute flag. */
    method ToggleMuted(b: Backend) returns (o: Outcome)
      ensures AimsAtDefaultRender(b, o)
      ensures o.Wrote? ==> o.action == SetMuted(!b.DefaultRenderReading().value.muted)
    {
      if !b.HasDefaultRender() {
        return BackendFailed;
      }
      var reading := b.LiveReading(b.defaultRender.value);
      if reading.Some? {
        var currentMute := reading.value.muted;
        o := Wrote(b.defaultRender.value, SetMuted(!currentMute));
      } else {
        o := NoVolumeControl;
      }
    }

    /** Raises the live volume by the step, capped at 100. */
    method IncrementVolume(b: Backend) returns (o: Outcome)
      requires Valid()
      ensures AimsAtDefaultRender(b, o)
      ensures o.Wrote? ==> o.action == SetLevel(StepUp(b.DefaultRenderReading().value.percent, stepVolume))
      ensures o.Wrote? && b.ReadingsInRange() ==> ValidVolume(o.action.percent)
    {
      if !b.HasDefaultRender() {
        return BackendFailed;
      }
      var reading := b.LiveReading(b.defaultRender.value);
      if reading.Some? {
        var currentVolume := reading.value.percent;
        o := Wrote(b.defaultRender.value, SetLevel(StepUp(currentVolume, stepVolume)));
        if b.ReadingsInRange() {
          StepsStayInRange(currentVolume, stepVolume);
        }
      } else {
        o := NoVolumeControl;
      }
    }

    /** Lowers the live volume by the step, floored at 0. */
    method DecrementVolume(b: Backend) returns (o: Outcome)
      requires Valid()
      ensures AimsAtDefaultRender(b, o)
      ensures o.Wrote? ==> o.action == SetLevel(StepDown(b.DefaultRenderReading().value.percent, stepVolume))
      ensures o.Wrote? && b.ReadingsInRange() ==> ValidVolume(o.action.percent)
    {
      if !b.HasDefaultRender() {
        return BackendFailed;
      }
      var reading := b.LiveReading(b.defaultRender.value);
      if reading.Some? {
        var currentVolume := reading.value.percent;
        o := Wrote(b.defaultRender.value, SetLevel(StepDown(currentVolume, stepVolume)));
        if b.ReadingsInRange() {
          StepsStayInRange(currentVolume, stepVolume);
        }
      } else {
        o := NoVolumeControl;
      }
    }

    /** A volume outside [0, 100] is rejected before the backend is asked for anything. */
    method SetVolume(value: real, b: Backend) returns (o: Outcome)
      ensures !ValidVolume(value) ==> o == InvalidArgument
      ensures ValidVolume(value) ==> AimsAtDefaultRender(b, o)
      ensures o.Wrote? ==> o.action == SetLevel(value) && ValidVolume(value)
    {
      if value < 0.0 || value > 100.0 {
        return InvalidArgument;
      }
      if !b.HasDefaultRender() {
        return BackendFailed;
      }
      var reading := b.LiveReading(b.defaultRender.value);
      if reading.Some? {
        o := Wrote(b.defaultRender.value, SetLevel(value));
      } else {
        o := NoVolumeControl;
      }
    }

    // -------------------------------------------------------------------------
    // Commands on a tracked device. None of them touches the registry; an id that is
    // not tracked is reported and nothing is written.

    method SetMuteById(id: string, b: Backend) returns (o: Outcome)
      ensures AimsAtTracked(devices, b, id, o)
      ensures o.Wrote? ==> o.action == SetMuted(true)
    {
      if id in devices && devices[id].hasControl {
        if b.LiveReading(id).Some? {
          o := Wrote(id, SetMuted(true));
        } else {
          o := BackendFailed;
        }
      } else {
        o := DeviceNotFound;
      }
    }

    method SetUnMuteById(id: string, b: Backend) returns (o: Outcome)
      ensures AimsAtTracked(devices, b, id, o)
      ensures o.Wrote? ==> o.action == SetMuted(false)
    {
      if id in devices && devices[id].hasControl {
        if b.LiveReading(id).Some? {
          o := Wrote(id, SetMuted(false));
        } else {
          o := BackendFailed;
        }
      } else {
        o := DeviceNotFound;
      }
    }

    method ToggleMutedById(id: string, b: Backend) returns (o: Outcome)
      ensures AimsAtTracked(devices, b, id, o)
      ensures o.Wrote? ==> o.action == SetMuted(!b.LiveReading(id).value.muted)
    {
      if id in devices && devices[id].hasControl {
        var reading := b.LiveReading(id);
        if reading.Some? {
          var currentMute := reading.value.muted;
          o := Wrote(id, SetMuted(!currentMute));
        } else {
          o := BackendFailed;
        }
      } else {
        o := DeviceNotFound;
      }
    }

    method IncrementVolumeById(id: string, b: Backend) returns (o: Outcome)
      requires Valid()
      ensures AimsAtTracked(devices, b, id, o)
      ensures o.Wrote? ==> o.action == SetLevel(StepUp(b.LiveReading(id).value.percent, stepVolume))
      ensures o.Wrote? && b.ReadingsInRange() ==> ValidVolume(o.action.percent)
    {
      if id in devices && devices[id].hasControl {
        var reading := b.LiveReading(id);
        if reading.Some? {
          var currentVolume := reading.value.percent;
          o := Wrote(id, SetLevel(StepUp(currentVolume, stepVolume)));
          if b.ReadingsInRange() {
            StepsStayInRange(currentVolume, stepVolume);
          }
        } else {
          o := BackendFailed;
        }
      } else {
        o := DeviceNotFound;
      }
    }

    method DecrementVolumeById(id: string, b: Backend) returns (o: Outcome)
      requires Valid()
      ensures AimsAtTracked(devices, b, id, o)
      ensures o.Wrote? ==> o.action == SetLevel(StepDown(b.LiveReading(id).value.percent, stepVolume))
      ensures o.Wrote? && b.ReadingsInRange() ==> ValidVolume(o.action.percent)
    {
      if id in devices && devices[id].hasControl {
        var reading := b.LiveReading(id);
        if reading.Some? {
          var currentVolume := reading.value.percent;
          o := Wrote(id, SetLevel(StepDown(currentVolume, stepVolume)));
          if b.ReadingsInRange() {
            StepsStayInRange(currentVolume, stepVolume);
          }
        } else {
          o := BackendFailed;
        }
      } else {
        o := DeviceNotFound;
      }
    }

    /** The range check comes before the registry lookup. */
    method SetVolumeById(id: string, value: real, b: Backend) returns (o: Outcome)
      ensures !ValidVolume(value) ==> o == InvalidArgument
      ensures ValidVolume(value) ==> AimsAtTracked(devices, b, id, o)
      ensures o.Wrote? ==> o.action == SetLevel(value) && ValidVolume(value)
    {
      if value < 0.0 || value > 100.0 {
        return InvalidArgument;
      }
      if id in devices && devices[id].hasControl {
        if b.LiveReading(id).Some? {
          o := Wrote(id, SetLevel(value));
        } else {
          o := BackendFailed;
        }
      } else {
        o := DeviceNotFound;
      }
    }

    // -------------------------------------------------------------------------
    // Notification handlers

    /**
     * Clears the default flag of every record of the notified direction, then sets it on
     * the notified device if it is tracked with that direction. Notifications of every
     * role are applied, and a DefaultChanged event is emitted. A notification that names
     * no device (the subsystem reports no default) clears the direction and then fails at
     * the dictionary lookup, so no event is emitted.
     */
    method OnDefaultDeviceChanged(flow: DataFlow, role: Role, id: Option<string>)
      requires Valid()
      modifies this`devices, this`events
      ensures Valid()
      ensures id.Some? ==> devices == DefaultChangedTo(old(devices), flow, id.value)
      ensures id.Some? ==> events == old(events) + [Notify(DefaultChanged, id.value, devices)]
      ensures id.None? ==> devices == ClearedFlow(old(devices), flow) && events == old(events)
    {
      ghost var before := devices;
      var pending := devices.Keys;
      while pending != {}
        invariant pending <= before.Keys && devices.Keys == before.Keys
        invariant events == old(events)
        invariant forall k :: k in before ==>
          devices[k] == if k in pending then before[k] else ClearedFlow(before, flow)[k]
        decreases pending
      {
        var k :| k in pending;
        if devices[k].flow == flow {
          devices := devices[k := devices[k].(isDefault := false)];
        }
        pending := pending - {k};
      }
      assert devices == ClearedFlow(before, flow);
      if id.None? {
        return;
      }
      var target := id.value;
      if target in devices && devices[target].flow == flow {
        devices := devices[target := devices[target].(isDefault := true)];
      }
      DefaultChangedEffect(before, flow, target);
      events := events + [Notify(DefaultChanged, target, devices)];
    }

    /**
     * Upserts the record of an endpoint the backend reports active, installing a volume
     * handler when it has a volume control; any other id is ignored. Both device-added
     * notifications and the initial enumeration do this for each device.
     */
    method Track(id: string, b: Backend)
      requires Valid()
      modifies this`devices, this`subscriptions
      ensures Valid()
      ensures devices == Discovered(old(devices), b, id, true)
      ensures subscriptions == Subscribed(old(subscriptions), b, id)
    {
      if id !in b.endpoints || b.endpoints[id].state != Active {
        return;
      }
      var endpoint := b.endpoints[id];
      var record := NewRecord(b, id, true);
      if endpoint.control.Some? {
        subscriptions := subscriptions[id := Handlers(subscriptions, id) + 1];
      }
      devices := devices[id := record];
    }

    /** Tracks the added device and emits Added when the backend reports it active. */
    method OnDeviceAdded(id: string, b: Backend)
      requires Valid()
      modifies this`devices, this`events, this`subscriptions
      ensures Valid()
      ensures devices == Discovered(old(devices), b, id, true)
      ensures subscriptions == Subscribed(old(subscriptions), b, id)
      ensures events == old(events) + if b.IsActive(id) then [Notify(Added, id, devices)] else []
    {
      Track(id, b);
      if b.IsActive(id) {
        events := events + [Notify(Added, id, devices)];
      }
    }

    /**
     * Removes a tracked id and emits a Removed event naming only the id; an untracked id
     * changes nothing. The installed volume handler is not taken away.
     */
    method OnDeviceRemoved(id: string)
      requires Valid()
      modifies this`devices, this`events
      ensures Valid()
      ensures devices == RemovedFrom(old(devices), id)
      ensures events == old(events) + if id in old(devices) then [Notify(Removed, id, devices)] else []
    {
      if id in devices {
        devices := devices - {id};
        events := events + [Notify(Removed, id, devices)];
      }
    }

    /** Active dispatches to the added handler; Disabled, NotPresent and Unplugged to the
        removed handler; any other state changes nothing. */
    method OnDeviceStateChanged(id: string, newState: DeviceState, b: Backend)
      requires Valid()
      modifies this`devices, this`events, this`subscriptions
      ensures Valid()
      ensures newState == Active ==>
        && devices == Discovered(old(devices), b, id, true)
        && subscriptions == Subscribed(old(subscriptions), b, id)
        && events == old(events) + if b.IsActive(id) then [Notify(Added, id, devices)] else []
      ensures newState in {Disabled, NotPresent, Unplugged} ==>
        && devices == RemovedFrom(old(devices), id)
        && subscriptions == old(subscriptions)
        && events == old(events) + if id in old(devices) then [Notify(Removed, id, devices)] else []
      ensures newState == OtherState ==>
        devices == old(devices) && subscriptions == old(subscriptions) && events == old(events)
    {
      if newState == Active {
        OnDeviceAdded(id, b);
      } else if newState == Disabled || newState == NotPresent || newState == Unplugged {
        OnDeviceRemoved(id);
      }
    }

    /** Property changes are accepted and ignored. */
    method OnPropertyValueChanged(id: string)
      ensures devices == old(devices) && events == old(events)
    {
    }

    /**
     * Upserts a record for every endpoint the backend enumerates as active, in enumeration
     * order, marking it default when it is the backend's default for its direction and
     * installing a volume handler when it has a volume control; then emits one Initial event.
     * Records already tracked and not enumerated are kept.
     */
    method InitializeDevices(b: Backend)
      requires Valid()
      modifies this`devices, this`events, this`subscriptions
      ensures Valid()
      ensures devices == DiscoveredAll(old(devices), b, b.order, true)
      ensures subscriptions == SubscribedAll(old(subscriptions), b, b.order)
      ensures events == old(events) + [Notify(Initial, "", devices)]
    {
      var i := 0;
      while i < |b.order|
        invariant 0 <= i <= |b.order|
        invariant devices == DiscoveredAll(old(devices), b, b.order[..i], true)
        invariant subscriptions == SubscribedAll(old(subscriptions), b, b.order[..i])
        invariant events == old(events)
      {
        var id := b.order[i];
        DiscoveredAllKeepsKeys(old(devices), b, b.order[..i], true);
        DiscoveredAllStep(old(devices), b, b.order, i, true);
        SubscribedAllStep(old(subscriptions), b, b.order, i);
        Track(id, b);
        i := i + 1;
      }
      assert b.order[..|b.order|] == b.order;
      DiscoveredAllKeepsKeys(old(devices), b, b.order, true);
      events := events + [Notify(Initial, "", devices)];
    }

    /** Updates volume and mute of a tracked id and emits VolumeChanged, even when the values
        did not change; an untracked id is ignored. */
    method VolumeNotificationHandler(id: string, reading: VolumeReading)
      requires Valid()
      modifies this`devices, this`events
      ensures Valid()
      ensures devices == VolumeChangedTo(old(devices), id, reading)
      ensures events == old(events) + if id in old(devices) then [Notify(VolumeChanged, id, devices)] else []
    {
      if id in devices {
        devices := devices[id := devices[id].(volume := reading.percent, isMuted := reading.muted)];
        events := events + [Notify(VolumeChanged, id, devices)];
      }
    }

    /** Forgets every tracked device; installed volume handlers stay installed. */
    method Dispose()
      requires Valid()
      modifies this`devices
      ensures Valid()
      ensures devices == map[]
    {
      devices := map[];
    }
  }

  // ---------------------------------------------------------------------------
  // What callers of the client can rely on

  /**
   * Start-up of the service: a fresh client initialised from the backend tracks exactly the
   * enumerated active endpoints, marks as default exactly the backend's default of each
   * direction, and emits one Initial event that names no device.
   */
  method StartUp(b: Backend) returns (initial: ChangeEvent, emitted: nat)
    ensures emitted == 1 && initial.kind == Initial && initial.device == NoDevice
    ensures initial.devices.Keys == ActiveAmong(b, b.order)
    ensures forall k :: k in initial.devices ==>
      (initial.devices[k].isDefault <==> b.DefaultFor(initial.devices[k].flow) == Some(k))
    ensures SingleDefaultPerFlow(initial.devices)
  {
    var client := new AudioDeviceNotificationClient();
    client.InitializeDevices(b);
    initial, emitted := client.events[0], |client.events|;
    DiscoveredAllContents(map[], b, b.order, true);
    InitialEnumerationDefaults(b, b.order);
  }

  /** However default-device notifications interleave after start-up, no direction ever has
      two records marked default. */
  method ReplayDefaultChanges(b: Backend, changes: seq<(DataFlow, Role, Option<string>)>) returns (snapshot: Registry)
    ensures SingleDefaultPerFlow(snapshot)
  {
    var client := new AudioDeviceNotificationClient();
    client.InitializeDevices(b);
    InitialEnumerationDefaults(b, b.order);
    for i := 0 to |changes|
      invariant client.Valid()
      invariant SingleDefaultPerFlow(client.devices)
    {
      var (flow, role, id) := changes[i];
      if id.Some? {
        DefaultChangedSingleDefault(client.devices, flow, id.value);
      } else {
        ClearedFlowSingleDefault(client.devices, flow);
      }
      client.OnDefaultDeviceChanged(flow, role, id);
    }
    snapshot := client.devices;
  }

  /**
   * A device added and removed before any volume change: the registry no longer tracks it,
   * the removal event names only its id, a second removal emits nothing, and the volume
   * handler installed on arrival is still installed.
   */
  method AddedThenRemoved(b: Backend, id: string) returns (tracked: bool, handlers: nat, last: ChangeEvent, emitted: nat)
    requires b.IsActive(id) && b.endpoints[id].control.Some?
    ensures !tracked && handlers == 1 && emitted == 2
    ensures last == ChangeEvent(Removed, IdOnly(id), map[])
  {
    var client := new AudioDeviceNotificationClient();
    client.OnDeviceAdded(id, b);
    client.OnDeviceRemoved(id);
    client.OnDeviceRemoved(id);
    tracked := id in client.devices;
    handlers := Handlers(client.subscriptions, id);
    last, emitted := client.events[|client.events| - 1], |client.events|;
  }
}

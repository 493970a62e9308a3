/**
 * Values shared by both notification clients: what the audio backend reports about an
 * endpoint, the cached record the registry keeps per device, the change event handed to
 * the presentation layer, and the arithmetic and outcomes of the volume commands.
 */
module AudioModel {
  import opened Wrappers

  /** Direction of an endpoint (the backend's `All` is only an enumeration filter). */
  datatype DataFlow = Render | Capture

  /** Endpoint state reported with a state-change notification; `OtherState` stands for
      any value of the backend's state flags that is none of the four named ones. */
  datatype DeviceState = Active | Disabled | NotPresent | Unplugged | OtherState

  /** The usage role a default-device notification is about. */
  datatype Role = Console | Multimedia | Communications

  /** A reading of an endpoint's master volume, in percent, with its mute flag. */
  datatype VolumeReading = VolumeReading(percent: real, muted: bool)

  /** The mix format of an endpoint's shared-mode audio client. */
  datatype MixFormat = MixFormat(channels: int, bitDepth: int, sampleRate: int)

  /** What the backend knows about one endpoint. `control` is None when the endpoint has no
      volume control object, `format` is None when it has no audio client or mix format. */
  datatype Endpoint = Endpoint(
    name: string,
    flow: DataFlow,
    state: DeviceState,
    control: Option<VolumeReading>,
    format: Option<MixFormat>)

  /**
   * The operating system's audio subsystem as the core sees it at one instant: the endpoints
   * by id, the order in which enumeration reports them, and the default endpoint of the
   * multimedia role per direction (None when asking for it fails).
   */
  datatype Backend = Backend(
    endpoints: map<string, Endpoint>,
    order: seq<string>,
    defaultRender: Option<string>,
    defaultCapture: Option<string>)
  {
    function DefaultFor(flow: DataFlow): Option<string> {
      if flow == Render then defaultRender else defaultCapture
    }

    /** The backend knows the endpoint and reports it active. */
    predicate IsActive(id: string) {
      id in endpoints && endpoints[id].state == Active
    }

    /** The live volume reading of an endpoint, when the endpoint exists and has a volume control. */
    function LiveReading(id: string): Option<VolumeReading> {
      if id in endpoints then endpoints[id].control else None
    }

    /** Asking for the default render endpoint succeeds. */
    predicate HasDefaultRender() {
      defaultRender.Some? && defaultRender.value in endpoints
    }

    /** The live reading of the default render endpoint, when there is one. */
    function DefaultRenderReading(): Option<VolumeReading>
      requires HasDefaultRender()
    {
      LiveReading(defaultRender.value)
    }

    /** Hardware never reports a volume outside [0, 100] percent. */
    predicate ReadingsInRange() {
      forall id :: id in endpoints && endpoints[id].control.Some? ==>
        0.0 <= endpoints[id].control.value.percent <= 100.0
    }
  }

  /** The cached state of one tracked device. `hasControl` records whether the device
      object kept with the record has a volume control. */
  datatype DeviceRecord = DeviceRecord(
    id: string,
    name: string,
    flow: DataFlow,
    isDefault: bool,
    volume: real,
    isMuted: bool,
    hasControl: bool,
    channels: int,
    bitDepth: int,
    sampleRate: int)

  /** The registry: device id to cached record. */
  type Registry = map<string, DeviceRecord>

  /** Every record is stored under its own id. */
  predicate KeysMatchIds(m: Registry) {
    forall k :: k in m ==> m[k].id == k
  }

  /**
   * The record built for an active endpoint on discovery. It is marked default exactly when
   * the endpoint is the backend's default for its own direction; volume and mute are read
   * when there is a volume control (0 and false otherwise), the format when there is one.
   */
  function NewRecord(b: Backend, id: string, markDefault: bool): (r: DeviceRecord)
    requires id in b.endpoints
    ensures r.id == id && r.flow == b.endpoints[id].flow
    ensures r.isDefault <==> markDefault && b.DefaultFor(r.flow) == Some(id)
    ensures r.hasControl <==> b.endpoints[id].control.Some?
    ensures b.endpoints[id].control.Some? ==>
      r.volume == b.endpoints[id].control.value.percent && r.isMuted == b.endpoints[id].control.value.muted
    ensures b.endpoints[id].control.None? ==> r.volume == 0.0 && !r.isMuted
    ensures r.name == b.endpoints[id].name
    ensures b.endpoints[id].format.Some? ==>
      var f := b.endpoints[id].format.value;
      r.channels == f.channels && r.bitDepth == f.bitDepth && r.sampleRate == f.sampleRate
    ensures b.endpoints[id].format.None? ==> r.channels == 0 && r.bitDepth == 0 && r.sampleRate == 0
  {
    var e := b.endpoints[id];
    var volume := if e.control.Some? then e.control.value.percent else 0.0;
    var muted := if e.control.Some? then e.control.value.muted else false;
    var format := if e.format.Some? then e.format.value else MixFormat(0, 0, 0);
    DeviceRecord(id, e.name, e.flow, markDefault && b.DefaultFor(e.flow) == Some(id),
                 volume, muted, e.control.Some?, format.channels, format.bitDepth, format.sampleRate)
  }

  // ---------------------------------------------------------------------------
  // Change events

  datatype ChangeType = Initial | Added | Removed | DefaultChanged | VolumeChanged

  /** The device an event is about: none, only its id (for removals), or its full record. */
  datatype Affected = NoDevice | IdOnly(id: string) | Full(record: DeviceRecord)

  /** An emitted change: its type, the affected device and a snapshot of every record. */
  datatype ChangeEvent = ChangeEvent(kind: ChangeType, device: Affected, devices: Registry)

  /**
   * The event describing a change of the given kind about `id` in registry `m` (the
   * registry after the change). A removal names only the id, since its record is gone;
   * otherwise the device is the tracked record of a non-empty id, or nothing.
   */
  function Notify(kind: ChangeType, id: string, m: Registry): (e: ChangeEvent)
    ensures e.kind == kind && e.devices == m
    ensures kind == Removed ==> e.device == IdOnly(id)
    ensures kind != Removed ==> (e.device.Full? <==> id != "" && id in m)
    ensures kind != Removed && e.device.Full? ==> e.device.record == m[id]
    ensures !e.device.IdOnly? || kind == Removed
  {
    var device :=
      if kind == Removed then IdOnly(id)
      else if id != "" && id in m then Full(m[id])
      else NoDevice;
    ChangeEvent(kind, device, m)
  }

  // ---------------------------------------------------------------------------
  // Volume commands

  /** What a command asks the backend to do to one endpoint. */
  datatype Action = SetLevel(percent: real) | SetMuted(muted: bool)

  /**
   * The result of one command: the single backend write it issued, or why it issued none.
   * InvalidArgument and DeviceNotFound are reported on the error stream; BackendFailed is a
   * backend call that threw; NoVolumeControl is the silent skip of an endpoint without one.
   */
  datatype Outcome =
    | Wrote(target: string, action: Action)
    | InvalidArgument
    | DeviceNotFound
    | BackendFailed
    | NoVolumeControl

  /**
   * How a command aimed at the default render endpoint ends, whatever it writes: asking for
   * the default fails, or the default has no volume control and nothing happens, or the one
   * write goes to the default.
   */
  predicate AimsAtDefaultRender(b: Backend, o: Outcome) {
    if !b.HasDefaultRender() then o == BackendFailed
    else if b.DefaultRenderReading().None? then o == NoVolumeControl
    else o.Wrote? && o.target == b.defaultRender.value
  }

  /**
   * How a command aimed at a tracked device ends, whatever it writes: an id that is not
   * tracked with a volume control is not found, a device the backend no longer serves makes
   * the write fail, otherwise the one write goes to that id.
   */
  predicate AimsAtTracked(m: Registry, b: Backend, id: string, o: Outcome) {
    if !(id in m && m[id].hasControl) then o == DeviceNotFound
    else if b.LiveReading(id).None? then o == BackendFailed
    else o.Wrote? && o.target == id
  }

  /** Volumes accepted by the set-volume commands. */
  predicate ValidVolume(v: real) {
    0.0 <= v <= 100.0
  }

  /** Steps accepted by the set-step command. */
  predicate ValidStep(v: real) {
    0.0 < v <= 100.0
  }

  /** Raising a volume by a step, capped at 100: the largest value that is at most both
      `current + step` and 100. */
  function StepUp(current: real, step: real): (r: real)
    ensures r <= 100.0 && r <= current + step
    ensures r == current + step || r == 100.0
  {
    if current + step < 100.0 then current + step else 100.0
  }

  /** Lowering a volume by a step, floored at 0: the smallest value that is at least both
      `current - step` and 0. */
  function StepDown(current: real, step: real): (r: real)
    ensures r >= 0.0 && r >= current - step
    ensures r == current - step || r == 0.0
  {
    if current - step > 0.0 then current - step else 0.0
  }

  /** A valid step applied to a volume in range keeps it in range, and moves it in the
      right direction. */
  lemma StepsStayInRange(current: real, step: real)
    requires ValidVolume(current) && ValidStep(step)
    ensures ValidVolume(StepUp(current, step)) && current <= StepUp(current, step)
    ensures ValidVolume(StepDown(current, step)) && StepDown(current, step) <= current
  {
  }
}

/**
 * The registry transitions of the notification clients as functions of the old registry
 * and the backend, and the facts the clients rely on: which records a transition touches,
 * the default-device rules, and how subscriptions to volume notifications accumulate.
 */
module RegistrySpec {
  import opened Wrappers
  import opened AudioModel

  // ---------------------------------------------------------------------------
  // Discovery (device added, initial enumeration)

  /** The registry after discovering `id`: an active endpoint is upserted under its id,
      any other id is ignored. `markDefault` is false in the legacy client, which never
      computes the default flag on discovery. */
  function Discovered(m: Registry, b: Backend, id: string, markDefault: bool): (r: Registry)
    ensures r.Keys == if b.IsActive(id) then m.Keys + {id} else m.Keys
    ensures forall k :: k in m && k != id ==> r[k] == m[k]
    ensures b.IsActive(id) ==> r[id] == NewRecord(b, id, markDefault)
    ensures !b.IsActive(id) ==> r == m
  {
    if b.IsActive(id) then m[id := NewRecord(b, id, markDefault)] else m
  }

  /** Discovering every id of `ids` in order; a later occurrence of an id wins. */
  function DiscoveredAll(m: Registry, b: Backend, ids: seq<string>, markDefault: bool): (r: Registry)
    ensures r.Keys == m.Keys + ActiveAmong(b, ids)
    decreases |ids|
  {
    if ids == [] then m
    else
      var init, last := ids[..|ids| - 1], ids[|ids| - 1];
      assert ids == init + [last];
      assert ActiveAmong(b, ids) == ActiveAmong(b, init) + (if b.IsActive(last) then {last} else {});
      Discovered(DiscoveredAll(m, b, init, markDefault), b, last, markDefault)
  }

  /** One more enumerated id extends the discovery by one step. */
  lemma DiscoveredAllStep(m: Registry, b: Backend, ids: seq<string>, i: nat, markDefault: bool)
    requires i < |ids|
    ensures DiscoveredAll(m, b, ids[..i + 1], markDefault)
         == Discovered(DiscoveredAll(m, b, ids[..i], markDefault), b, ids[i], markDefault)
  {
    assert ids[..i + 1][..i] == ids[..i];
  }

  /** The ids the backend enumerates as active, among `ids`. */
  function ActiveAmong(b: Backend, ids: seq<string>): set<string> {
    set id | id in ids && b.IsActive(id)
  }

  /** The effect of an initial enumeration: exactly the active enumerated ids gain a fresh
      record, every other record is kept as it was. */
  lemma {:induction false} DiscoveredAllContents(m: Registry, b: Backend, ids: seq<string>, markDefault: bool)
    ensures forall k :: k in m && k !in ActiveAmong(b, ids) ==> DiscoveredAll(m, b, ids, markDefault)[k] == m[k]
    ensures forall k :: k in ActiveAmong(b, ids) ==> DiscoveredAll(m, b, ids, markDefault)[k] == NewRecord(b, k, markDefault)
    decreases |ids|
  {
    if ids != [] {
      var init, last := ids[..|ids| - 1], ids[|ids| - 1];
      assert ids == init + [last];
      DiscoveredAllContents(m, b, init, markDefault);
      assert ActiveAmong(b, ids) == ActiveAmong(b, init) + (if b.IsActive(last) then {last} else {});
    }
  }

  /** Discovery stores each record under its own id. */
  lemma {:induction false} DiscoveredAllKeepsKeys(m: Registry, b: Backend, ids: seq<string>, markDefault: bool)
    requires KeysMatchIds(m)
    ensures KeysMatchIds(DiscoveredAll(m, b, ids, markDefault))
    decreases |ids|
  {
    if ids != [] {
      DiscoveredAllKeepsKeys(m, b, ids[..|ids| - 1], markDefault);
    }
  }

  // ---------------------------------------------------------------------------
  // Default flags

  /** At most one record of direction `flow` is marked default. */
  predicate AtMostOneDefault(m: Registry, flow: DataFlow) {
    forall j, k ::
      j in m && k in m && m[j].flow == flow && m[k].flow == flow && m[j].isDefault && m[k].isDefault
      ==> j == k
  }

  predicate SingleDefaultPerFlow(m: Registry) {
    AtMostOneDefault(m, Render) && AtMostOneDefault(m, Capture)
  }

  /** Every record marked default is the backend's default for its direction. */
  predicate AgreesWithBackend(m: Registry, b: Backend) {
    forall k :: k in m && m[k].isDefault ==> b.DefaultFor(m[k].flow) == Some(k)
  }

  /** Agreement with any backend rules out two defaults in one direction. */
  lemma AgreementGivesSingleDefault(m: Registry, b: Backend)
    requires AgreesWithBackend(m, b)
    ensures SingleDefaultPerFlow(m)
  {
  }

  /** Discovering a device keeps the registry in agreement with the backend it was read from. */
  lemma {:induction false} DiscoveredAllAgrees(m: Registry, b: Backend, ids: seq<string>)
    requires AgreesWithBackend(m, b)
    ensures AgreesWithBackend(DiscoveredAll(m, b, ids, true), b)
    decreases |ids|
  {
    if ids != [] {
      DiscoveredAllAgrees(m, b, ids[..|ids| - 1]);
    }
  }

  /** An initial enumeration into an empty registry marks a device default exactly when it
      is the backend's default for its own direction, so each direction has at most one. */
  lemma InitialEnumerationDefaults(b: Backend, ids: seq<string>)
    ensures var r := DiscoveredAll(map[], b, ids, true);
      && (forall k :: k in r ==> (r[k].isDefault <==> b.DefaultFor(r[k].flow) == Some(k)))
      && SingleDefaultPerFlow(r)
  {
    DiscoveredAllContents(map[], b, ids, true);
    DiscoveredAllAgrees(map[], b, ids);
  }

  /** Discovery trusts the backend's current default: when the registry still marks another
      device of the same direction as default, a newly added default device makes two. */
  lemma AddedCanDuplicateDefault()
    ensures exists m: Registry, b: Backend, id: string ::
      SingleDefaultPerFlow(m) && !SingleDefaultPerFlow(Discovered(m, b, id, true))
  {
    var a := DeviceRecord("A", "", Render, true, 0.0, false, false, 0, 0, 0);
    var m: Registry := map["A" := a];
    var b := Backend(map["B" := Endpoint("", Render, Active, None, None)], [], Some("B"), None);
    var r := Discovered(m, b, "B", true);
    assert r["A"].isDefault && r["B"].isDefault && r["B"].flow == Render;
    assert !AtMostOneDefault(r, Render);
  }

  /**
   * The backend's defaults are those of the multimedia role, but the registry applies a
   * default change of any role. A console-role notification naming another tracked render
   * device `other` breaks agreement with the unchanged backend; when the multimedia default
   * `id` is then added again, the render direction has two defaults.
   */
  lemma OtherRoleBreaksAgreement(m: Registry, b: Backend, id: string, other: string)
    requires AgreesWithBackend(m, b)
    requires b.defaultRender == Some(id) && id != other
    requires b.IsActive(id) && b.endpoints[id].flow == Render
    requires other in m && m[other].flow == Render
    ensures !AgreesWithBackend(DefaultChangedTo(m, Render, other), b)
    ensures !AtMostOneDefault(Discovered(DefaultChangedTo(m, Render, other), b, id, true), Render)
  {
    var d := DefaultChangedTo(m, Render, other);
    assert d[other].isDefault;
    var e := Discovered(d, b, id, true);
    assert e[id].isDefault && e[other].isDefault && e[id].flow == Render && e[other].flow == Render;
  }

  /** The situation above arises right after start-up with two render devices. */
  lemma OtherRoleAfterStartUp()
    ensures exists b: Backend, id: string, other: string ::
      var m := DiscoveredAll(map[], b, b.order, true);
      && AgreesWithBackend(m, b)
      && b.defaultRender == Some(id) && id != other
      && b.IsActive(id) && b.endpoints[id].flow == Render
      && other in m && m[other].flow == Render
  {
    var speakers := Endpoint("Speakers", Render, Active, None, None);
    var headset := Endpoint("Headset", Render, Active, None, None);
    var b := Backend(map["S" := speakers, "H" := headset], ["S", "H"], Some("S"), None);
    var m := DiscoveredAll(map[], b, b.order, true);
    DiscoveredAllAgrees(map[], b, b.order);
    DiscoveredAllContents(map[], b, b.order, true);
    assert "H" in ActiveAmong(b, b.order);
    assert m["H"] == NewRecord(b, "H", true);
  }

  /** Clearing the default flag of every record of direction `flow`. */
  function ClearedFlow(m: Registry, flow: DataFlow): (r: Registry)
    ensures r.Keys == m.Keys
    ensures forall k :: k in r && r[k].flow == flow ==> !r[k].isDefault
    ensures forall k :: k in r && m[k].flow != flow ==> r[k] == m[k]
    ensures forall k :: k in r ==> r[k].(isDefault := m[k].isDefault) == m[k]
  {
    map k | k in m :: if m[k].flow == flow then m[k].(isDefault := false) else m[k]
  }

  /** The registry after a default-device change: clear the flag in the direction, then set
      it on the new default if it is tracked with that direction. */
  function DefaultChangedTo(m: Registry, flow: DataFlow, id: string): (r: Registry)
    ensures r.Keys == m.Keys
    ensures forall k :: k in r && r[k].flow == flow ==> (r[k].isDefault <==> k == id)
    ensures forall k :: k in r && r[k].flow != flow ==> r[k] == m[k]
  {
    var c := ClearedFlow(m, flow);
    if id in c && c[id].flow == flow then c[id := c[id].(isDefault := true)] else c
  }

  /** A default-device change touches only default flags, and only in its own direction,
      where the new default is the one record marked. */
  lemma DefaultChangedEffect(m: Registry, flow: DataFlow, id: string)
    ensures DefaultChangedTo(m, flow, id).Keys == m.Keys
    ensures forall k :: k in m ==>
      DefaultChangedTo(m, flow, id)[k] ==
        m[k].(isDefault := if m[k].flow == flow then k == id else m[k].isDefault)
  {
  }

  /** A default-device change leaves at most one default in its direction, whatever came
      before, and keeps the other direction as it was. */
  lemma DefaultChangedSingleDefault(m: Registry, flow: DataFlow, id: string)
    ensures AtMostOneDefault(DefaultChangedTo(m, flow, id), flow)
    ensures SingleDefaultPerFlow(m) ==> SingleDefaultPerFlow(DefaultChangedTo(m, flow, id))
  {
    var r := DefaultChangedTo(m, flow, id);
    DefaultChangedEffect(m, flow, id);
    forall g: DataFlow | g != flow && AtMostOneDefault(m, g)
      ensures AtMostOneDefault(r, g)
    {
      forall j, k | j in r && k in r && r[j].flow == g && r[k].flow == g && r[j].isDefault && r[k].isDefault
        ensures j == k
      {
        assert m[j].isDefault && m[k].isDefault;
      }
    }
  }

  /** A notification that names no default leaves no default in its direction and keeps
      the other direction's single default. */
  lemma ClearedFlowSingleDefault(m: Registry, flow: DataFlow)
    ensures forall k :: k in ClearedFlow(m, flow) && m[k].flow == flow ==> !ClearedFlow(m, flow)[k].isDefault
    ensures SingleDefaultPerFlow(m) ==> SingleDefaultPerFlow(ClearedFlow(m, flow))
  {
    var r := ClearedFlow(m, flow);
    forall g: DataFlow | g != flow && AtMostOneDefault(m, g)
      ensures AtMostOneDefault(r, g)
    {
      forall j, k | j in r && k in r && r[j].flow == g && r[k].flow == g && r[j].isDefault && r[k].isDefault
        ensures j == k
      {
        assert m[j].isDefault && m[k].isDefault;
      }
    }
  }

  /** The backend after its default for `flow` became `id`. */
  function WithDefault(b: Backend, flow: DataFlow, id: string): Backend {
    if flow == Render then b.(defaultRender := Some(id)) else b.(defaultCapture := Some(id))
  }

  /** Applying the notification of a new default brings a registry that agreed with the old
      backend into agreement with the new one. */
  lemma DefaultChangedRestoresAgreement(m: Registry, b: Backend, flow: DataFlow, id: string)
    requires forall k :: k in m && m[k].isDefault && m[k].flow != flow ==> b.DefaultFor(m[k].flow) == Some(k)
    ensures AgreesWithBackend(DefaultChangedTo(m, flow, id), WithDefault(b, flow, id))
  {
    DefaultChangedEffect(m, flow, id);
  }

  // ---------------------------------------------------------------------------
  // Removal and volume changes

  /** The registry after a removal notification. */
  function RemovedFrom(m: Registry, id: string): (r: Registry)
    ensures id !in r && r.Keys == m.Keys - {id}
    ensures forall k :: k in r ==> r[k] == m[k]
  {
    m - {id}
  }

  /** Removal drops exactly the given key; on an untracked id it changes nothing, so a
      second removal of the same id is a no-op. */
  lemma RemovalEffect(m: Registry, id: string)
    ensures RemovedFrom(m, id).Keys == m.Keys - {id}
    ensures forall k :: k in RemovedFrom(m, id) ==> RemovedFrom(m, id)[k] == m[k]
    ensures id !in m ==> RemovedFrom(m, id) == m
    ensures RemovedFrom(RemovedFrom(m, id), id) == RemovedFrom(m, id)
  {
  }

  /** The registry after a volume notification for `id`. */
  function VolumeChangedTo(m: Registry, id: string, reading: VolumeReading): (r: Registry)
    ensures r.Keys == m.Keys
    ensures forall k :: k in r && k != id ==> r[k] == m[k]
    ensures id in r ==> r[id].volume == reading.percent && r[id].isMuted == reading.muted
  {
    if id in m then m[id := m[id].(volume := reading.percent, isMuted := reading.muted)] else m
  }

  /** A volume notification updates only the volume and mute of a tracked id. */
  lemma VolumeChangeEffect(m: Registry, id: string, reading: VolumeReading)
    ensures VolumeChangedTo(m, id, reading).Keys == m.Keys
    ensures forall k :: k in m && k != id ==> VolumeChangedTo(m, id, reading)[k] == m[k]
    ensures id in m ==>
      VolumeChangedTo(m, id, reading)[id] == m[id].(volume := reading.percent, isMuted := reading.muted)
    ensures id !in m ==> VolumeChangedTo(m, id, reading) == m
  {
  }

  /** Removals and volume changes never create a second default in a direction. */
  lemma RemovalAndVolumeKeepSingleDefault(m: Registry, id: string, reading: VolumeReading)
    requires SingleDefaultPerFlow(m)
    ensures SingleDefaultPerFlow(RemovedFrom(m, id))
    ensures SingleDefaultPerFlow(VolumeChangedTo(m, id, reading))
  {
    VolumeKeepsSingleDefault(m, id, reading, Render);
    VolumeKeepsSingleDefault(m, id, reading, Capture);
  }

  lemma VolumeKeepsSingleDefault(m: Registry, id: string, reading: VolumeReading, flow: DataFlow)
    requires AtMostOneDefault(m, flow)
    ensures AtMostOneDefault(VolumeChangedTo(m, id, reading), flow)
  {
    var v := VolumeChangedTo(m, id, reading);
    forall j, k | j in v && k in v && v[j].flow == flow && v[k].flow == flow && v[j].isDefault && v[k].isDefault
      ensures j == k
    {
      assert m[j].flow == flow && m[j].isDefault && m[k].flow == flow && m[k].isDefault;
    }
  }

  /** Removals and volume changes keep agreement with the backend. */
  lemma RemovalAndVolumeKeepDefaults(m: Registry, b: Backend, id: string, reading: VolumeReading)
    requires AgreesWithBackend(m, b)
    ensures AgreesWithBackend(RemovedFrom(m, id), b)
    ensures AgreesWithBackend(VolumeChangedTo(m, id, reading), b)
  {
  }

  // ---------------------------------------------------------------------------
  // Volume-notification subscriptions

  /** How many volume handlers are installed for `id`. */
  function Handlers(subs: map<string, nat>, id: string): nat {
    if id in subs then subs[id] else 0
  }

  /** Discovering an active endpoint with a volume control installs one more handler. */
  function Subscribed(subs: map<string, nat>, b: Backend, id: string): (r: map<string, nat>)
    ensures Handlers(r, id) == Handlers(subs, id) + (if b.IsActive(id) && b.endpoints[id].control.Some? then 1 else 0)
    ensures forall k :: k != id ==> Handlers(r, k) == Handlers(subs, k)
  {
    if b.IsActive(id) && b.endpoints[id].control.Some? then subs[id := Handlers(subs, id) + 1] else subs
  }

  /** One more enumerated id extends the subscriptions by one step. */
  lemma SubscribedAllStep(subs: map<string, nat>, b: Backend, ids: seq<string>, i: nat)
    requires i < |ids|
    ensures SubscribedAll(subs, b, ids[..i + 1]) == Subscribed(SubscribedAll(subs, b, ids[..i]), b, ids[i])
  {
    assert ids[..i + 1][..i] == ids[..i];
  }

  /** Installing handlers for every id of `ids` in order. */
  function SubscribedAll(subs: map<string, nat>, b: Backend, ids: seq<string>): (r: map<string, nat>)
    ensures forall k :: k !in ids ==> Handlers(r, k) == Handlers(subs, k)
    decreases |ids|
  {
    if ids == [] then subs
    else
      var init, last := ids[..|ids| - 1], ids[|ids| - 1];
      assert ids == init + [last];
      Subscribed(SubscribedAll(subs, b, init), b, last)
  }

  /** Handlers are only ever added, and an enumeration leaves at least one on every active
      enumerated endpoint that has a volume control. */
  lemma {:induction false} SubscribedAllCovers(subs: map<string, nat>, b: Backend, ids: seq<string>)
    ensures forall k :: Handlers(SubscribedAll(subs, b, ids), k) >= Handlers(subs, k)
    ensures forall k :: k in ActiveAmong(b, ids) && b.endpoints[k].control.Some? ==>
      Handlers(SubscribedAll(subs, b, ids), k) >= 1
    decreases |ids|
  {
    if ids != [] {
      var init, last := ids[..|ids| - 1], ids[|ids| - 1];
      assert ids == init + [last];
      SubscribedAllCovers(subs, b, init);
      assert ActiveAmong(b, ids) == ActiveAmong(b, init) + (if b.IsActive(last) then {last} else {});
    }
  }

  /** Removal does not take the handler away: after an endpoint with a volume control is
      added and removed again, it is untracked but still has a handler installed, and adding
      it again installs a second one. */
  lemma AddRemoveLeavesHandler(m: Registry, subs: map<string, nat>, b: Backend, id: string)
    requires b.IsActive(id) && b.endpoints[id].control.Some?
    ensures id !in RemovedFrom(Discovered(m, b, id, true), id)
    ensures Handlers(Subscribed(subs, b, id), id) == Handlers(subs, id) + 1
    ensures Handlers(Subscribed(Subscribed(subs, b, id), b, id), id) == Handlers(subs, id) + 2
  {
  }

  // ---------------------------------------------------------------------------
  // The legacy client's default rule

  /** The legacy client's default-device change: every record is re-marked, default exactly
      when it has the notified direction and id. */
  function LegacyDefaultChangedTo(m: Registry, flow: DataFlow, id: string): (r: Registry)
    ensures r.Keys == m.Keys
    ensures forall k :: k in r ==> (r[k].isDefault <==> m[k].flow == flow && m[k].id == id)
    ensures forall k :: k in r ==> r[k].(isDefault := m[k].isDefault) == m[k]
  {
    map k | k in m :: m[k].(isDefault := m[k].flow == flow && m[k].id == id)
  }

  /** With records stored under their ids, the legacy rule leaves at most one default in
      the whole registry, across both directions. */
  lemma LegacyAtMostOneDefault(m: Registry, flow: DataFlow, id: string)
    requires KeysMatchIds(m)
    ensures var r := LegacyDefaultChangedTo(m, flow, id);
      forall j, k :: j in r && k in r && r[j].isDefault && r[k].isDefault ==> j == k
  {
  }

  /** The two default rules differ on the other direction: the current client keeps a
      capture default when the render default changes, the legacy client clears it. */
  lemma DefaultRulesDiffer()
    ensures exists m: Registry, id: string ::
      DefaultChangedTo(m, Render, id) != LegacyDefaultChangedTo(m, Render, id)
  {
    var mic := DeviceRecord("M", "", Capture, true, 0.0, false, false, 0, 0, 0);
    var m: Registry := map["M" := mic];
    assert DefaultChangedTo(m, Render, "S")["M"].isDefault;
    assert !LegacyDefaultChangedTo(m, Render, "S")["M"].isDefault;
  }

  /** The registry after the legacy volume handler, which assumes the id is tracked. */
  function LegacyVolumeChangedTo(m: Registry, id: string, reading: VolumeReading): (r: Registry)
    requires id in m
    ensures r.Keys == m.Keys
    ensures forall k :: k in r && k != id ==> r[k] == m[k]
    ensures r[id] == m[id].(volume := reading.percent, isMuted := reading.muted)
  {
    m[id := m[id].(volume := reading.percent, isMuted := reading.muted)]
  }
}

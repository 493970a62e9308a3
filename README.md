# Audio device registry and command line, modelled in Dafny

This project models the core of a Windows audio-endpoint monitor. The monitor keeps a
registry of the audio devices the operating system reports, reacts to the system's
notifications (device added, removed, state changed, default device changed, volume changed)
by updating the registry and emitting a change event, and offers volume and mute commands
read from a text command line.

Three parts of the program are modelled:

- **The notification client of the service** (`src/Services/AudioDeviceNotificationClient.cs`),
  as the class `NotificationClient.AudioDeviceNotificationClient`. It holds the registry
  (`devices: map<string, DeviceRecord>`), the volume step, the emitted change events and a
  per-device count of installed volume handlers. Each handler is one atomic step whose effect
  on the registry is stated by a pure transition function in `RegistrySpec`. The facts proved
  about those functions cover the default flag (at most one default per direction), removal
  (a no-op on unknown ids), volume updates and handler bookkeeping. The commands resolve their
  target and return the single backend write they issue, or the reason they issue none. They
  never change the registry.
- **The older single-file client** (`af-win-audio.cs`, lines 243-385), as the class
  `LegacyNotificationClient.AudioDeviceNotificationClient`. Its default rule clears the flag in
  both directions, so after a change at most one record in the whole registry is default.
  `RegistrySpec.DefaultRulesDiffer` shows a registry on which the two rules disagree.
- **The command line** (`src/Services/AudioCommands.cs`), as the pure function
  `AudioCommands.ProcessCommand`. It maps a line to at most one call on the manager interface
  (`Option<Command>`). The float parser is an abstract function parameter. The lemmas
  characterise which lines make which call. They also show that the lines the front end
  (`src/app.ts`) writes parse back to the call they were written for.

The operating system's audio subsystem is an input value, `AudioModel.Backend`. It holds the
endpoints by id (name, direction, state, current volume and mute, mix format), the enumeration
order, and the multimedia-role default per direction. A backend call that throws becomes
`None` or the `BackendFailed` outcome.

Files: `wrappers.dfy` (Option), `audio_model.dfy` (shared values, records, events, step
arithmetic, command outcomes), `registry_spec.dfy` (transitions and their lemmas),
`notification_client.dfy`, `legacy_client.dfy`, `audio_commands.dfy`.

The model follows the code in these places, which a reader might expect to behave otherwise:

- Default-changed notifications are applied for every role. There is no role filter. The
  backend's defaults are those of the multimedia role, so a console or communications
  notification naming another device breaks agreement with the backend.
  `RegistrySpec.OtherRoleBreaksAgreement` shows that re-adding the multimedia default
  afterwards leaves two render defaults.
- A volume notification for a tracked device always emits an event, even when nothing changed.
- A default-changed notification that names no device (the subsystem reports that the
  direction has no default) clears the direction's flags and then fails at the dictionary
  lookup. The direction is left without a default and no event is emitted. The model
  passes the id as an `Option`, and `None` stands for the missing id.
- Removal does not detach the volume handler. The `-=` builds a new lambda, which never equals
  the installed one. `RegistrySpec.AddRemoveLeavesHandler` and
  `NotificationClient.AddedThenRemoved` state this.
- Adding a device trusts the backend's current default without clearing an older default of
  the same direction. So the "one default per direction" rule is not kept by every
  interleaving: `RegistrySpec.AddedCanDuplicateDefault` gives the registry it fails on.
  The rule holds whenever the registry agrees with the backend (`AgreesWithBackend`). Start-up
  establishes that agreement and discovery keeps it. A multimedia-role default-change
  notification restores it in its direction whenever the other direction agrees, so it also
  repairs the disagreement that another role's notification leaves behind. A default-change notification of any role keeps the rule by
  itself, and so do removals and volume changes.

## Model

| member | source | states |
|---|---|---|
| `AudioModel.NewRecord` | src/Services/AudioDeviceNotificationClient.cs:344-375 | a discovered device's record carries its id, name and direction; it is default iff it is the backend's default endpoint of its own direction; volume and mute are the live reading when the device has a volume control, 0 and unmuted otherwise; channels, bit depth and sample rate are the mix format's, or 0 without one |
| `AudioModel.Notify` | src/Services/AudioDeviceNotificationClient.cs:246-301 | an event carries its type and a snapshot of all records; a Removed event names only the id; any other event carries the full record exactly when the id is non-empty and tracked |
| `AudioModel.StepUp` | src/Services/AudioDeviceNotificationClient.cs:137-139 | the incremented volume is min(current + step, 100) |
| `AudioModel.StepDown` | src/Services/AudioDeviceNotificationClient.cs:155-157 | the decremented volume is max(current - step, 0) |
| `AudioModel.StepsStayInRange` | src/Services/AudioDeviceNotificationClient.cs:166-200 | with a volume in [0,100] and a step in (0,100], increment and decrement stay in [0,100] and move in the right direction |
| `RegistrySpec.Discovered` | src/Services/AudioDeviceNotificationClient.cs:338-382 | discovering an active endpoint adds its id with the fresh record; an absent or inactive one changes nothing; other records are kept |
| `RegistrySpec.DiscoveredAll` | src/Services/AudioDeviceNotificationClient.cs:437-467 | after enumeration the tracked ids are the old ones plus the enumerated active ones |
| `RegistrySpec.DiscoveredAllContents` | src/Services/AudioDeviceNotificationClient.cs:437-467 | enumeration adds exactly the active enumerated ids, each with its fresh record, and keeps every other record unchanged |
| `RegistrySpec.DiscoveredAllKeepsKeys` | src/Services/AudioDeviceNotificationClient.cs:465 | every record is stored under its own id |
| `RegistrySpec.AgreementGivesSingleDefault` | src/Services/AudioDeviceNotificationClient.cs:445-446 | if every default record is the backend's default of its direction, no direction has two defaults |
| `RegistrySpec.DiscoveredAllAgrees` | src/Services/AudioDeviceNotificationClient.cs:437-467 | discovery keeps the registry in agreement with the backend's defaults |
| `RegistrySpec.InitialEnumerationDefaults` | src/Services/AudioDeviceNotificationClient.cs:437-468 | after start-up a record is default iff its id is the default of its own direction, so each direction has at most one default |
| `RegistrySpec.AddedCanDuplicateDefault` | src/Services/AudioDeviceNotificationClient.cs:352-361 | there is a registry with one default per direction that a device-added notification turns into one with two defaults in one direction |
| `RegistrySpec.OtherRoleBreaksAgreement` | src/Services/AudioDeviceNotificationClient.cs:314-336 | for any registry that agrees with the backend, a default change (of a non-multimedia role) naming another tracked render device breaks agreement, and re-adding the multimedia default then gives two render defaults |
| `RegistrySpec.OtherRoleAfterStartUp` | src/Services/AudioDeviceNotificationClient.cs:437-468 | start-up with two render devices reaches a registry where that happens |
| `RegistrySpec.ClearedFlow` | src/Services/AudioDeviceNotificationClient.cs:318-322 | keys are kept; no record of the direction is default; records of the other direction are untouched; only the flag changes |
| `RegistrySpec.DefaultChangedTo` | src/Services/AudioDeviceNotificationClient.cs:318-332 | keys are kept; in the notified direction a record is default iff it is the notified id; records of the other direction are untouched |
| `RegistrySpec.DefaultChangedEffect` | src/Services/AudioDeviceNotificationClient.cs:314-336 | a default change keeps the keys and every field except the flag; records of other directions keep their flag; in the notified direction only the notified id is default, and only if it is tracked there |
| `RegistrySpec.DefaultChangedSingleDefault` | src/Services/AudioDeviceNotificationClient.cs:318-332 | after a default change the notified direction has at most one default, and one default per direction is preserved |
| `RegistrySpec.ClearedFlowSingleDefault` | src/Services/AudioDeviceNotificationClient.cs:318-325 | a notification without a named default leaves no default in its direction and keeps one default per direction |
| `RegistrySpec.DefaultChangedRestoresAgreement` | src/Services/AudioDeviceNotificationClient.cs:314-336 | when the other direction agrees with the backend, applying the notification of a new default brings the whole registry into agreement with the updated backend, whatever the notified direction held before |
| `RegistrySpec.RemovedFrom` | src/Services/AudioDeviceNotificationClient.cs:396 | the id is no longer tracked, the other keys and records are kept |
| `RegistrySpec.RemovalEffect` | src/Services/AudioDeviceNotificationClient.cs:384-400 | removal drops exactly that key and keeps the other records; an untracked id changes nothing; a second removal is a no-op |
| `RegistrySpec.VolumeChangedTo` | src/Services/AudioDeviceNotificationClient.cs:475-479 | keys are kept, only the notified id's record changes, and a tracked id gets the reading's volume and mute |
| `RegistrySpec.VolumeChangeEffect` | src/Services/AudioDeviceNotificationClient.cs:471-482 | a volume notification changes only volume and mute of a tracked id; other records and untracked ids are left alone |
| `RegistrySpec.RemovalAndVolumeKeepDefaults` | src/Services/AudioDeviceNotificationClient.cs:384-400 | removals (these lines) and volume notifications (src/Services/AudioDeviceNotificationClient.cs:471-482) keep the registry in agreement with the backend's defaults |
| `RegistrySpec.RemovalAndVolumeKeepSingleDefault` | src/Services/AudioDeviceNotificationClient.cs:384-400 | removals (these lines) and volume notifications (src/Services/AudioDeviceNotificationClient.cs:471-482) keep at most one default per direction, with or without agreement with the backend |
| `RegistrySpec.Subscribed` | src/Services/AudioDeviceNotificationClient.cs:363-368 | discovering an active endpoint with a volume control adds exactly one handler for it; every other id's count is unchanged |
| `RegistrySpec.SubscribedAll` | src/Services/AudioDeviceNotificationClient.cs:449-454 | ids the enumeration does not list keep their handler counts |
| `RegistrySpec.SubscribedAllCovers` | src/Services/AudioDeviceNotificationClient.cs:449-454 | handler counts only grow, and enumeration leaves a handler on every active enumerated device with a volume control |
| `RegistrySpec.AddRemoveLeavesHandler` | src/Services/AudioDeviceNotificationClient.cs:391-395 | a device added then removed is untracked but keeps its handler; adding it again installs a second one |
| `RegistrySpec.LegacyDefaultChangedTo` | af-win-audio.cs:255-258 | keys and every field but the flag are kept; a record is default iff it has the notified direction and id |
| `RegistrySpec.LegacyVolumeChangedTo` | af-win-audio.cs:373-374 | keys are kept, only the notified id's record changes, and of it only volume and mute, which take the reading's values |
| `RegistrySpec.LegacyAtMostOneDefault` | af-win-audio.cs:255-258 | after the legacy default change at most one record of the whole registry is default |
| `RegistrySpec.DefaultRulesDiffer` | af-win-audio.cs:251-260 | on some registry the legacy rule and the current rule give different results (the legacy rule clears the other direction's default) |
| `NotificationClient.AudioDeviceNotificationClient.constructor` | src/Services/AudioDeviceNotificationClient.cs:17-20 | the registry starts empty, with step 2 and no events |
| `NotificationClient.AudioDeviceNotificationClient.SetStepVolume` | src/Services/AudioDeviceNotificationClient.cs:24-32 | the step becomes the value iff 0 < value <= 100; otherwise it is unchanged and an error is reported |
| `NotificationClient.AudioDeviceNotificationClient.SetMute` | src/Services/AudioDeviceNotificationClient.cs:34-48 | mutes the default render endpoint; a failing lookup is reported; an endpoint without volume control is skipped |
| `NotificationClient.AudioDeviceNotificationClient.SetMuteById` | src/Services/AudioDeviceNotificationClient.cs:50-63 | mutes a tracked device; an id that is not tracked (or has no volume control) is reported and nothing is written |
| `NotificationClient.AudioDeviceNotificationClient.SetUnMute` | src/Services/AudioDeviceNotificationClient.cs:65-79 | unmutes the default render endpoint, with the same failure cases as SetMute |
| `NotificationClient.AudioDeviceNotificationClient.SetUnMuteById` | src/Services/AudioDeviceNotificationClient.cs:81-94 | unmutes a tracked device; an untracked id writes nothing |
| `NotificationClient.AudioDeviceNotificationClient.ToggleMuted` | src/Services/AudioDeviceNotificationClient.cs:96-111 | writes the negation of the default endpoint's live mute flag |
| `NotificationClient.AudioDeviceNotificationClient.ToggleMutedById` | src/Services/AudioDeviceNotificationClient.cs:113-128 | writes the negation of a tracked device's live mute flag; an untracked id writes nothing |
| `NotificationClient.AudioDeviceNotificationClient.IncrementVolume` | src/Services/AudioDeviceNotificationClient.cs:130-146 | writes min(live + step, 100) to the default endpoint, which lies in [0,100] |
| `NotificationClient.AudioDeviceNotificationClient.DecrementVolume` | src/Services/AudioDeviceNotificationClient.cs:148-164 | writes max(live - step, 0) to the default endpoint, which lies in [0,100] |
| `NotificationClient.AudioDeviceNotificationClient.IncrementVolumeById` | src/Services/AudioDeviceNotificationClient.cs:166-182 | writes min(live + step, 100) to a tracked device; an untracked id writes nothing |
| `NotificationClient.AudioDeviceNotificationClient.DecrementVolumeById` | src/Services/AudioDeviceNotificationClient.cs:184-200 | writes max(live - step, 0) to a tracked device; an untracked id writes nothing |
| `NotificationClient.AudioDeviceNotificationClient.SetVolume` | src/Services/AudioDeviceNotificationClient.cs:202-222 | a value outside [0,100] is rejected before any backend call; otherwise the value is written to the default endpoint |
| `NotificationClient.AudioDeviceNotificationClient.SetVolumeById` | src/Services/AudioDeviceNotificationClient.cs:224-244 | a value outside [0,100] is rejected before the registry lookup; otherwise it is written to a tracked device only |
| `NotificationClient.AudioDeviceNotificationClient.OnDefaultDeviceChanged` | src/Services/AudioDeviceNotificationClient.cs:314-336 | for a named device, the registry becomes the default-changed transition of the old one (for any role) and one DefaultChanged event is appended; when no device is named, the direction is cleared and no event is emitted, because the lookup fails after the clearing loop |
| `NotificationClient.AudioDeviceNotificationClient.Track` | src/Services/AudioDeviceNotificationClient.cs:340-375 | an active endpoint is upserted as its fresh record and gets one more handler if it has a volume control; an absent or inactive one changes nothing |
| `NotificationClient.AudioDeviceNotificationClient.OnDeviceAdded` | src/Services/AudioDeviceNotificationClient.cs:338-382 | an active endpoint is upserted and gets one more handler if it has a volume control, and Added is emitted; an absent or inactive one changes nothing |
| `NotificationClient.AudioDeviceNotificationClient.OnDeviceRemoved` | src/Services/AudioDeviceNotificationClient.cs:384-400 | a tracked id is removed and an id-only Removed event is emitted; an untracked id changes nothing and emits nothing |
| `NotificationClient.AudioDeviceNotificationClient.OnDeviceStateChanged` | src/Services/AudioDeviceNotificationClient.cs:402-412 | Active acts as device added; Disabled, NotPresent and Unplugged act as device removed; any other state changes nothing |
| `NotificationClient.AudioDeviceNotificationClient.OnPropertyValueChanged` | src/Services/AudioDeviceNotificationClient.cs:414-417 | property changes leave the registry and the events as they were |
| `NotificationClient.AudioDeviceNotificationClient.InitializeDevices` | src/Services/AudioDeviceNotificationClient.cs:419-469 | every enumerated active endpoint is upserted in order with handlers installed, then exactly one Initial event naming no device is emitted |
| `NotificationClient.AudioDeviceNotificationClient.VolumeNotificationHandler` | src/Services/AudioDeviceNotificationClient.cs:471-482 | a tracked id gets the new volume and mute and VolumeChanged is emitted even if nothing changed; an untracked id is ignored |
| `NotificationClient.AudioDeviceNotificationClient.Dispose` | src/Services/AudioDeviceNotificationClient.cs:484-488 | the registry is empty afterwards; only `devices` is in the frame, so the per-device volume handlers (`subscriptions`) stay installed and the event log is unchanged |
| `NotificationClient.StartUp` | src/Program.cs:11-17 | after start-up the registry holds exactly the enumerated active devices; a device is default iff it is its direction's default; one Initial event is emitted |
| `NotificationClient.ReplayDefaultChanges` | src/Services/AudioDeviceNotificationClient.cs:314-336 | after start-up, any sequence of default-change notifications, with or without a named device, leaves at most one default per direction |
| `NotificationClient.AddedThenRemoved` | src/Services/AudioDeviceNotificationClient.cs:338-400 | a device added then removed twice is untracked; the last event is an id-only Removed with an empty snapshot; the second removal emits nothing; one handler stays installed |
| `LegacyNotificationClient.AudioDeviceNotificationClient.constructor` | af-win-audio.cs:245-249 | the registry starts empty |
| `LegacyNotificationClient.AudioDeviceNotificationClient.OnDefaultDeviceChanged` | af-win-audio.cs:251-260 | every record's flag becomes (direction = notified direction and id = notified id); nothing else changes |
| `LegacyNotificationClient.AudioDeviceNotificationClient.OnDeviceAdded` | af-win-audio.cs:262-296 | the registry is unchanged (the handler's body is disabled) |
| `LegacyNotificationClient.AudioDeviceNotificationClient.OnDeviceRemoved` | af-win-audio.cs:298-313 | the registry is unchanged (the handler's body is disabled) |
| `LegacyNotificationClient.AudioDeviceNotificationClient.OnDeviceStateChanged` | af-win-audio.cs:315-329 | the registry is unchanged (the handler's body is disabled) |
| `LegacyNotificationClient.AudioDeviceNotificationClient.OnPropertyValueChanged` | af-win-audio.cs:331-334 | the registry is unchanged |
| `LegacyNotificationClient.AudioDeviceNotificationClient.InitializeDevices` | af-win-audio.cs:336-369 | every enumerated active endpoint is upserted under its id, never marked default; other records are kept |
| `LegacyNotificationClient.AudioDeviceNotificationClient.VolumeNotificationHandler` | af-win-audio.cs:371-378 | only the tracked id's volume and mute change |
| `LegacyNotificationClient.AudioDeviceNotificationClient.Dispose` | af-win-audio.cs:380-384 | the registry is empty afterwards |
| `LegacyNotificationClient.InitializeThenDefaultChange` | af-win-audio.cs:389-397 | after start-up no record is default; after one default change a record is default iff it has the notified direction and id, so at most one is |
| `AudioCommands.IsBlank` | src/Services/AudioCommands.cs:20 | the front-to-back check holds exactly when every character is white space |
| `AudioCommands.Lower` | src/Services/AudioCommands.cs:28 | same length; each ASCII capital becomes the small letter at the same alphabet position, any other character is kept; the result has no ASCII capital |
| `AudioCommands.WordLength` | src/Services/AudioCommands.cs:25 | a word runs up to, and not including, the first space |
| `AudioCommands.Tokenize` | src/Services/AudioCommands.cs:25 | every token is non-empty and contains no space |
| `AudioCommands.TokenizeJoin` | src/Services/AudioCommands.cs:25 | tokenising words joined by single spaces gives the words back |
| `AudioCommands.BlankTokens` | src/Services/AudioCommands.cs:20-25 | a line is white space only exactly when each of its tokens is |
| `AudioCommands.LeadingSpacesSkipped` | src/Services/AudioCommands.cs:25 | spaces before a line give no tokens |
| `AudioCommands.WordThenSpaces` | src/Services/AudioCommands.cs:25 | a word followed by any positive number of spaces is a single token |
| `AudioCommands.SpreadTokens` | src/Services/AudioCommands.cs:25 | any number of words, with at least one space between neighbours and any number after the last, split into exactly those words |
| `AudioCommands.Dispatch` | src/Services/AudioCommands.cs:30-233 | a selected call's word is the command word, and the tokens carry that call's arguments |
| `AudioCommands.ProcessCommand` | src/Services/AudioCommands.cs:16-240 | a blank line makes no call; a call made has the shape that selects it (its word in any case, then its arguments) |
| `AudioCommands.DispatchIffAccepts` | src/Services/AudioCommands.cs:30-233 | the switch selects a call exactly on that call's word with that call's argument count and numeric arguments |
| `AudioCommands.CallIffAccepts` | src/Services/AudioCommands.cs:16-240 | a line makes call c exactly when its tokens are c's word in any case followed by c's arguments: one number for setvolume and setstepvolume, an id and a number for setvolumeid, exactly an id for the other by-id words, anything for the words without arguments |
| `AudioCommands.UnknownWordMakesNoCall` | src/Services/AudioCommands.cs:231-233 | a first word that is not one of the thirteen command words, "setstep" included, makes no call |
| `AudioCommands.SameTokensSameCall` | src/Services/AudioCommands.cs:25-28 | lines whose tokens differ only in the case of the first word make the same call |
| `AudioCommands.SpacingAndCaseIgnored` | src/Services/AudioCommands.cs:25-28 | for a line of any number of words, leading, repeated and trailing spaces and the case of the command word do not change the call: it is the call of the lower-case word and the arguments joined by single spaces |
| `AudioCommands.FrontEndLineRoundTrip` | src/app.ts:76-153 | every line the front end writes parses back to the call it was written for, when ids contain no space and numbers render as words the parser reads back |

## Left out

- NAudio and Windows Core Audio calls (enumerator, default-endpoint lookup, device lookup, endpoint volume, mix format) are not modelled. The backend is a value passed in; an exception becomes `None` or the `BackendFailed` outcome.
- The writes that commands make to hardware are returned as an `Outcome`, not applied. The registry's cached volume changes only through the volume notification, as in the source.
- Locking and delivery of notifications on arbitrary threads are not modelled. Each handler and command is one atomic step.
- Float arithmetic is not modelled. Volumes and steps are `real` percentages; the scaling by 100 and the rounding of `float` are left out.
- JSON serialisation of events is not modelled. The order of the device list in an event is also left out; the snapshot is the registry map itself.
- Console and error-stream lines are not modelled beyond the `Outcome` values and the `accepted` result of SetStepVolume.
- `UnregisterEndpointNotificationCallback` in both `Dispose` methods is not modelled (a foreign call).
- The device object kept in each record is reduced to a `hasControl` flag plus a backend lookup by id. A record whose device the backend no longer serves yields `BackendFailed`. In the source that exception escapes the by-id command to the command line's handler.
- Volume handlers are only counted. Which handler fires and what it captures are not modelled; the legacy client's handlers are not counted at all.
- Records are values: the in-place mutation of shared record objects and any aliasing of them is not modelled.
- `src/app.ts`, `src/main.ts` and the read loop of `src/Program.cs` are process and stream I/O and are not modelled. Only the line formats the front end writes are kept, without the trailing newline that the reader strips.
- `src/Utils/JsonSerializer.cs` is not part of this model (unused serialisation helper).
- `afc#-win-audio.cs` is not part of this model.
- The commented-out code of `af-win-audio.cs` (lines 1-216, and the disabled handler bodies) is not modelled.
- `AudioModel.DeviceState` collapses every combination of state flags other than the four named states into `OtherState`.
- NotificationClient.AudioDeviceNotificationClient.SetStepVolume: the step is a real, so there is no NaN. In the source `float.TryParse` accepts "NaN", NaN fails both comparisons of the range check at src/Services/AudioDeviceNotificationClient.cs:26, and the step becomes NaN. The model's rejection of out-of-range steps and its `ValidStep` invariant do not cover that input.
- NotificationClient.AudioDeviceNotificationClient.SetVolume: NaN is not modelled. In the source it passes the range check at src/Services/AudioDeviceNotificationClient.cs:204 and is written to the default endpoint, where the model's contract says every value outside [0,100] is rejected.
- NotificationClient.AudioDeviceNotificationClient.SetVolumeById: NaN is not modelled. In the source it passes the range check at src/Services/AudioDeviceNotificationClient.cs:226 and is written to the device.
- AudioCommands.Lower lower-cases ASCII letters only; non-ASCII characters whose invariant lower case is an ASCII letter are not modelled.
- AudioCommands.ProcessCommand takes a non-null string; a null line behaves like an empty one in the source and is not modelled separately.
- AudioCommands.ProcessCommand returns the call a line selects and does not model the exception handling around the call itself.
- The float parser of the command line is an abstract function parameter; its culture-dependent syntax is not modelled.
- LegacyNotificationClient.AudioDeviceNotificationClient.VolumeNotificationHandler: requires the id to be tracked. The source indexes the dictionary without a check and throws on an untracked id, on the notification thread.

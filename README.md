# Smart-home air-quality controller, modelled in Dafny

The system simulates an indoor air-quality controller. A Node server keeps
one in-memory home snapshot:
- five whole-home readings (PM2.5, CO2, VOC, humidity, temperature);
- three rooms with the same five readings;
- four devices (intake fan with a speed, HEPA filter, air purifier, window servo);
- four rule flags;
- the current room.

Clients post partial updates to `/api/update`. The handler applies the
scalar readings, merges device records, sets rule flags, stores the room,
and then runs the automation rules. The rules only ever switch devices on.
An operator control panel builds those request bodies and runs its own
automation check. A read-only dashboard scores the air, shows a badge and a
room label, narrates rule events, and keeps a bounded system log.

The model has four modules:
- `AirTypes` (`air_types.dfy`) is the shared data model. Readings are exact
  `real`s. Rooms, devices and rules are fixed records with `Get`/`With`
  accessors. A request body is an `Update` whose absent fields are `None`
  or absent map keys.
- `Server` (`server.dfy`) holds the handler as pure specification
  functions (`AfterScalarWrite`, `WriteScalars`, `MergeDevices`,
  `MergeRules`, `Automate`, `Handle`) and the lemmas about them. The
  `HomeStore` class holds the snapshot in fields. Its `Update`,
  `WriteScalar`, `UpdateAverages`, `UpdateDevices`, `UpdateRules` and
  `ApplyAutomation` methods change those fields the way the handler does,
  and each is proved equal to the specification function.
- `ControlPanel` (`control_panel.dfy`) holds the panel's automation delta
  and its request builders as pure functions. Each builder has a lemma
  saying what the server does with the body.
- `Dashboard` (`dashboard.dfy`) holds the AQI scorer, the badge, the room
  label and the narration as pure functions. The `Monitor` class owns
  the page's last snapshot and the bounded log, and its methods append to
  the log as `addLog` does.

How the handler behaves at its edges:
- An update is not validated as a whole. In the model, the only failure is
  a scalar whose `currentRoom` is missing or is neither `"all"` nor one of
  the three room keys. For such a name the handler throws a TypeError at
  the first scalar block, before anything is written. So `Handle` returns
  `Rejected` and `HomeStore.Update` leaves the state unchanged. Names
  inherited from `Object.prototype`, such as `"constructor"` or
  `"__proto__"`, do not throw in the source. They are not modelled (see
  "## Left out").
- Without a scalar in the request, any non-empty `currentRoom` string is
  stored, even one that names no room. The empty string is not stored.
- The start-up snapshot's aggregate is a copy of the living room, not the
  room mean (`DefaultsNotMeanConsistent`). "Aggregate equals room mean" is
  established by a room-scoped write. It is also established by a
  whole-home write of all five readings, as every scenario preset is
  (`ControlPanel.ScenarioReadings`). Once it holds, every accepted request
  keeps it (`MeanConsistencyPreserved`). So it is a preserved property,
  not a class invariant.
- Every snapshot the server returns is already a fixpoint of the rules.
  So the dashboard never narrates an "activated" warning for one
  (`Dashboard.ServedStateHasNoWarnings`). Its "normalized" messages do
  appear, but no device is switched off by them.

## Model

| member | source | states |
|---|---|---|
| Server.Defaults | server/server.js:17-41 | the start-up snapshot: room "all", every device off, every rule on, aggregate equal to the living-room reading |
| Server.DefaultsNotMeanConsistent | server/server.js:17-27 | the start-up aggregate is not the three-room mean (PM2.5 is 12, the mean is 40/3) |
| Server.WithAverages | server/server.js:160-169 | updateAverages makes all five aggregate fields the room means and changes nothing else |
| Server.AfterScalarWrite | server/server.js:55-66 | one scalar block: "all" sets the aggregate field and that field in every room; a room write sets only that room's field, keeps the other rooms and devices/rules/room, and leaves the aggregate mean-consistent |
| Server.AllWritePreservesMean | server/server.js:56-61 | a whole-home write keeps a mean-consistent snapshot mean-consistent |
| Server.RoomWriteRecomputesOtherFields | server/server.js:62-64 | a room write of PM2.5 from the defaults also moves the CO2 aggregate from 450 to 1450/3 |
| Server.Overlay | server/server.js:55-114 | every sensor the request carries takes the sent value; the others keep theirs |
| Server.WriteScalars | server/server.js:55-114 | the five blocks together write the overlay to every targeted room (and to the aggregate for "all"), leave other rooms alone, leave the aggregate mean-consistent after a room write, and change nothing without scalars |
| Server.ScalarPresent | server/server.js:55-114 | a request with any scalar carries one of the five sensor keys |
| Server.MergeDevice | server/server.js:119-122 | the spread merge: a field present in the partial wins, an absent one is kept |
| Server.MergeDeviceIdempotent | server/server.js:119-122 | merging the same partial twice equals merging it once; an empty partial changes nothing |
| Server.MergeDevices | server/server.js:117-124 | every named device gets its merged record; unnamed devices keep theirs |
| Server.MergeRules | server/server.js:127-131 | named rules take the sent flag; the others keep theirs |
| Server.SwitchedOn | server/server.js:180-201 | a firing rule makes its device active; only the intake fan's speed becomes 75 |
| Server.Automate | server/server.js:172-204 | applyAutomation changes only devices; each device is switched on exactly when its rule is enabled and its aggregate reading is strictly above the threshold |
| Server.AutomationOnlySwitchesOn | server/server.js:171-204 | no device is ever switched off; the fan speed is either kept or set to 75; no other speed changes |
| Server.AutomationLeavesQuietDevices | server/server.js:181-201 | a disabled rule or a reading at or below its threshold leaves that rule's devices untouched |
| Server.AutomationFires | server/server.js:181-201 | an enabled rule above its threshold switches its devices on, and CO2 sets the fan to on at 75 |
| Server.AutomationIgnoresHumidityAndRooms | server/server.js:172-204 | humidity, temperature, the humidity flag and the room readings have no device effect |
| Server.AutomateIdempotent | server/server.js:172-204 | running the rules twice equals running them once |
| Server.AutomationCanLowerFanSpeed | server/server.js:192 | a fan set by hand to 100 is lowered to 75 when CO2 fires |
| Server.Handle | server/server.js:51-142 | the handler is rejected exactly when a scalar is sent without a known room |
| Server.HandleEffect | server/server.js:51-139 | an accepted request: each room field is the sent value where targeted and the old value otherwise; the aggregate is kept without scalars and is the old aggregate overlaid with the sent fields on a whole-home write; rules are merged; the room changes only when a non-empty one is sent; each device is its merged record, switched on where its rule fires |
| Server.HandleLeavesUnmentionedDevices | server/server.js:117-139 | a device the request does not name keeps its record unless its rule fires |
| Server.HandleRoomWrite | server/server.js:55-114 | a room-scoped request changes no other room, writes the sent values and leaves every aggregate field the room mean |
| Server.HandleAllWrite | server/server.js:55-114 | a whole-home request sets each sent field in the aggregate and in every room; the aggregate fields not sent keep their old values |
| Server.MeanConsistencyPreserved | server/server.js:51-139 | once the aggregate is the room mean, every accepted request keeps it so |
| Server.HandleResultIsAutomated | server/server.js:139 | every response is a fixpoint of the rules |
| Server.ManualOffOverriddenByAutomation | server/server.js:117-139 | a manual "fan off" sent while CO2 fires ends with the fan on at 75 |
| Server.UnknownRoomStoredWithoutScalars | server/server.js:134-136 | without scalars, a room name that is not a key is stored as the current room |
| Server.HomeStore.constructor | server/server.js:17-41 | the store starts as the default snapshot |
| Server.HomeStore.UpdateAverages | server/server.js:160-169 | the fields become `WithAverages` of the old state |
| Server.HomeStore.WriteScalar | server/server.js:55-66 | succeeds exactly for "all" or a room key, then equals `AfterScalarWrite`; on failure nothing changes |
| Server.HomeStore.UpdateDevices | server/server.js:117-124 | the devices become the merge of the old devices and the patch; nothing else changes |
| Server.HomeStore.UpdateRules | server/server.js:126-131 | the rules become the merge of the old rules and the patch; nothing else changes |
| Server.HomeStore.ApplyAutomation | server/server.js:172-204 | the new state is `Automate` of the old state |
| Server.HomeStore.ScalarBlock | server/server.js:55-66 | one block fails exactly when its sensor is sent without a known room |
| Server.HomeStore.Update | server/server.js:51-139 | succeeds exactly when `Handle` accepts; the new state is then `Handle`'s result; a rejected request changes nothing |
| AirTypes.ParseTarget | server/server.js:56-63 | a room name is known exactly when it is "all" or one of the three keys, and it round-trips through `TargetName` |
| AirTypes.TargetNameRoundTrip | server/server.js:56-63 | every target's name parses back to it |
| AirTypes.View | backend/control.js:95-106 | "all" selects the aggregate; a room selects its own reading |
| AirTypes.JsRound | frontend/app.js:192 | Math.round on an exact value is within a half of it |
| ControlPanel.AutomationDelta | backend/control.js:421-451 | only `active: true` entries; the purifier iff PM2.5 fires; the window and the fan (with speed 75) iff CO2 fires; HEPA iff VOC fires |
| ControlPanel.DeltaFires | backend/control.js:421-451 | a device is in the delta exactly when the server's rule for it fires |
| ControlPanel.CheckAutomation | backend/control.js:421-458 | nothing is sent before data arrives or when no rule fires; otherwise the body is `{devices: delta}` |
| ControlPanel.DeltaIgnoresHumidity | backend/control.js:427-451 | humidity, temperature and the humidity flag never affect the delta |
| ControlPanel.DeltaAgreesWithServer | backend/control.js:421-451 | merging the delta onto the devices gives exactly the server's automated devices |
| ControlPanel.DeltaRequestIsRedundant | backend/control.js:454-457 | posting the delta computed from a server response leaves the server state unchanged |
| ControlPanel.ToggleDevice | backend/control.js:239-252 | the body names exactly one device with the chosen `active`; only switching the fan off adds speed 0 |
| ControlPanel.ToggleDeviceHandled | backend/control.js:239-252 | after the server handles it, the device is on iff switched on or its rule fires; a fan switched off with no CO2 breach is stopped at 0; other devices only see automation |
| ControlPanel.ToggleRule | backend/control.js:300-308 | the body names exactly one rule with the chosen flag |
| ControlPanel.ToggleRuleHandled | backend/control.js:300-308 | the server sets that flag, keeps the others and runs the rules under the new flags |
| ControlPanel.UpdateFanSpeed | backend/control.js:275-286 | the fan is active iff the speed is positive; the speed is passed through |
| ControlPanel.FanSpeedHandled | backend/control.js:275-286 | the fan ends at the slider's speed unless CO2 fires, when it runs on at 75 |
| ControlPanel.ScenarioOf | backend/control.js:322-393 | exactly "good", "moderate", "poor" and "reset" have a preset |
| ControlPanel.ScenarioUpdate | backend/control.js:326-391 | a preset targets "all" and carries all five scalars and all four devices; only the fan carries a speed |
| ControlPanel.SetScenario | backend/control.js:322-393 | a known name sends its preset; any other sends `{}` |
| ControlPanel.GoodIsReset | backend/control.js:322-393 | "good" and "reset" send the same body |
| ControlPanel.PresetsSelfConsistent | backend/control.js:326-391 | every preset already has on every device its own readings would switch on, with the fan at 75 when CO2 breaches |
| ControlPanel.PresetOverlay | backend/control.js:326-391 | a preset overwrites every field of a reading |
| ControlPanel.ScenarioReadings | backend/control.js:326-391 | after a preset, the aggregate and every room carry the preset readings, the aggregate is the room mean, and the room is "all" |
| ControlPanel.ScenarioDevices | backend/control.js:326-391 | after a self-consistent preset, every device has the preset's flag and the fan the preset's speed |
| ControlPanel.ScenarioHandled | backend/control.js:322-393 | the same, for each named preset |
| ControlPanel.GoodScenarioSwitchesEverythingOff | backend/control.js:326-341 | from any state, "good" leaves every device off with the fan at speed 0 |
| ControlPanel.UnknownScenarioOnlyAutomates | backend/control.js:322-393 | an unknown preset's `{}` only runs the automation pass |
| ControlPanel.UpdateValue | backend/control.js:197-207 | a NaN input sends nothing; otherwise the body is exactly the current room and the one value |
| ControlPanel.UpdateValueHandled | backend/control.js:197-207 | a value for a known room runs exactly one scalar block on the server, stores the room, then automation |
| ControlPanel.Displayed | backend/control.js:108-126 | four fields show the rounded reading, within a half of it; the temperature shows the reading itself |
| ControlPanel.UpdateInputFields | backend/control.js:93-127 | before data arrives nothing changes; the edited field keeps its text; every other field shows the selected view |
| Dashboard.Pm25Score | frontend/app.js:159-163 | one of 0..100 in steps of 25; 100 iff at most 12; 0 iff above 75 |
| Dashboard.Co2Score | frontend/app.js:166-170 | one of 0..100 in steps of 25; 100 iff at most 800; 0 iff above 2000 |
| Dashboard.VocScore | frontend/app.js:173-177 | one of 0..100 in steps of 25; 100 iff at most 50; 0 iff above 300 |
| Dashboard.HumidityScore | frontend/app.js:180-183 | one of 25..100 in steps of 25; 100 iff in 40..65; 25 iff above 80 or below 30 |
| Dashboard.TempScore | frontend/app.js:186-189 | one of 25..100 in steps of 25; 100 iff in 20..28; 25 iff above 35 or below 15 |
| Dashboard.SubScoresMonotone | frontend/app.js:159-177 | the PM2.5, CO2 and VOC sub-scores never rise as their reading rises |
| Dashboard.CalculateAqi | frontend/app.js:157-201 | the index lies in 4..100 and is 100 exactly when every reading is in its ideal band |
| Dashboard.ClampIsDead | frontend/app.js:192-200 | the rounded weighted score already lies in 4..100, so the clamp never changes it |
| Dashboard.AqiMonotoneInPm25 | frontend/app.js:159-198 | a higher PM2.5 never raises the index |
| Dashboard.AqiMonotoneInCo2 | frontend/app.js:166-198 | a higher CO2 never raises the index |
| Dashboard.AqiMonotoneInVoc | frontend/app.js:173-198 | a higher VOC never raises the index |
| Dashboard.BadgeFor | frontend/app.js:204-220 | EXCELLENT iff at least 80, MODERATE iff 50..79, POOR below 50 |
| Dashboard.DisplayedBadge | frontend/app.js:120-146 | the badge of the selected view is EXCELLENT when the view's readings are ideal |
| Dashboard.DefaultsShowExcellent | frontend/app.js:120-146 | the start-up snapshot shows EXCELLENT in every view |
| Dashboard.PresetBadges | frontend/app.js:157-220 | the "good", "moderate" and "poor" presets show the badges they are named after |
| Dashboard.UpperChar | frontend/app.js:86 | lower-case ASCII letters become upper case; other characters are kept |
| Dashboard.ToUpper | frontend/app.js:86 | upper-casing keeps the length and maps every character |
| Dashboard.ToUpperIdempotent | frontend/app.js:86 | upper-casing twice equals upper-casing once |
| Dashboard.RoomDisplayName | frontend/app.js:79-87 | the four known ids get their labels; any other id is upper-cased |
| Dashboard.LabelIsUpperCase | frontend/app.js:79-87 | a label never holds a lower-case ASCII letter |
| Dashboard.Prefix | frontend/app.js:314-319 | each kind's tag is bracketed |
| Dashboard.PrefixInjective | frontend/app.js:314-319 | different kinds get different tags |
| Dashboard.LineHead | frontend/app.js:313-323 | a rendered line starts with the time stamp, then the kind's tag between spaces |
| Dashboard.LineHeadShowsKind | frontend/app.js:313-323 | two lines with the same time stamp start alike only when their kinds are the same |
| Dashboard.KindOf | frontend/app.js:279-308 | "high" messages are warnings, "normalized" ones successes, the humidity advice information |
| Dashboard.RuleNote | frontend/app.js:279-303 | the note is none, the raised one or the lowered one; with the rule on, a high reading with the device off is announced, and a reading at or below the low mark with the device on is announced as normalized; a disabled rule, the dead band, or a device already in the announced state says nothing |
| Dashboard.Pm25Notes | frontend/app.js:279-285 | with the PM2.5 rule on, "purifier activated" iff PM2.5 is above 25 and the purifier is off, and "purifier deactivated" iff PM2.5 is at most 12 and the purifier is on; otherwise nothing |
| Dashboard.Co2Notes | frontend/app.js:288-294 | with the CO2 rule on, "window opened" iff CO2 is above 1000 and the window is closed, and "window closed" iff CO2 is at most 800 and the window is open; otherwise nothing |
| Dashboard.VocNotes | frontend/app.js:297-303 | with the VOC rule on, "HEPA activated" iff VOC is above 100 and the filter is off, and "HEPA deactivated" iff VOC is at most 50 and the filter is on; otherwise nothing |
| Dashboard.HumidityNotes | frontend/app.js:306-308 | the humidity advice is given iff the rule is on and humidity is above 65 |
| Dashboard.Narration | frontend/app.js:270-309 | the rules' messages in the order PM2.5, CO2, VOC, humidity, at most four in all; what each rule says is stated by Dashboard.Pm25Notes, Dashboard.Co2Notes, Dashboard.VocNotes and Dashboard.HumidityNotes |
| Dashboard.DeadBandIsSilent | frontend/app.js:279-308 | inside every dead band, with humidity not high, nothing is narrated whatever the devices and rules |
| Dashboard.WarningsMatchDelta | frontend/app.js:279-303 | a warning is narrated for a device exactly when the panel's delta would switch it on and it is still off |
| Dashboard.ServedStateHasNoWarnings | frontend/app.js:279-303 | no snapshot the server returns is narrated with a warning |
| Dashboard.DefaultsNarrateNothing | frontend/app.js:270-309 | the start-up snapshot narrates nothing |
| Dashboard.Pushed | frontend/app.js:329-335 | the new entry is last; below 50 entries it is appended; at 50 or more the oldest entry is dropped |
| Dashboard.PushedKeepsBound | frontend/app.js:329-335 | with `MAX_LOG_ENTRIES` = 50, a log of at most 50 entries stays at most 50, and a full log stays full |
| Dashboard.PushAllKeepsNewest | frontend/app.js:329-335 | with `MAX_LOG_ENTRIES` = 50, pushing a batch onto a log within the bound keeps exactly the newest 50 of the old entries followed by the batch |
| Dashboard.PushAllAppend | frontend/app.js:329-335 | pushing a concatenation is pushing its parts in turn |
| Dashboard.NarrationEntries | frontend/app.js:312-326 | one entry per note, in order, with the note's kind and the shared clock reading |
| Dashboard.NarrationEntriesAppend | frontend/app.js:312-326 | the entries of a concatenation are the concatenated entries |
| Dashboard.Monitor.constructor | frontend/app.js:15-16 | no snapshot and an empty log at page load |
| Dashboard.Monitor.AddLog | frontend/app.js:312-335 | the log becomes `Pushed` of the old log; the bound is kept |
| Dashboard.Monitor.LogNotes | frontend/app.js:279-308 | one rule's note, if any, is pushed onto the log |
| Dashboard.Monitor.CheckAutomation | frontend/app.js:270-309 | the log becomes the old log with the narration's entries pushed in order |
| Dashboard.Monitor.Receive | frontend/app.js:95-105 | the snapshot is kept; the narration is logged only when it differs from the previous snapshot |
| Dashboard.Monitor.ConnectionError | frontend/app.js:111-115 | a failed poll pushes one "Connection error" entry of kind error |

## Left out

- HTTP routing, CORS, static files, `/api/sensors`, `/api/status` and `app.listen`: transport around the handler. The model is the handler body only.
- `fetch`, `sendToAPI`, polling timers, notifications and all DOM reads and writes: I/O and UI. A request body is returned as a value instead of sent.
- The clock: `Monitor` methods take the time stamp as a parameter.
- IEEE-754 doubles. Readings, the room mean (exact division by 3) and the AQI weights (integers over 100) are exact. `Math.round` is exact rounding to the nearest integer, halves up. For every combination of sub-scores, the weighted AQI sum rounds in doubles to the same integer as the exact sum. A room mean divided by 3 in doubles can fall just below a half where the exact mean lies on it. A value rounded from such a mean can then differ by one.
- Dashboard.DisplayedBadge: only the ideal case is stated; `CalculateAqi` and `BadgeFor` give the others.
- ControlPanel.Displayed: the temperature's `toFixed(1)` formatting is not modelled; the field shows the exact reading.
- ControlPanel.UpdateValue: `parseFloat` is not modelled. The input is an exact number or `None` for NaN, and infinities are not represented.
- Dashboard.ToUpper: only ASCII letters are upper-cased; Unicode case mapping (which can change the length) is not modelled.
- Dashboard.RoomDisplayName: prototype keys such as `constructor`, which the object lookup would return as a function, are not modelled.
- Dashboard.Monitor.Receive: the `JSON.stringify` change test is modelled as equality of snapshots.
- The text of log messages: a narrated note keeps the value it quotes, but its number formatting is not modelled.
- JavaScript object quirks: device and rule ids outside the fixed four are unrepresentable, so the model does not show the spread merge or the rule loop adding new keys. Non-numeric JSON values are not representable either, and neither is a non-integral device `speed` (the spread merge stores any JSON number, such as 37.5 from a direct request; the panel itself only sends integers from `parseInt`). The source validates none of these.
- Room names inherited from `Object.prototype`: with `"constructor"` or `"toString"`, a scalar write lands on a function object, and the request is accepted and stores that name. With `"__proto__"`, the write sets the field on `Object.prototype`, so later bodies without that field still see it. The model rejects every such name as an unknown room.
- Concurrency: Node runs each handler to completion on one thread.
- Dashboard.Monitor.constructor: the "System initialized" entry that start-up logs, and the "Switched to ..." entries of the room buttons, are not modelled. Those are UI events, and `AddLog` is the operation they would call.
- The page-global handlers of the control panel (`switchRoom`, focus tracking of the edited field, the toggles' revert on failure) and the dashboard's device cards: UI state only.

# Electrolux Pure A9 device driver — Dafny model

This project models the decision logic of the Homey driver for the Electrolux Pure A9 air
purifier (`drivers/electrolux-pure-a9/device.js`). The driver links each purifier to its
"twin" in the Electrolux cloud. The model has four parts:

- **Command translation** (`Commands`). A partial intent (`onoff`, `SMART_mode`,
  `LIGHT_onoff`, `LOCK_onoff`, `IONIZER_onoff`, `FAN_speed`, each an `Option`) becomes an
  ordered list of property patches (`WorkMode`, `Fanspeed`, `LedRingLight`, `SafetyLock`,
  `Ionizer`). `SendInOrder` then sends them one by one, and the first failed send aborts the
  rest. The `flow_*` cards are fixed single-field intents.
- **Account session registry** (`Sessions.Registry`, `Sessions.Session`). The module-level
  `apis` map from username to a shared API object. That object holds the credentials,
  `lastPoll`, `failTime` and the cached appliance list. `GetApi` is get-or-create.
- **Poll tick** (`Sessions.SessionAfterTick`, `PureA9.Device.Poll` and `Tick`). A tick first
  skips deleted or unconfigured devices. It then applies the account-wide failure back-off of
  15 poll intervals (900000 ms) and the fetch guard of half an interval (30000 ms). A failed
  fetch records `failTime := now`. The clock and the fetch result are parameters.
- **Reconciliation** (`Reconcile`, `PureA9.Device.ReconcileWith`, `UpdateAppliance`). The
  looked-up snapshot is classified first-match as not in account, no data, not connected or
  no properties. Otherwise the reported properties are mapped onto the capability values,
  and that mapping depends on `Workmode`.

The device is a class (`PureA9.Device`) whose fields are its capability values, its
availability and a count of follow-up polls requested. The session objects are shared
between devices through one `Registry`. The imperative methods are proved against pure
specification functions (`Translate`, `SessionAfterTick`, `OutcomeOf`, `AfterReconcile`,
`ApplyReported`), and the lemmas state the driver's properties about those functions.
Two client methods, `Sessions.GetApiTwice` and `PureA9.SharedBackoff`, show what callers can
prove. The first: asking twice for one account yields the same session. The second: one
device's failed fetch holds every device on that account in back-off.

Two behaviours of the code are easy to misread, and the model keeps them as written:

- `lastPoll` is written only when a session is created (device.js:94) and never after a
  fetch. A reader might expect a successful fetch to move `lastPoll` forward; this code does
  not. So in this model the 30-second fetch guard never holds a fetch back once the first
  fetch was due, and two devices on one account each fetch on every tick
  (`Sessions.EveryDueTickFetches`). The API class might update it itself, but that class is
  not part of this model.
- The follow-up poll is scheduled only when every send succeeded (device.js:84 follows the
  awaited sends). A rejected send ends the batch before the re-poll is requested.

## Model

| member | source | states |
|---|---|---|
| `Commands.Payload` | drivers/electrolux-pure-a9/device.js:41-81 | a patch carries a `WorkMode` key exactly for mode and manual-fan commands, and a `Fanspeed` key exactly for the manual-fan command |
| `Commands.WorkModeNamed` | drivers/electrolux-pure-a9/device.js:41-81 | a text value is read as a mode only when it is the mode's exact name "Auto", "Manual" or "PowerOff" |
| `Commands.Decode` | drivers/electrolux-pure-a9/device.js:41-81 | a patch read back as a command is exactly the patch that command sends |
| `Commands.PayloadRoundTrip` | drivers/electrolux-pure-a9/device.js:41-81 | every patch reads back as its command: `{WorkMode: name}` for a mode, `{WorkMode: "Manual", Fanspeed: level}` for a manual fan, and `{LedRingLight: b}`, `{SafetyLock: b}`, `{Ionizer: b}` for the toggles, each value carrying the command's argument |
| `Commands.PayloadInjective` | drivers/electrolux-pure-a9/device.js:41-81 | two different commands never send the same patch |
| `Commands.ModeOf` | drivers/electrolux-pure-a9/device.js:42-48 | the power/mode command never asks for power-off, and asks for `Manual` exactly when `SMART_mode` is "manual" |
| `Commands.Fanspeed` | drivers/electrolux-pure-a9/device.js:70-71 | the level sent for a local fan speed is at least 1; from 20 up it is the level L with 10*(L+1) <= speed < 10*(L+2), and under 20 it is 1 |
| `Commands.FanCommand` | drivers/electrolux-pure-a9/device.js:69-83 | a fan speed of 0 or less gives a power-off command, anything else a manual-fan command with a level of at least 1 |
| `Commands.Translate` | drivers/electrolux-pure-a9/device.js:39-83 | one command per present field (two fields for power/mode count once), and no command at all exactly for the empty intent |
| `Commands.FlowSetFanSpeed` | drivers/electrolux-pure-a9/device.js:181-183 | the fan card's intent carries only `FAN_speed`, with the card's value |
| `Commands.FlowEnableSmartMode` | drivers/electrolux-pure-a9/device.js:185-187 | the smart-mode card's intent carries only `SMART_mode` "smart" |
| `Commands.FlowEnableIonizer` | drivers/electrolux-pure-a9/device.js:189-191 | the enable-ionizer card's intent carries only `IONIZER_onoff` true |
| `Commands.FlowDisableIonizer` | drivers/electrolux-pure-a9/device.js:193-195 | the disable-ionizer card's intent carries only `IONIZER_onoff` false |
| `Commands.PowerModeFirst` | drivers/electrolux-pure-a9/device.js:39-50 | with `onoff` present the first command is `WorkMode`: `PowerOff` when `onoff` is false whatever `SMART_mode` says, `Manual` when true and `SMART_mode=="manual"`, `Auto` otherwise; `SMART_mode` alone sends its own mode |
| `Commands.TranslateLayout` | drivers/electrolux-pure-a9/device.js:39-83 | commands come out as: at most one power/mode command first, then light, lock and ionizer in that order, then the fan command last; one command per present field, none for an absent one |
| `Commands.ToggleOrder` | drivers/electrolux-pure-a9/device.js:51-68 | the toggle commands are one per present toggle and strictly ordered light < lock < ionizer |
| `Commands.AscendingInMiddle` | drivers/electrolux-pure-a9/device.js:39-83 | the ordered toggle block keeps its order between the power/mode command and the fan command |
| `Commands.TogglesCarryValues` | drivers/electrolux-pure-a9/device.js:51-68 | a `LedRingLight`/`SafetyLock`/`Ionizer` command with value b is sent if and only if the intent carries that toggle with value b |
| `Commands.ToggleMembers` | drivers/electrolux-pure-a9/device.js:51-68 | the toggle block holds a light/lock/ionizer command with value b exactly when the intent carries that toggle with value b |
| `Commands.PowerOffAlone` | drivers/electrolux-pure-a9/device.js:39-50 | intent `{onoff: false}` gives exactly one `{WorkMode: "PowerOff"}` whatever `SMART_mode` holds |
| `Commands.FanTranslation` | drivers/electrolux-pure-a9/device.js:69-83 | `FAN_speed <= 0` gives exactly `{WorkMode: "PowerOff"}` with no `Fanspeed` key; otherwise `{WorkMode: "Manual", Fanspeed: max(1, floor(FAN_speed/10) - 1)}` |
| `Commands.SentFanspeedPositive` | drivers/electrolux-pure-a9/device.js:70-81 | every `Fanspeed` value that is sent, for any intent, is at least 1 |
| `Commands.FlowCommands` | drivers/electrolux-pure-a9/device.js:181-195 | each flow card sends one command: smart mode gives `{WorkMode: "Auto"}`, the ionizer cards `Ionizer` true/false, the fan card the fan command |
| `Commands.FanExamples` | drivers/electrolux-pure-a9/device.js:69-83 | fan 0 gives a bare power-off, fan 75 gives manual at level 6, fan 10 gives manual at level 1 |
| `Commands.SendInOrder` | drivers/electrolux-pure-a9/device.js:41-83 | commands are delivered in order as a prefix of the list; every delivered send succeeded; the batch succeeds exactly when all are delivered, and otherwise the send right after the prefix failed and nothing later was sent |
| `Reconcile.FindAppliance` | drivers/electrolux-pure-a9/device.js:128 | the lookup by id returns the first listed appliance with that id, and returns nothing exactly when no listed appliance has that id |
| `Reconcile.ClassifyFirstMatch` | drivers/electrolux-pure-a9/device.js:130-145 | available exactly for a connected twin with reported properties, yielding that record; each reason holds if and only if its check is the first to fail (absent, no twin, not "Connected", no properties/reported) |
| `Reconcile.Classify` | drivers/electrolux-pure-a9/device.js:130-145 | the snapshot classifies as available exactly when it is complete (present, with a twin, "Connected", with reported properties), and then yields that reported record |
| `Reconcile.ClassifyPrecedence` | drivers/electrolux-pure-a9/device.js:133-138 | a snapshot with no twin is "no data"; a twin whose state is not "Connected" is "not connected" even with well-formed properties |
| `Reconcile.Luminance` | drivers/electrolux-pure-a9/device.js:160 | luminance is `EnvLightLvl` when reported and 0 when missing |
| `Reconcile.WithSensors` | drivers/electrolux-pure-a9/device.js:154-162 | the nine sensor capabilities take the reported values (luminance 0 when missing) and no other capability changes |
| `Reconcile.WithMode` | drivers/electrolux-pure-a9/device.js:164-175 | "Auto"/"Manual" turn the device on with the matching `SMART_mode` and `FAN_speed = 10*(Fanspeed+1)`; any other `Workmode` turns it off with fan 0 and keeps `SMART_mode`; nothing else changes |
| `Reconcile.WithToggles` | drivers/electrolux-pure-a9/device.js:176-178 | ionizer, light and lock take the reported values and nothing else changes |
| `Reconcile.FanSpeedOf` | drivers/electrolux-pure-a9/device.js:167 | the displayed fan speed is a multiple of 10, at least 20 for a level of at least 1, and sending it back gives the same level |
| `Reconcile.ApplyReported` | drivers/electrolux-pure-a9/device.js:154-178 | `Workmode` "Auto"/"Manual" gives on, `SMART_mode` "smart"/"manual" and `FAN_speed = 10*(Fanspeed+1)`; any other `Workmode` gives off, `FAN_speed` 0 and leaves `SMART_mode` as it was; toggles and sensors are copied |
| `Reconcile.CloudLevelRoundTrip` | drivers/electrolux-pure-a9/device.js:164-171 | a reported `Fanspeed` of at least 1, shown locally and sent back, is the same `Fanspeed` |
| `Reconcile.LocalSpeedRoundTrip` | drivers/electrolux-pure-a9/device.js:70-71 | local fan speeds 20, 30, ..., 100 round-trip exactly; other values from 20 up come back within 10 below; values under 20 (such as 10) come back as 20 |
| `Reconcile.AutoExample` | drivers/electrolux-pure-a9/device.js:164-167 | `Workmode` "Auto" with `Fanspeed` 4 shows as on, smart, fan 50 |
| `Reconcile.CombinedResendEndsManual` | drivers/electrolux-pure-a9/device.js:69-83 | re-sending on, mode and fan speed together from an "Auto" record gives `[WorkMode Auto, Manual with the same level]`, so the twin ends in "Manual" |
| `Reconcile.ResendReconciled` | drivers/electrolux-pure-a9/device.js:164-175 | re-sending the power/mode and fan values a reported record produced asks the twin for the mode it reported, and for the same fan level when that level is at least 1 |
| `Sessions.SessionAfterTick` | drivers/electrolux-pure-a9/device.js:111-126 | a tick never changes `lastPoll`; in back-off or when no fetch is due nothing changes; a failed fetch sets `failTime := now` and keeps the cached list; a successful fetch replaces the list |
| `Sessions.TickStageOf` | drivers/electrolux-pure-a9/device.js:112-125 | a tick holds exactly in back-off, and fails exactly when out of back-off, a fetch is due and the fetch fails |
| `Sessions.BackoffAfterFailure` | drivers/electrolux-pure-a9/device.js:112-125 | after a failed fetch at t, every tick before t + 900000 is backed off and changes nothing |
| `Sessions.BackoffExpires` | drivers/electrolux-pure-a9/device.js:112-124 | once the window has passed, a tick after a failed one fetches again (the guard was already open and `lastPoll` has not moved); a new failure restarts the window |
| `Sessions.EveryDueTickFetches` | drivers/electrolux-pure-a9/device.js:117-119 | since `lastPoll` never advances, a second tick on the same session fetches again |
| `Sessions.Session.constructor` | drivers/electrolux-pure-a9/device.js:92-95 | a new session has the given credentials, `lastPoll = failTime = 0` and no cached list |
| `Sessions.Registry.constructor` | drivers/electrolux-pure-a9/device.js:6 | the registry starts empty |
| `Sessions.Registry.DistinctAccountsDistinctSessions` | drivers/electrolux-pure-a9/device.js:89-95 | two usernames never share one session object |
| `Sessions.Registry.GetApi` | drivers/electrolux-pure-a9/device.js:87-98 | get-or-create: an existing session is returned unchanged even if the password differs, and the map stays the same; otherwise (inherited property names aside, see "Left out") a fresh session with `lastPoll = failTime = 0` is added under the username and nothing else changes |
| `PureA9.OutcomeStages` | drivers/electrolux-pure-a9/device.js:111-127 | back-off wins over everything; a tick fails exactly when out of back-off, a fetch is due and the fetch fails; reconciliation happens only with a cached list |
| `PureA9.OutcomeOf` | drivers/electrolux-pure-a9/device.js:111-127 | a configured device's tick is never ignored; it is backed off exactly in back-off, and reconciles exactly when neither back-off nor a failed due fetch stops it and a list is cached or freshly fetched |
| `PureA9.AfterReconcile` | drivers/electrolux-pure-a9/device.js:127-145 | the device becomes available exactly for a complete connected twin and is then updated from it; otherwise its capabilities stay and it is unavailable with the first-match reason |
| `PureA9.Device.constructor` | drivers/electrolux-pure-a9/device.js:11-13 | a new device is not deleted, has the capability values and availability the host restored, and has no follow-up poll requested |
| `PureA9.Device.OnDeleted` | drivers/electrolux-pure-a9/device.js:32-34 | marks the device deleted |
| `PureA9.Device.SetDeviceOpts` | drivers/electrolux-pure-a9/device.js:36-85 | gets or creates the account session (a new one is fresh, every existing one is untouched and keeps its state), sends `Translate(intent)` in order with abort on the first failure, and requests exactly one follow-up poll only when every send succeeded |
| `PureA9.Device.UpdateAppliance` | drivers/electrolux-pure-a9/device.js:149-179 | the capability values become the reported mapping of the old ones |
| `PureA9.Device.ReconcileWith` | drivers/electrolux-pure-a9/device.js:130-145 | capabilities and availability become the first-match reconciliation of the snapshot |
| `PureA9.Device.Tick` | drivers/electrolux-pure-a9/device.js:111-146 | the session's bookkeeping follows `SessionAfterTick` and the outcome follows `OutcomeOf`; only a reconciling tick changes the device, and then according to the looked-up snapshot |
| `PureA9.Device.Poll` | drivers/electrolux-pure-a9/device.js:100-147 | a deleted device, a missing id or a missing username changes nothing; otherwise the account's session (created if needed) goes through one tick, no other session changes, and the device is reconciled only when the tick reaches the cached list |

## Left out

- Timers: the initial and periodic polls in `onInit` (device.js:15-16) and the 500 ms re-poll (device.js:84) are not modelled. A re-poll request is counted in `repollsScheduled`, and a tick is a call to `Poll`.
- Capability migration (device.js:19-24) and the listener registration with its 500 ms debounce (device.js:26-29): these are host framework glue.
- `getData`/`getSettings`: the device id, username and password are constant fields. An empty string stands for a missing (falsy) id or username.
- The API class `ElectroluxDeltaApi` is not part of this model. `setAuth` stores the credentials in the session. `getAppliances` becomes the `FetchResult` parameter. `getAppliance` becomes `FindAppliance`, a lookup of the first entry with that id in the cached list. The outcome of each `sendDeviceCommand` call is the `accept` parameter.
- Which device id a command batch is addressed to is not recorded. The delivered commands are returned to the caller instead.
- Concurrency: each tick and each `SetDeviceOpts` call is one atomic step. Overlapping timer ticks and async interleaving are not modelled.
- Floating point: `FAN_speed` and all sensor values are integers. `Math.floor(0.1 * FAN_speed - 1)` is computed as `FAN_speed / 10 - 1` with floor division. The two agree for integers of slider size (far below 10^14); for very large integers such as 7592930149893499 the rounding of `0.1 * FAN_speed` can make them differ. `10.0 * (Fanspeed + 1)` is integer arithmetic.
- `Date.now()` becomes the `now` parameter.
- A list fetch either resolves with a list or rejects (`FetchResult`). A fetch that resolves with nothing, which would leave the cache undefined in device.js:119, is not modelled.
- Logging and the exact wording of the unavailability messages: the four messages become the four `Reason` values.
- Missing (undefined) sensor, `Fanspeed` or toggle values in a reported record are not modelled. Those fields are always present in `Reported`; only `EnvLightLvl` may be missing.
- JavaScript loose typing is not modelled: loose `==` on `SMART_mode`, non-boolean truthy `onoff` values, and the `"undefined"` key for a missing username in `getApi`. Nor are usernames that name a property every JavaScript object inherits ("constructor", "toString", "hasOwnProperty", "__proto__"): for those, `apis[username]` at device.js:89 is already truthy, so `getApi` returns the inherited value and creates no session; the model files a fresh session for every username.

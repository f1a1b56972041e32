# TestPivoSDK connection core in Dafny

This project models the three small state machines that sit on top of the
vendor Pivo Bluetooth SDK in TestPivoSDK:

- **PivoHandler** (`handler.dfy`) unlocks the SDK with a license file and
  schedules the first scan. It treats `scanBluetoothDevice` as a toggle. When
  a scan ends, it decides by the number of known rotators whether to report
  "none", connect to the single one, or report "several".
- **PivoScanner** (`scanner.dfy`) runs one discovery session. After a start
  delay it clears its id → name dictionary and starts the SDK scan. Each
  discovery upserts into the dictionary. The completion callback receives
  the dictionary on success and `nil` on failure.
- **ConnectedPivo** (`connected_pivo.dfy`) holds one device's connection flags
  (`isConnecting`, `fullyConnected`) and its telemetry (`batteryLevel`,
  `pivoVersion`). It also forwards the motion commands.

Each component is an immutable `State` record with one pure function per
event. Each function returns `Out(state, effects)`: the new state and the
effects emitted, in order. `Effects.Effect` (`effects.dfy`) is the shared
output alphabet:

- outbound SDK calls (`scan`, `stopScan`, `connect(id)`, `disconnect`,
  `requestBatteryLevel`, `setFastestSpeed`, the turns, `stop`, and delegate
  registration);
- status text and alerts (the PivoHandler strings, verbatim);
- scheduled timers;
- invocations of the scan and connection callbacks.

`Step` dispatches one event, and `Effects.Run` folds `Step` over an event
sequence. Lemmas over `Run` state the properties of whole event histories.

The timers are explicit events: the handler's scan timeout, and the
scanner's start delay and end of scan. The handler's delayed start has no
event of its own: it runs `scanBluetoothDevice`, so it arrives as a
`ScanBluetoothDevice` event. So are the
scanner's and the device's teardown (`deinit`). What the SDK's throwing
`scan()` does (returns, throws a `PivoError`, throws anything else) is part
of the event that makes the component call it. For ConnectedPivo, the
`getPivoVersion()` answer is carried by the establish event.

## Model

| member | source | states |
|---|---|---|
| PivoHandler.Init | TestPivoSDK/PivoHandler.swift:31-54 | the first scan is scheduled if and only if the license file exists and the unlock succeeds; a missing file or a failed unlock ends construction with exactly one "Failed" alert; the only SDK call construction makes is `unlockWithLicenseKey`, made second and only when the file exists; a successful unlock schedules the scan as its last effect, after two status lines, and nothing earlier in any log is a timer, so a failure schedules nothing; the log has 1, 3 or 4 effects for the three outcomes; construction never calls `scan` |
| PivoHandler.ScanErrorReport | TestPivoSDK/PivoHandler.swift:96-127 | every known `PivoError` raises exactly one "Failed" alert, which is the last effect; only licenseNotProvided, invalidLicenseKey, expiredLicenseKey and bluetoothOff also set a status first; an unknown error reports nothing |
| PivoHandler.ErrorAlertsDistinct | TestPivoSDK/PivoHandler.swift:98-119 | two different known errors never end in the same alert: each error is reported with a message of its own |
| PivoHandler.ErrorStatusesDistinct | TestPivoSDK/PivoHandler.swift:98-109 | the four errors that set the status each set a different status text |
| PivoHandler.HandleAfterScanning | TestPivoSDK/PivoHandler.swift:151-165 | 0 rotators: "Could not find any rotators" and nothing else; 2 or more: "Several rotators detected" and nothing else; exactly 1: "Please connect to rotator" followed by exactly one `connect`, and `isConnecting` set; `connect(id)` is issued if and only if the id is the only key |
| PivoHandler.StopScanning | TestPivoSDK/PivoHandler.swift:144-149 | always issues SDK `stopScan` first, clears `isScanning`, keeps the rotators, then emits exactly what disambiguation emits; afterwards the handler is connecting if and only if it already was or exactly one rotator is known |
| PivoHandler.ScanBluetoothDeviceStep | TestPivoSDK/PivoHandler.swift:82-142 | while scanning it only stops the scan: no `scan` is issued and `isScanning` ends false; otherwise it calls `scan` with `isConnecting` reset and rotators emptied; it marks itself scanning, says "Scanning..." and arms the timeout if and only if the scan started, and a started scan emits those three effects and nothing more, the status before the timer; an unexpected error emits nothing further; a `PivoError` emits the error report |
| PivoHandler.ScanTimerFiredStep | TestPivoSDK/PivoHandler.swift:135-141 | the timeout stops the scan if one is running, and otherwise changes nothing and emits nothing |
| PivoHandler.PermissionDeniedOnlyReports | TestPivoSDK/PivoHandler.swift:174-177 | permission denied emits only "Bluetooth permission denied!" and changes no state |
| PivoHandler.DeinitStopsAndUnregisters | TestPivoSDK/PivoHandler.swift:56-60 | teardown emits `stopScan` then `removeDelegate`, the same in every state, and changes no state |
| PivoHandler.StepScansOnlyWhenIdle | TestPivoSDK/PivoHandler.swift:84-94 | no event issues `scan` while a scan is running, so scans never overlap; every event leaves the rotators unchanged or empty |
| PivoHandler.RunKeepsNoRotators | TestPivoSDK/PivoHandler.swift:89-90 | the rotators are only ever emptied, so along any event sequence from an empty dictionary they stay empty, and no `connect`, "Please connect" or "Several rotators" is ever emitted |
| PivoHandler.OnlyNotFoundReachable | TestPivoSDK/PivoHandler.swift:151-161 | after construction and any events, only the zero-rotator branch is reachable: stopping the scan emits exactly `stopScan` and "Could not find any rotators" |
| PivoScanner.Init | TestPivoSDK/PivoScanner.swift:26-40 | construction registers with the SDK first and arms the 2-second start delay, and emits nothing else: the only timer it arms is the start delay; it neither scans nor reports |
| PivoScanner.BeginScanning | TestPivoSDK/PivoScanner.swift:50-98 | the dictionary is emptied and `scan` is called first; the end-of-scan timer, with the scan period, is armed if and only if the scan started, and is the only timer ever armed; a started scan emits exactly `scan` and that timer; the callback gets `nil` exactly when `scan` threw a `PivoError`, and a failed scan emits nothing after `scan` but that report; any other error returns silently |
| PivoScanner.EndScanning | TestPivoSDK/PivoScanner.swift:100-105 | issues `stopScan` first, then hands the current dictionary to the callback, and emits nothing else |
| PivoScanner.DidDiscover | TestPivoSDK/PivoScanner.swift:119-124 | the key set gains exactly the discovered id, which gets the new name, and every other entry is unchanged; the scan then ends at once with `stopScan`, after which only the callback runs, receiving a non-nil dictionary containing that id |
| PivoScanner.Teardown | TestPivoSDK/PivoScanner.swift:42-48 | release issues `stopScan` and `removeDelegate` first, then gives `nil` to the callback, and emits nothing else |
| PivoScanner.ResultKindMatchesEvent | TestPivoSDK/PivoScanner.swift:100-113 | the callback receives a dictionary if and only if the scan ended by its timer or by a discovery; a scan error, permission denied and teardown all report `nil` |
| PivoScanner.PermissionDeniedOnlyReportsNil | TestPivoSDK/PivoScanner.swift:110-113 | permission denied makes no SDK call and arms no timer: its only effect is `nil` to a registered callback, and the dictionary is kept |
| PivoScanner.RetainedInvokesPerEvent | TestPivoSDK/PivoScanner.swift:42-113 | as written, the callback is never cleared: over any event sequence it fires once per completing event, not once per session |
| PivoScanner.RetainedReportsTwice | TestPivoSDK/PivoScanner.swift:42-124 | as written, a session that starts, discovers one device and then reaches its end-of-scan timer invokes the same callback twice, both times with the dictionary holding that device |
| PivoScanner.ClearedReportsAtMostOnce | TestPivoSDK/PivoScanner.swift:22-48 | with the callback cleared after its first use, any event sequence reports at most once, and the callback stays registered exactly while nothing was reported |
| PivoScanner.ClearedReportsExactlyOnce | TestPivoSDK/PivoScanner.swift:42-48 | with the callback cleared after its first use, every session that ends in release reports exactly once, whatever events came before |
| PivoScanner.DiscoveriesKeepLatestName | TestPivoSDK/PivoScanner.swift:119-121 | after any discovery sequence, the keys are the old keys plus every discovered id; each discovered id holds the name from its latest discovery; other ids keep their old names |
| ConnectedPivo.Init | TestPivoSDK/ConnectedPivo.swift:32-42 | construction records the id and name, clears both flags, sets battery 0 and version "", and emits exactly `addDelegate` then `connect` with its own id |
| ConnectedPivo.DidConnectStep | TestPivoSDK/ConnectedPivo.swift:61-65 | connected: `isConnecting` set, `fullyConnected` cleared, battery and version kept, no effect |
| ConnectedPivo.DroppedStep | TestPivoSDK/ConnectedPivo.swift:69-85 | disconnect and connection failure both clear both flags, keep battery and version, make no SDK call (the only effect is the callback), and invoke the callback with `false` |
| ConnectedPivo.EstablishedStep | TestPivoSDK/ConnectedPivo.swift:89-98 | established: `fullyConnected` set and `isConnecting` cleared; `requestBatteryLevel` is issued and then the version is read and stored; the battery is untouched; after the two calls only the callback runs, and it is invoked with `true` |
| ConnectedPivo.CommandCalls | TestPivoSDK/ConnectedPivo.swift:111-148 | each command forwards to the SDK method of the same direction and kind, passing the angle, speed or rate through unchanged; each snap emits `setFastestSpeed` immediately before its speedless turn; every other command is exactly one SDK call and never sets the speed |
| ConnectedPivo.MirroredCommandsMirrorCalls | TestPivoSDK/ConnectedPivo.swift:111-148 | left and right are treated alike: the mirrored command emits the mirrored calls, one for one, with the same arguments |
| ConnectedPivo.StepFlagsAndIdentity | TestPivoSDK/ConnectedPivo.swift:61-105 | every event either leaves the two flags consistent or leaves them unchanged; no event changes the id, the name or the callback |
| ConnectedPivo.PermissionDeniedDoesNothing | TestPivoSDK/ConnectedPivo.swift:54-57 | permission denied changes no state and emits nothing, not even a callback |
| ConnectedPivo.BatteryOnlyUpdatesLevel | TestPivoSDK/ConnectedPivo.swift:102-105 | a battery event changes only `batteryLevel` and emits nothing |
| ConnectedPivo.CommandsIgnoreState | TestPivoSDK/ConnectedPivo.swift:44-148 | commands and teardown emit the same calls in every state and change nothing; teardown emits `disconnect` then `removeDelegate` |
| ConnectedPivo.DelegateIdsIgnored | TestPivoSDK/ConnectedPivo.swift:61-98 | the id an event carries is ignored: an event about any device acts like one about this device, and disconnect acts like failure |
| ConnectedPivo.RunReportsEveryOutcome | TestPivoSDK/ConnectedPivo.swift:69-98 | along any event sequence, the flags stay consistent, the identity is kept, and the callback log equals the outcomes of the events in order (false for each disconnect or failure, true for each establishment) |
| ConnectedPivo.NeverConnectingAndConnected | TestPivoSDK/ConnectedPivo.swift:26-98 | after construction and any events, `isConnecting && fullyConnected` never holds, and the id and name are the constructed ones |
| ConnectedPivo.EstablishThenDisconnectReportsTwice | TestPivoSDK/ConnectedPivo.swift:69-98 | establishment followed by disconnection gives the callback log [true, false] |

## Where the code departs from its evident intent

The model follows the code in each case below.

- **Scanner completion.** A session callback would normally fire once per
  scan session. PivoScanner never clears its callback, so it fires on
  every ending: a `PivoError` from `scan()`, each discovery, the
  end-of-scan timer, permission denied and release (see Findings).
- **Handler and rotators.** PivoHandler declares a `rotators` dictionary
  and a connect-to-the-only-rotator branch, but it calls the SDK directly
  and never uses PivoScanner or ConnectedPivo. Nothing ever fills
  `rotators`, so only the "Could not find any rotators" branch is
  reachable.
- **Connection callback.** ConnectedPivo invokes its callback on every
  disconnect, failure and establishment, not once per connection
  attempt. Its `deinit` does not invoke the callback at all.
- **Ending a scan.** PivoScanner has no way to stop a scan early on
  request. Instead every discovery ends the scan immediately.
- **Scan timeout.** A timeout tied to its scan would be cancelled when
  that scan stops. PivoHandler's timeout is never cancelled, so a
  `ScanTimerFired` event stops whatever scan is running, including a
  later one.
- **Delegate registration.** PivoHandler never registers itself as an SDK
  delegate, yet it has a permission-denied handler and unregisters in
  `deinit`. Both are modelled as written.

## Left out

- `TestPivoSDK/ViewController.swift` is not part of this model. It holds
  UIKit outlets, label rendering and main-queue marshalling. It also refers
  to a `PivoHandler.shared`, which PivoHandler does not declare, and sets
  a `delegate` that PivoHandler declares `private`.
- Device ids and names are compared as code-point sequences, in a Dafny
  `map<string, string>`. Swift compares `String` keys by Unicode canonical
  equivalence, so two spellings of one id would share one entry there. The
  model assumes every id arrives in a single normal form.
- `TestPivoSDK/Utility/debugLog.swift` and the `PivoEvent` description
  extension are not part of this model. They are diagnostics only.
- The `print`/`debugLog` diagnostics in PivoScanner and ConnectedPivo are
  left out. So is the `localizedDescription` text, except where PivoHandler
  puts it in an alert: there it is the `UnlockFailed` description parameter.
- The vendor SDK itself is not modelled: scanning, connection, licensing
  internals, and what a turn or speed command physically does. It appears
  only as the inbound event alphabets and the outbound `SdkCall` log.
- Wall-clock time and GCD dispatch are not modelled. A scheduled delay is
  logged as `Schedule(seconds, timer)`, and its expiry is a separate event.
  The model does not check that the expiry event follows its `Schedule`.
- The `Bundle` lookup of the license file and `unlockWithLicenseKey` are
  reduced to the three outcomes of `PivoHandler.License`.
- ARC release timing is not modelled. Neither are the retain cycles formed
  by closures that capture `self`. Teardown is an explicit `Deinit` event,
  and events after it are not excluded.
- PivoHandler's `updateView` is not modelled because it is empty.
  `stopScanning` is not modelled separately because it only calls
  `stopScan`. `presentAlert` is not modelled separately because it only
  forwards to the delegate: each alert appears directly as an `Alert`
  effect.
- The PivoHandler delegate is always present because `init` sets it.
  Construction reports through it directly, so the optional delegate is
  not modelled.
- Swift `Int` is 64-bit. The model uses unbounded `int` because turn
  angles, speeds and the battery level are only passed through, never
  computed with. The scan period is the `TimeInterval` given to
  PivoScanner's `init`, modelled as a `real`.

## Findings

| source | as written | input that shows it | evidently intended | confidence | as-written member | corrected member |
|---|---|---|---|---|---|---|
| TestPivoSDK/PivoScanner.swift:22 | `completion` is never set to `nil` after it is called. Every ending calls it again: a `PivoError` from `scan()`, each discovery, the end timer, permission denied, and `deinit`. | With a callback registered: `BeginScanTimerFired(Started)`, `Discovered("A", "Pivo-A")`, then `EndScanTimerFired` (the end timer the start armed; the scanner stays alive, since that timer's closure holds it). The callback receives `["A": "Pivo-A"]` twice. | One result per scan session. The callback is cleared once it has fired, so a later ending reports nothing. | medium, not executed | PivoScanner.RetainedReportsTwice | PivoScanner.ClearedReportsExactlyOnce |

The corrected behaviour is `PivoScanner.Delivery.ClearedAfterUse`. Under it,
`PivoScanner.Deliver` clears the callback after its first use, and
`PivoScanner.ClearedReportsAtMostOnce` and
`PivoScanner.ClearedReportsExactlyOnce` are proved about it.
`PivoScanner.Delivery.Retained` is the code as written.

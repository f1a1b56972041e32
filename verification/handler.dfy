/** PivoHandler: unlocks the SDK, toggles a time-bounded scan, and after each
    scan decides by the number of known rotators whether to connect. */
module PivoHandler {
  import opened Effects

  /** Seconds from unlocking to the first scan, and the length of a scan. */
  const ScanningPeriod: real := 5.0

  const Failed := "Failed"
  const Scanning := "Scanning..."
  const NotFound := "Could not find any rotators"
  const PleaseConnect := "Please connect to rotator"
  const SeveralDetected := "Several rotators detected"
  const PermissionDeniedStatus := "Bluetooth permission denied!"

  /** `rotators` is the handler's id-to-name dictionary. No code path ever
      inserts into it; it is only emptied when a scan starts. */
  datatype State = State(isScanning: bool, isConnecting: bool, rotators: Rotators)

  const Initial := State(false, false, map[])

  /** How the license step of construction went: no license file in the
      bundle, the SDK refused to unlock with it (with the error's description),
      or the SDK unlocked. */
  datatype License = FileMissing | UnlockFailed(description: string) | Unlocked

  /** The events the handler reacts to. `ScanBluetoothDevice` is both the public
      entry point and what the delayed start runs; it carries what the SDK's
      `scan()` would do if the handler calls it. */
  datatype Event =
    | ScanBluetoothDevice(attempt: ScanAttempt)
    | ScanTimerFired
    | PermissionDenied
    | Deinit

  /** Construction: look for the license file, unlock the SDK, and if both
      succeed schedule the first scan. Every failure raises one alert. */
  function Init(license: License): (o: Out<State>)
    ensures o.state == Initial
    ensures Schedule(ScanningPeriod, HandlerStart) in o.effects <==> license.Unlocked?
    ensures !license.Unlocked? ==> EndsInOnlyAlert(o.effects) && o.effects[|o.effects| - 1].title == Failed
    ensures license.Unlocked? ==> forall eff | eff in o.effects :: !eff.Alert?
    ensures Call(UnlockWithLicenseKey) in o.effects <==> !license.FileMissing?
    ensures Call(Scan) !in o.effects
    ensures forall eff | eff in o.effects && eff.Call? :: eff == Call(UnlockWithLicenseKey)
    ensures |o.effects| == (match license case FileMissing => 1 case UnlockFailed(_) => 3 case Unlocked => 4)
    ensures license.Unlocked? ==> o.effects[|o.effects| - 1] == Schedule(ScanningPeriod, HandlerStart)
    ensures !license.FileMissing? ==> o.effects[1] == Call(UnlockWithLicenseKey)
    ensures !license.FileMissing? ==> o.effects[0].Status?
    ensures license.Unlocked? ==> o.effects[2].Status?
    ensures forall i | 0 <= i < |o.effects| - 1 :: !o.effects[i].Schedule?
  {
    match license
    case FileMissing =>
      Out(Initial, [Alert(Failed, "Missing licence key file.")])
    case UnlockFailed(description) =>
      Out(Initial, [Status("Licence Key File Found"), Call(UnlockWithLicenseKey),
                    Alert(Failed, "Error unlocking Pivo license key: " + description)])
    case Unlocked =>
      Out(Initial, [Status("Licence Key File Found"), Call(UnlockWithLicenseKey),
                    Status("SDK Unlocked!"), Schedule(ScanningPeriod, HandlerStart)])
  }

  /** Whether a scan error also updates the status line. */
  predicate UpdatesStatus(e: PivoError)
  {
    e.LicenseNotProvided? || e.InvalidLicenseKey? || e.ExpiredLicenseKey? || e.BluetoothOff?
  }

  /** What the handler reports when the SDK's `scan()` throws a `PivoError`:
      every known error raises one "Failed" alert, four of them also set the
      status, and an unknown case reports nothing. */
  function ScanErrorReport(e: PivoError): (effects: seq<Effect>)
    ensures e.Unknown? <==> effects == []
    ensures !e.Unknown? ==> EndsInOnlyAlert(effects) && effects[|effects| - 1].title == Failed
    ensures |effects| == (if e.Unknown? then 0 else if UpdatesStatus(e) then 2 else 1)
    ensures UpdatesStatus(e) ==> effects[0].Status?
    ensures forall eff | eff in effects :: eff.Status? || eff.Alert?
  {
    match e
    case LicenseNotProvided =>
      [Status("licenseNotProvided"), Alert(Failed, "License not provided")]
    case InvalidLicenseKey =>
      [Status("invalidLicenseKey"), Alert(Failed, "Invalid license key")]
    case ExpiredLicenseKey =>
      [Status("expiredLicenseKey"), Alert(Failed, "License is expired")]
    case BluetoothOff =>
      [Status("bluetoothOff"), Alert(Failed, "Bluetooth is off, please turn it on")]
    case CannotReadLicenseKeyFile =>
      [Alert(Failed, "Can't read license key")]
    case BluetoothPermissionNotAllowed =>
      [Alert(Failed, "Bluetooth permission is not allowed")]
    case TrackingModeNotSupported =>
      [Alert(Failed, "Tracking mode is not supported")]
    case FeedbackNotSupported =>
      [Alert(Failed, "Feedback not supported")]
    case PivoNotConnected =>
      [Alert(Failed, "Pivo not connected")]
    case Unknown =>
      []
  }

  /** Each known error has an alert of its own: two different errors never
      end in the same alert. */
  lemma ErrorAlertsDistinct(e1: PivoError, e2: PivoError)
    requires !e1.Unknown? && !e2.Unknown? && e1 != e2
    ensures ScanErrorReport(e1)[|ScanErrorReport(e1)| - 1] != ScanErrorReport(e2)[|ScanErrorReport(e2)| - 1]
  {
  }

  /** The four errors that set the status each set a status of their own. */
  lemma ErrorStatusesDistinct(e1: PivoError, e2: PivoError)
    requires UpdatesStatus(e1) && UpdatesStatus(e2) && e1 != e2
    ensures ScanErrorReport(e1)[0] != ScanErrorReport(e2)[0]
  {
  }

  /** The id of a one-entry dictionary. */
  function OnlyKey(m: Rotators): (id: string)
    requires |m| == 1
    ensures m.Keys == {id}
  {
    var id :| id in m.Keys;
    assert m.Keys == {id} by {
      assert m.Keys == {id} + (m.Keys - {id});
      assert |m.Keys - {id}| == 0;
    }
    id
  }

  /** The disambiguation after a scan ends: no rotator, exactly one (connect to
      it), or several (leave the choice to the user). */
  function HandleAfterScanning(s: State): (o: Out<State>)
    ensures o.state.isScanning == s.isScanning && o.state.rotators == s.rotators
    ensures |o.effects| >= 1 && o.effects[0].Status?
    ensures |s.rotators| == 0 ==> o.state == s && o.effects == [Status(NotFound)]
    ensures |s.rotators| >= 2 ==> o.state == s && o.effects == [Status(SeveralDetected)]
    ensures |s.rotators| == 1 ==> o.state.isConnecting && o.effects[0] == Status(PleaseConnect)
    ensures |s.rotators| == 1 ==> |o.effects| == 2 && o.effects[1].Call? && o.effects[1].call.Connect?
    ensures forall id :: Call(Connect(id)) in o.effects <==> s.rotators.Keys == {id}
  {
    if |s.rotators| == 0 then
      Out(s, [Status(NotFound)])
    else if |s.rotators| == 1 then
      var id := OnlyKey(s.rotators);
      Out(s.(isConnecting := true), [Status(PleaseConnect), Call(Connect(id))])
    else
      Out(s, [Status(SeveralDetected)])
  }

  /** Stop the SDK scan, mark the handler idle, then disambiguate. */
  function StopScanning(s: State): (o: Out<State>)
    ensures !o.state.isScanning && o.state.rotators == s.rotators
    ensures |o.effects| >= 1 && o.effects[0] == Call(StopScan)
    ensures o.effects[1..] == HandleAfterScanning(s.(isScanning := false)).effects
    ensures o.state.isConnecting <==> s.isConnecting || |s.rotators| == 1
  {
    var after := HandleAfterScanning(s.(isScanning := false));
    Out(after.state, [Call(StopScan)] + after.effects)
  }

  /** `scanBluetoothDevice`: a toggle. While a scan runs it stops that scan and
      issues no new one; otherwise it resets the connection flag and the
      rotators and calls the SDK's `scan()`. Only a scan that started marks
      the handler scanning, says so, and arms the timeout. */
  function ScanBluetoothDeviceStep(s: State, attempt: ScanAttempt): (o: Out<State>)
    ensures s.isScanning ==> o == StopScanning(s)
    ensures s.isScanning ==> !o.state.isScanning && Call(Scan) !in o.effects
    ensures !s.isScanning ==>
              && |o.effects| >= 1 && o.effects[0] == Call(Scan)
              && !o.state.isConnecting
              && o.state.rotators == map[]
              && (o.state.isScanning <==> attempt.Started?)
              && (Status(Scanning) in o.effects <==> attempt.Started?)
              && (Schedule(ScanningPeriod, HandlerTimeout) in o.effects <==> attempt.Started?)
    ensures attempt.Started? && !s.isScanning ==> |o.effects| == 3 && o.effects[1] == Status(Scanning)
    ensures attempt.ThrewOther? && !s.isScanning ==> o.effects == [Call(Scan)]
    ensures attempt.ThrewPivoError? && !s.isScanning ==>
              o.effects == [Call(Scan)] + ScanErrorReport(attempt.error)
  {
    if s.isScanning then
      StopScanning(s)
    else
      var idle := s.(isConnecting := false, rotators := map[]);
      match attempt
      case Started =>
        Out(idle.(isScanning := true),
            [Call(Scan), Status(Scanning), Schedule(ScanningPeriod, HandlerTimeout)])
      case ThrewPivoError(e) =>
        Out(idle, [Call(Scan)] + ScanErrorReport(e))
      case ThrewOther =>
        Out(idle, [Call(Scan)])
  }

  /** The scan timeout stops the scan only if one is still running. */
  function ScanTimerFiredStep(s: State): (o: Out<State>)
    ensures s.isScanning ==> o == StopScanning(s)
    ensures !s.isScanning ==> o.state == s && o.effects == []
  {
    if s.isScanning then StopScanning(s) else Out(s, [])
  }

  function Step(s: State, e: Event): Out<State>
  {
    match e
    case ScanBluetoothDevice(attempt) => ScanBluetoothDeviceStep(s, attempt)
    case ScanTimerFired => ScanTimerFiredStep(s)
    case PermissionDenied => Out(s, [Status(PermissionDeniedStatus)])
    case Deinit => Out(s, [Call(StopScan), Call(RemoveDelegate)])
  }

  /** Permission denied only reports a status and changes no state. */
  lemma PermissionDeniedOnlyReports(s: State)
    ensures Step(s, PermissionDenied).state == s
    ensures Step(s, PermissionDenied).effects == [Status(PermissionDeniedStatus)]
  {
  }

  /** Teardown stops the SDK scan and unregisters, in every state. */
  lemma DeinitStopsAndUnregisters(s: State, t: State)
    ensures Step(s, Deinit).state == s
    ensures Step(s, Deinit).effects == Step(t, Deinit).effects == [Call(StopScan), Call(RemoveDelegate)]
  {
  }

  /** No step issues the SDK `scan()` while a scan is running, and every step
      leaves `rotators` either as it was or empty. */
  lemma StepScansOnlyWhenIdle(s: State, e: Event)
    ensures Call(Scan) in Step(s, e).effects ==> !s.isScanning
    ensures Step(s, e).state.rotators in {s.rotators, map[]}
  {
  }

  /** Nothing can make the known rotators non-empty. */
  ghost predicate NoRotators(s: State)
  {
    s.rotators == map[]
  }

  /** An effect log in which no disambiguation connected or found several. */
  ghost predicate NothingFound(effects: seq<Effect>)
  {
    && (forall id :: Call(Connect(id)) !in effects)
    && Status(PleaseConnect) !in effects
    && Status(SeveralDetected) !in effects
  }

  lemma StepKeepsNoRotators(s: State, e: Event)
    requires NoRotators(s)
    ensures NoRotators(Step(s, e).state)
    ensures NothingFound(Step(s, e).effects)
  {
    match e
    case ScanBluetoothDevice(attempt) =>
      if !s.isScanning {
        match attempt
        case Started =>
        case ThrewPivoError(err) =>
        case ThrewOther =>
      }
    case ScanTimerFired =>
    case PermissionDenied =>
    case Deinit =>
  }

  /** Along any run from a state with no rotators, no rotator is ever known,
      nothing is connected and every scan reports that none was found. */
  lemma {:induction false} RunKeepsNoRotators(s: State, events: seq<Event>)
    requires NoRotators(s)
    ensures NoRotators(Run(Step, s, events).state)
    ensures NothingFound(Run(Step, s, events).effects)
    decreases |events|
  {
    if events != [] {
      var first := Step(s, events[0]);
      StepKeepsNoRotators(s, events[0]);
      RunKeepsNoRotators(first.state, events[1..]);
    }
  }

  /** As written, only the zero-rotator branch of the disambiguation is
      reachable: after construction and any events, the handler never issues
      `connect`, and stopping a scan always reports that no rotator was found. */
  lemma OnlyNotFoundReachable(license: License, events: seq<Event>)
    ensures NothingFound(Run(Step, Init(license).state, events).effects)
    ensures StopScanning(Run(Step, Init(license).state, events).state).effects
         == [Call(StopScan), Status(NotFound)]
  {
    RunKeepsNoRotators(Init(license).state, events);
  }
}

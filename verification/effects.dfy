/** The vendor SDK as the three state machines see it: the errors its throwing
    `scan()` can raise, the calls they make on it, and everything else they emit
    (status text, alerts, timers, completion callbacks). Each component is a pure
    step function from a state and one inbound event to a new state plus the
    effects it emitted, in order. */
module Effects {

  datatype Option<+T> = None | Some(value: T)

  /** Discovered rotators: device id to device name. */
  type Rotators = map<string, string>

  /** The cases of the SDK's `PivoError`. `Unknown` stands for any case the
      SDK adds later, which the code handles in its `@unknown default` branch. */
  datatype PivoError =
    | LicenseNotProvided
    | InvalidLicenseKey
    | ExpiredLicenseKey
    | BluetoothOff
    | CannotReadLicenseKeyFile
    | BluetoothPermissionNotAllowed
    | TrackingModeNotSupported
    | FeedbackNotSupported
    | PivoNotConnected
    | Unknown

  /** What one call of the SDK's `scan()` did: returned, threw a `PivoError`,
      or threw some other error. */
  datatype ScanAttempt = Started | ThrewPivoError(error: PivoError) | ThrewOther

  /** Outbound calls on the SDK singleton. A turn without a speed is the
      SDK's overload that uses the speed set before (`setFastestSpeed`). */
  datatype SdkCall =
    | UnlockWithLicenseKey
    | AddDelegate
    | RemoveDelegate
    | Scan
    | StopScan
    | Connect(id: string)
    | Disconnect
    | RequestBatteryLevel
    | GetPivoVersion
    | SetFastestSpeed
    | TurnLeft(angle: int, speed: Option<int>)
    | TurnRight(angle: int, speed: Option<int>)
    | TurnLeftContinuously(rate: int)
    | TurnRightContinuously(rate: int)
    | Stop

  /** The delayed work the components schedule; when it runs it arrives
      back as an ordinary event of that component. */
  datatype Timer =
    | HandlerStart    // PivoHandler: the first scan after unlocking
    | HandlerTimeout  // PivoHandler: end of a running scan
    | ScannerStart    // PivoScanner: the start delay after construction
    | ScannerEnd      // PivoScanner: end of the scan period

  datatype Effect =
    | Call(call: SdkCall)
    | Status(text: string)
    | Alert(title: string, message: string)
    | Schedule(after: real, timer: Timer)
    | ScanCompletion(result: Option<Rotators>)
    | ConnectionCompletion(connected: bool)

  /** The result of handling one event, or a sequence of them. */
  datatype Out<S> = Out(state: S, effects: seq<Effect>)

  /** Feed `events` to `step` one at a time, starting in `s`, concatenating
      the effects of each step. */
  function Run<S, E>(step: (S, E) -> Out<S>, s: S, events: seq<E>): Out<S>
    decreases |events|
  {
    if events == [] then Out(s, [])
    else
      var first := step(s, events[0]);
      var rest := Run(step, first.state, events[1..]);
      Out(rest.state, first.effects + rest.effects)
  }

  /** Running two event sequences one after the other is running their
      concatenation. */
  lemma {:induction false} RunAppend<S, E>(step: (S, E) -> Out<S>, s: S, a: seq<E>, b: seq<E>)
    ensures Run(step, s, a + b).state == Run(step, Run(step, s, a).state, b).state
    ensures Run(step, s, a + b).effects
         == Run(step, s, a).effects + Run(step, Run(step, s, a).state, b).effects
    decreases |a|
  {
    if a == [] {
      assert a + b == b;
    } else {
      assert (a + b)[0] == a[0];
      assert (a + b)[1..] == a[1..] + b;
      RunAppend(step, step(s, a[0]).state, a[1..], b);
    }
  }

  /** The log holds exactly one alert, and it is the last effect: the
      operation reported a failure and stopped there. */
  ghost predicate EndsInOnlyAlert(effects: seq<Effect>)
  {
    && |effects| > 0
    && effects[|effects| - 1].Alert?
    && forall i | 0 <= i < |effects| - 1 :: !effects[i].Alert?
  }

  /** What the scan completion callback was invoked with, in order. */
  function ScanResults(effects: seq<Effect>): seq<Option<Rotators>>
  {
    if effects == [] then []
    else (if effects[0].ScanCompletion? then [effects[0].result] else []) + ScanResults(effects[1..])
  }

  /** What the connection callback was invoked with, in order. */
  function ConnectionResults(effects: seq<Effect>): seq<bool>
  {
    if effects == [] then []
    else (if effects[0].ConnectionCompletion? then [effects[0].connected] else [])
         + ConnectionResults(effects[1..])
  }

  /** A run of one event is that step. */
  lemma RunOne<S, E>(step: (S, E) -> Out<S>, s: S, e: E)
    ensures Run(step, s, [e]).state == step(s, e).state
    ensures Run(step, s, [e]).effects == step(s, e).effects
  {
  }

  /** A run of two events is the two steps one after the other. */
  lemma RunTwo<S, E>(step: (S, E) -> Out<S>, s: S, e1: E, e2: E)
    ensures Run(step, s, [e1, e2]).state == step(step(s, e1).state, e2).state
    ensures Run(step, s, [e1, e2]).effects == step(s, e1).effects + step(step(s, e1).state, e2).effects
  {
    var events := [e1, e2];
    assert events[1..] == [e2];
    assert [e2][1..] == [];
    assert Run(step, step(s, e1).state, [e2]).effects == step(step(s, e1).state, e2).effects + [];
    assert step(step(s, e1).state, e2).effects + [] == step(step(s, e1).state, e2).effects;
  }

  /** A log with no completion in it reports nothing. */
  lemma {:induction false} NoCompletions(effects: seq<Effect>)
    requires forall eff | eff in effects :: !eff.ScanCompletion? && !eff.ConnectionCompletion?
    ensures ScanResults(effects) == [] && ConnectionResults(effects) == []
    decreases |effects|
  {
    if effects != [] {
      assert effects[0] in effects;
      NoCompletions(effects[1..]);
    }
  }

  lemma {:induction false} ScanResultsAppend(a: seq<Effect>, b: seq<Effect>)
    ensures ScanResults(a + b) == ScanResults(a) + ScanResults(b)
    decreases |a|
  {
    if a == [] {
      assert a + b == b;
    } else {
      assert (a + b)[0] == a[0];
      assert (a + b)[1..] == a[1..] + b;
      ScanResultsAppend(a[1..], b);
    }
  }

  lemma {:induction false} ConnectionResultsAppend(a: seq<Effect>, b: seq<Effect>)
    ensures ConnectionResults(a + b) == ConnectionResults(a) + ConnectionResults(b)
    decreases |a|
  {
    if a == [] {
      assert a + b == b;
    } else {
      assert (a + b)[0] == a[0];
      assert (a + b)[1..] == a[1..] + b;
      ConnectionResultsAppend(a[1..], b);
    }
  }
}

/** ConnectedPivo: the connection flags, telemetry and motion commands of one
    rotator. Delegate events from the SDK move the two flags and fire the
    `(Bool)` connection callback; commands are forwarded to the SDK as they
    are, whatever the connection state. */
module ConnectedPivo {
  import opened Effects

  /** `connection` says whether a connection callback is registered. `id` and
      `name` are set at construction and never reassigned. */
  datatype State = State(
    id: string,
    name: string,
    connection: bool,
    isConnecting: bool,
    fullyConnected: bool,
    batteryLevel: int,
    pivoVersion: string)

  /** The motion commands. The two snaps turn at the fastest speed; the two
      continuous turns run until `StopTurning`. */
  datatype Command =
    | TurnLeftBy(angle: int, speed: int)
    | TurnRightBy(angle: int, speed: int)
    | SnapLeft(angle: int)
    | SnapRight(angle: int)
    | TurnLeftAt(speed: int)
    | TurnRightAt(speed: int)
    | StopTurning

  /** SDK delegate events, commands from the user, and release. Every
      delegate event carries a device id, which the handlers ignore.
      `DidEstablishSuccessfully` carries what the SDK's `getPivoVersion()`
      answers when asked during that event. */
  datatype Event =
    | PermissionDenied
    | DidConnect(id: string)
    | DidDisconnect(id: string)
    | DidFailToConnect(id: string)
    | DidEstablishSuccessfully(id: string, version: string)
    | BatteryLevel(level: int)
    | Command(command: Command)
    | Deinit

  /** Construction: record the device, clear the flags and telemetry,
      register with the SDK and ask it to connect to this device. */
  function Init(id: string, name: string, hasConnection: bool): (o: Out<State>)
    ensures o.state.id == id && o.state.name == name && o.state.connection == hasConnection
    ensures !o.state.isConnecting && !o.state.fullyConnected
    ensures o.state.batteryLevel == 0 && o.state.pivoVersion == ""
    ensures o.effects == [Call(AddDelegate), Call(Connect(id))]
  {
    Out(State(id, name, hasConnection, false, false, 0, ""), [Call(AddDelegate), Call(Connect(id))])
  }

  /** Invoke the connection callback, if one is registered. It is never
      cleared, so it fires on every reporting event. */
  function Report(s: State, connected: bool): (effects: seq<Effect>)
    ensures ConnectionResults(effects) == (if s.connection then [connected] else [])
    ensures forall eff | eff in effects :: eff.ConnectionCompletion?
  {
    if s.connection then [ConnectionCompletion(connected)] else []
  }

  /** The link came up but is not usable yet. */
  function DidConnectStep(s: State): (o: Out<State>)
    ensures o.state.isConnecting && !o.state.fullyConnected
    ensures o.state.batteryLevel == s.batteryLevel && o.state.pivoVersion == s.pivoVersion
    ensures o.effects == []
  {
    Out(s.(isConnecting := true, fullyConnected := false), [])
  }

  /** Disconnection and failure to connect both drop both flags and report
      `false`. */
  function DroppedStep(s: State): (o: Out<State>)
    ensures !o.state.isConnecting && !o.state.fullyConnected
    ensures o.state.batteryLevel == s.batteryLevel && o.state.pivoVersion == s.pivoVersion
    ensures ConnectionResults(o.effects) == (if s.connection then [false] else [])
    ensures forall eff | eff in o.effects :: eff.ConnectionCompletion?
  {
    Out(s.(fullyConnected := false, isConnecting := false), Report(s, false))
  }

  /** The connection is established: mark it usable, ask for the battery
      level, store the version the SDK reports, and report `true`. */
  function EstablishedStep(s: State, version: string): (o: Out<State>)
    ensures o.state.fullyConnected && !o.state.isConnecting
    ensures o.state.pivoVersion == version && o.state.batteryLevel == s.batteryLevel
    ensures |o.effects| >= 2 && o.effects[..2] == [Call(RequestBatteryLevel), Call(GetPivoVersion)]
    ensures forall i | 2 <= i < |o.effects| :: o.effects[i].ConnectionCompletion?
    ensures ConnectionResults(o.effects) == (if s.connection then [true] else [])
  {
    var calls := [Call(RequestBatteryLevel), Call(GetPivoVersion)];
    NoCompletions(calls);
    ConnectionResultsAppend(calls, Report(s, true));
    Out(s.(fullyConnected := true, isConnecting := false, pivoVersion := version),
        calls + Report(s, true))
  }

  /** The SDK calls a command forwards: each command is passed on as it is,
      with the same direction and the same angle, speed or rate; only the
      snaps first select the fastest speed and then turn without one. */
  function CommandCalls(c: Command): (effects: seq<Effect>)
    ensures c.TurnLeftBy? ==> effects == [Call(TurnLeft(c.angle, Some(c.speed)))]
    ensures c.TurnRightBy? ==> effects == [Call(TurnRight(c.angle, Some(c.speed)))]
    ensures c.SnapLeft? ==> effects == [Call(SetFastestSpeed), Call(TurnLeft(c.angle, None))]
    ensures c.SnapRight? ==> effects == [Call(SetFastestSpeed), Call(TurnRight(c.angle, None))]
    ensures c.TurnLeftAt? ==> effects == [Call(TurnLeftContinuously(c.speed))]
    ensures c.TurnRightAt? ==> effects == [Call(TurnRightContinuously(c.speed))]
    ensures c.StopTurning? ==> effects == [Call(Stop)]
    ensures !c.SnapLeft? && !c.SnapRight? ==> |effects| == 1 && Call(SetFastestSpeed) !in effects
    ensures forall eff | eff in effects :: eff.Call?
  {
    match c
    case TurnLeftBy(angle, speed) => [Call(TurnLeft(angle, Some(speed)))]
    case TurnRightBy(angle, speed) => [Call(TurnRight(angle, Some(speed)))]
    case SnapLeft(angle) => [Call(SetFastestSpeed), Call(TurnLeft(angle, None))]
    case SnapRight(angle) => [Call(SetFastestSpeed), Call(TurnRight(angle, None))]
    case TurnLeftAt(speed) => [Call(TurnLeftContinuously(speed))]
    case TurnRightAt(speed) => [Call(TurnRightContinuously(speed))]
    case StopTurning => [Call(Stop)]
  }

  /** The same command turning the other way. */
  function MirrorCommand(c: Command): Command
  {
    match c
    case TurnLeftBy(angle, speed) => TurnRightBy(angle, speed)
    case TurnRightBy(angle, speed) => TurnLeftBy(angle, speed)
    case SnapLeft(angle) => SnapRight(angle)
    case SnapRight(angle) => SnapLeft(angle)
    case TurnLeftAt(speed) => TurnRightAt(speed)
    case TurnRightAt(speed) => TurnLeftAt(speed)
    case StopTurning => StopTurning
  }

  /** The same effect with every turn going the other way. */
  function MirrorEffect(eff: Effect): Effect
  {
    match eff
    case Call(TurnLeft(angle, speed)) => Call(TurnRight(angle, speed))
    case Call(TurnRight(angle, speed)) => Call(TurnLeft(angle, speed))
    case Call(TurnLeftContinuously(rate)) => Call(TurnRightContinuously(rate))
    case Call(TurnRightContinuously(rate)) => Call(TurnLeftContinuously(rate))
    case _ => eff
  }

  /** Left and right are handled alike: the mirrored command forwards the
      mirrored calls, effect by effect, with the same angles and speeds. */
  lemma MirroredCommandsMirrorCalls(c: Command)
    ensures |CommandCalls(MirrorCommand(c))| == |CommandCalls(c)|
    ensures forall i | 0 <= i < |CommandCalls(c)| ::
              CommandCalls(MirrorCommand(c))[i] == MirrorEffect(CommandCalls(c)[i])
  {
  }

  function Step(s: State, e: Event): Out<State>
  {
    match e
    case PermissionDenied => Out(s, [])
    case DidConnect(_) => DidConnectStep(s)
    case DidDisconnect(_) => DroppedStep(s)
    case DidFailToConnect(_) => DroppedStep(s)
    case DidEstablishSuccessfully(_, version) => EstablishedStep(s, version)
    case BatteryLevel(level) => Out(s.(batteryLevel := level), [])
    case Command(c) => Out(s, CommandCalls(c))
    case Deinit => Out(s, [Call(Disconnect), Call(RemoveDelegate)])
  }

  /** The two flags are never both set. */
  ghost predicate Consistent(s: State)
  {
    !(s.isConnecting && s.fullyConnected)
  }

  /** Every step that sets the flags leaves them consistent; the others leave
      them alone. No step touches the device's identity or the callback
      registration. */
  lemma StepFlagsAndIdentity(s: State, e: Event)
    ensures || Consistent(Step(s, e).state)
            || (&& Step(s, e).state.isConnecting == s.isConnecting
                && Step(s, e).state.fullyConnected == s.fullyConnected)
    ensures Step(s, e).state.id == s.id && Step(s, e).state.name == s.name
    ensures Step(s, e).state.connection == s.connection
  {
  }

  /** Permission denied is only logged: no state change, no effect. */
  lemma PermissionDeniedDoesNothing(s: State)
    ensures Step(s, PermissionDenied).state == s
    ensures Step(s, PermissionDenied).effects == []
  {
  }

  /** A battery event changes the battery level and nothing else, and emits
      nothing. */
  lemma BatteryOnlyUpdatesLevel(s: State, level: int)
    ensures Step(s, BatteryLevel(level)).state == s.(batteryLevel := level)
    ensures Step(s, BatteryLevel(level)).effects == []
  {
  }

  /** Commands and teardown do not depend on the connection state: in any two
      states they emit the same SDK calls and change nothing. Teardown always
      disconnects and then unregisters. */
  lemma CommandsIgnoreState(s: State, t: State, c: Command)
    ensures Step(s, Command(c)).effects == Step(t, Command(c)).effects
    ensures Step(s, Command(c)).state == s
    ensures Step(s, Deinit).effects == Step(t, Deinit).effects == [Call(Disconnect), Call(RemoveDelegate)]
    ensures Step(s, Deinit).state == s
  {
  }

  /** The ids carried by delegate events play no part: an event about another
      device acts exactly like one about this device. */
  lemma DelegateIdsIgnored(s: State, a: string, b: string, version: string)
    ensures Step(s, DidConnect(a)) == Step(s, DidConnect(b))
    ensures Step(s, DidDisconnect(a)) == Step(s, DidFailToConnect(b))
    ensures Step(s, DidEstablishSuccessfully(a, version)) == Step(s, DidEstablishSuccessfully(b, version))
  {
  }

  /** What each event reports through the connection callback, on its own. */
  function Outcome(e: Event): seq<bool>
  {
    match e
    case DidDisconnect(_) => [false]
    case DidFailToConnect(_) => [false]
    case DidEstablishSuccessfully(_, _) => [true]
    case _ => []
  }

  function Outcomes(events: seq<Event>): seq<bool>
  {
    if events == [] then [] else Outcome(events[0]) + Outcomes(events[1..])
  }

  /** Along any run, the flags stay consistent, the identity stays put, and
      the callback log is exactly the outcomes of the events in order: the
      callback is never cleared, so it fires on every disconnect, failure and
      establishment, not once per connection attempt. */
  lemma {:induction false} RunReportsEveryOutcome(s: State, events: seq<Event>)
    requires Consistent(s)
    ensures Consistent(Run(Step, s, events).state)
    ensures Run(Step, s, events).state.id == s.id && Run(Step, s, events).state.name == s.name
    ensures ConnectionResults(Run(Step, s, events).effects)
         == (if s.connection then Outcomes(events) else [])
    decreases |events|
  {
    if events != [] {
      var first := Step(s, events[0]);
      StepFlagsAndIdentity(s, events[0]);
      assert ConnectionResults(first.effects) == (if s.connection then Outcome(events[0]) else []) by {
        match events[0]
        case Command(c) => NoCompletions(CommandCalls(c));
        case Deinit => NoCompletions([Call(Disconnect), Call(RemoveDelegate)]);
        case _ =>
      }
      RunReportsEveryOutcome(first.state, events[1..]);
      ConnectionResultsAppend(first.effects, Run(Step, first.state, events[1..]).effects);
    }
  }

  /** After construction and any events, the device is never both connecting
      and fully connected, and keeps the id and name it was built with. */
  lemma NeverConnectingAndConnected(id: string, name: string, hasConnection: bool, events: seq<Event>)
    ensures Consistent(Run(Step, Init(id, name, hasConnection).state, events).state)
    ensures Run(Step, Init(id, name, hasConnection).state, events).state.id == id
    ensures Run(Step, Init(id, name, hasConnection).state, events).state.name == name
  {
    RunReportsEveryOutcome(Init(id, name, hasConnection).state, events);
  }

  /** Establishing and then losing the connection reports twice, `true` then
      `false`. */
  lemma EstablishThenDisconnectReportsTwice(s: State, id: string, version: string)
    requires s.connection
    ensures ConnectionResults(Run(Step, s, [DidEstablishSuccessfully(id, version), DidDisconnect(id)]).effects)
         == [true, false]
  {
    var first := EstablishedStep(s, version);
    var second := DroppedStep(first.state);
    RunTwo(Step, s, DidEstablishSuccessfully(id, version), DidDisconnect(id));
    ConnectionResultsAppend(first.effects, second.effects);
  }
}

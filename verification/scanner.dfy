/** PivoScanner: one discovery session. After a start delay it clears its
    dictionary and starts the SDK scan; discoveries upsert id -> name, and the
    end of the scan hands the dictionary (or, on failure, nothing) to the
    completion callback. */
module PivoScanner {
  import opened Effects

  /** Seconds between construction and the start of the scan. */
  const ScanningDelay: real := 2.0

  /** What happens to the completion callback once it has been invoked. The
      code keeps it (`Retained`), so every later ending invokes it again;
      `ClearedAfterUse` is the one-shot behaviour a session is meant to have. */
  datatype Delivery = Retained | ClearedAfterUse

  /** `completion` says whether a callback is registered. `scanTime` is the
      scan period given at construction. */
  datatype State = State(scanTime: real, completion: bool, rotators: Rotators, delivery: Delivery)

  /** `BeginScanTimerFired` is the start delay running out and carries what the
      SDK's `scan()` then does; `EndScanTimerFired` is the end of the scan
      period; `Deinit` is the scanner being released. */
  datatype Event =
    | BeginScanTimerFired(attempt: ScanAttempt)
    | EndScanTimerFired
    | Discovered(id: string, name: string)
    | PermissionDenied
    | Deinit

  /** Construction: register with the SDK and arm the start delay. Nothing is
      scanned and nothing is reported yet. */
  function Init(scanTime: real, hasCompletion: bool, delivery: Delivery): (o: Out<State>)
    ensures o.state.rotators == map[] && o.state.completion == hasCompletion
    ensures o.state.scanTime == scanTime && o.state.delivery == delivery
    ensures |o.effects| == 2 && o.effects[0] == Call(AddDelegate)
    ensures Schedule(ScanningDelay, ScannerStart) in o.effects
    ensures forall eff | eff in o.effects && eff.Schedule? :: eff.timer == ScannerStart
    ensures Call(Scan) !in o.effects && Schedule(scanTime, ScannerEnd) !in o.effects
    ensures ScanResults(o.effects) == []
  {
    var effects := [Call(AddDelegate), Schedule(ScanningDelay, ScannerStart)];
    NoCompletions(effects);
    Out(State(scanTime, hasCompletion, map[], delivery), effects)
  }

  /** Invoke the completion callback, if one is registered, with `result`. */
  function Deliver(s: State, result: Option<Rotators>): (o: Out<State>)
    ensures ScanResults(o.effects) == (if s.completion then [result] else [])
    ensures forall eff | eff in o.effects :: eff.ScanCompletion?
    ensures o.state.rotators == s.rotators && o.state.scanTime == s.scanTime
    ensures o.state.delivery == s.delivery
    ensures s.delivery.Retained? ==> o.state == s
    ensures s.delivery.ClearedAfterUse? ==> !o.state.completion
  {
    if !s.completion then Out(s, [])
    else if s.delivery.ClearedAfterUse? then Out(s.(completion := false), [ScanCompletion(result)])
    else Out(s, [ScanCompletion(result)])
  }

  /** `beginScanning`: empty the dictionary, then call the SDK's `scan()`. Only
      a scan that started arms the end-of-scan timer; a `PivoError` reports
      failure, any other error returns silently. */
  function BeginScanning(s: State, attempt: ScanAttempt): (o: Out<State>)
    ensures o.state.rotators == map[]
    ensures |o.effects| >= 1 && o.effects[0] == Call(Scan)
    ensures Schedule(s.scanTime, ScannerEnd) in o.effects <==> attempt.Started?
    ensures forall eff | eff in o.effects && eff.Schedule? :: eff == Schedule(s.scanTime, ScannerEnd)
    ensures attempt.Started? ==> |o.effects| == 2
    ensures !attempt.Started? ==> forall i | 1 <= i < |o.effects| :: o.effects[i].ScanCompletion?
    ensures ScanResults(o.effects)
         == (if attempt.ThrewPivoError? && s.completion then [None] else [])
    ensures attempt.ThrewOther? ==> o.effects == [Call(Scan)]
  {
    var cleared := s.(rotators := map[]);
    match attempt
    case Started =>
      NoCompletions([Call(Scan), Schedule(s.scanTime, ScannerEnd)]);
      Out(cleared, [Call(Scan), Schedule(s.scanTime, ScannerEnd)])
    case ThrewPivoError(_) =>
      var d := Deliver(cleared, None);
      ScanResultsAppend([Call(Scan)], d.effects);
      Out(d.state, [Call(Scan)] + d.effects)
    case ThrewOther =>
      Out(cleared, [Call(Scan)])
  }

  /** `endScanning`: stop the SDK scan and report what was found. */
  function EndScanning(s: State): (o: Out<State>)
    ensures o.state.rotators == s.rotators
    ensures |o.effects| >= 1 && o.effects[0] == Call(StopScan)
    ensures forall i | 1 <= i < |o.effects| :: o.effects[i].ScanCompletion?
    ensures ScanResults(o.effects) == (if s.completion then [Some(s.rotators)] else [])
  {
    var d := Deliver(s, Some(s.rotators));
    ScanResultsAppend([Call(StopScan)], d.effects);
    Out(d.state, [Call(StopScan)] + d.effects)
  }

  /** A discovery upserts the device and at once ends the scan, reporting a
      dictionary that holds it. */
  function DidDiscover(s: State, id: string, name: string): (o: Out<State>)
    ensures o.state.rotators.Keys == s.rotators.Keys + {id}
    ensures id in o.state.rotators && o.state.rotators[id] == name
    ensures forall k | k in s.rotators && k != id :: o.state.rotators[k] == s.rotators[k]
    ensures |o.effects| >= 1 && o.effects[0] == Call(StopScan)
    ensures forall i | 1 <= i < |o.effects| :: o.effects[i].ScanCompletion?
    ensures ScanResults(o.effects) == (if s.completion then [Some(o.state.rotators)] else [])
  {
    EndScanning(s.(rotators := s.rotators[id := name]))
  }

  /** Teardown stops the SDK scan, unregisters, and reports failure. */
  function Teardown(s: State): (o: Out<State>)
    ensures o.state.rotators == s.rotators
    ensures |o.effects| >= 2 && o.effects[..2] == [Call(StopScan), Call(RemoveDelegate)]
    ensures forall i | 2 <= i < |o.effects| :: o.effects[i].ScanCompletion?
    ensures ScanResults(o.effects) == (if s.completion then [None] else [])
  {
    var d := Deliver(s, None);
    ScanResultsAppend([Call(StopScan), Call(RemoveDelegate)], d.effects);
    Out(d.state, [Call(StopScan), Call(RemoveDelegate)] + d.effects)
  }

  function Step(s: State, e: Event): Out<State>
  {
    match e
    case BeginScanTimerFired(attempt) => BeginScanning(s, attempt)
    case EndScanTimerFired => EndScanning(s)
    case Discovered(id, name) => DidDiscover(s, id, name)
    case PermissionDenied => Deliver(s, None)
    case Deinit => Teardown(s)
  }

  /** Success and failure are told apart by the value alone: the callback
      gets a dictionary exactly on the two successful endings (the timer and
      a discovery) and `nil` on every failure (scan error, permission denied,
      teardown). No step changes the scan period or the delivery rule. */
  lemma ResultKindMatchesEvent(s: State, e: Event)
    ensures forall r | r in ScanResults(Step(s, e).effects) ::
              r.Some? <==> (e.EndScanTimerFired? || e.Discovered?)
    ensures e.Discovered? ==>
              forall r | r in ScanResults(Step(s, e).effects) :: e.id in r.value
    ensures Step(s, e).state.scanTime == s.scanTime && Step(s, e).state.delivery == s.delivery
  {
  }

  /** Permission denied only reports `nil` to a registered callback: no SDK
      call, no timer, and the dictionary is kept. */
  lemma PermissionDeniedOnlyReportsNil(s: State)
    ensures forall eff | eff in Step(s, PermissionDenied).effects :: eff.ScanCompletion?
    ensures ScanResults(Step(s, PermissionDenied).effects) == (if s.completion then [None] else [])
    ensures Step(s, PermissionDenied).state.rotators == s.rotators
  {
  }

  /** The events on which the code invokes the completion callback. */
  predicate Completes(e: Event)
  {
    match e
    case BeginScanTimerFired(attempt) => attempt.ThrewPivoError?
    case EndScanTimerFired => true
    case Discovered(_, _) => true
    case PermissionDenied => true
    case Deinit => true
  }

  function CountCompleting(events: seq<Event>): nat
  {
    if events == [] then 0
    else (if Completes(events[0]) then 1 else 0) + CountCompleting(events[1..])
  }

  /** As written, one event invokes a registered callback once if it is a
      completing event and not at all otherwise, and keeps it registered. */
  lemma RetainedStepReportsIfCompleting(s: State, e: Event)
    requires s.delivery.Retained?
    ensures |ScanResults(Step(s, e).effects)| == (if s.completion && Completes(e) then 1 else 0)
    ensures Step(s, e).state.completion == s.completion && Step(s, e).state.delivery == s.delivery
  {
  }

  /** As written, a registered callback is invoked once for every completing
      event of a run, however many there are, not once per session. */
  lemma {:induction false} RetainedInvokesPerEvent(s: State, events: seq<Event>)
    requires s.delivery.Retained?
    ensures |ScanResults(Run(Step, s, events).effects)|
         == (if s.completion then CountCompleting(events) else 0)
    decreases |events|
  {
    if events != [] {
      var first := Step(s, events[0]);
      RetainedStepReportsIfCompleting(s, events[0]);
      RetainedInvokesPerEvent(first.state, events[1..]);
      ScanResultsAppend(first.effects, Run(Step, first.state, events[1..]).effects);
    }
  }

  /** The code as written reports twice in one session, with no release
      involved: the scan starts, a discovery ends it and reports the
      dictionary, and the end-of-scan timer the start armed then fires and
      reports the same dictionary to the same callback again. */
  lemma RetainedReportsTwice(scanTime: real, id: string, name: string)
    ensures ScanResults(Run(Step, Init(scanTime, true, Retained).state,
                            [BeginScanTimerFired(Started), Discovered(id, name), EndScanTimerFired]).effects)
         == [Some(map[id := name]), Some(map[id := name])]
  {
    var s := Init(scanTime, true, Retained).state;
    var started := BeginScanning(s, Started);
    var found := DidDiscover(started.state, id, name);
    var ended := EndScanning(found.state);
    assert found.state.rotators == map[id := name];
    RunAppend(Step, s, [BeginScanTimerFired(Started)], [Discovered(id, name), EndScanTimerFired]);
    RunOne(Step, s, BeginScanTimerFired(Started));
    RunTwo(Step, started.state, Discovered(id, name), EndScanTimerFired);
    ScanResultsAppend(found.effects, ended.effects);
    ScanResultsAppend(started.effects, found.effects + ended.effects);
  }

  /** With the callback cleared after use, a run reports at most once, and
      the callback stays registered exactly while nothing was reported. */
  lemma {:induction false} ClearedReportsAtMostOnce(s: State, events: seq<Event>)
    requires s.delivery.ClearedAfterUse?
    ensures |ScanResults(Run(Step, s, events).effects)| <= (if s.completion then 1 else 0)
    ensures Run(Step, s, events).state.completion
        <==> s.completion && ScanResults(Run(Step, s, events).effects) == []
    ensures Run(Step, s, events).state.delivery == s.delivery
    decreases |events|
  {
    if events != [] {
      var first := Step(s, events[0]);
      ResultKindMatchesEvent(s, events[0]);
      assert first.state.completion <==> s.completion && ScanResults(first.effects) == [];
      ClearedReportsAtMostOnce(first.state, events[1..]);
      ScanResultsAppend(first.effects, Run(Step, first.state, events[1..]).effects);
    }
  }

  /** With the callback cleared after use, a session whose scanner is
      eventually released reports exactly once, whatever happened before. */
  lemma ClearedReportsExactlyOnce(scanTime: real, events: seq<Event>)
    ensures |ScanResults(Run(Step, Init(scanTime, true, ClearedAfterUse).state, events + [Deinit]).effects)| == 1
  {
    var s := Init(scanTime, true, ClearedAfterUse).state;
    var before := Run(Step, s, events);
    ClearedReportsAtMostOnce(s, events);
    RunAppend(Step, s, events, [Deinit]);
    var last := Step(before.state, Deinit);
    assert Run(Step, before.state, [Deinit]).effects == last.effects + [];
    assert last.effects + [] == last.effects;
    ScanResultsAppend(before.effects, last.effects);
  }

  /** `i` is the last discovery of its id in `events`. */
  ghost predicate LastOfItsId(events: seq<Event>, i: int)
    requires 0 <= i < |events| && forall k | 0 <= k < |events| :: events[k].Discovered?
  {
    forall j | i < j < |events| :: events[j].id != events[i].id
  }

  /** A run of discoveries leaves one entry per id: the ids known before plus
      every discovered id, each discovered id with the name of its most recent
      discovery, every other id with its old name. */
  lemma {:induction false} DiscoveriesKeepLatestName(s: State, events: seq<Event>)
    requires forall k | 0 <= k < |events| :: events[k].Discovered?
    ensures forall id ::
              id in Run(Step, s, events).state.rotators
              <==> id in s.rotators || exists k | 0 <= k < |events| :: events[k].id == id
    ensures forall i | 0 <= i < |events| && LastOfItsId(events, i) ::
              Run(Step, s, events).state.rotators[events[i].id] == events[i].name
    ensures forall id | id in s.rotators && (forall k | 0 <= k < |events| :: events[k].id != id) ::
              Run(Step, s, events).state.rotators[id] == s.rotators[id]
    decreases |events|
  {
    if events != [] {
      var first := Step(s, events[0]);
      var rest := events[1..];
      DiscoveriesKeepLatestName(first.state, rest);
      var m := Run(Step, s, events).state.rotators;
      assert m == Run(Step, first.state, rest).state.rotators;
      forall id
        ensures id in m <==> id in s.rotators || exists k | 0 <= k < |events| :: events[k].id == id
      {
        if exists k | 0 <= k < |rest| :: rest[k].id == id {
          var k :| 0 <= k < |rest| && rest[k].id == id;
          assert events[k + 1].id == id;
        }
        if exists k | 0 <= k < |events| :: events[k].id == id {
          var k :| 0 <= k < |events| && events[k].id == id;
          if k > 0 {
            assert rest[k - 1].id == id;
          }
        }
      }
      forall i | 0 <= i < |events| && LastOfItsId(events, i)
        ensures m[events[i].id] == events[i].name
      {
        if i == 0 {
          forall k | 0 <= k < |rest| ensures rest[k].id != events[0].id {
            assert rest[k] == events[k + 1];
          }
        } else {
          assert rest[i - 1] == events[i];
          assert LastOfItsId(rest, i - 1) by {
            forall j | i - 1 < j < |rest| ensures rest[j].id != rest[i - 1].id {
              assert rest[j] == events[j + 1];
            }
          }
        }
      }
      forall id | id in s.rotators && (forall k | 0 <= k < |events| :: events[k].id != id)
        ensures m[id] == s.rotators[id]
      {
        assert events[0].id != id;
        forall k | 0 <= k < |rest| ensures rest[k].id != id {
          assert rest[k] == events[k + 1];
        }
      }
    }
  }
}

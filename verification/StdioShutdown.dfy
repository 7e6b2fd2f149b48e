/** Running the stdio server: main writes the shutdown record itself, on whichever select arm
    wins (server.go). */
module StdioShutdown {
  import opened Results
  import opened Lifecycle
  import opened Runs

  /** How the session ended: by the client, with its context, or with an error. */
  datatype SessionOutcome = EndOfInput | ContextEnded | Broken

  datatype Verdict = WatchFailure | SessionError | Success

  /** The statements of main. */
  datatype Main =
    | SpawnServe
    | Selecting
    | LogSignal
    | LogWatchError
    | CancelAfterWatch
    | CheckAfterWatch
    | AwaitServe
    | CheckAfterServe(outcome: SessionOutcome)
    | CancelAfterServe(outcome: SessionOutcome)
    | Report(outcome: SessionOutcome)
    | Returned(verdict: Verdict)

  datatype Serve = NoServe | Serving | ServeSending(outcome: SessionOutcome) | ServeExited(outcome: SessionOutcome)

  /** `ended` remembers that the select was won by the session, `alive` that its context was
      still alive when main looked. */
  datatype State = State(
    main: Main, serve: Serve, watch: Watch,
    serveDone: Option<SessionOutcome>, watchDone: Option<WatchOutcome>,
    canceled: bool, signalled: bool, log: seq<Record>, ended: bool, alive: bool)

  datatype Action =
    | Signal
    | SessionEnds(outcome: SessionOutcome)
    | WatchFails
    | ChooseCanceled
    | ChooseWatch
    | ChooseServe
    | MainStep
    | ServeCanceled
    | ServeSends
    | WatchCanceled
    | WatchSends

  predicate External(a: Action) { a.Signal? || a.SessionEnds? || a.WatchFails? }

  predicate MainEnabled(s: State) {
    match s.main
    case Selecting | Returned(_) => false
    case AwaitServe => s.serveDone.Some?
    case _ => true
  }

  predicate Enabled(s: State, a: Action) {
    match a
    case Signal => !s.signalled
    case SessionEnds(o) => s.serve.Serving? && !o.ContextEnded?
    case WatchFails => s.watch.Watching?
    case ChooseCanceled => s.main.Selecting? && s.canceled
    case ChooseWatch => s.main.Selecting? && s.watchDone.Some?
    case ChooseServe => s.main.Selecting? && s.serveDone.Some?
    case MainStep => MainEnabled(s)
    case ServeCanceled => s.serve.Serving? && s.canceled
    case ServeSends => s.serve.ServeSending? && s.serveDone.None?
    case WatchCanceled => s.watch.Watching? && s.canceled
    case WatchSends => s.watch.WatchSending? && s.watchDone.None?
  }

  /** The record of a signal, if the context has ended by now. */
  function SignalRecord(s: State): seq<Record> {
    if s.canceled then [ShuttingDown(BySignal)] else []
  }

  function StepMain(s: State): State
    requires MainEnabled(s)
  {
    match s.main
    case SpawnServe => s.(main := Selecting, serve := Serving, log := s.log + [Starting])
    case LogSignal => s.(main := AwaitServe, log := s.log + [ShuttingDown(BySignal)])
    case LogWatchError => s.(main := CancelAfterWatch, log := s.log + [ShuttingDown(ByWatchError)])
    case CancelAfterWatch => s.(main := Returned(WatchFailure), canceled := true)
    case CheckAfterWatch => s.(main := AwaitServe, log := s.log + SignalRecord(s))
    case AwaitServe => s.(main := Report(s.serveDone.value), serveDone := None)
    case CheckAfterServe(o) => s.(main := CancelAfterServe(o), log := s.log + SignalRecord(s), alive := !s.canceled)
    case CancelAfterServe(o) => s.(main := Report(o), canceled := true)
    case Report(o) =>
      if o.Broken? then s.(main := Returned(SessionError), canceled := true)
      else s.(main := Returned(Success), canceled := true, log := s.log + [ServerStopped])
  }

  function Step(s: State, a: Action): State
    requires Enabled(s, a)
  {
    match a
    case Signal => s.(signalled := true, canceled := true)
    case SessionEnds(o) => s.(serve := ServeSending(o))
    case WatchFails => s.(watch := WatchSending(Fatal))
    case ChooseCanceled => s.(main := LogSignal)
    case ChooseWatch => s.(watchDone := None,
        main := if s.watchDone.value.Fatal? then LogWatchError else CheckAfterWatch)
    case ChooseServe => s.(serveDone := None, main := CheckAfterServe(s.serveDone.value), ended := true)
    case MainStep => StepMain(s)
    case ServeCanceled => s.(serve := ServeSending(ContextEnded))
    case ServeSends => s.(serve := ServeExited(s.serve.outcome), serveDone := Some(s.serve.outcome))
    case WatchCanceled => s.(watch := WatchSending(Canceled))
    case WatchSends => s.(watch := WatchExited(s.watch.outcome), watchDone := Some(s.watch.outcome))
  }

  predicate Start(s: State) {
    && s == State(SpawnServe, NoServe, s.watch, None, None, s.signalled, s.signalled, [], false, false)
    && (s.watch.NotWatching? || s.watch.Watching?)
  }

  /** The states of a run: each is the step of the one before. */
  ghost predicate IsRun(states: seq<State>, actions: seq<Action>) {
    && |states| == |actions| + 1
    && Start(states[0])
    && forall i :: 0 <= i < |actions| ==> Enabled(states[i], actions[i]) && states[i + 1] == Step(states[i], actions[i])
  }

  // ----- what every step keeps

  predicate BeforeChoice(m: Main) { m.SpawnServe? || m.Selecting? }

  predicate AfterFatalWatch(m: Main) { m.LogWatchError? || m.CancelAfterWatch? || m == Returned(WatchFailure) }

  /** Main has taken the outcome of the session. */
  predicate HasOutcome(m: Main) {
    m.CheckAfterServe? || m.CancelAfterServe? || m.Report? || m == Returned(SessionError) || m == Returned(Success)
  }

  /** Main has come past the place where its arm writes the record. */
  predicate PastRecord(m: Main) {
    m.CancelAfterWatch? || m.AwaitServe? || m.CancelAfterServe? || m.Report? || m.Returned?
  }

  predicate Goroutines(s: State) {
    && (s.serve.NoServe? <==> s.main.SpawnServe?)
    && (s.watch.WatchExited? || s.watchDone.None?)
    && (s.watchDone.Some? ==> s.watch == WatchExited(s.watchDone.value))
    && (BeforeChoice(s.main) && s.watch.WatchExited? ==> s.watchDone.Some?)
    && (AfterFatalWatch(s.main) ==> s.watch == WatchExited(Fatal))
    && (s.serveDone.Some? <==> s.serve.ServeExited? && !HasOutcome(s.main))
    && (s.serveDone.Some? ==> s.serve == ServeExited(s.serveDone.value))
    && (HasOutcome(s.main) ==> s.serve.ServeExited?)
  }

  predicate Outcomes(s: State) {
    && ((s.main.CheckAfterServe? || s.main.CancelAfterServe? || s.main.Report?) ==>
         s.serve == ServeExited(s.main.outcome))
    && (s.main.Returned? && !s.main.verdict.WatchFailure? ==>
         s.serve.ServeExited? && (s.main.verdict.SessionError? <==> s.serve.outcome.Broken?))
    && (s.signalled ==> s.canceled)
    && (s.canceled && !s.main.Report? && !s.main.Returned? ==> s.signalled)
    && (s.main.LogSignal? || s.main.CheckAfterWatch? || (s.main.AwaitServe?) ==> s.signalled && s.canceled)
    && ((s.watch == WatchSending(Canceled) || s.watch == WatchExited(Canceled)) ==> s.canceled)
    && (s.main.Report? || s.main.Returned? ==> s.canceled)
    && (s.ended ==> s.main.CheckAfterServe? || s.main.CancelAfterServe? || s.main.Report? || s.main.Returned?)
    && (s.main.CheckAfterServe? || s.main.CancelAfterServe? ==> s.ended)
    && (s.alive ==> s.ended && PastRecord(s.main))
    && (s.ended ==> !AfterFatalWatch(s.main))
  }

  /** What a reason for shutting down claims. */
  predicate Truthful(s: State, r: Reason) {
    match r
    case BySignal => s.signalled && !AfterFatalWatch(s.main)
    case ByServeFailure => false
    case ByWatchError => s.watch == WatchExited(Fatal) && AfterFatalWatch(s.main)
  }

  predicate Recorded(s: State) {
    if PastRecord(s.main) && !s.alive then
      |Shutdowns(s.log)| == 1 && Truthful(s, Shutdowns(s.log)[0])
    else Shutdowns(s.log) == []
  }

  predicate Inv(s: State) { Goroutines(s) && Outcomes(s) && Recorded(s) }

  lemma StartInv(s: State)
    requires Start(s)
    ensures Inv(s)
  {
    NoShutdowns();
  }

  lemma MainKeeps(s: State)
    requires Inv(s) && MainEnabled(s)
    ensures Goroutines(StepMain(s)) && Outcomes(StepMain(s))
  {
    hide Shutdowns;
    hide SignalRecord;
  }

  lemma MainRecords(s: State)
    requires Inv(s) && MainEnabled(s)
    ensures Recorded(StepMain(s))
  {
    hide Shutdowns;
    ShutdownsNext(s.log, Starting);
    ShutdownsNext(s.log, ServerStopped);
    ShutdownsNext(s.log, ShuttingDown(BySignal));
    ShutdownsNext(s.log, ShuttingDown(ByWatchError));
    assert s.log + [] == s.log;
  }

  lemma ArmKeeps(s: State, a: Action)
    requires Inv(s) && Enabled(s, a)
    requires a.ChooseCanceled? || a.ChooseWatch? || a.ChooseServe?
    ensures Inv(Step(s, a))
  {
    hide Shutdowns;
    hide StepMain;
  }

  lemma OtherKeeps(s: State, a: Action)
    requires Inv(s) && Enabled(s, a)
    requires !a.MainStep? && !a.ChooseCanceled? && !a.ChooseWatch? && !a.ChooseServe?
    ensures Inv(Step(s, a))
  {
    hide Shutdowns;
    hide StepMain;
  }

  lemma StepKeepsInv(s: State, a: Action)
    requires Inv(s) && Enabled(s, a)
    ensures Inv(Step(s, a))
  {
    hide Goroutines;
    hide Outcomes;
    hide Recorded;
    hide StepMain;
    if a.MainStep? {
      MainKeeps(s);
      MainRecords(s);
    } else if a.ChooseCanceled? || a.ChooseWatch? || a.ChooseServe? {
      ArmKeeps(s, a);
    } else {
      OtherKeeps(s, a);
    }
  }

  lemma {:induction false} RunKeepsInv(states: seq<State>, actions: seq<Action>, i: nat)
    requires IsRun(states, actions) && i < |states|
    ensures Inv(states[i])
  {
    hide Inv;
    hide Start;
    hide Step;
    hide Enabled;
    if i == 0 {
      StartInv(states[0]);
    } else {
      RunKeepsInv(states, actions, i - 1);
      StepKeepsInv(states[i - 1], actions[i - 1]);
    }
  }

  // ----- the shutdown record

  /** There is never more than one shutdown record, and its reason is true. When main has
      returned there is exactly one, unless the session ended by itself and the context was
      alive when main looked. */
  lemma AtMostOneRecord(states: seq<State>, actions: seq<Action>, i: nat)
    requires IsRun(states, actions) && i < |states|
    ensures var s, records := states[i], Shutdowns(states[i].log);
            && |records| <= 1
            && (s.main.Returned? ==> (|records| == 0 <==> s.ended && s.alive))
            && forall r :: r in records ==> Truthful(s, r)
  {
    RunKeepsInv(states, actions, i);
    hide IsRun;
    hide Shutdowns;
  }

  /** What main returns: a fatal watch error, or else the outcome of the session, of which
      the end of its context is no error. */
  lemma VerdictIsHonest(states: seq<State>, actions: seq<Action>, i: nat)
    requires IsRun(states, actions) && i < |states| && states[i].main.Returned?
    ensures var s := states[i];
            && (s.main.verdict.WatchFailure? ==> s.watch == WatchExited(Fatal) && Shutdowns(s.log) == [ByWatchError])
            && (!s.main.verdict.WatchFailure? ==>
                 s.serve.ServeExited? && (s.main.verdict.SessionError? <==> s.serve.outcome.Broken?))
            && (s.main.verdict.Success? && !s.signalled ==> s.ended && s.alive)
  {
    RunKeepsInv(states, actions, i);
    hide IsRun;
    hide Shutdowns;
  }

  /** No send ever waits: at every send, the buffer of its channel is empty. */
  lemma NoSendWaits(states: seq<State>, actions: seq<Action>, i: nat)
    requires IsRun(states, actions) && i < |states|
    ensures states[i].serve.ServeSending? ==> states[i].serveDone.None?
    ensures states[i].watch.WatchSending? ==> states[i].watchDone.None?
  {
    RunKeepsInv(states, actions, i);
    hide IsRun;
    hide Shutdowns;
  }

  // ----- what states tell of the past

  /** What happened to the signal, the session and the watcher. */
  ghost predicate EventsHappened(s: State, early: bool, actions: seq<Action>, i: nat)
    requires i <= |actions|
  {
    && (s.signalled <==> early || Taken(actions, i, Signal))
    && (s.watch == WatchSending(Fatal) || s.watch == WatchExited(Fatal) <==> Taken(actions, i, WatchFails))
    && (s.ended <==> Taken(actions, i, ChooseServe))
  }

  /** How the session ended by itself. */
  ghost predicate SessionEnded(s: State, actions: seq<Action>, i: nat, outcome: SessionOutcome)
    requires i <= |actions|
  {
    s.serve == ServeSending(outcome) || s.serve == ServeExited(outcome) <==> Taken(actions, i, SessionEnds(outcome))
  }

  /** Main looked at a context that was alive, at step k. */
  predicate LooksAlive(s: State, a: Action) { a.MainStep? && s.main.CheckAfterServe? && !s.canceled }

  ghost predicate LookedAlive(states: seq<State>, actions: seq<Action>, i: nat)
    requires |states| == |actions| + 1 && i <= |actions|
  {
    exists k :: 0 <= k < i && LooksAlive(states[k], actions[k])
  }

  /** The records beside that of the shutdown. */
  predicate Logged(s: State) {
    && (Starting in s.log <==> !s.main.SpawnServe?)
    && (ServerStopped in s.log <==> s.main == Returned(Success))
  }

  lemma MainTouches(s: State)
    requires MainEnabled(s)
    ensures StepMain(s).watch == s.watch && StepMain(s).signalled == s.signalled
    ensures StepMain(s).ended == s.ended
    ensures StepMain(s).alive == if s.main.CheckAfterServe? then !s.canceled else s.alive
    ensures StepMain(s).serve == if s.main.SpawnServe? then Serving else s.serve
  {
    hide SignalRecord;
  }

  lemma EventStep(s: State, early: bool, actions: seq<Action>, i: nat)
    requires i < |actions| && Enabled(s, actions[i]) && EventsHappened(s, early, actions, i)
    ensures EventsHappened(Step(s, actions[i]), early, actions, i + 1)
  {
    hide Taken;
    if actions[i].MainStep? {
      MainTouches(s);
    }
    hide StepMain;
    TakenNext(actions, i, Signal);
    TakenNext(actions, i, WatchFails);
    TakenNext(actions, i, ChooseServe);
  }

  lemma ServeStep(s: State, a: Action)
    requires Enabled(s, a)
    ensures Step(s, a).serve ==
            match a
            case SessionEnds(o) => ServeSending(o)
            case ServeCanceled => ServeSending(ContextEnded)
            case ServeSends => ServeExited(s.serve.outcome)
            case MainStep => if s.main.SpawnServe? then Serving else s.serve
            case _ => s.serve
  {
    if a.MainStep? {
      MainTouches(s);
    }
    hide StepMain;
  }

  lemma SessionStep(s: State, actions: seq<Action>, i: nat, outcome: SessionOutcome)
    requires i < |actions| && Goroutines(s) && Enabled(s, actions[i]) && SessionEnded(s, actions, i, outcome)
    requires !outcome.ContextEnded?
    ensures SessionEnded(Step(s, actions[i]), actions, i + 1, outcome)
  {
    hide Taken;
    ServeStep(s, actions[i]);
    hide Step;
    TakenNext(actions, i, SessionEnds(outcome));
  }

  lemma LogStep(s: State, a: Action)
    requires Enabled(s, a) && Logged(s)
    ensures Logged(Step(s, a))
  {
    if a.MainStep? {
      MainLogs(s);
    }
    hide StepMain;
  }

  lemma MainLogs(s: State)
    requires MainEnabled(s) && Logged(s)
    ensures Logged(StepMain(s))
  {
  }

  lemma AliveStep(s: State, a: Action)
    requires Enabled(s, a) && (s.alive ==> PastRecord(s.main))
    ensures Step(s, a).alive <==> s.alive || LooksAlive(s, a)
  {
    if a.MainStep? {
      MainTouches(s);
    }
    hide StepMain;
  }

  lemma {:induction false} RunTells(states: seq<State>, actions: seq<Action>, i: nat)
    requires IsRun(states, actions) && i < |states|
    ensures EventsHappened(states[i], states[0].signalled, actions, i) && Logged(states[i])
    ensures SessionEnded(states[i], actions, i, Broken) && SessionEnded(states[i], actions, i, EndOfInput)
  {
    if i > 0 {
      hide EventsHappened;
      hide SessionEnded;
      hide Logged;
      hide Step;
      hide Enabled;
      hide Inv;
      RunTells(states, actions, i - 1);
      var s, a := states[i - 1], actions[i - 1];
      assert Enabled(s, a) && states[i] == Step(s, a);
      RunKeepsInv(states, actions, i - 1);
      InvTells(s);
      EventStep(s, states[0].signalled, actions, i - 1);
      SessionStep(s, actions, i - 1, Broken);
      SessionStep(s, actions, i - 1, EndOfInput);
      LogStep(s, a);
    }
  }

  lemma {:induction false} RunLooks(states: seq<State>, actions: seq<Action>, i: nat)
    requires IsRun(states, actions) && i < |states|
    ensures states[i].alive <==> LookedAlive(states, actions, i)
  {
    if i > 0 {
      hide LooksAlive;
      hide Step;
      hide Enabled;
      hide Inv;
      RunLooks(states, actions, i - 1);
      var s, a := states[i - 1], actions[i - 1];
      assert Enabled(s, a) && states[i] == Step(s, a);
      RunKeepsInv(states, actions, i - 1);
      InvTells(s);
      AliveStep(s, a);
    }
  }

  lemma InvTells(s: State)
    requires Inv(s)
    ensures Goroutines(s) && (s.alive ==> PastRecord(s.main))
  {
    hide Goroutines;
    hide Recorded;
  }

  /** The signal, the ends of the session and the watcher's error of which records and verdicts
      speak did happen. The record is missing exactly if the select was won by the session and
      main then found the context alive; the end of the server is logged exactly on success. */
  lemma EventsAreReal(states: seq<State>, actions: seq<Action>, i: nat)
    requires IsRun(states, actions) && i < |states|
    ensures var s := states[i];
            && (s.signalled <==> states[0].signalled || exists k :: 0 <= k < i && actions[k] == Signal)
            && (s.watch == WatchExited(Fatal) ==> exists k :: 0 <= k < i && actions[k] == WatchFails)
            && (s.serve == ServeExited(Broken) ==> exists k :: 0 <= k < i && actions[k] == SessionEnds(Broken))
            && (s.serve == ServeExited(EndOfInput) ==> exists k :: 0 <= k < i && actions[k] == SessionEnds(EndOfInput))
            && (s.ended && s.alive <==> LookedAlive(states, actions, i))
            && (Starting in s.log <==> !s.main.SpawnServe?)
            && (ServerStopped in s.log <==> s.main == Returned(Success))
  {
    RunTells(states, actions, i);
    RunLooks(states, actions, i);
    RunKeepsInv(states, actions, i);
    hide IsRun;
    hide Goroutines;
    hide Recorded;
    hide LookedAlive;
  }

  // ----- progress

  /** Nothing has happened yet: the session runs. */
  predicate Idle(s: State) { s.main.Selecting? && s.serve.Serving? && !s.canceled
          && (s.watch.NotWatching? || s.watch.Watching?) }

  /** No deadlock: unless main has returned, or everything just runs, some goroutine can go
      on by itself. */
  lemma NoDeadlock(states: seq<State>, actions: seq<Action>, i: nat) returns (a: Action)
    requires IsRun(states, actions) && i < |states|
    requires !states[i].main.Returned? && !Idle(states[i])
    ensures !External(a) && Enabled(states[i], a)
  {
    RunKeepsInv(states, actions, i);
    hide IsRun;
    hide Shutdowns;
    var s := states[i];
    a := if s.serve.ServeSending? then ServeSends
    else if s.watch.WatchSending? then WatchSends
    else match s.main
      case Selecting => if s.canceled then ChooseCanceled else if s.watchDone.Some? then ChooseWatch else ChooseServe
      case AwaitServe => if s.serve.Serving? then ServeCanceled else MainStep
      case _ => MainStep;
  }

  function MainRank(m: Main): nat {
    match m
    case SpawnServe => 6
    case Selecting => 5
    case LogSignal => 4
    case LogWatchError => 4
    case CheckAfterWatch => 4
    case CheckAfterServe(_) => 4
    case AwaitServe => 3
    case CancelAfterServe(_) => 3
    case CancelAfterWatch => 3
    case Report(_) => 2
    case Returned(_) => 0
  }

  function ServeRank(s: Serve): nat {
    match s case NoServe => 3 case Serving => 2 case ServeSending(_) => 1 case ServeExited(_) => 0
  }

  function Measure(s: State): nat {
    MainRank(s.main) + ServeRank(s.serve) + WatchRank(s.watch) + (if s.signalled then 0 else 1)
  }

  lemma MainGoesOn(s: State)
    requires MainEnabled(s)
    ensures MainRank(StepMain(s).main) < MainRank(s.main)
  {
    hide SignalRecord;
    if s.main.Report? {
      MainReturns(s);
    } else if s.main.SpawnServe? || s.main.AwaitServe? {
      MainServes(s);
    } else {
      MainStops(s);
    }
    hide StepMain;
    hide MainRank;
  }

  lemma MainReturns(s: State)
    requires s.main.Report?
    ensures MainRank(StepMain(s).main) < MainRank(s.main)
  {
  }

  lemma MainServes(s: State)
    requires MainEnabled(s) && (s.main.SpawnServe? || s.main.AwaitServe?)
    ensures MainRank(StepMain(s).main) < MainRank(s.main)
  {
  }

  lemma MainStops(s: State)
    requires MainEnabled(s) && !s.main.Report? && !s.main.SpawnServe? && !s.main.AwaitServe?
    ensures MainRank(StepMain(s).main) < MainRank(s.main)
  {
    hide SignalRecord;
  }

  lemma StepDecreases(s: State, a: Action)
    requires s.main.SpawnServe? ==> s.serve.NoServe?
    requires Enabled(s, a)
    ensures Measure(Step(s, a)) < Measure(s)
  {
    if a.MainStep? {
      MainGoesOn(s);
      MainTouches(s);
    }
    hide StepMain;
  }

  lemma StartMeasure(s: State)
    requires Start(s)
    ensures Measure(s) <= 12
  {
  }

  lemma SpawnedLater(s: State)
    requires Inv(s)
    ensures s.main.SpawnServe? ==> s.serve.NoServe?
  {
    hide Outcomes;
    hide Recorded;
  }

  /** Every run is short, so no interleaving goes on forever. */
  lemma {:induction false} RunsAreShort(states: seq<State>, actions: seq<Action>, i: nat)
    requires IsRun(states, actions) && i < |states|
    ensures i + Measure(states[i]) <= 12
  {
    hide Inv;
    hide Start;
    hide Measure;
    hide Step;
    hide Enabled;
    if i == 0 {
      StartMeasure(states[0]);
    } else {
      RunsAreShort(states, actions, i - 1);
      RunKeepsInv(states, actions, i - 1);
      SpawnedLater(states[i - 1]);
      StepDecreases(states[i - 1], actions[i - 1]);
    }
  }

  /** Every run that cannot go on has returned, once there was a signal, the end of the
      session or a failure of the watcher: no schedule hangs. */
  lemma MaximalRunsReturn(states: seq<State>, actions: seq<Action>)
    requires IsRun(states, actions)
    requires forall a: Action :: External(a) || !Enabled(states[|actions|], a)
    requires var s := states[|actions|]; s.signalled || s.serve.ServeExited? || s.watch == WatchExited(Fatal)
    ensures states[|actions|].main.Returned? && |actions| <= 12
  {
    RunsAreShort(states, actions, |actions|);
    RunKeepsInv(states, actions, |actions|);
    if !states[|actions|].main.Returned? {
      assert !Idle(states[|actions|]);
      var a := NoDeadlock(states, actions, |actions|);
    }
  }
}

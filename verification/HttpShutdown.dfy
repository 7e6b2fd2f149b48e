/** Running the HTTP server and shutting it down: the main, shutdown, serve and watch
    goroutines as one state machine, with every interleaving of their steps (server.go). */
module HttpShutdown {
  import opened Results
  import opened Lifecycle
  import opened Runs

  /** What the listener returned: closed by Shutdown, or an error of its own. */
  datatype ServeOutcome = Closed | Failed

  datatype Verdict = PolicyError | WatchFailure | ServeError | Success

  /** The statements of the main goroutine, from the policy check on. The outcome that a
      statement carries is serveErr, None standing for nil. */
  datatype Main =
    | CheckPolicy
    | SpawnShutdown
    | SpawnServe
    | Announce
    | Selecting
    | QueueWatchError
    | CancelAfterWatch
    | AwaitShutdownAfterWatch
    | AwaitServeAfterWatch
    | QueueServeFailure(failure: ServeOutcome)
    | CancelRun(serveErr: Option<ServeOutcome>)
    | AwaitShutdown(serveErr: Option<ServeOutcome>)
    | AwaitServe
    | Report(outcome: ServeOutcome)
    | Returned(verdict: Verdict)

  datatype Shutdown = NoShutdown | AwaitCancel | TakeReason | LogReason(reason: Reason) | CallShutdown | Draining
      | CloseDone | ShutdownExited

  datatype Serve = NoServe | Serving | ServeSending(outcome: ServeOutcome) | ServeExited(outcome: ServeOutcome)

  datatype State = State(
    main: Main, shutdown: Shutdown, serve: Serve, watch: Watch,
    stopReason: Option<Reason>, serveDone: Option<ServeOutcome>, watchDone: Option<WatchOutcome>,
    canceled: bool, signalled: bool, log: seq<Record>)

  /** The external events are a signal, a failure of the listener and a failure of the
      watcher. The three select arms compete; everything else is one statement. */
  datatype Action =
    | Signal
    | ServeFails
    | WatchFails
    | PolicyAnswers(accepted: bool)
    | ChooseCanceled
    | ChooseWatch
    | ChooseServe
    | MainStep
    | ShutdownStep
    | ServeClosed
    | ServeSends
    | WatchCanceled
    | WatchSends

  predicate External(a: Action) { a.Signal? || a.ServeFails? || a.WatchFails? }

  /** Shutdown has been called, which makes the listener return, be it before connections are
      drained or after. */
  predicate ShutdownCalled(s: State) { s.shutdown.Draining? || s.shutdown.CloseDone? || s.shutdown.ShutdownExited? }

  predicate MainEnabled(s: State) {
    match s.main
    case SpawnShutdown | SpawnServe | Announce | CancelAfterWatch | CancelRun(_) | Report(_) => true
    case QueueWatchError | QueueServeFailure(_) => s.stopReason.None?
    case AwaitShutdownAfterWatch | AwaitShutdown(_) => s.shutdown.ShutdownExited?
    case AwaitServeAfterWatch | AwaitServe => s.serveDone.Some?
    case CheckPolicy | Selecting | Returned(_) => false
  }

  predicate ShutdownEnabled(s: State) {
    match s.shutdown
    case NoShutdown | ShutdownExited => false
    case AwaitCancel => s.canceled
    case _ => true
  }

  predicate Enabled(s: State, a: Action) {
    match a
    case Signal => !s.signalled
    case ServeFails => s.serve.Serving?
    case WatchFails => s.watch.Watching?
    case PolicyAnswers(_) => s.main.CheckPolicy?
    case ChooseCanceled => s.main.Selecting? && s.canceled
    case ChooseWatch => s.main.Selecting? && s.watchDone.Some?
    case ChooseServe => s.main.Selecting? && s.serveDone.Some?
    case MainStep => MainEnabled(s)
    case ShutdownStep => ShutdownEnabled(s)
    case ServeClosed => s.serve.Serving? && ShutdownCalled(s)
    case ServeSends => s.serve.ServeSending? && s.serveDone.None?
    case WatchCanceled => s.watch.Watching? && s.canceled
    case WatchSends => s.watch.WatchSending? && s.watchDone.None?
  }

  /** Returning runs the deferred cancel. */
  function Return(s: State, v: Verdict): State { s.(main := Returned(v), canceled := true) }

  function StepMain(s: State): State
    requires MainEnabled(s)
  {
    match s.main
    case SpawnShutdown => s.(main := SpawnServe, shutdown := AwaitCancel)
    case SpawnServe => s.(main := Announce, serve := Serving)
    case Announce => s.(main := Selecting, log := s.log + [Starting])
    case QueueWatchError => s.(main := CancelAfterWatch, stopReason := Some(ByWatchError))
    case CancelAfterWatch => s.(main := AwaitShutdownAfterWatch, canceled := true)
    case AwaitShutdownAfterWatch => s.(main := AwaitServeAfterWatch)
    case AwaitServeAfterWatch => Return(s.(serveDone := None), WatchFailure)
    case QueueServeFailure(o) => s.(main := CancelRun(Some(o)), stopReason := Some(ByServeFailure))
    case CancelRun(e) => s.(main := AwaitShutdown(e), canceled := true)
    case AwaitShutdown(e) => s.(main := if e.Some? then Report(e.value) else AwaitServe)
    case AwaitServe => s.(main := Report(s.serveDone.value), serveDone := None)
    case Report(o) => if o.Failed? then Return(s, ServeError) else Return(s.(log := s.log + [ServerStopped]), Success)
  }

  /** The reason is whatever has been queued by now, or else a signal. */
  function StepShutdown(s: State): State
    requires ShutdownEnabled(s)
  {
    match s.shutdown
    case AwaitCancel => s.(shutdown := TakeReason)
    case TakeReason => s.(shutdown := LogReason(if s.stopReason.Some? then s.stopReason.value else BySignal),
        stopReason := None)
    case LogReason(r) => s.(shutdown := CallShutdown, log := s.log + [ShuttingDown(r)])
    case CallShutdown => s.(shutdown := Draining)
    case Draining => s.(shutdown := CloseDone)
    case CloseDone => s.(shutdown := ShutdownExited)
  }

  function Step(s: State, a: Action): State
    requires Enabled(s, a)
  {
    match a
    case Signal => s.(signalled := true, canceled := true)
    case ServeFails => s.(serve := ServeSending(Failed))
    case WatchFails => s.(watch := WatchSending(Fatal))
    case PolicyAnswers(accepted) => if accepted then s.(main := SpawnShutdown) else Return(s, PolicyError)
    case ChooseCanceled => s.(main := CancelRun(None))
    case ChooseWatch => s.(watchDone := None,
        main := if s.watchDone.value.Fatal? then QueueWatchError else CancelRun(None))
    case ChooseServe => s.(serveDone := None, main := QueueServeFailure(s.serveDone.value))
    case MainStep => StepMain(s)
    case ShutdownStep => StepShutdown(s)
    case ServeClosed => s.(serve := ServeSending(Closed))
    case ServeSends => s.(serve := ServeExited(s.serve.outcome), serveDone := Some(s.serve.outcome))
    case WatchCanceled => s.(watch := WatchSending(Canceled))
    case WatchSends => s.(watch := WatchExited(s.watch.outcome), watchDone := Some(s.watch.outcome))
  }

  predicate Start(s: State) {
    && s == State(CheckPolicy, NoShutdown, NoServe, s.watch, None, None, None, s.signalled, s.signalled, [])
    && (s.watch.NotWatching? || s.watch.Watching?)
  }

  /** The states of a run: each is the step of the one before. */
  ghost predicate IsRun(states: seq<State>, actions: seq<Action>) {
    && |states| == |actions| + 1
    && Start(states[0])
    && forall i :: 0 <= i < |actions| ==> Enabled(states[i], actions[i]) && states[i + 1] == Step(states[i], actions[i])
  }

  // ----- what every step keeps

  predicate Early(m: Main) { m.CheckPolicy? || m.SpawnShutdown? }

  predicate BeforeChoice(m: Main) { Early(m) || m.SpawnServe? || m.Announce? || m.Selecting? }

  predicate Rejected(m: Main) { m == Returned(PolicyError) }

  /** Main has called cancel, or is returning. */
  predicate HasCanceled(m: Main) {
    m.AwaitShutdownAfterWatch? || m.AwaitServeAfterWatch? || m.AwaitShutdown? || m.AwaitServe? || m.Report?
        || m.Returned?
  }

  /** Main has taken the outcome of the listener. */
  predicate HasOutcome(m: Main) {
    match m
    case QueueServeFailure(_) | Report(_) => true
    case CancelRun(e) => e.Some?
    case AwaitShutdown(e) => e.Some?
    case Returned(_) => true
    case _ => false
  }

  /** Main has queued a reason. */
  predicate HasQueued(m: Main) {
    match m
    case CancelAfterWatch | AwaitShutdownAfterWatch | AwaitServeAfterWatch => true
    case CancelRun(e) => e.Some?
    case AwaitShutdown(e) => e.Some?
    case AwaitServe => false
    case _ => HasCanceled(m)
  }

  predicate AfterFatalWatch(m: Main) {
    m.QueueWatchError? || m.CancelAfterWatch? || m.AwaitShutdownAfterWatch? || m.AwaitServeAfterWatch?
        || m == Returned(WatchFailure)
  }

  predicate PastReason(s: Shutdown) { s.LogReason? || s.CallShutdown? || s.Draining? || s.CloseDone?
          || s.ShutdownExited? }

  predicate PastRecord(s: Shutdown) { s.CallShutdown? || s.Draining? || s.CloseDone? || s.ShutdownExited? }

  predicate PastShutdownWait(m: Main) { m.AwaitServeAfterWatch? || m.AwaitServe? || m.Report?
          || (m.Returned? && !Rejected(m)) }

  predicate Goroutines(s: State) {
    && (s.shutdown.NoShutdown? <==> Early(s.main) || Rejected(s.main))
    && (s.serve.NoServe? <==> Early(s.main) || s.main.SpawnServe? || Rejected(s.main))
    && (s.watch.WatchExited? || s.watchDone.None?)
    && (s.watchDone.Some? ==> s.watch == WatchExited(s.watchDone.value))
    && (BeforeChoice(s.main) && s.watch.WatchExited? ==> s.watchDone.Some?)
    && (AfterFatalWatch(s.main) ==> s.watch == WatchExited(Fatal) && s.watchDone.None?)
    && (s.serveDone.Some? <==> s.serve.ServeExited? && !HasOutcome(s.main))
    && (s.serveDone.Some? ==> s.serve == ServeExited(s.serveDone.value))
    && (HasOutcome(s.main) && !Rejected(s.main) ==> s.serve.ServeExited?)
  }

  predicate Outcomes(s: State) {
    && (s.main.QueueServeFailure? ==> s.serve == ServeExited(s.main.failure))
    && ((s.main.CancelRun? || s.main.AwaitShutdown?) && s.main.serveErr.Some? ==>
         s.serve == ServeExited(s.main.serveErr.value))
    && (s.main.Report? ==> s.serve == ServeExited(s.main.outcome))
    && (s.main == Returned(ServeError) ==> s.serve == ServeExited(Failed))
    && (s.main == Returned(Success) ==> s.serve == ServeExited(Closed))
    && ((s.serve == ServeSending(Closed) || s.serve == ServeExited(Closed)) ==> ShutdownCalled(s))
  }

  predicate Cancellation(s: State) {
    && (s.signalled ==> s.canceled)
    && (HasCanceled(s.main) ==> s.canceled)
    && (!HasCanceled(s.main) && s.canceled ==> s.signalled)
    && (s.main.CancelRun? && s.main.serveErr.None? ==> s.signalled)
    && (s.main.AwaitShutdown? && s.main.serveErr.None? ==> s.signalled)
    && (s.main.AwaitServe? ==> s.signalled)
    && ((s.watch == WatchSending(Canceled) || s.watch == WatchExited(Canceled)) ==> s.canceled)
    && (!s.shutdown.NoShutdown? && !s.shutdown.AwaitCancel? ==> s.canceled)
    && (PastShutdownWait(s.main) ==> s.shutdown.ShutdownExited?)
  }

  /** A queued reason waits for the shutdown goroutine, unless that has read none. */
  predicate Queue(s: State) {
    && (s.stopReason.Some? ==> HasQueued(s.main))
    && (s.canceled && !s.signalled && !s.shutdown.NoShutdown? && !PastReason(s.shutdown) ==> s.stopReason.Some?)
    && (HasQueued(s.main) && !s.main.Returned? && !s.main.Report? && !PastReason(s.shutdown) ==> s.stopReason.Some?)
    && (s.stopReason == Some(ByWatchError) ==> AfterFatalWatch(s.main))
    && (s.stopReason == Some(ByServeFailure) ==> s.serve.ServeExited?)
    && s.stopReason != Some(BySignal)
  }

  /** What a reason for shutting down claims. */
  predicate Truthful(s: State, r: Reason) {
    match r
    case BySignal => s.signalled
    case ByServeFailure => s.serve == ServeExited(Failed)
    case ByWatchError => s.watch == WatchExited(Fatal) && AfterFatalWatch(s.main)
  }

  /** Main goes on with the outcome of a listener that Shutdown has closed. */
  predicate ReportsClosed(m: Main) {
    match m
    case QueueServeFailure(o) => o.Closed?
    case Report(o) => o.Closed?
    case CancelRun(e) => e == Some(Closed)
    case AwaitShutdown(e) => e == Some(Closed)
    case Returned(v) => v.Success?
    case _ => false
  }

  predicate Recorded(s: State) {
    && (s.shutdown.LogReason? ==> Truthful(s, s.shutdown.reason))
    && (if PastRecord(s.shutdown)
        then |Shutdowns(s.log)| == 1 && Truthful(s, Shutdowns(s.log)[0])
        else Shutdowns(s.log) == [])
    && (ReportsClosed(s.main) ==> s.signalled)
  }

  predicate Inv(s: State) { Goroutines(s) && Outcomes(s) && Cancellation(s) && Queue(s) && Recorded(s) }

  lemma StartInv(s: State)
    requires Start(s)
    ensures Inv(s)
  {
    NoShutdowns();
  }

  lemma SpawnKeeps(s: State)
    requires Inv(s) && (s.main.SpawnShutdown? || s.main.SpawnServe?)
    ensures Inv(Step(s, MainStep))
  {
    hide Shutdowns;
  }

  lemma AnnounceKeeps(s: State)
    requires Inv(s) && s.main.Announce?
    ensures Inv(Step(s, MainStep))
  {
    hide Shutdowns;
    ShutdownsNext(s.log, Starting);
  }

  lemma QueueWatchErrorKeeps(s: State)
    requires Inv(s) && Enabled(s, MainStep) && s.main.QueueWatchError?
    ensures Inv(Step(s, MainStep))
  {
    hide Shutdowns;
  }

  lemma WatchErrorKeeps(s: State)
    requires Inv(s) && Enabled(s, MainStep)
    requires s.main.CancelAfterWatch? || s.main.AwaitShutdownAfterWatch? || s.main.AwaitServeAfterWatch?
    ensures Inv(Step(s, MainStep))
  {
    hide Shutdowns;
  }

  lemma QueueKeeps(s: State)
    requires Inv(s) && Enabled(s, MainStep) && s.main.QueueServeFailure?
    ensures Inv(Step(s, MainStep))
  {
    hide Shutdowns;
  }

  lemma AwaitShutdownKeeps(s: State)
    requires Inv(s) && Enabled(s, MainStep) && s.main.AwaitShutdown?
    ensures Inv(Step(s, MainStep))
  {
    hide Shutdowns;
  }

  lemma CancelKeeps(s: State)
    requires Inv(s) && s.main.CancelRun?
    ensures Inv(Step(s, MainStep))
  {
    hide Shutdowns;
  }

  lemma AwaitServeKeeps(s: State)
    requires Inv(s) && Enabled(s, MainStep) && s.main.AwaitServe?
    ensures Inv(Step(s, MainStep))
  {
    hide Shutdowns;
  }

  lemma ReportKeeps(s: State)
    requires Inv(s) && s.main.Report?
    ensures Inv(Step(s, MainStep))
  {
    hide Shutdowns;
    ShutdownsNext(s.log, ServerStopped);
  }

  /** The shutdown goroutine decides on the reason. */
  lemma TakeReasonKeeps(s: State)
    requires Inv(s) && s.shutdown.TakeReason?
    ensures Inv(Step(s, ShutdownStep))
  {
    hide Shutdowns;
    assert s.serve.ServeExited? ==> s.serve.outcome.Closed? || s.serve.outcome.Failed?;
  }

  lemma LogReasonKeeps(s: State)
    requires Inv(s) && s.shutdown.LogReason?
    ensures Inv(Step(s, ShutdownStep))
  {
    hide Shutdowns;
    ShutdownsNext(s.log, ShuttingDown(s.shutdown.reason));
  }

  lemma AwaitCancelKeeps(s: State)
    requires Inv(s) && Enabled(s, ShutdownStep) && s.shutdown.AwaitCancel?
    ensures Inv(Step(s, ShutdownStep))
  {
    hide Shutdowns;
    hide StepMain;
  }

  lemma CallShutdownKeeps(s: State)
    requires Inv(s) && s.shutdown.CallShutdown?
    ensures Inv(Step(s, ShutdownStep))
  {
    hide Shutdowns;
    hide StepMain;
  }

  lemma DrainKeeps(s: State)
    requires Inv(s) && (s.shutdown.Draining? || s.shutdown.CloseDone?)
    ensures Inv(Step(s, ShutdownStep))
  {
    hide Shutdowns;
    hide StepMain;
  }

  lemma ArmKeeps(s: State, a: Action)
    requires Inv(s) && Enabled(s, a)
    requires a.ChooseCanceled? || a.ChooseWatch?
    ensures Inv(Step(s, a))
  {
    hide Shutdowns;
    hide StepMain;
    hide StepShutdown;
  }

  lemma ChooseServeKeeps(s: State)
    requires Inv(s) && Enabled(s, ChooseServe)
    ensures Inv(Step(s, ChooseServe))
  {
    hide Shutdowns;
    hide StepMain;
    hide StepShutdown;
  }

  lemma ServeKeeps(s: State, a: Action)
    requires Inv(s) && Enabled(s, a)
    requires a.ServeFails? || a.ServeClosed? || a.ServeSends?
    ensures Inv(Step(s, a))
  {
    hide Shutdowns;
    hide StepMain;
    hide StepShutdown;
  }

  lemma WatchKeeps(s: State, a: Action)
    requires Inv(s) && Enabled(s, a)
    requires a.WatchFails? || a.WatchCanceled? || a.WatchSends?
    ensures Inv(Step(s, a))
  {
    hide Shutdowns;
    hide StepMain;
    hide StepShutdown;
  }

  lemma SignalKeeps(s: State, a: Action)
    requires Inv(s) && Enabled(s, a) && (a.Signal? || a.PolicyAnswers?)
    ensures Inv(Step(s, a))
  {
    hide Shutdowns;
    hide StepMain;
    hide StepShutdown;
  }

  lemma StepKeepsInv(s: State, a: Action)
    requires Inv(s) && Enabled(s, a)
    ensures Inv(Step(s, a))
  {
    hide Inv;
    hide Step;
    match a
    case MainStep =>
      match s.main {
        case SpawnShutdown | SpawnServe => SpawnKeeps(s);
        case Announce => AnnounceKeeps(s);
        case QueueServeFailure(_) => QueueKeeps(s);
        case CancelRun(_) => CancelKeeps(s);
        case AwaitShutdown(_) => AwaitShutdownKeeps(s);
        case AwaitServe => AwaitServeKeeps(s);
        case Report(_) => ReportKeeps(s);
        case QueueWatchError => QueueWatchErrorKeeps(s);
        case _ => WatchErrorKeeps(s);
      }
    case ShutdownStep =>
      match s.shutdown {
        case AwaitCancel => AwaitCancelKeeps(s);
        case TakeReason => TakeReasonKeeps(s);
        case LogReason(_) => LogReasonKeeps(s);
        case CallShutdown => CallShutdownKeeps(s);
        case _ => DrainKeeps(s);
      }
    case ChooseCanceled | ChooseWatch => ArmKeeps(s, a);
    case ChooseServe => ChooseServeKeeps(s);
    case ServeFails | ServeClosed | ServeSends => ServeKeeps(s, a);
    case Signal | PolicyAnswers(_) => SignalKeeps(s, a);
    case _ => WatchKeeps(s, a);
  }

  lemma {:induction false} RunKeepsInv(states: seq<State>, actions: seq<Action>, i: nat)
    requires IsRun(states, actions) && i < |states|
    ensures Inv(states[i])
  {
    hide Inv;
    hide Start;
    hide Step;
    hide Enabled;
    if i == 0 {
      StartInv(states[0]);
    } else {
      RunKeepsInv(states, actions, i - 1);
      StepKeepsInv(states[i - 1], actions[i - 1]);
    }
  }

  // ----- the shutdown record

  /** Whenever main has returned, past the policy check, exactly one shutdown record has been
      logged, and its reason is true: a signal did arrive, the listener did fail on its own
      before Shutdown was called, or the watcher did fail. Before that there is at most one. */
  lemma OneTruthfulRecord(states: seq<State>, actions: seq<Action>, i: nat)
    requires IsRun(states, actions) && i < |states|
    ensures var s, records := states[i], Shutdowns(states[i].log);
            && |records| <= 1
            && (s.main.Returned? ==> |records| == if s.main.verdict.PolicyError? then 0 else 1)
            && forall r :: r in records ==> Truthful(s, r)
  {
    RunKeepsInv(states, actions, i);
    hide IsRun;
    hide Shutdowns;
  }

  /** No send ever waits: at every send, the buffer of its channel is empty. */
  lemma NoSendWaits(states: seq<State>, actions: seq<Action>, i: nat)
    requires IsRun(states, actions) && i < |states|
    ensures var s := states[i];
            && (s.main.QueueWatchError? || s.main.QueueServeFailure? ==> s.stopReason.None?)
            && (s.serve.ServeSending? ==> s.serveDone.None?)
            && (s.watch.WatchSending? ==> s.watchDone.None?)
  {
    RunKeepsInv(states, actions, i);
    hide IsRun;
    hide Shutdowns;
  }

  /** What main returns says what happened: an error of the listener is swallowed only in
      favour of a fatal watch error, success means a listener closed after a signal, and
      without a signal or an error of the listener a fatal watch error is always returned. */
  lemma VerdictIsHonest(states: seq<State>, actions: seq<Action>, i: nat)
    requires IsRun(states, actions) && i < |states| && states[i].main.Returned?
    requires !states[i].main.verdict.PolicyError?
    ensures var s := states[i];
            && s.serve.ServeExited?
            && (s.main.verdict.WatchFailure? ==> s.watch == WatchExited(Fatal))
            && (s.main.verdict.ServeError? ==> s.serve.outcome.Failed?)
            && (s.serve.outcome.Failed? ==> s.main.verdict.ServeError? || s.main.verdict.WatchFailure?)
            && (s.main.verdict.Success? ==> s.signalled && Shutdowns(s.log) == [BySignal])
            && (!s.signalled && s.serve.outcome.Closed? ==> s.main.verdict.WatchFailure?)
  {
    RunKeepsInv(states, actions, i);
    hide IsRun;
    hide Shutdowns;
  }

  // ----- what states tell of the past

  /** How the policy check was answered. */
  ghost predicate PolicyAnswered(s: State, actions: seq<Action>, i: nat)
    requires i <= |actions|
  {
    && (Rejected(s.main) <==> Taken(actions, i, PolicyAnswers(false)))
    && (!s.main.CheckPolicy? && !Rejected(s.main) <==> Taken(actions, i, PolicyAnswers(true)))
  }

  /** What happened to the signal, the listener and the watcher. */
  ghost predicate EventsHappened(s: State, early: bool, actions: seq<Action>, i: nat)
    requires i <= |actions|
  {
    && (s.signalled <==> early || Taken(actions, i, Signal))
    && (s.serve == ServeSending(Failed) || s.serve == ServeExited(Failed) <==> Taken(actions, i, ServeFails))
    && (s.watch == WatchSending(Fatal) || s.watch == WatchExited(Fatal) <==> Taken(actions, i, WatchFails))
  }

  predicate Announced(m: Main) { !Early(m) && !m.SpawnServe? && !m.Announce? && !Rejected(m) }

  /** The records beside those of the shutdown. */
  predicate Logged(s: State) {
    && (Starting in s.log <==> Announced(s.main))
    && (ServerStopped in s.log <==> s.main == Returned(Success))
  }

  lemma MainIsPastPolicy(s: State)
    requires MainEnabled(s)
    ensures !StepMain(s).main.CheckPolicy? && !Rejected(StepMain(s).main)
    ensures !s.main.CheckPolicy? && !Rejected(s.main)
  {
  }

  lemma PolicyStep(s: State, actions: seq<Action>, i: nat)
    requires i < |actions| && Enabled(s, actions[i]) && PolicyAnswered(s, actions, i)
    ensures PolicyAnswered(Step(s, actions[i]), actions, i + 1)
  {
    hide Taken;
    if actions[i].MainStep? {
      MainIsPastPolicy(s);
    } else if actions[i].ShutdownStep? {
      ShutdownTouches(s);
    }
    hide StepMain;
    hide StepShutdown;
    TakenNext(actions, i, PolicyAnswers(true));
    TakenNext(actions, i, PolicyAnswers(false));
  }

  lemma MainTouches(s: State)
    requires MainEnabled(s)
    ensures var s' := StepMain(s);
            && s'.watch == s.watch && s'.signalled == s.signalled
            && s'.shutdown == (if s.main.SpawnShutdown? then AwaitCancel else s.shutdown)
            && s'.serve == (if s.main.SpawnServe? then Serving else s.serve)
  {
  }

  lemma ShutdownTouches(s: State)
    requires ShutdownEnabled(s)
    ensures var s' := StepShutdown(s);
            && s'.main == s.main && s'.serve == s.serve && s'.watch == s.watch && s'.signalled == s.signalled
            && s'.log == s.log + (if s.shutdown.LogReason? then [ShuttingDown(s.shutdown.reason)] else [])
  {
  }

  /** What a step makes of the listener, the watcher and the signal. */
  lemma OutcomesStep(s: State, a: Action)
    requires Enabled(s, a)
    ensures var s' := Step(s, a);
            && s'.signalled == (s.signalled || a.Signal?)
            && s'.serve == (match a
                            case ServeFails => ServeSending(Failed)
                            case ServeClosed => ServeSending(Closed)
                            case ServeSends => ServeExited(s.serve.outcome)
                            case MainStep => if s.main.SpawnServe? then Serving else s.serve
                            case _ => s.serve)
            && s'.watch == (match a
                            case WatchFails => WatchSending(Fatal)
                            case WatchCanceled => WatchSending(Canceled)
                            case WatchSends => WatchExited(s.watch.outcome)
                            case _ => s.watch)
  {
    if a.MainStep? {
      MainTouches(s);
    } else if a.ShutdownStep? {
      ShutdownTouches(s);
    }
    hide StepMain;
    hide StepShutdown;
  }

  lemma EventStep(s: State, early: bool, actions: seq<Action>, i: nat)
    requires i < |actions| && Goroutines(s) && Enabled(s, actions[i]) && EventsHappened(s, early, actions, i)
    ensures EventsHappened(Step(s, actions[i]), early, actions, i + 1)
  {
    hide Taken;
    OutcomesStep(s, actions[i]);
    hide Step;
    TakenNext(actions, i, Signal);
    TakenNext(actions, i, ServeFails);
    TakenNext(actions, i, WatchFails);
  }

  lemma LogStep(s: State, a: Action)
    requires Enabled(s, a) && Logged(s)
    ensures Logged(Step(s, a))
  {
    if a.ShutdownStep? {
      ShutdownTouches(s);
    } else if a.MainStep? {
      MainLogs(s);
    }
    hide StepMain;
    hide StepShutdown;
  }

  lemma MainLogs(s: State)
    requires MainEnabled(s) && Logged(s)
    ensures Logged(StepMain(s))
  {
  }

  lemma {:induction false} RunTells(states: seq<State>, actions: seq<Action>, i: nat)
    requires IsRun(states, actions) && i < |states|
    ensures PolicyAnswered(states[i], actions, i) && Logged(states[i])
    ensures EventsHappened(states[i], states[0].signalled, actions, i)
  {
    if i > 0 {
      hide PolicyAnswered;
      hide EventsHappened;
      hide Logged;
      hide Step;
      hide Enabled;
      hide Inv;
      RunTells(states, actions, i - 1);
      var s, a := states[i - 1], actions[i - 1];
      assert Enabled(s, a) && states[i] == Step(s, a);
      RunKeepsInv(states, actions, i - 1);
      InvGoroutines(s);
      PolicyStep(s, actions, i - 1);
      EventStep(s, states[0].signalled, actions, i - 1);
      LogStep(s, a);
    }
  }

  lemma InvGoroutines(s: State)
    requires Inv(s)
    ensures Goroutines(s)
  {
    hide Goroutines;
    hide Outcomes;
    hide Cancellation;
    hide Queue;
    hide Recorded;
  }

  /** In every run: the policy error is returned exactly if the policy check failed, and
      nothing is served or announced unless it succeeded. */
  lemma PolicyDecides(states: seq<State>, actions: seq<Action>, i: nat)
    requires IsRun(states, actions) && i < |states|
    ensures states[i].main == Returned(PolicyError) <==> exists k :: 0 <= k < i && actions[k] == PolicyAnswers(false)
    ensures !states[i].serve.NoServe? || Starting in states[i].log ==>
            exists k :: 0 <= k < i && actions[k] == PolicyAnswers(true)
  {
    RunTells(states, actions, i);
    RunKeepsInv(states, actions, i);
    InvGoroutines(states[i]);
    hide IsRun;
    hide Inv;
  }

  /** The signal, the listener's error and the watcher's error of which records and verdicts
      speak did happen; the end of the server is logged exactly on success. */
  lemma EventsAreReal(states: seq<State>, actions: seq<Action>, i: nat)
    requires IsRun(states, actions) && i < |states|
    ensures var s := states[i];
            && (s.signalled <==> states[0].signalled || exists k :: 0 <= k < i && actions[k] == Signal)
            && (s.serve == ServeExited(Failed) ==> exists k :: 0 <= k < i && actions[k] == ServeFails)
            && (s.watch == WatchExited(Fatal) ==> exists k :: 0 <= k < i && actions[k] == WatchFails)
            && (Starting in s.log <==> Announced(s.main))
            && (ServerStopped in s.log <==> s.main == Returned(Success))
  {
    RunTells(states, actions, i);
    hide IsRun;
  }

  // ----- progress

  /** Nothing has happened yet: the server serves. */
  predicate Idle(s: State) { s.main.Selecting? && s.serve.Serving? && !s.canceled
          && (s.watch.NotWatching? || s.watch.Watching?) }

  /** No deadlock: unless main has returned, or everything just runs, some goroutine can go
      on by itself. */
  lemma NoDeadlock(states: seq<State>, actions: seq<Action>, i: nat) returns (a: Action)
    requires IsRun(states, actions) && i < |states|
    requires !states[i].main.Returned? && !Idle(states[i])
    ensures !External(a) && Enabled(states[i], a)
  {
    RunKeepsInv(states, actions, i);
    hide IsRun;
    hide Shutdowns;
    var s := states[i];
    a := if ShutdownEnabled(s) then ShutdownStep
    else if s.serve.ServeSending? then ServeSends
    else if s.watch.WatchSending? then WatchSends
    else match s.main
      case CheckPolicy => PolicyAnswers(true)
      case Selecting => if s.canceled then ChooseCanceled else if s.watchDone.Some? then ChooseWatch else ChooseServe
      case AwaitServeAfterWatch | AwaitServe => if s.serve.Serving? then ServeClosed else MainStep
      case _ => MainStep;
  }

  function MainRank(m: Main): nat {
    match m
    case CheckPolicy => 12
    case SpawnShutdown => 11
    case SpawnServe => 10
    case Announce => 9
    case Selecting => 8
    case QueueServeFailure(_) => 7
    case CancelRun(_) => 6
    case AwaitShutdown(_) => 5
    case AwaitServe => 4
    case Report(_) => 3
    case QueueWatchError => 7
    case CancelAfterWatch => 6
    case AwaitShutdownAfterWatch => 5
    case AwaitServeAfterWatch => 4
    case Returned(_) => 0
  }

  function ShutdownRank(s: Shutdown): nat {
    match s
    case NoShutdown => 7
    case AwaitCancel => 6
    case TakeReason => 5
    case LogReason(_) => 4
    case CallShutdown => 3
    case Draining => 2
    case CloseDone => 1
    case ShutdownExited => 0
  }

  function ServeRank(s: Serve): nat {
    match s case NoServe => 3 case Serving => 2 case ServeSending(_) => 1 case ServeExited(_) => 0
  }

  function Measure(s: State): nat {
    MainRank(s.main) + ShutdownRank(s.shutdown) + ServeRank(s.serve) + WatchRank(s.watch)
        + (if s.signalled then 0 else 1)
  }

  /** A goroutine that main is about to start does not run yet. */
  predicate NotYetSpawned(s: State) {
    (s.main.SpawnShutdown? ==> s.shutdown.NoShutdown?) && (s.main.SpawnServe? ==> s.serve.NoServe?)
  }

  lemma MainGoesOn(s: State)
    requires MainEnabled(s)
    ensures MainRank(StepMain(s).main) < MainRank(s.main)
  {
  }

  lemma MainDecreases(s: State)
    requires NotYetSpawned(s) && MainEnabled(s)
    ensures Measure(StepMain(s)) < Measure(s)
  {
    MainGoesOn(s);
    MainTouches(s);
    hide StepMain;
    hide MainRank;
    hide WatchRank;
  }

  lemma ShutdownDecreases(s: State)
    requires ShutdownEnabled(s)
    ensures Measure(StepShutdown(s)) < Measure(s)
  {
    hide MainRank;
    hide ServeRank;
    hide WatchRank;
  }

  lemma StepDecreases(s: State, a: Action)
    requires NotYetSpawned(s) && Enabled(s, a)
    ensures Measure(Step(s, a)) < Measure(s)
  {
    if a.MainStep? {
      MainDecreases(s);
    } else if a.ShutdownStep? {
      ShutdownDecreases(s);
    }
    hide StepMain;
    hide StepShutdown;
  }

  lemma StartMeasure(s: State)
    requires Start(s)
    ensures Measure(s) <= 25
  {
  }

  lemma SpawnedLater(s: State)
    requires Inv(s)
    ensures NotYetSpawned(s)
  {
    hide Outcomes;
    hide Cancellation;
    hide Queue;
    hide Recorded;
  }

  /** Every run is short, so no interleaving goes on forever. */
  lemma {:induction false} RunsAreShort(states: seq<State>, actions: seq<Action>, i: nat)
    requires IsRun(states, actions) && i < |states|
    ensures i + Measure(states[i]) <= 25
  {
    hide Inv;
    hide Start;
    hide NotYetSpawned;
    hide Measure;
    hide Step;
    hide Enabled;
    if i == 0 {
      StartMeasure(states[0]);
    } else {
      RunsAreShort(states, actions, i - 1);
      RunKeepsInv(states, actions, i - 1);
      SpawnedLater(states[i - 1]);
      StepDecreases(states[i - 1], actions[i - 1]);
    }
  }

  /** Every run that cannot go on has returned, once there was a signal, a failure of the
      listener or of the watcher: no schedule hangs. */
  lemma MaximalRunsReturn(states: seq<State>, actions: seq<Action>)
    requires IsRun(states, actions)
    requires forall a: Action :: External(a) || !Enabled(states[|actions|], a)
    requires var s := states[|actions|]; s.signalled || s.serve == ServeExited(Failed) || s.watch == WatchExited(Fatal)
    ensures states[|actions|].main.Returned? && |actions| <= 25
  {
    RunsAreShort(states, actions, |actions|);
    RunKeepsInv(states, actions, |actions|);
    if !states[|actions|].main.Returned? {
      assert !Idle(states[|actions|]);
      var a := NoDeadlock(states, actions, |actions|);
    }
  }
}

/** What holds in every run of hot reload: convergence, no gap, the debounce discipline and
    progress, and where these promises end (watch.go). */
module HotReloadRuns {
  import opened Timeout
  import opened Discover
  import opened ToolList
  import opened Registry
  import opened WatchLoop
  import opened HotReload

  lemma {:induction false} RunKeepsInv(states: seq<State>, actions: seq<Action>, scripts: Path, global: int64, i: nat)
    requires IsRun(states, actions, scripts, global) && i < |states|
    ensures Inv(states[i], scripts, global)
  {
    hide Inv;
    hide Start;
    hide Step;
    hide Enabled;
    if i == 0 {
      StartInv(states[0], scripts, global);
    } else {
      RunKeepsInv(states, actions, scripts, global, i - 1);
      StepKeepsInv(states[i - 1], actions[i - 1], scripts, global);
    }
  }

  // ----- convergence

  /** The directory exists, and discovery of it would now yield something else than what is
      registered. */
  ghost predicate Stale(s: State) { s.dir.Some? && s.current != Discovered(s.dir.value.entries) }

  /** A rescan is due, the timer will cause one, or an event that waits will. */
  ghost predicate RescanOwed(s: State, scripts: Path) {
    s.debounce.active || RelevantQueued(s.queue, scripts) || s.phase.ScanDue?
  }

  /** The scan under way is going to register exactly what discovery would now yield. */
  ghost predicate UnderWay(s: State)
    requires s.dir.Some?
  {
    || (s.phase.Scanning? && ScanOk(s) && Discovered(s.read) == Discovered(s.dir.value.entries))
    || (s.phase.Applying? && s.phase.tools == Discovered(s.dir.value.entries))
  }

  /** Since the last scan looked at them, permissions alone have changed, and for some file
      this alters whether it is the first executable of its tool name, or what it declares. */
  ghost predicate PermissionsMissed(s: State)
    requires s.dir.Some?
  {
    SameButPermissions(s.read, s.dir.value.entries) && !SameTools(s.read, s.dir.value.entries)
  }

  predicate Ready(s: State) { !s.phase.AddScripts? && !s.phase.AddParent? && !s.phase.Stopped? }

  /** At every moment of every run, from the time the watches are set up: whatever edits,
      deletions and creations of the directory happened, before or during a scan, watched or
      not, a stale registry is owed a rescan. The one exception is a change of permissions,
      whose events the loop ignores although they decide what is a tool. */
  lemma Convergence(states: seq<State>, actions: seq<Action>, scripts: Path, global: int64, i: nat)
    requires IsRun(states, actions, scripts, global) && i < |states|
    requires Ready(states[i]) && Stale(states[i])
    ensures RescanOwed(states[i], scripts) || UnderWay(states[i]) || PermissionsMissed(states[i])
  {
    RunKeepsInv(states, actions, scripts, global, i);
    hide IsRun;
    hide Names;
    hide Served;
    hide Clock;
    hide Watched;
    hide RelevantQueued;
    hide ScanOk;
    hide Discovered;
    hide SameButPermissions;
    hide SameTools;
    var s := states[i];
    if SameButPermissions(s.read, s.dir.value.entries) {
      PermissionsMatter(s.read, s.dir.value.entries);
    }
  }

  /** The exception is exact: at every moment of every run at which the loop waits and owes no
      rescan, the registry is stale if and only if a change of permissions has been missed,
      be it from during the last scan or since. */
  lemma StaleIffPermissionsMissed(states: seq<State>, actions: seq<Action>, scripts: Path, global: int64, i: nat)
    requires IsRun(states, actions, scripts, global) && i < |states|
    requires states[i].phase.Idle? && states[i].dir.Some? && !RescanOwed(states[i], scripts)
    ensures SameButPermissions(states[i].read, states[i].dir.value.entries)
    ensures Stale(states[i]) ==> PermissionsMissed(states[i])
    ensures ReadAlike(states[i].read, states[i].dir.value.entries) && PermissionsMissed(states[i]) ==> Stale(states[i])
  {
    RunKeepsInv(states, actions, scripts, global, i);
    hide IsRun;
    hide Names;
    hide Served;
    hide Clock;
    hide Watched;
    hide RelevantQueued;
    hide ScanOk;
    hide Discovered;
    hide SameTools;
    hide ReadAlike;
    assert SameButPermissions(states[i].read, states[i].dir.value.entries)
           && states[i].current == Discovered(states[i].read);
    PermissionsMatter(states[i].read, states[i].dir.value.entries);
  }

  /** At every moment of every run the server shows the registered set or, while the diff to
      a new set is applied, something between the two without a gap. */
  lemma ServerNeverShowsAGap(states: seq<State>, actions: seq<Action>, scripts: Path, global: int64, i: nat)
    requires IsRun(states, actions, scripts, global) && i < |states|
    ensures var s := states[i];
            if s.phase.Applying? then Between(s.server, s.current, s.phase.tools, global)
                else s.server == Registered(s.current, global)
  {
    RunKeepsInv(states, actions, scripts, global, i);
    hide IsRun;
    hide Clock;
    hide Watched;
    hide Fresh;
    hide DistinctNames;
    hide DistinctFiles;
    hide Registered;
    hide DiffOps;
    hide ApplyAll;
    hide Between;
    var s := states[i];
    if s.phase.Applying? {
      NoGap(s.current, s.phase.tools, global, s.phase.done);
    }
  }

  // ----- debounce

  /** How a step changes the debounce state. */
  lemma DebounceStep(s: State, a: Action, scripts: Path, global: int64)
    requires Enabled(s, a, scripts, global)
    ensures var d, d' := s.debounce, Step(s, a, scripts, global).debounce;
            match a
            case Receive => d' == AfterEvent(d, s.now, s.queue[0], scripts)
            case Fire => d' == Debounce(d.active, Fired)
            case ReceiveTick => d' == QUIET
            case _ => d' == d
  {
    hide AfterEvent;
    hide DiffOps;
    hide Apply;
    hide ToolsEqual;
    hide ScanEntry;
    hide Look;
    hide Attached;
    hide Listing;
    hide Posted;
  }

  /** Step k receives a relevant event. */
  ghost predicate ReceivesRelevant(states: seq<State>, actions: seq<Action>, scripts: Path, k: nat)
    requires |states| == |actions| + 1 && k < |actions|
  {
    actions[k].Receive? && states[k].queue != [] && Relevant(states[k].queue[0], scripts)
  }

  /** A rescan was caused after step k and before state i. */
  ghost predicate Ticked(actions: seq<Action>, k: nat, i: nat)
    requires i <= |actions|
  {
    exists t :: k < t < i && actions[t].ReceiveTick?
  }

  /** Step j received the first relevant event since the last rescan was caused, and none has
      been caused since. */
  ghost predicate Armer(states: seq<State>, actions: seq<Action>, scripts: Path, i: nat, j: nat)
    requires |states| == |actions| + 1 && i < |states|
  {
    && j < i && ReceivesRelevant(states, actions, scripts, j)
    && !Ticked(actions, j, i)
    && forall k :: 0 <= k < j && ReceivesRelevant(states, actions, scripts, k) ==> Ticked(actions, k, j)
  }

  lemma TickedLater(actions: seq<Action>, k: nat, i: nat)
    requires i < |actions|
    ensures Ticked(actions, k, i + 1) <==> Ticked(actions, k, i) || (k < i && actions[i].ReceiveTick?)
  {
  }

  /** While the debounce is not active, every relevant event received has led to a rescan. */
  lemma {:induction false} QuietMeansServed(states: seq<State>, actions: seq<Action>, scripts: Path, global: int64,
          i: nat, k: nat)
    requires IsRun(states, actions, scripts, global) && k < i < |states| && !states[i].debounce.active
    requires ReceivesRelevant(states, actions, scripts, k)
    ensures Ticked(actions, k, i)
  {
    hide Step;
    hide Relevant;
    hide Ticked;
    var s, a := states[i - 1], actions[i - 1];
    assert Enabled(s, a, scripts, global) && states[i] == Step(s, a, scripts, global);
    DebounceStep(s, a, scripts, global);
    TickedLater(actions, k, i - 1);
    if !s.debounce.active && k < i - 1 {
      QuietMeansServed(states, actions, scripts, global, i - 1, k);
    }
  }

  /** In every run, an active debounce goes back to one relevant event, the first since the
      rescan before, and the deadline is one delay after that event was received: events that
      follow do not push it back. */
  lemma {:induction false} DebounceHasACause(states: seq<State>, actions: seq<Action>, scripts: Path, global: int64,
          i: nat) returns (j: nat)
    requires IsRun(states, actions, scripts, global) && i < |states| && states[i].debounce.active
    ensures Armer(states, actions, scripts, i, j)
    ensures states[i].debounce.timer.Armed? ==> states[i].debounce.timer.deadline == states[j].now + DEBOUNCE_DELAY
  {
    hide Step;
    hide Relevant;
    hide Ticked;
    if i > 0 {
      var s, a := states[i - 1], actions[i - 1];
      assert Enabled(s, a, scripts, global) && states[i] == Step(s, a, scripts, global);
      DebounceStep(s, a, scripts, global);
      if s.debounce.active {
        j := DebounceHasACause(states, actions, scripts, global, i - 1);
        TickedLater(actions, j, i - 1);
      } else {
        j := i - 1;
        NotTickedYet(actions, j);
        forall k | 0 <= k < j && ReceivesRelevant(states, actions, scripts, k) ensures Ticked(actions, k, j) {
          QuietMeansServed(states, actions, scripts, global, j, k);
        }
      }
    }
  }

  lemma NotTickedYet(actions: seq<Action>, j: nat)
    requires j < |actions|
    ensures !Ticked(actions, j, j + 1)
  {
  }

  /** Every rescan after the guaranteed first one is caused by a relevant event received since
      the previous one. */
  lemma RescanHasACause(states: seq<State>, actions: seq<Action>, scripts: Path, global: int64, i: nat) returns (j: nat)
    requires IsRun(states, actions, scripts, global) && i < |actions| && actions[i].ReceiveTick?
    ensures Armer(states, actions, scripts, i, j)
  {
    RunKeepsInv(states, actions, scripts, global, i);
    assert Enabled(states[i], actions[i], scripts, global);
    j := DebounceHasACause(states, actions, scripts, global, i);
  }

  lemma SiblingStep(s: State, a: Action, scripts: Path, global: int64)
    requires Enabled(s, a, scripts, global) && Clock(s) && !s.debounce.active
    requires a.Receive? ==> !WatchLoop.Matches(s.queue[0], scripts)
    ensures !Step(s, a, scripts, global).debounce.active && !a.ReceiveTick?
  {
    DebounceStep(s, a, scripts, global);
    if a.Receive? {
      SiblingsNeverArm(s.debounce, s.now, s.queue[0], scripts);
    }
    hide Step;
    hide AfterEvent;
  }

  /** What happens beside the scripts directory or above it never arms the timer and never
      causes a rescan, however many such events a run receives. */
  lemma {:induction false} SiblingsNeverCauseARescan(states: seq<State>, actions: seq<Action>, scripts: Path,
          global: int64, i: nat, j: nat)
    requires IsRun(states, actions, scripts, global) && i <= j < |states| && !states[i].debounce.active
    requires forall k :: i <= k < j && actions[k].Receive? && states[k].queue != [] ==>
             !WatchLoop.Matches(states[k].queue[0], scripts)
    ensures !states[j].debounce.active
    ensures forall k :: i <= k < j ==> !actions[k].ReceiveTick?
  {
    hide Step;
    hide Inv;
    hide WatchLoop.Matches;
    if i < j {
      SiblingsNeverCauseARescan(states, actions, scripts, global, i, j - 1);
      RunKeepsInv(states, actions, scripts, global, j - 1);
      InvClock(states[j - 1], scripts, global);
      SiblingStep(states[j - 1], actions[j - 1], scripts, global);
    }
  }

  // ----- progress

  /** The watch loop waits: no event, no timer. */
  predicate Settled(s: State) { s.phase.Stopped? || (s.phase.Idle? && s.queue == [] && s.debounce.timer.Off?) }

  /** The registry and the server show what discovery of the directory now yields. */
  ghost predicate InSync(s: State, global: int64)
    requires s.dir.Some?
  {
    s.current == Discovered(s.dir.value.entries) && s.server == Registered(Discovered(s.dir.value.entries), global)
  }

  /** They show what discovery yields but for missed changes of permissions. */
  ghost predicate InSyncAsRead(s: State, global: int64)
    requires s.dir.Some?
  {
    && SameButPermissions(s.read, s.dir.value.entries)
    && s.current == Discovered(s.read) && s.server == Registered(Discovered(s.read), global)
    && (SameTools(s.read, s.dir.value.entries) ==> InSync(s, global))
  }

  /** No change of permissions can be missed any more: a scan is still to begin, or the last
      one has looked at the files as they are. */
  ghost predicate NothingToMiss(s: State, scripts: Path) {
    s.dir.Some? ==>
        s.debounce.active || RelevantQueued(s.queue, scripts) || s.phase.AddScripts? || s.phase.AddParent?
        || s.phase.ScanDue? || s.read == s.dir.value.entries
  }

  function TimerRank(t: Timer): nat { match t case Armed(_) => 2 case Fired => 1 case Off => 0 }

  function PhaseRank(p: Phase): nat {
    match p
    case AddScripts => 5
    case AddParent => 4
    case ScanDue => 3
    case Scanning(_, _, _) => 2
    case Applying(_, _) => 1
    case _ => 0
  }

  /** The files or calls that remain. */
  ghost function Remaining(s: State, global: int64): nat {
    match s.phase
    case Scanning(listing, k, _) => if k < |listing| then |listing| - k else 0
    case Applying(tools, done) => var n := |DiffOps(s.current, tools, global)|; if done < n then n - done else 0
    case _ => 0
  }

  lemma InternalDecreases(s: State, a: Action, scripts: Path, global: int64)
    requires Internal(a) && Enabled(s, a, scripts, global)
    ensures var s' := Step(s, a, scripts, global);
            || |s'.queue| < |s.queue|
            || (|s'.queue| == |s.queue|
                && (|| TimerRank(s'.debounce.timer) < TimerRank(s.debounce.timer)
                    || (s'.debounce == s.debounce
                        && (|| PhaseRank(s'.phase) < PhaseRank(s.phase)
                            || (PhaseRank(s'.phase) == PhaseRank(s.phase)
                                 && Remaining(s', global) < Remaining(s, global))))))
  {
    hide DiffOps;
    hide Apply;
    hide ToolsEqual;
    hide ScanEntry;
    hide Look;
    hide AfterEvent;
    hide Attached;
  }

  lemma LoopGoesOn(s: State, scripts: Path, global: int64) returns (a: Action)
    requires Clock(s) && !Settled(s)
    ensures Internal(a) && Enabled(s, a, scripts, global)
  {
    hide DiffOps;
    a := match s.phase
      case AddScripts => WatchScripts
      case AddParent => WatchParent
      case ScanDue => BeginScan
      case Scanning(listing, k, _) => if k < |listing| then ScanFile else EndScan
      case Applying(tools, done) => if done < |DiffOps(s.current, tools, global)| then CallServer else Commit
      case _ => if s.queue != [] then Receive else if s.debounce.timer.Armed? then Fire else ReceiveTick;
  }

  /** Left alone by its environment, the watch loop comes to rest whatever order its steps
      take, with the registry in step with the directory: exactly, or but for missed changes
      of permissions. */
  ghost predicate Settles(s: State, scripts: Path, global: int64, exact: bool)
    decreases |s.queue|, TimerRank(s.debounce.timer), PhaseRank(s.phase), Remaining(s, global)
  {
    if Settled(s) then s.phase.Idle? && s.dir.Some? ==> if exact then InSync(s, global) else InSyncAsRead(s, global)
    else
      && (exists a: Action :: Internal(a) && Enabled(s, a, scripts, global))
      && forall a: Action :: Internal(a) && Enabled(s, a, scripts, global) ==>
           (InternalDecreases(s, a, scripts, global); Settles(Step(s, a, scripts, global), scripts, global, exact))
  }

  lemma RestIsInSync(s: State, scripts: Path, global: int64)
    requires Inv(s, scripts, global) && Settled(s) && s.phase.Idle? && s.dir.Some?
    ensures InSyncAsRead(s, global)
    ensures NothingToMiss(s, scripts) ==> InSync(s, global)
  {
    hide Names;
    hide Watched;
    hide Discovered;
    hide Registered;
    hide DiffOps;
    hide ApplyAll;
    hide Relevant;
    hide SameTools;
    hide SameButPermissions;
    PermissionsMatter(s.read, s.dir.value.entries);
  }

  lemma ReceiveLeavesNothingToMiss(s: State, scripts: Path)
    requires NothingToMiss(s, scripts) && s.phase.Idle? && s.queue != []
    ensures NothingToMiss(Received(s, scripts), scripts)
  {
    hide Relevant;
    hide Attached;
    hide RelevantQueued;
    QueueShrinks(s.queue, scripts);
  }

  lemma StepLeavesNothingToMiss(s: State, a: Action, scripts: Path, global: int64)
    requires NothingToMiss(s, scripts) && Clock(s) && Internal(a) && Enabled(s, a, scripts, global)
    ensures NothingToMiss(Step(s, a, scripts, global), scripts)
  {
    hide RelevantQueued;
    hide DiffOps;
    hide Apply;
    hide ToolsEqual;
    hide ScanEntry;
    hide Look;
    if a.Receive? {
      ReceiveLeavesNothingToMiss(s, scripts);
    }
    hide Received;
  }

  lemma {:induction false} InvSettles(s: State, scripts: Path, global: int64, exact: bool)
    requires Inv(s, scripts, global) && (exact ==> NothingToMiss(s, scripts))
    ensures Settles(s, scripts, global, exact)
    decreases |s.queue|, TimerRank(s.debounce.timer), PhaseRank(s.phase), Remaining(s, global)
  {
    hide Inv;
    hide Enabled;
    hide Step;
    hide Settled;
    hide InSync;
    hide InSyncAsRead;
    hide NothingToMiss;
    hide Internal;
    hide TimerRank;
    hide PhaseRank;
    hide Remaining;
    if Settled(s) {
      if s.phase.Idle? && s.dir.Some? {
        RestIsInSync(s, scripts, global);
      }
    } else {
      InvClock(s, scripts, global);
      var go := LoopGoesOn(s, scripts, global);
      forall a: Action | Internal(a)
          && Enabled(s, a, scripts, global) ensures Settles(Step(s, a, scripts, global), scripts, global, exact) {
        InternalDecreases(s, a, scripts, global);
        StepKeepsInv(s, a, scripts, global);
        if exact {
          StepLeavesNothingToMiss(s, a, scripts, global);
        }
        InvSettles(Step(s, a, scripts, global), scripts, global, exact);
      }
    }
  }

  lemma InvClock(s: State, scripts: Path, global: int64)
    requires Inv(s, scripts, global)
    ensures Clock(s)
  {
    hide Names;
    hide Served;
    hide Clock;
    hide Watched;
    hide Fresh;
  }

  /** From every state of every run, once changes stop, every schedule ends at rest; if the
      directory exists, registry and server are then in step with it as the files were last
      read, and exactly in step if a scan was still to begin, or no permission had changed
      since the last one looked. */
  lemma ChangesAreAlwaysPickedUp(states: seq<State>, actions: seq<Action>, scripts: Path, global: int64, i: nat)
    requires IsRun(states, actions, scripts, global) && i < |states|
    ensures Settles(states[i], scripts, global, NothingToMiss(states[i], scripts))
  {
    RunKeepsInv(states, actions, scripts, global, i);
    hide *;
    InvSettles(states[i], scripts, global, NothingToMiss(states[i], scripts));
  }
}

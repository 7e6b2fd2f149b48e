/** The live list over runs of the watch loop: the same loop, whose rescans print the tools
    instead of registering them (diagnostic.go, watch.go). */
module LiveListRuns {
  import opened Results
  import opened Timeout
  import opened Discover
  import opened ToolList
  import opened Registry
  import opened WatchLoop
  import opened HotReload
  import opened HotReloadRuns

  /** What a live list shows that printed the first tools of the run and is given the outcome
      of each of its scans. */
  ghost function Shown(states: seq<State>, actions: seq<Action>, i: nat, global: int64, width: int): Display
    requires |states| == |actions| + 1 && i < |states|
  {
    if i == 0 then Display(states[0].current, Rendered(states[0].current, global, width))
    else
      var d, s, a := Shown(states, actions, i - 1, global, width), states[i - 1], actions[i - 1];
      if a.BeginScan? && s.dir.None? then Rescanned(d, None, global, width)
      else if a.EndScan? && s.phase.Scanning? then Rescanned(d, Some(s.phase.found), global, width)
      else d
  }

  /** The list has printed the set that is registered, or about to be. */
  ghost predicate Follows(d: Display, s: State, global: int64, width: int) {
    && d.screen == Rendered(d.last, global, width)
    && d.last == if s.phase.Applying? then s.phase.tools else s.current
  }

  lemma RescanFollows(d: Display, tools: seq<DiscoveredTool>, global: int64, width: int)
    requires d.screen == Rendered(d.last, global, width)
    ensures var d' :=
            Rescanned(d, Some(tools), global, width); d'.last == tools && d'.screen == Rendered(tools, global, width)
  {
    hide Rendered;
    if ToolsEqual(d.last, tools) {
      EqualToolsRenderEqually(d.last, tools, global, width);
    }
  }

  lemma EqualSets(a: seq<DiscoveredTool>, b: seq<DiscoveredTool>)
    requires ToolsEqual(a, b)
    ensures a == b
  {
  }

  lemma StepFollows(d: Display, s: State, a: Action, scripts: Path, global: int64, width: int)
    requires Follows(d, s, global, width) && Enabled(s, a, scripts, global) && !a.EndScan?
    ensures Follows(d, Step(s, a, scripts, global), global, width)
  {
    hide Rendered;
    hide DiffOps;
    hide Apply;
    hide AfterEvent;
    hide Attached;
    hide ScanEntry;
    hide Look;
    hide Listing;
    hide SameButPermissions;
  }

  lemma EndFollows(d: Display, s: State, scripts: Path, global: int64, width: int)
    requires Follows(d, s, global, width) && Enabled(s, EndScan, scripts, global)
    ensures Follows(Rescanned(d, Some(s.phase.found), global, width), Step(s, EndScan, scripts, global), global, width)
  {
    hide Rendered;
    hide Rescanned;
    hide ToolsEqual;
    hide DiffOps;
    hide Apply;
    hide ScanEntry;
    hide Look;
    hide Listing;
    RescanFollows(d, s.phase.found, global, width);
    if ToolsEqual(s.current, s.phase.found) {
      EqualSets(s.current, s.phase.found);
    }
  }

  lemma {:induction false} RunFollows(states: seq<State>, actions: seq<Action>, scripts: Path, global: int64,
          width: int, i: nat)
    requires IsRun(states, actions, scripts, global) && i < |states|
    ensures Follows(Shown(states, actions, i, global, width), states[i], global, width)
  {
    hide Enabled;
    hide Step;
    hide Rendered;
    if i == 0 {
      assert Start(states[0], global);
    } else {
      hide Follows;
      RunFollows(states, actions, scripts, global, width, i - 1);
      var d, s, a := Shown(states, actions, i - 1, global, width), states[i - 1], actions[i - 1];
      assert Enabled(s, a, scripts, global) && states[i] == Step(s, a, scripts, global);
      if a.EndScan? {
        EndIsScanning(s, scripts, global);
        EndFollows(d, s, scripts, global, width);
      } else {
        StepFollows(d, s, a, scripts, global, width);
      }
    }
  }

  lemma EndIsScanning(s: State, scripts: Path, global: int64)
    requires Enabled(s, EndScan, scripts, global)
    ensures s.phase.Scanning?
  {
  }

  /** In every run of the loop, whenever it waits and its last rescan is not out of date, the
      screen shows exactly the tools of the directory, as at a fixed width. That it gets there
      is what holds for the registry: both have seen the same scans. */
  lemma LiveListShowsTheDirectory(states: seq<State>, actions: seq<Action>, scripts: Path, global: int64, width: int,
          i: nat)
    requires IsRun(states, actions, scripts, global) && i < |states|
    requires states[i].phase.Idle? && states[i].dir.Some? && !Stale(states[i])
    ensures Shown(states, actions, i, global, width).screen
            == Rendered(Discovered(states[i].dir.value.entries), global, width)
  {
    RunFollows(states, actions, scripts, global, width, i);
    hide IsRun;
    hide Shown;
    hide Rendered;
    hide Discovered;
  }

  /** When no rescan is owed either, only missed changes of permissions can keep the screen from
      showing the directory. */
  lemma ScreenIsUpToDate(states: seq<State>, actions: seq<Action>, scripts: Path, global: int64, width: int, i: nat)
    requires IsRun(states, actions, scripts, global) && i < |states|
    requires states[i].phase.Idle? && states[i].dir.Some? && !RescanOwed(states[i], scripts)
             && !PermissionsMissed(states[i])
    ensures Shown(states, actions, i, global, width).screen
            == Rendered(Discovered(states[i].dir.value.entries), global, width)
  {
    StaleIffPermissionsMissed(states, actions, scripts, global, i);
    LiveListShowsTheDirectory(states, actions, scripts, global, width, i);
  }
}

/** Where the promises of hot reload end: changes of permissions, and a directory that is
    deleted in the middle of a scan (watch.go, discover.go). */
module HotReloadLimits {
  import opened Results
  import opened Text
  import opened Timeout
  import opened Frontmatter
  import opened FrontmatterPrinting
  import opened FrontmatterRoundTrip
  import opened Discover
  import opened ToolList
  import opened Registry
  import opened WatchLoop
  import opened HotReload
  import opened HotReloadRuns

  // ----- permissions

  lemma ChmodIsIgnored(scripts: Path, file: string)
    ensures !Relevant(ChildEvent(scripts, file, Chmod), scripts) && !Replaces(ChildEvent(scripts, file, Chmod), scripts)
  {
    assert {Chmod} * WATCH_SPEC_EVENTS == {};
    assert {Chmod} * REPLACE_EVENTS == {};
  }

  lemma ReceivesChmod(s: State, a: Action, scripts: Path, global: int64)
    requires Settled(s) && s.phase.Idle? && Seen(s)
    requires a.EditPermissions? && Enabled(s, a, scripts, global)
    ensures Enabled(Step(s, a, scripts, global), Receive, scripts, global)
    ensures var s' := Step(Step(s, a, scripts, global), Receive, scripts, global);
            Settled(s') && s'.current == s.current && s'.server == s.server
                && s'.dir == Some(s.dir.value.(entries := a.entries)) && s'.read == s.read
  {
    hide SameButPermissions;
    hide DistinctFiles;
    hide Relevant;
    hide Replaces;
    hide ChildEvent;
    var e := ChildEvent(scripts, a.file, Chmod);
    ChmodIsIgnored(scripts, a.file);
    assert [] + [e] == [e] && [e][1..] == [];
  }

  /** From any state at rest and in step with a watched directory, a change of permissions
      leaves the loop at rest again, with the registry as it was. That is right if and only
      if every file is the first executable of its tool name just if it was before, and then
      declares what it did. */
  lemma PermissionChangesAreMissed(s: State, a: Action, scripts: Path, global: int64)
    requires Settled(s) && s.phase.Idle? && Seen(s) && s.current == Discovered(s.dir.value.entries)
    requires a.EditPermissions? && Enabled(s, a, scripts, global) && Coherent(s.dir.value.entries)
             && Coherent(a.entries)
    ensures Enabled(Step(s, a, scripts, global), Receive, scripts, global)
    ensures var s', before := Step(Step(s, a, scripts, global), Receive, scripts, global), s.dir.value.entries;
            && Settled(s') && s'.current == s.current && s'.server == s.server
            && |a.entries| == |before| && (Stale(s') <==> !SameTools(before, a.entries))
  {
    ReceivesChmod(s, a, scripts, global);
    CoherentIsAlike(s.dir.value.entries, a.entries);
    PermissionsMatter(s.dir.value.entries, a.entries);
    hide Discovered;
    hide SameTools;
    hide ReadAlike;
    hide Coherent;
  }

  /** The rest of a scan during which permissions have changed: what has been read of the
      directory is given. */
  ghost predicate ReadsOn(s: State, read: seq<Entry>, entries: seq<Entry>) {
    && s.dir.Some? && s.dir.value.entries == entries && DistinctFiles(entries) && s.read == read
    && match s.phase
       case Scanning(_, _, _) => ScanOk(s)
       case Applying(tools, _) => tools == Discovered(read)
       case Idle => s.current == Discovered(read)
       case Stopped => s.current == Discovered(read)
       case _ => false
  }

  predicate LeavesDirectoryAlone(a: Action) {
    !a.Edit? && !a.EditPermissions? && !a.DeleteDirectory? && !a.CreateDirectory?
  }

  lemma StepReadsOn(s: State, a: Action, scripts: Path, global: int64, read: seq<Entry>, entries: seq<Entry>)
    requires ReadsOn(s, read, entries) && Enabled(s, a, scripts, global) && LeavesDirectoryAlone(a) && !a.ReceiveTick?
    ensures ReadsOn(Step(s, a, scripts, global), read, entries)
  {
    hide Discovered;
    hide ScanEntry;
    hide Look;
    hide DiffOps;
    hide Apply;
    hide AfterEvent;
    hide Attached;
    hide DistinctFiles;
    if a.ScanFile? {
      ScanGoesOn(s);
    } else if a.EndScan? {
      HotReload.ScanComplete(s);
      if ToolsEqual(s.current, s.phase.found) {
        assert s.current == s.phase.found;
      }
    }
    hide ScanOk;
    hide ToolsEqual;
  }

  lemma {:induction false} ScanReadsOn(states: seq<State>, actions: seq<Action>, scripts: Path, global: int64, i: nat,
          j: nat,
                                       read: seq<Entry>, entries: seq<Entry>)
    requires IsRun(states, actions, scripts, global) && i <= j < |states| && ReadsOn(states[i], read, entries)
    requires forall n :: i <= n < j ==> LeavesDirectoryAlone(actions[n]) && !actions[n].ReceiveTick?
    ensures ReadsOn(states[j], read, entries)
  {
    hide ReadsOn;
    hide Step;
    hide Enabled;
    if i < j {
      ScanReadsOn(states, actions, scripts, global, i, j - 1, read, entries);
      assert Enabled(states[j - 1], actions[j - 1], scripts, global);
      StepReadsOn(states[j - 1], actions[j - 1], scripts, global, read, entries);
    }
  }

  lemma ChangeInMidScan(s: State, a: Action, scripts: Path, global: int64)
    requires Inv(s, scripts, global) && Enabled(s, a, scripts, global) && a.EditPermissions?
    requires s.phase.Scanning? && Undisturbed(s, scripts) && s.read == s.dir.value.entries
    ensures s.phase.k <= |s.dir.value.entries|
    ensures ReadsOn(Step(s, a, scripts, global), Reread(s.dir.value.entries, a.entries, s.phase.k), a.entries)
  {
    hide Discovered;
    hide SameButPermissions;
    hide RelevantQueued;
    hide Names;
    hide Served;
    hide Clock;
    hide Watched;
    PermissionsInScan(s, a.entries);
    hide ScanOk;
    hide Reread;
    hide DistinctFiles;
  }

  /** When permissions change after a scan has read k entries, the tools that it registers
      are those that discovery now yields if and only if each of these k is the first
      executable of its tool name just if it was before, and then declares what it did. The
      one way holds always; the other, unless two links with one tool name to one file were
      read differently. */
  lemma PermissionChangeInMidScan(states: seq<State>, actions: seq<Action>, scripts: Path, global: int64, i: nat,
          j: nat)
    requires IsRun(states, actions, scripts, global) && i < j < |states| && actions[i].EditPermissions?
    requires var s := states[i]; s.phase.Scanning? && Undisturbed(s, scripts) && s.read == s.dir.value.entries
    requires forall n :: i < n < j ==> LeavesDirectoryAlone(actions[n]) && !actions[n].ReceiveTick?
    requires states[j].phase.Idle?
    ensures var before, after, k := states[i].dir.value.entries, actions[i].entries, states[i].phase.k;
            && k <= |before| == |after|
            && ((forall n :: 0 <= n < k ==> SameToolAt(before, after, n)) ==> !Stale(states[j]))
            && (ReadAlike(Reread(before, after, k), after) && !Stale(states[j]) ==> forall n :: 0 <= n < k ==>
                 SameToolAt(before, after, n))
  {
    var s, after := states[i], actions[i].entries;
    var before, k := s.dir.value.entries, s.phase.k;
    RunKeepsInv(states, actions, scripts, global, i);
    assert Enabled(s, actions[i], scripts, global) && states[i + 1] == Step(s, actions[i], scripts, global);
    ChangeInMidScan(s, actions[i], scripts, global);
    var read := Reread(before, after, k);
    ScanReadsOn(states, actions, scripts, global, i + 1, j, read, after);
    assert SameButPermissions(before, after);
    hide IsRun;
    hide Inv;
    hide Enabled;
    hide Step;
    hide Discovered;
    hide SameToolAt;
    hide ReadAlike;
    ReadEntriesMatter(before, after, k);
    MixedMatters(before, after, k);
    hide SameTools;
    hide SameButPermissions;
  }

  lemma MixedMatters(before: seq<Entry>, after: seq<Entry>, k: nat)
    requires SameButPermissions(before, after) && k <= |before|
    ensures SameTools(Reread(before, after, k), after) ==> Discovered(Reread(before, after, k)) == Discovered(after)
    ensures ReadAlike(Reread(before, after, k), after) && Discovered(Reread(before, after, k)) == Discovered(after) ==>
            SameTools(Reread(before, after, k), after)
  {
    SelfButPermissions(before);
    RereadKeeps(before, before, after, k);
    PermissionsMatter(Reread(before, after, k), after);
    hide *;
  }

  // ----- a missing directory

  predicate BetweenScans(p: Phase) { p.Idle? || p.ScanDue? || p.Stopped? }

  lemma MissingStep(s: State, a: Action, scripts: Path, global: int64)
    requires Enabled(s, a, scripts, global) && BetweenScans(s.phase) && s.dir.None? && !a.CreateDirectory?
    ensures var s' := Step(s, a, scripts, global);
            BetweenScans(s'.phase) && s'.dir.None? && s'.current == s.current && s'.server == s.server
  {
    hide AfterEvent;
    hide Attached;
    hide DiffOps;
  }

  /** While the directory is missing, a rescan that begins changes nothing: from a moment at
      which no scan is under way, until it exists again, tools and server stay as they are. */
  lemma {:induction false} MissingDirectoryKeepsTools(states: seq<State>, actions: seq<Action>, scripts: Path,
          global: int64, i: nat, j: nat)
    requires IsRun(states, actions, scripts, global) && i <= j < |states|
    requires BetweenScans(states[i].phase) && states[i].dir.None?
    requires forall k :: i <= k < j ==> !actions[k].CreateDirectory?
    ensures states[j].current == states[i].current && states[j].server == states[i].server
    ensures states[j].dir.None? && BetweenScans(states[j].phase)
  {
    hide BetweenScans;
    hide Enabled;
    hide Step;
    if i < j {
      MissingDirectoryKeepsTools(states, actions, scripts, global, i, j - 1);
      MissingStep(states[j - 1], actions[j - 1], scripts, global);
    }
  }

  /** What the rest of a scan makes of the tools found when the directory disappeared. */
  ghost predicate KeepsFound(s: State, found: seq<DiscoveredTool>) {
    && s.dir.None?
    && match s.phase
       case Scanning(_, _, f) => f == found
       case Applying(tools, _) => tools == found
       case Idle => s.current == found
       case ScanDue => s.current == found
       case Stopped => s.current == found
       case _ => false
  }

  lemma LooksAtNothing(found: seq<DiscoveredTool>, file: string, isDir: bool)
    ensures ScanEntry(found, file, isDir, Look(None, file)) == found
  {
  }

  lemma StepKeepsFound(s: State, a: Action, scripts: Path, global: int64, found: seq<DiscoveredTool>)
    requires KeepsFound(s, found) && Enabled(s, a, scripts, global) && !a.CreateDirectory?
    ensures KeepsFound(Step(s, a, scripts, global), found)
  {
    hide Relevant;
    hide AfterEvent;
    hide Attached;
    hide DiffOps;
    hide Apply;
    hide ScanEntry;
    hide Look;
    if a.ScanFile? {
      var l := s.phase.listing[s.phase.k];
      LooksAtNothing(found, l.file, l.isDir);
    }
    if a.EndScan? && ToolsEqual(s.current, found) {
      assert s.current == found;
    }
    hide ToolsEqual;
  }

  /** What a scan under way, or the diff that follows it, is going to register if nothing more
      is found. */
  function FoundSoFar(p: Phase): seq<DiscoveredTool>
    requires p.Scanning? || p.Applying?
  {
    if p.Scanning? then p.found else p.tools
  }

  /** When the directory disappears in the middle of a rescan, the rescan goes on without
      error: as long as it stays missing, what is registered in the end is what had been read
      by then. */
  lemma {:induction false} DeletedInMidScan(states: seq<State>, actions: seq<Action>, scripts: Path, global: int64,
          i: nat, j: nat)
    requires IsRun(states, actions, scripts, global) && i <= j < |states|
    requires (states[i].phase.Scanning? || states[i].phase.Applying?) && states[i].dir.None?
    requires forall k :: i <= k < j ==> !actions[k].CreateDirectory?
    ensures KeepsFound(states[j], FoundSoFar(states[i].phase))
  {
    hide Step;
    hide Enabled;
    if i < j {
      DeletedInMidScan(states, actions, scripts, global, i, j - 1);
      assert Enabled(states[j - 1], actions[j - 1], scripts, global);
      StepKeepsFound(states[j - 1], actions[j - 1], scripts, global, FoundSoFar(states[i].phase));
    }
  }

  /** A deletion in the middle of a rescan leaves the last known tool set in place if and only
      if that is what had been read by then: in particular, during a scan, if the registry was
      in step with an undisturbed directory, iff none of the files that the scan had not
      reached was a tool's. */
  lemma KeptIffAllToolsRead(states: seq<State>, actions: seq<Action>, scripts: Path, global: int64, i: nat, j: nat)
    requires IsRun(states, actions, scripts, global) && i < j < |states|
    requires (states[i].phase.Scanning? || states[i].phase.Applying?) && actions[i].DeleteDirectory?
    requires forall k :: i < k < j ==> !actions[k].CreateDirectory?
    requires states[j].phase.Idle?
    ensures states[j].current == states[i].current <==> FoundSoFar(states[i].phase) == states[i].current
    ensures var s := states[i];
            s.phase.Scanning? && Undisturbed(s, scripts) && s.current == Discovered(s.read) ==>
              (states[j].current == s.current <==> forall n :: s.phase.k <= n < |s.read| ==> !Wins(s.read, n))
  {
    var s := states[i];
    assert Enabled(s, actions[i], scripts, global) && states[i + 1] == Deleted(s, actions[i].op, scripts);
    DeletedInMidScan(states, actions, scripts, global, i + 1, j);
    if s.phase.Scanning? && Undisturbed(s, scripts) {
      RunKeepsInv(states, actions, scripts, global, i);
      assert ScanOk(s) by {
        hide IsRun;
        hide RelevantQueued;
      }
      PrefixSuffices(s.read, s.phase.k, |s.read|);
      assert s.read[..|s.read|] == s.read;
    }
  }

  // ----- reachable states

  ghost predicate Reachable(s: State, scripts: Path, global: int64) {
    exists states: seq<State>, actions: seq<Action> :: IsRun(states, actions, scripts, global) && states[|actions|] == s
  }

  lemma StartReachable(s: State, scripts: Path, global: int64)
    requires Start(s, global)
    ensures Reachable(s, scripts, global)
  {
    hide Start;
    assert IsRun([s], [], scripts, global);
  }

  lemma StepReachable(s: State, a: Action, scripts: Path, global: int64)
    requires Reachable(s, scripts, global) && Enabled(s, a, scripts, global)
    ensures Reachable(Step(s, a, scripts, global), scripts, global)
  {
    hide Enabled;
    hide Step;
    hide Start;
    var states, actions :| IsRun(states, actions, scripts, global) && states[|actions|] == s;
    var states', actions' := states + [Step(s, a, scripts, global)], actions + [a];
    assert states'[0] == states[0];
    forall i | 0 <= i < |actions'|
      ensures Enabled(states'[i], actions'[i], scripts, global)
              && states'[i + 1] == Step(states'[i], actions'[i], scripts, global)
    {
      if i < |actions| {
        assert states'[i] == states[i] && states'[i + 1] == states[i + 1] && actions'[i] == actions[i];
      }
    }
    assert IsRun(states', actions', scripts, global);
  }

  /** A directory with one script. */
  function OneScript(executable: bool, readable: bool, text: string): seq<Entry> {
    [Entry("deploy", false, File("/s/deploy", true, executable, readable, text))]
  }

  lemma OneScriptDiscovered(executable: bool, readable: bool, text: string)
    ensures var e := OneScript(executable, readable, text);
            Discovered(e) == if executable then [ToolOf(e[0].file, e[0].target)] else []
  {
    hide MetadataOf;
    hide ToolName;
    assert OneScript(executable, readable, text)[..0] == [];
  }

  /** In the first scan of these entries, after the setup. */
  function FirstScan(entries: seq<Entry>, current: seq<DiscoveredTool>, global: int64): State {
    State(Some(Directory(1, entries)), [], Some(1), true, QUIET, 0, Scanning(Listing(entries), 0, []), current,
        Registered(current, global), entries)
  }

  lemma FirstScanReachable(entries: seq<Entry>, current: seq<DiscoveredTool>, global: int64)
    requires DistinctNames(current) && DistinctFiles(entries)
    ensures Reachable(FirstScan(entries, current, global), ["s"], global)
  {
    hide Registered;
    hide DistinctNames;
    hide DistinctFiles;
    hide Reachable;
    hide Listing;
    var s0 := State(Some(Directory(1, entries)), [], None, false, QUIET, 0, AddScripts, current,
        Registered(current, global), []);
    StartReachable(s0, ["s"], global);
    StepReachable(s0, WatchScripts, ["s"], global);
    var s1 := Step(s0, WatchScripts, ["s"], global);
    StepReachable(s1, WatchParent, ["s"], global);
    var s2 := Step(s1, WatchParent, ["s"], global);
    StepReachable(s2, BeginScan, ["s"], global);
  }

  lemma OneFileScanned(entries: seq<Entry>, current: seq<DiscoveredTool>, global: int64)
    requires |entries| == 1 && DistinctFiles(entries)
    ensures FileScanned(FirstScan(entries, current, global)).phase == Scanning(Listing(entries), 1, Discovered(entries))
  {
    hide Discovered;
    hide ScanEntry;
    hide Registered;
    var s := FirstScan(entries, current, global);
    NothingDiscovered(entries);
    ScanGoesOn(s);
    assert entries[..1] == entries;
  }

  /** At rest after the first scan of one script that was registered before. */
  lemma AfterFirstScan(executable: bool, text: string, global: int64) returns (s: State)
    ensures Reachable(s, ["s"], global)
    ensures var entries := OneScript(executable, true, text);
            s == FirstScan(entries, Discovered(entries), global).(phase := Idle)
  {
    hide Reachable;
    hide Registered;
    hide Discovered;
    hide DistinctNames;
    hide ToolsEqual;
    var entries := OneScript(executable, true, text);
    var tools := Discovered(entries);
    DiscoveredDistinct(entries);
    FirstScanReachable(entries, tools, global);
    var s3 := FirstScan(entries, tools, global);
    OneFileScanned(entries, tools, global);
    hide FileScanned;
    StepReachable(s3, ScanFile, ["s"], global);
    var s4 := s3.(phase := Scanning(Listing(entries), 1, tools));
    assert Step(s3, ScanFile, ["s"], global) == s4 by {
      OnlyPhaseScanned(s3);
    }
    StepReachable(s4, EndScan, ["s"], global);
    EqualToItself(tools);
    s := Step(s4, EndScan, ["s"], global);
  }

  lemma OnlyPhaseScanned(s: State)
    requires s.phase.Scanning? && s.phase.k < |s.phase.listing|
    ensures FileScanned(s) == s.(phase := FileScanned(s).phase)
  {
    hide ScanEntry;
    hide Look;
  }

  lemma EqualToItself(tools: seq<DiscoveredTool>)
    ensures ToolsEqual(tools, tools)
  {
  }

  lemma RestsAfterChmod(s: State, entries: seq<Entry>, global: int64) returns (s': State)
    requires Reachable(s, ["s"], global) && Settled(s) && s.phase.Idle? && Seen(s)
    requires DistinctFiles(entries) && SameButPermissions(s.dir.value.entries, entries)
    ensures Reachable(s', ["s"], global) && Settled(s') && s'.current == s.current
            && s'.dir == Some(s.dir.value.(entries := entries))
  {
    hide Reachable;
    hide SameButPermissions;
    hide DistinctFiles;
    var a := EditPermissions(entries, "deploy");
    StepReachable(s, a, ["s"], global);
    ReceivesChmod(s, a, ["s"], global);
    s' := Step(Step(s, a, ["s"], global), Receive, ["s"], global);
    StepReachable(Step(s, a, ["s"], global), Receive, ["s"], global);
  }

  /** Convergence does need its exception: a reachable state in which the loop rests although
      an executable script in the directory is not registered, since only its permissions
      have changed. */
  lemma MissedScript(global: int64) returns (s: State)
    ensures Reachable(s, ["s"], global) && Settled(s) && Stale(s) && s.current == []
  {
    hide Reachable;
    hide Registered;
    hide Discovered;
    OneScriptDiscovered(false, true, "");
    OneScriptDiscovered(true, true, "");
    var rest := AfterFirstScan(false, "", global);
    s := RestsAfterChmod(rest, OneScript(true, true, ""), global);
  }

  /** So do the read permissions: a reachable state in which the loop rests although a
      registered script can no longer be read, so that it declares nothing any more. */
  lemma UnreadScript(global: int64) returns (s: State)
    ensures Reachable(s, ["s"], global) && Settled(s) && Stale(s) && |s.current| == 1 && s.current[0].description == "d"
  {
    hide Reachable;
    hide Registered;
    hide Discovered;
    hide ScanLines;
    hide Declared;
    var text := Lines(Print(Metadata("d", [], None)));
    OneScriptDiscovered(true, true, text);
    OneScriptDiscovered(true, false, text);
    OneDescription(text);
    var rest := AfterFirstScan(true, text, global);
    s := RestsAfterChmod(rest, OneScript(true, false, text), global);
  }

  lemma OnePrintable()
    ensures var m := Metadata("d", [], None); Expressible(m) && |Print(m)| == 1 && Printable(m)
  {
    hide ScanLines;
    hide Contains;
    hide IsName;
    AsciiSpace('d');
    hide IsSpace;
    ShortFits(PrintDescription("d"));
    assert Print(Metadata("d", [], None)) == [PrintDescription("d")];
  }

  lemma OneDescription(text: string)
    requires text == Lines(Print(Metadata("d", [], None)))
    ensures Declared(ScanLines(text)) == Metadata("d", [], None)
  {
    OnePrintable();
    NothingScanned();
    NothingAborts();
    hide ScanLines;
    hide ScanAborts;
    hide Lines;
    hide Print;
    hide Printable;
    hide Expressible;
    hide Declared;
    var m := Metadata("d", [], None);
    assert "" + Lines(Print(m)) + "" == text;
    RoundTrip("", m, "");
  }

  /** Whatever is being applied gets registered. */
  lemma {:induction false} AppliedInTheEnd(s: State, scripts: Path, global: int64) returns (s': State)
    requires Reachable(s, scripts, global) && s.phase.Applying?
    ensures Reachable(s', scripts, global) && s'.phase.Idle? && s'.current == s.phase.tools && s'.dir == s.dir
    decreases Remaining(s, global)
  {
    hide Reachable;
    hide DiffOps;
    hide Apply;
    if s.phase.done < |DiffOps(s.current, s.phase.tools, global)| {
      StepReachable(s, CallServer, scripts, global);
      s' := AppliedInTheEnd(Step(s, CallServer, scripts, global), scripts, global);
    } else {
      StepReachable(s, Commit, scripts, global);
      s' := Step(s, Commit, scripts, global);
    }
  }

  /** In the middle of the first scan of a directory with one registered tool, the directory
      is renamed. */
  lemma LosingTools(global: int64) returns (s: State)
    ensures Reachable(s, ["s"], global) && s.dir.None? && |s.current| == 1 && s.phase == Applying([], 0)
  {
    hide Reachable;
    hide Registered;
    hide Discovered;
    var entries := OneScript(true, true, "");
    var tools := Discovered(entries);
    OneScriptDiscovered(true, true, "");
    DiscoveredDistinct(entries);
    FirstScanReachable(entries, tools, global);
    var s3 := FirstScan(entries, tools, global);
    StepReachable(s3, DeleteDirectory(Rename), ["s"], global);
    var s4 := Step(s3, DeleteDirectory(Rename), ["s"], global);
    StepReachable(s4, ScanFile, ["s"], global);
    var s5 := Step(s4, ScanFile, ["s"], global);
    LooksAtNothing([], "deploy", false);
    StepReachable(s5, EndScan, ["s"], global);
    s := Step(s5, EndScan, ["s"], global);
  }

  /** The last known tool set does get lost: a reachable state with one tool registered and
      the directory missing, from which the loop goes on to one with no tool, while the
      directory stays missing. */
  lemma LostTools(global: int64) returns (s: State, s': State)
    ensures Reachable(s, ["s"], global) && s.dir.None? && |s.current| == 1
    ensures Reachable(s', ["s"], global) && s'.dir.None? && s'.phase.Idle? && s'.current == [] && s'.server == map[]
  {
    hide Reachable;
    s := LosingTools(global);
    s' := AppliedInTheEnd(s, ["s"], global);
    ReachableServed(s', ["s"], global);
  }

  lemma ReachableServed(s: State, scripts: Path, global: int64)
    requires Reachable(s, scripts, global) && s.phase.Idle?
    ensures s.server == Registered(s.current, global)
  {
    var states, actions :| IsRun(states, actions, scripts, global) && states[|actions|] == s;
    ServerNeverShowsAGap(states, actions, scripts, global, |actions|);
    hide *;
  }
}

/** Hot reload as one state machine: the file system, the watcher with its event queue, the
    watch loop with its debounce timer, the scan of the directory file by file, and the
    registry with the server, one call at a time (watch.go, discover.go, registry.go). */
module HotReload {
  import opened Results
  import opened Timeout
  import opened Discover
  import opened ToolList
  import opened Registry
  import opened WatchLoop

  /** What is at the scripts path. A directory that is deleted and created again is another
      one; a watch stays with the directory it was attached to. */
  datatype Directory = Directory(generation: nat, entries: seq<Entry>)

  /** What a directory listing tells of an entry. */
  datatype Listed = Listed(file: string, isDir: bool)

  /** Where the watch loop is. */
  datatype Phase =
    | AddScripts
    | AddParent
    | ScanDue
    | Scanning(listing: seq<Listed>, k: nat, found: seq<DiscoveredTool>)
    | Applying(tools: seq<DiscoveredTool>, done: nat)
    | Idle
    | Stopped

  /** `read` remembers the entries as the last scan has looked at them, or is going to: only
      a change of permissions during a scan makes a difference. */
  datatype State = State(
    dir: Option<Directory>, queue: seq<Event>, attached: Option<nat>, parentWatched: bool,
    debounce: Debounce, now: nat, phase: Phase,
    current: seq<DiscoveredTool>, server: ServerMap, read: seq<Entry>)

  /** Steps of the environment, then steps of the watch loop. */
  datatype Action =
    | Edit(entries: seq<Entry>, file: string, op: FileOp)
    | EditPermissions(entries: seq<Entry>, file: string)
    | DeleteDirectory(op: FileOp)
    | CreateDirectory(directory: Directory)
    | OtherEvent(event: Event)
    | Elapse(time: nat)
    | StopWatching
    | WatchScripts
    | WatchParent
    | BeginScan
    | ScanFile
    | EndScan
    | CallServer
    | Commit
    | Receive
    | Fire
    | ReceiveTick

  predicate Internal(a: Action) {
    match a
    case Edit(_, _, _) | EditPermissions(_, _) | DeleteDirectory(_) | CreateDirectory(_) | OtherEvent(_) | Elapse(_)
        | StopWatching => false
    case _ => true
  }

  // ----- the file system

  function Listing(entries: seq<Entry>): (l: seq<Listed>)
    ensures |l| == |entries|
  {
    seq(|entries|, i requires 0 <= i < |entries| => Listed(entries[i].file, entries[i].isDir))
  }

  ghost predicate DistinctFiles(entries: seq<Entry>) {
    forall i, j :: 0 <= i < j < |entries| ==> entries[i].file != entries[j].file
  }

  function Find(entries: seq<Entry>, file: string): Target {
    if entries == [] then Target.Broken
    else if entries[0].file == file then entries[0].target
    else Find(entries[1..], file)
  }

  /** What the scan finds under a file name at the moment it looks. */
  function Look(dir: Option<Directory>, file: string): Target {
    if dir.Some? then Find(dir.value.entries, file) else Target.Broken
  }

  // ----- events

  function ChildEvent(scripts: Path, file: string, op: FileOp): Event { Event(scripts + [file], {op}) }

  function SelfEvent(scripts: Path, op: FileOp): Event { Event(scripts, {op}) }

  function Posted(queue: seq<Event>, seen: bool, e: Event): seq<Event> { if seen then queue + [e] else queue }

  ghost predicate RelevantQueued(queue: seq<Event>, scripts: Path) {
    exists i :: 0 <= i < |queue| && Relevant(queue[i], scripts)
  }

  ghost predicate ReplacementQueued(queue: seq<Event>, scripts: Path) {
    exists i :: 0 <= i < |queue| && Replaces(queue[i], scripts)
  }

  /** A watch on the directory is attached to the one that exists. */
  predicate Seen(s: State) { s.dir.Some? && s.attached == Some(s.dir.value.generation) }

  function GenerationOf(dir: Option<Directory>): Option<nat> {
    if dir.Some? then Some(dir.value.generation) else None
  }

  // ----- steps

  ghost predicate Enabled(s: State, a: Action, scripts: Path, global: int64) {
    match a
    case Edit(entries, _, op) => s.dir.Some? && DistinctFiles(entries) && op != Chmod
    case EditPermissions(entries, _) =>
      s.dir.Some? && DistinctFiles(entries) && SameButPermissions(s.dir.value.entries, entries)
    case DeleteDirectory(op) => s.dir.Some? && scripts != [] && (op == FileOp.Remove || op == Rename)
    case CreateDirectory(d) => s.dir.None? && scripts != [] && DistinctFiles(d.entries)
    case OtherEvent(_) => true
    case Elapse(_) => true
    case StopWatching => s.phase.Idle?
    case WatchScripts => s.phase.AddScripts?
    case WatchParent => s.phase.AddParent?
    case BeginScan => s.phase.ScanDue?
    case ScanFile => s.phase.Scanning? && s.phase.k < |s.phase.listing|
    case EndScan => s.phase.Scanning? && s.phase.k >= |s.phase.listing|
    case CallServer => s.phase.Applying? && s.phase.done < |DiffOps(s.current, s.phase.tools, global)|
    case Commit => s.phase.Applying? && s.phase.done >= |DiffOps(s.current, s.phase.tools, global)|
    case Receive => s.phase.Idle? && s.queue != []
    case Fire => s.phase.Idle? && s.debounce.timer.Armed?
    case ReceiveTick => s.phase.Idle? && s.debounce.timer.Fired?
  }

  function Deleted(s: State, op: FileOp, scripts: Path): State {
    var e := SelfEvent(scripts, op);
    s.(dir := None, attached := None, queue := Posted(Posted(s.queue, Seen(s), e), s.parentWatched, e))
  }

  /** The setup stops for good when the scripts directory is missing. */
  function ScriptsWatched(s: State): State {
    if s.dir.Some? then s.(attached := Some(s.dir.value.generation), phase := AddParent) else s.(phase := Stopped)
  }

  /** A missing directory ends the rescan at once; otherwise the listing is read. */
  function ScanBegun(s: State): State {
    if s.dir.Some? then s.(phase := Scanning(Listing(s.dir.value.entries), 0, []), read := s.dir.value.entries)
    else s.(phase := Idle)
  }

  function FileScanned(s: State): State
    requires s.phase.Scanning? && s.phase.k < |s.phase.listing|
  {
    var l := s.phase.listing[s.phase.k];
    s.(phase := Scanning(s.phase.listing, s.phase.k + 1,
        ScanEntry(s.phase.found, l.file, l.isDir, Look(s.dir, l.file))))
  }

  function Received(s: State, scripts: Path): State
    requires s.queue != []
  {
    var e := s.queue[0];
    s.(queue := s.queue[1..], debounce := AfterEvent(s.debounce, s.now, e, scripts),
        attached := Attached(s.attached, GenerationOf(s.dir), e, scripts))
  }

  ghost function Step(s: State, a: Action, scripts: Path, global: int64): State
    requires Enabled(s, a, scripts, global)
  {
    match a
    case Edit(entries, file, op) =>
      s.(dir := Some(s.dir.value.(entries := entries)),
         queue := Posted(s.queue, Seen(s), ChildEvent(scripts, file, op)))
    case EditPermissions(entries, file) =>
      s.(dir := Some(s.dir.value.(entries := entries)),
          queue := Posted(s.queue, Seen(s), ChildEvent(scripts, file, Chmod)),
          read := if s.phase.Scanning? then Reread(s.read, entries, s.phase.k) else s.read)
    case DeleteDirectory(op) => Deleted(s, op, scripts)
    case CreateDirectory(d) => s.(dir := Some(d), queue := Posted(s.queue, s.parentWatched, SelfEvent(scripts, Create)))
    case OtherEvent(e) => s.(queue := s.queue + [e])
    case Elapse(time) => s.(now := s.now + time)
    case StopWatching => s.(phase := Stopped)
    case WatchScripts => ScriptsWatched(s)
    case WatchParent => s.(parentWatched := scripts != [], phase := ScanDue)
    case BeginScan => ScanBegun(s)
    case ScanFile => FileScanned(s)
    case EndScan =>
      if ToolsEqual(s.current, s.phase.found) then s.(phase := Idle) else s.(phase := Applying(s.phase.found, 0))
    case CallServer =>
      var op := DiffOps(s.current, s.phase.tools, global)[s.phase.done];
      s.(server := Apply(s.server, op), phase := s.phase.(done := s.phase.done + 1))
    case Commit => s.(current := s.phase.tools, phase := Idle)
    case Receive => Received(s, scripts)
    case Fire =>
      s.(now := if s.now < s.debounce.timer.deadline then s.debounce.timer.deadline else s.now,
         debounce := Debounce(s.debounce.active, Fired))
    case ReceiveTick => s.(debounce := QUIET, phase := ScanDue)
  }

  /** The registry holds any earlier set of tools, which the server shows. */
  ghost predicate Start(s: State, global: int64) {
    && s.phase.AddScripts? && s.queue == [] && s.attached.None? && !s.parentWatched && s.debounce == QUIET
    && (s.dir.Some? ==> DistinctFiles(s.dir.value.entries))
    && DistinctNames(s.current) && s.server == Registered(s.current, global)
  }

  /** The states of a run: each is the step of the one before. */
  ghost predicate IsRun(states: seq<State>, actions: seq<Action>, scripts: Path, global: int64) {
    && |states| == |actions| + 1
    && Start(states[0], global)
    && forall i :: 0 <= i < |actions| ==>
         Enabled(states[i], actions[i], scripts, global)
         && states[i + 1] == Step(states[i], actions[i], scripts, global)
  }

  // ----- what every step keeps

  ghost predicate Names(s: State) {
    && DistinctNames(s.current)
    && (s.phase.Scanning? ==> DistinctNames(s.phase.found))
    && (s.phase.Applying? ==> DistinctNames(s.phase.tools))
    && (s.dir.Some? ==> DistinctFiles(s.dir.value.entries))
  }

  /** The server shows the baseline, or is on its way from it to the new set. */
  ghost predicate Served(s: State, global: int64) {
    if s.phase.Applying? then
      var ops := DiffOps(s.current, s.phase.tools, global);
      s.phase.done <= |ops| && s.server == ApplyAll(Registered(s.current, global), ops[..s.phase.done])
    else s.server == Registered(s.current, global)
  }

  predicate Clock(s: State) {
    && (s.debounce.active <==> !s.debounce.timer.Off?)
    && (s.debounce.active ==> s.phase.Idle? || s.phase.Stopped?)
  }

  /** The directory that exists is watched, or an event that will attach the watch to it is
      on its way. */
  ghost predicate Watched(s: State, scripts: Path) {
    && (s.attached.Some? ==> Seen(s))
    && match s.phase
       case AddScripts => true
       case Stopped => true
       case AddParent => Seen(s) || ReplacementQueued(s.queue, scripts)
       case _ =>
         && (s.parentWatched <==> scripts != [])
         && (s.dir.Some? ==> Seen(s) || ReplacementQueued(s.queue, scripts))
  }

  /** No event that a rescan is owed for waits. */
  ghost predicate Undisturbed(s: State, scripts: Path) { s.dir.Some? && !RelevantQueued(s.queue, scripts) }

  /** The scan so far is right about the files as it has read them, and those it has not
      reached are as it is going to read them. */
  ghost predicate ScanOk(s: State)
    requires s.dir.Some? && s.phase.Scanning?
  {
    var entries, k := s.dir.value.entries, s.phase.k;
    && s.phase.listing == Listing(entries)
    && k <= |entries| == |s.read| && s.read[k..] == entries[k..]
    && s.phase.found == Discovered(s.read[..k])
  }

  ghost predicate Fresh(s: State, scripts: Path) {
    Undisturbed(s, scripts) ==>
      match s.phase
      case Scanning(_, _, _) => SameButPermissions(s.read, s.dir.value.entries) && ScanOk(s)
      case Applying(tools, _) => SameButPermissions(s.read, s.dir.value.entries) && tools == Discovered(s.read)
      case Idle =>
        s.debounce.active || (SameButPermissions(s.read, s.dir.value.entries) && s.current == Discovered(s.read))
      case _ => true
  }

  ghost predicate Inv(s: State, scripts: Path, global: int64) {
    Names(s) && Served(s, global) && Clock(s) && Watched(s, scripts) && Fresh(s, scripts)
  }

  lemma StartInv(s: State, scripts: Path, global: int64)
    requires Start(s, global)
    ensures Inv(s, scripts, global)
  {
    hide DistinctNames;
    hide DistinctFiles;
    hide Registered;
  }

  // ----- the queue

  lemma QueueGrows(queue: seq<Event>, e: Event, scripts: Path)
    ensures RelevantQueued(queue + [e], scripts) <==> RelevantQueued(queue, scripts) || Relevant(e, scripts)
    ensures ReplacementQueued(queue + [e], scripts) <==> ReplacementQueued(queue, scripts) || Replaces(e, scripts)
  {
    hide Relevant;
    hide Replaces;
    var q := queue + [e];
    assert q[|queue|] == e;
    assert forall i :: 0 <= i < |queue| ==> q[i] == queue[i];
  }

  lemma QueueShrinks(queue: seq<Event>, scripts: Path)
    requires queue != []
    ensures RelevantQueued(queue, scripts) <==> Relevant(queue[0], scripts) || RelevantQueued(queue[1..], scripts)
    ensures ReplacementQueued(queue, scripts) <==> Replaces(queue[0], scripts) || ReplacementQueued(queue[1..], scripts)
  {
    hide Relevant;
    hide Replaces;
    assert queue == [queue[0]] + queue[1..];
    assert forall i :: 0 <= i < |queue[1..]| ==> queue[1..][i] == queue[i + 1];
    assert forall i :: 0 < i < |queue| ==> queue[i] == queue[1..][i - 1];
  }

  lemma ReplacementsAreRelevant(queue: seq<Event>, scripts: Path)
    ensures ReplacementQueued(queue, scripts) ==> RelevantQueued(queue, scripts)
  {
    hide Relevant;
    hide Replaces;
    if ReplacementQueued(queue, scripts) {
      var i :| 0 <= i < |queue| && Replaces(queue[i], scripts);
      ReplacementIsRelevant(queue[i], scripts);
    }
  }

  lemma ChildIsRelevant(scripts: Path, file: string, op: FileOp)
    requires op != Chmod
    ensures Relevant(ChildEvent(scripts, file, op), scripts)
  {
    assert op in {op} * WATCH_SPEC_EVENTS;
    assert (scripts + [file])[..|scripts|] == scripts;
  }

  lemma SelfReplaces(scripts: Path, op: FileOp)
    requires op == FileOp.Remove || op == Rename || op == Create
    ensures Replaces(SelfEvent(scripts, op), scripts) && Relevant(SelfEvent(scripts, op), scripts)
  {
    assert op in {op} * REPLACE_EVENTS;
    ReplacementIsRelevant(SelfEvent(scripts, op), scripts);
  }

  // ----- steps of the environment

  lemma EditKeeps(s: State, a: Action, scripts: Path, global: int64)
    requires Inv(s, scripts, global) && Enabled(s, a, scripts, global) && a.Edit?
    ensures Inv(Step(s, a, scripts, global), scripts, global)
  {
    hide DistinctNames;
    hide DistinctFiles;
    hide SameButPermissions;
    hide Registered;
    hide DiffOps;
    hide ApplyAll;
    hide Discovered;
    hide Relevant;
    hide Replaces;
    hide RelevantQueued;
    hide ReplacementQueued;
    hide ChildEvent;
    var e := ChildEvent(scripts, a.file, a.op);
    QueueGrows(s.queue, e, scripts);
    ChildIsRelevant(scripts, a.file, a.op);
    ReplacementsAreRelevant(s.queue, scripts);
  }

  lemma SameListing(a: seq<Entry>, b: seq<Entry>)
    requires SameButPermissions(a, b)
    ensures Listing(a) == Listing(b)
  {
  }

  lemma RereadKeeps(read: seq<Entry>, before: seq<Entry>, after: seq<Entry>, k: nat)
    requires SameButPermissions(read, before) && SameButPermissions(before, after) && k <= |before|
    ensures var mixed := Reread(read, after, k);
            SameButPermissions(mixed, after) && mixed[k..] == after[k..] && mixed[..k] == read[..k]
  {
  }

  /** A change of permissions during a scan: what has been read stays read as it was. */
  lemma PermissionsInScan(s: State, entries: seq<Entry>)
    requires s.dir.Some? && s.phase.Scanning? && ScanOk(s)
    requires SameButPermissions(s.read, s.dir.value.entries) && SameButPermissions(s.dir.value.entries, entries)
    ensures var s' := s.(dir := Some(s.dir.value.(entries := entries)), read := Reread(s.read, entries, s.phase.k));
            SameButPermissions(s'.read, entries) && ScanOk(s')
  {
    RereadKeeps(s.read, s.dir.value.entries, entries, s.phase.k);
    SameListing(s.dir.value.entries, entries);
    hide SamePermissionsApart;
    hide Reread;
    hide Listing;
    hide Discovered;
  }

  lemma PermissionsFresh(s: State, a: Action, scripts: Path, global: int64)
    requires Fresh(s, scripts) && Enabled(s, a, scripts, global) && a.EditPermissions?
    ensures Fresh(Step(s, a, scripts, global), scripts)
  {
    hide Discovered;
    hide SameButPermissions;
    hide RelevantQueued;
    hide ReplacementQueued;
    hide ChildEvent;
    hide Reread;
    hide DistinctFiles;
    QueueGrows(s.queue, ChildEvent(scripts, a.file, Chmod), scripts);
    if Undisturbed(s, scripts) {
      if s.phase.Scanning? {
        PermissionsInScan(s, a.entries);
      } else if SameButPermissions(s.read, s.dir.value.entries) {
        PermissionsAreTransitive(s.read, s.dir.value.entries, a.entries);
      }
    }
  }

  lemma PermissionsKeep(s: State, a: Action, scripts: Path, global: int64)
    requires Inv(s, scripts, global) && Enabled(s, a, scripts, global) && a.EditPermissions?
    ensures Inv(Step(s, a, scripts, global), scripts, global)
  {
    PermissionsFresh(s, a, scripts, global);
    hide Fresh;
    hide DistinctNames;
    hide DistinctFiles;
    hide SameButPermissions;
    hide Registered;
    hide DiffOps;
    hide ApplyAll;
    hide ReplacementQueued;
    hide ChildEvent;
    hide Reread;
    QueueGrows(s.queue, ChildEvent(scripts, a.file, Chmod), scripts);
  }

  lemma DeleteKeeps(s: State, a: Action, scripts: Path, global: int64)
    requires Inv(s, scripts, global) && Enabled(s, a, scripts, global) && a.DeleteDirectory?
    ensures Inv(Step(s, a, scripts, global), scripts, global)
  {
    hide DistinctNames;
    hide DistinctFiles;
    hide SameButPermissions;
    hide Registered;
    hide DiffOps;
    hide ApplyAll;
    hide Discovered;
    hide Relevant;
    hide Replaces;
    hide RelevantQueued;
    hide ReplacementQueued;
    hide SelfEvent;
    var e := SelfEvent(scripts, a.op);
    SelfReplaces(scripts, a.op);
    QueueGrows(s.queue, e, scripts);
    QueueGrows(Posted(s.queue, Seen(s), e), e, scripts);
  }

  lemma CreateKeeps(s: State, a: Action, scripts: Path, global: int64)
    requires Inv(s, scripts, global) && Enabled(s, a, scripts, global) && a.CreateDirectory?
    ensures Inv(Step(s, a, scripts, global), scripts, global)
  {
    hide DistinctNames;
    hide DistinctFiles;
    hide SameButPermissions;
    hide Registered;
    hide DiffOps;
    hide ApplyAll;
    hide Discovered;
    hide Relevant;
    hide Replaces;
    hide RelevantQueued;
    hide ReplacementQueued;
    hide SelfEvent;
    SelfReplaces(scripts, Create);
    QueueGrows(s.queue, SelfEvent(scripts, Create), scripts);
  }

  lemma OtherKeeps(s: State, a: Action, scripts: Path, global: int64)
    requires Inv(s, scripts, global) && Enabled(s, a, scripts, global)
             && (a.OtherEvent? || a.Elapse? || a.StopWatching?)
    ensures Inv(Step(s, a, scripts, global), scripts, global)
  {
    hide DistinctNames;
    hide DistinctFiles;
    hide SameButPermissions;
    hide Registered;
    hide DiffOps;
    hide ApplyAll;
    hide Discovered;
    hide Relevant;
    hide Replaces;
    hide RelevantQueued;
    hide ReplacementQueued;
    if a.OtherEvent? {
      QueueGrows(s.queue, a.event, scripts);
    }
  }

  // ----- steps of the watch loop

  lemma SetupKeeps(s: State, a: Action, scripts: Path, global: int64)
    requires Inv(s, scripts, global) && Enabled(s, a, scripts, global) && (a.WatchScripts? || a.WatchParent?)
    ensures Inv(Step(s, a, scripts, global), scripts, global)
  {
    hide DistinctNames;
    hide DistinctFiles;
    hide SameButPermissions;
    hide Registered;
    hide DiffOps;
    hide ApplyAll;
    hide Discovered;
    hide RelevantQueued;
    hide ReplacementQueued;
  }

  lemma NothingDiscovered(entries: seq<Entry>)
    ensures Discovered(entries[..0]) == [] && DistinctNames([])
  {
  }

  lemma SelfButPermissions(entries: seq<Entry>)
    ensures SameButPermissions(entries, entries)
  {
  }

  lemma BeginKeeps(s: State, scripts: Path, global: int64)
    requires Inv(s, scripts, global) && s.phase.ScanDue?
    ensures Inv(Step(s, BeginScan, scripts, global), scripts, global)
  {
    hide DistinctNames;
    hide DistinctFiles;
    hide SameButPermissions;
    hide Registered;
    hide DiffOps;
    hide ApplyAll;
    hide Discovered;
    hide Listing;
    hide RelevantQueued;
    hide ReplacementQueued;
    if s.dir.Some? {
      NothingDiscovered(s.dir.value.entries);
      SelfButPermissions(s.dir.value.entries);
    }
  }

  lemma {:induction false} FindsEntry(entries: seq<Entry>, k: nat)
    requires DistinctFiles(entries) && k < |entries|
    ensures Find(entries, entries[k].file) == entries[k].target
  {
    if k > 0 {
      FindsEntry(entries[1..], k - 1);
    }
  }

  lemma DiscoveredNext(entries: seq<Entry>, k: nat)
    requires k < |entries|
    ensures Discovered(entries[..k + 1])
            == ScanEntry(Discovered(entries[..k]), entries[k].file, entries[k].isDir, entries[k].target)
  {
    hide ScanEntry;
    assert entries[..k + 1][..k] == entries[..k];
  }

  /** A file that the scan looks at in an undisturbed directory adds what discovery adds. */
  lemma ScanGoesOn(s: State)
    requires s.dir.Some? && DistinctFiles(s.dir.value.entries)
    requires s.phase.Scanning? && s.phase.k < |s.phase.listing| && ScanOk(s)
    ensures ScanOk(FileScanned(s))
  {
    hide Discovered;
    hide ScanEntry;
    var entries, k := s.dir.value.entries, s.phase.k;
    FindsEntry(entries, k);
    assert s.read[k] == s.read[k..][0] == entries[k..][0] == entries[k];
    assert s.read[k + 1..] == s.read[k..][1..] == entries[k..][1..] == entries[k + 1..];
    DiscoveredNext(s.read, k);
    hide Find;
  }

  lemma ScanFileKeeps(s: State, scripts: Path, global: int64)
    requires Inv(s, scripts, global) && Enabled(s, ScanFile, scripts, global)
    ensures Inv(Step(s, ScanFile, scripts, global), scripts, global)
  {
    hide DistinctNames;
    hide DistinctFiles;
    hide SameButPermissions;
    hide Registered;
    hide ScanEntry;
    hide ScanOk;
    hide RelevantQueued;
    hide ReplacementQueued;
    var l := s.phase.listing[s.phase.k];
    ScanEntryDistinct(s.phase.found, l.file, l.isDir, Look(s.dir, l.file));
    hide Look;
    if Undisturbed(s, scripts) {
      ScanGoesOn(s);
    }
  }

  lemma ScanComplete(s: State)
    requires s.dir.Some? && s.phase.Scanning? && s.phase.k >= |s.phase.listing| && ScanOk(s)
    ensures s.phase.found == Discovered(s.read)
  {
    hide Discovered;
    assert s.read[..s.phase.k] == s.read;
  }

  lemma EndKeeps(s: State, scripts: Path, global: int64)
    requires Inv(s, scripts, global) && Enabled(s, EndScan, scripts, global)
    ensures Inv(Step(s, EndScan, scripts, global), scripts, global)
  {
    hide DistinctNames;
    hide DistinctFiles;
    hide SameButPermissions;
    hide Registered;
    hide DiffOps;
    hide ApplyAll;
    hide Discovered;
    hide ScanOk;
    hide ToolsEqual;
    hide RelevantQueued;
    hide ReplacementQueued;
    if Undisturbed(s, scripts) {
      ScanComplete(s);
    }
    if ToolsEqual(s.current, s.phase.found) {
      EqualSetsDiffEmpty(s.current, s.phase.found, global);
    } else {
      NothingApplied(s.server);
      assert DiffOps(s.current, s.phase.found, global)[..0] == [];
    }
  }

  lemma CallKeeps(s: State, scripts: Path, global: int64)
    requires Inv(s, scripts, global) && Enabled(s, CallServer, scripts, global)
    ensures Inv(Step(s, CallServer, scripts, global), scripts, global)
  {
    hide DistinctNames;
    hide DistinctFiles;
    hide SameButPermissions;
    hide Registered;
    hide DiffOps;
    hide Apply;
    hide ApplyAll;
    hide Discovered;
    hide RelevantQueued;
    hide ReplacementQueued;
    var ops, done := DiffOps(s.current, s.phase.tools, global), s.phase.done;
    assert ops[..done + 1] == ops[..done] + [ops[done]];
    ApplyAllAppend(Registered(s.current, global), ops[..done], ops[done]);
  }

  lemma CommitKeeps(s: State, scripts: Path, global: int64)
    requires Inv(s, scripts, global) && Enabled(s, Commit, scripts, global)
    ensures Inv(Step(s, Commit, scripts, global), scripts, global)
  {
    hide DistinctNames;
    hide DistinctFiles;
    hide SameButPermissions;
    hide Registered;
    hide DiffOps;
    hide ApplyAll;
    hide Discovered;
    hide RelevantQueued;
    hide ReplacementQueued;
    var ops := DiffOps(s.current, s.phase.tools, global);
    assert ops[..s.phase.done] == ops;
    DiffReaches(s.current, s.phase.tools, global);
  }

  lemma ReceiveWatched(s: State, scripts: Path)
    requires Watched(s, scripts) && s.phase.Idle? && s.queue != []
    ensures Watched(Received(s, scripts), scripts)
  {
    hide Relevant;
    hide Replaces;
    hide ReplacementQueued;
    QueueShrinks(s.queue, scripts);
  }

  lemma ReceiveFresh(s: State, scripts: Path)
    requires Fresh(s, scripts) && s.phase.Idle? && s.queue != []
    ensures Fresh(Received(s, scripts), scripts)
  {
    hide Discovered;
    hide Relevant;
    hide Replaces;
    hide RelevantQueued;
    hide ReplacementQueued;
    QueueShrinks(s.queue, scripts);
  }

  lemma ReceiveServed(s: State, scripts: Path, global: int64)
    requires Names(s) && Served(s, global) && Clock(s) && s.phase.Idle? && s.queue != []
    ensures var s' := Received(s, scripts); Names(s') && Served(s', global) && Clock(s')
  {
    hide DistinctNames;
    hide DistinctFiles;
    hide SameButPermissions;
    hide Registered;
    hide DiffOps;
    hide ApplyAll;
    hide Attached;
    hide Relevant;
  }

  lemma ReceiveKeeps(s: State, scripts: Path, global: int64)
    requires Inv(s, scripts, global) && s.phase.Idle? && s.queue != []
    ensures Inv(Received(s, scripts), scripts, global)
  {
    ReceiveServed(s, scripts, global);
    ReceiveWatched(s, scripts);
    ReceiveFresh(s, scripts);
    hide Names;
    hide Served;
    hide Clock;
    hide Watched;
    hide Fresh;
    hide Received;
  }

  lemma TickKeeps(s: State, a: Action, scripts: Path, global: int64)
    requires Inv(s, scripts, global) && Enabled(s, a, scripts, global) && (a.Fire? || a.ReceiveTick?)
    ensures Inv(Step(s, a, scripts, global), scripts, global)
  {
    hide DistinctNames;
    hide DistinctFiles;
    hide SameButPermissions;
    hide Registered;
    hide DiffOps;
    hide ApplyAll;
    hide Discovered;
    hide RelevantQueued;
    hide ReplacementQueued;
  }

  lemma ReceiveStepKeeps(s: State, scripts: Path, global: int64)
    requires Inv(s, scripts, global) && Enabled(s, Receive, scripts, global)
    ensures Inv(Step(s, Receive, scripts, global), scripts, global)
  {
    hide Inv;
    hide Received;
    ReceiveKeeps(s, scripts, global);
  }

  lemma StepKeepsInv(s: State, a: Action, scripts: Path, global: int64)
    requires Inv(s, scripts, global) && Enabled(s, a, scripts, global)
    ensures Inv(Step(s, a, scripts, global), scripts, global)
  {
    hide Inv;
    hide Step;
    match a
    case Edit(_, _, _) => EditKeeps(s, a, scripts, global);
    case EditPermissions(_, _) => PermissionsKeep(s, a, scripts, global);
    case DeleteDirectory(_) => DeleteKeeps(s, a, scripts, global);
    case CreateDirectory(_) => CreateKeeps(s, a, scripts, global);
    case OtherEvent(_) | Elapse(_) | StopWatching => OtherKeeps(s, a, scripts, global);
    case WatchScripts | WatchParent => SetupKeeps(s, a, scripts, global);
    case BeginScan => BeginKeeps(s, scripts, global);
    case ScanFile => ScanFileKeeps(s, scripts, global);
    case EndScan => EndKeeps(s, scripts, global);
    case CallServer => CallKeeps(s, scripts, global);
    case Commit => CommitKeeps(s, scripts, global);
    case Receive => ReceiveStepKeeps(s, scripts, global);
    case Fire | ReceiveTick => TickKeeps(s, a, scripts, global);
  }
}

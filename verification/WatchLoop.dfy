/** The event handling of the watch loop: which events arm the debounce timer, and when the
    watch is attached again to a replaced directory (watch.go). */
module WatchLoop {
  import opened Results

  /** The components of a cleaned absolute path; the root has none. */
  type Path = seq<string>

  /** filepath.Dir. */
  function Parent(p: Path): Path { if p == [] then [] else p[..|p| - 1] }

  datatype FileOp = Create | Write | Remove | Rename | Chmod

  datatype Event = Event(name: Path, ops: set<FileOp>)

  /** The operations that make an event relevant. */
  const WATCH_SPEC_EVENTS: set<FileOp> := {Create, Write, Remove, Rename}

  /** The operations that replace the inode of the path they are named with. */
  const REPLACE_EVENTS: set<FileOp> := {Create, Remove, Rename}

  /** The debounce delay in milliseconds. */
  const DEBOUNCE_DELAY: nat := 100

  datatype Timer = Off | Armed(deadline: nat) | Fired

  datatype Debounce = Debounce(active: bool, timer: Timer)

  const QUIET: Debounce := Debounce(false, Off)

  /** An event on the scripts directory or on one of its children. */
  predicate Matches(e: Event, scripts: Path) { e.name == scripts || Parent(e.name) == scripts }

  predicate Relevant(e: Event, scripts: Path) { Matches(e, scripts) && e.ops * WATCH_SPEC_EVENTS != {} }

  /** An event on the scripts directory itself after which it may be a different directory. */
  predicate Replaces(e: Event, scripts: Path) { e.name == scripts && e.ops * REPLACE_EVENTS != {} }

  function Arm(d: Debounce, now: nat): Debounce { if d.active then d else Debounce(true, Armed(now + DEBOUNCE_DELAY)) }

  /** The effect of one event: relevant ones arm the debounce, and a replacement of the
      directory attaches the watch to the directory that exists now, if one does. */
  function AfterEvent(d: Debounce, now: nat, e: Event, scripts: Path): Debounce {
    if Relevant(e, scripts) then Arm(d, now) else d
  }

  function Attached(attached: Option<nat>, exists_: Option<nat>, e: Event, scripts: Path): Option<nat> {
    if Replaces(e, scripts) && exists_.Some? then exists_ else attached
  }

  /** The scripts directory is watched for its children too; the parent entry is passive. */
  datatype WatchPath = WatchPath(path: Path, parent: Option<Path>, dirScope: bool, passive: bool)

  function WatchPathFor(path: Path): WatchPath {
    WatchPath(path, if Parent(path) == path then None else Some(Parent(path)), false, false)
  }

  /** The part of the loop that keeps state. Directories are told apart by a generation
      number; `directory` is the one at the scripts path, which the file system changes. */
  class Loop {
    const scripts: Path
    var paths: seq<WatchPath>
    var directory: Option<nat>
    var attached: Option<nat>
    var debounceActive: bool
    var timer: Timer

    ghost predicate Valid()
      reads this
    {
      && 0 < |paths| <= 2
      && paths[0].path == scripts && paths[0].dirScope && !paths[0].passive
      && (|paths| == 2 ==> paths[1].passive)
    }

    ghost function View(): Debounce
      reads this
    {
      Debounce(debounceActive, timer)
    }

    /** The setup: both watches are attached before the loop starts. */
    constructor (scripts: Path, directory: nat)
      ensures Valid() && this.scripts == scripts && this.directory == Some(directory) && attached == Some(directory)
              && View() == QUIET
      ensures |paths| == if scripts == [] then 1 else 2
    {
      this.scripts := scripts;
      this.directory := Some(directory);
      attached := Some(directory);
      debounceActive, timer := false, Off;
      var scriptsWP := WatchPathFor(scripts).(dirScope := true);
      paths := [scriptsWP];
      new;
      if scriptsWP.parent.Some? {
        paths := paths + [WatchPathFor(scriptsWP.parent.value).(passive := true)];
      }
    }

    /** Adds a watch on the directory that exists now, if any. */
    method AddWatch() returns (ok: bool)
      modifies `attached
      ensures ok == directory.Some?
      ensures attached == if directory.Some? then directory else old(attached)
    {
      ok := directory.Some?;
      if ok {
        attached := directory;
      }
    }

    /** Best effort; a successful attachment arms the debounce. */
    method Reattach(now: nat)
      modifies `attached, `debounceActive, `timer
      ensures attached == if directory.Some? then directory else old(attached)
      ensures View() == if directory.Some? then Arm(old(View()), now) else old(View())
    {
      var ok := AddWatch();
      if !ok {
        return;
      }
      if !debounceActive {
        debounceActive := true;
        timer := Armed(now + DEBOUNCE_DELAY);
      }
    }

    method HandleEvent(event: Event, now: nat)
      requires Valid()
      modifies `attached, `debounceActive, `timer
      ensures View() == AfterEvent(old(View()), now, event, scripts)
      ensures attached == Attached(old(attached), directory, event, scripts)
    {
      var i := 0;
      while i < |paths|
        invariant 0 <= i <= |paths|
        invariant View() == old(View()) && attached == old(attached)
        invariant i > 0 ==> !Matches(event, scripts)
      {
        if paths[i].passive {
          i := i + 1;
          continue;
        }
        var matched := event.name == paths[i].path;
        if !matched && paths[i].dirScope && Parent(event.name) == paths[i].path {
          matched := true;
        }
        if !matched {
          i := i + 1;
          continue;
        }
        var relevant := event.ops * WATCH_SPEC_EVENTS != {};
        if relevant {
          if !debounceActive {
            debounceActive := true;
            timer := Armed(now + DEBOUNCE_DELAY);
          }
        }
        ReplacementIsRelevant(event, scripts);
        if event.name == paths[i].path && event.ops * REPLACE_EVENTS != {} {
          Reattach(now);
        }
        break;
      }
    }

    /** Receiving the tick; the rescan follows. */
    method HandleTick()
      requires timer == Fired
      modifies `debounceActive, `timer
      ensures View() == QUIET
    {
      timer := Off;
      debounceActive := false;
    }
  }

  datatype SetupError = CannotWatchScripts | CannotWatchParent

  /** Setting up the watches. A directory that cannot be watched is fatal here, unlike in the
      loop. */
  method Setup(scripts: Path, directory: Option<nat>, parentExists: bool) returns (r: Result<Loop, SetupError>)
    ensures r == Err(CannotWatchScripts) <==> directory.None?
    ensures r == Err(CannotWatchParent) <==> directory.Some? && scripts != [] && !parentExists
    ensures r.Ok? ==> r.value.Valid() && r.value.scripts == scripts && fresh(r.value)
                      && r.value.directory == r.value.attached == directory && r.value.View() == QUIET
  {
    if directory.None? {
      return Err(CannotWatchScripts);
    }
    if WatchPathFor(scripts).parent.Some? && !parentExists {
      return Err(CannotWatchParent);
    }
    var loop := new Loop(scripts, directory.value);
    r := Ok(loop);
  }

  /** An event that replaces the directory is relevant itself, so it has armed the debounce
      before the watch is attached again: attaching never arms it. */
  lemma ReplacementIsRelevant(e: Event, scripts: Path)
    ensures Replaces(e, scripts) ==> Relevant(e, scripts)
    ensures forall d, now :: Replaces(e, scripts) ==>
            Arm(AfterEvent(d, now, e, scripts), now) == AfterEvent(d, now, e, scripts)
  {
    if Replaces(e, scripts) {
      var op :| op in e.ops * REPLACE_EVENTS;
      assert op in e.ops * WATCH_SPEC_EVENTS;
    }
  }

  /** Relevant is what creates, writes, removes or renames the scripts directory or something
      directly in it; what creates, removes or renames the directory itself replaces it. */
  lemma RelevantIff(e: Event, scripts: Path)
    ensures Relevant(e, scripts) <==>
            && (e.name == scripts || exists file :: e.name == scripts + [file])
            && (Create in e.ops || Write in e.ops || Remove in e.ops || Rename in e.ops)
    ensures Replaces(e, scripts) <==>
            e.name == scripts && (Create in e.ops || Remove in e.ops || Rename in e.ops)
  {
    MatchesIff(e, scripts);
    hide Matches;
    assert forall op :: op in e.ops * WATCH_SPEC_EVENTS <==> op in e.ops && op != Chmod;
    assert forall op :: op in e.ops * REPLACE_EVENTS <==> op in e.ops && op != Chmod && op != Write;
    assert Chmod !in e.ops * WATCH_SPEC_EVENTS;
  }

  lemma MatchesIff(e: Event, scripts: Path)
    ensures Matches(e, scripts) <==> e.name == scripts || exists file :: e.name == scripts + [file]
  {
    if e.name != [] && Parent(e.name) == scripts {
      assert e.name == scripts + [e.name[|e.name| - 1]];
    }
    forall file | e.name == scripts + [file] ensures Parent(e.name) == scripts {
      assert (scripts + [file])[..|scripts|] == scripts;
    }
  }

  /** What happens beside the scripts directory, or above it, never arms the debounce. */
  lemma SiblingsNeverArm(d: Debounce, now: nat, e: Event, scripts: Path)
    requires !Matches(e, scripts)
    ensures AfterEvent(d, now, e, scripts) == d
  {
  }
}

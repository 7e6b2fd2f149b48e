/** Discovery of tools in the scripts directory (discover.go). */
module Discover {
  import opened Results
  import opened Text
  import opened Timeout
  import opened Frontmatter

  datatype DiscoveredTool = DiscoveredTool(name: string, path: string, description: string, params: seq<ParamSpec>,
      timeout: Option<int64>)

  /** What a directory entry leads to once symbolic links are resolved. */
  datatype Target = Broken | File(path: string, regular: bool, executable: bool, readable: bool, text: string)

  /** A directory entry, as the directory listing shows it, and what is behind it. */
  datatype Entry = Entry(file: string, isDir: bool, target: Target)

  predicate IsToolFile(t: Target) { t.File? && t.regular && t.executable }

  /** The file name without its extension, which starts at the last dot. */
  function ToolName(file: string): string {
    match LastIndexOf(file, '.')
    case None => file
    case Some(dot) => file[..dot]
  }

  /** An unreadable file declares nothing. */
  function MetadataOf(t: Target): Metadata {
    if t.File? && t.readable then Declared(ScanLines(t.text)) else Metadata("", [], None)
  }

  function ToolOf(file: string, target: Target): DiscoveredTool
    requires target.File?
  {
    var m := MetadataOf(target);
    DiscoveredTool(ToolName(file), target.path, m.description, m.params, m.timeout)
  }

  /** The file is called by this name, or by it and an extension without a dot. */
  ghost predicate Named(file: string, stem: string) {
    (file == stem && '.' !in file) || exists ext: string :: '.' !in ext && file == stem + "." + ext
  }

  lemma StemOf(stem: string, ext: string)
    requires '.' !in ext
    ensures ToolName(stem + "." + ext) == stem
  {
    var file := stem + "." + ext;
    assert file[|stem|] == '.';
    assert forall j :: |stem| < j < |file| ==> file[j] == ext[j - |stem| - 1];
    assert file[..|stem|] == stem;
  }

  lemma NamedByStem(file: string, stem: string)
    ensures ToolName(file) == stem <==> Named(file, stem)
  {
    if '.' in file {
      var dot := LastIndexOf(file, '.').value;
      var ext := file[dot + 1..];
      assert file == file[..dot] + "." + ext;
      assert '.' !in ext;
      if Named(file, stem) {
        var e: string :| '.' !in e && file == stem + "." + e;
        StemOf(stem, e);
      }
    } else {
      forall e: string ensures file != stem + "." + e {
        assert (stem + "." + e)[|stem|] == '.';
      }
    }
  }

  predicate HasName(tools: seq<DiscoveredTool>, name: string) {
    exists i :: 0 <= i < |tools| && tools[i].name == name
  }

  /** One entry more: directories and other non-tools are skipped, and so is a tool whose
      name is taken. */
  function ScanEntry(tools: seq<DiscoveredTool>, file: string, isDir: bool, target: Target): seq<DiscoveredTool> {
    if isDir || !IsToolFile(target) || HasName(tools, ToolName(file)) then tools
    else tools + [ToolOf(file, target)]
  }

  /** What discovery of a directory with these entries, in listing order, yields. */
  function Discovered(entries: seq<Entry>): seq<DiscoveredTool> {
    if entries == [] then []
    else
      var last := entries[|entries| - 1];
      ScanEntry(Discovered(entries[..|entries| - 1]), last.file, last.isDir, last.target)
  }

  ghost predicate DistinctNames(tools: seq<DiscoveredTool>) {
    forall i, j :: 0 <= i < j < |tools| ==> tools[i].name != tools[j].name
  }

  lemma ScanEntryDistinct(tools: seq<DiscoveredTool>, file: string, isDir: bool, target: Target)
    requires DistinctNames(tools)
    ensures DistinctNames(ScanEntry(tools, file, isDir, target))
  {
    hide ToolName;
    hide MetadataOf;
  }

  /** The loop over the entries, with its map from tool names to the files that took them. */
  method DiscoverTools(entries: seq<Entry>) returns (tools: seq<DiscoveredTool>)
    ensures tools == Discovered(entries) && DistinctNames(tools)
    ensures forall t :: t in tools <==> exists i :: 0 <= i < |entries| && ToolOfEntry(entries, i, t)
  {
    hide ToolName;
    tools := [];
    var registeredNames: map<string, string> := map[];
    for k := 0 to |entries|
      invariant tools == Discovered(entries[..k]) && DistinctNames(tools)
      invariant forall n :: n in registeredNames <==> HasName(tools, n)
    {
      hide Declared;
      var entry := entries[k];
      assert entries[..k + 1][..k] == entries[..k];
      if entry.isDir || !IsToolFile(entry.target) {
        continue;
      }
      var metadata := Metadata("", [], None);
      if entry.target.readable {
        var description, params, timeout, warnings := ExtractFrontmatter(ScanLines(entry.target.text));
        metadata := Metadata(description, params, timeout);
      }
      var name := ToolName(entry.file);
      if name in registeredNames {
        continue;
      }
      registeredNames := registeredNames[name := entry.file];
      ghost var was := tools;
      tools := tools
          + [DiscoveredTool(name, entry.target.path, metadata.description, metadata.params, metadata.timeout)];
      NameAdded(was, tools[|was|]);
    }
    assert entries[..|entries|] == entries;
    hide Discovered;
    hide ToolOfEntry;
    forall t ensures t in tools <==> exists i :: 0 <= i < |entries| && ToolOfEntry(entries, i, t) {
      DiscoveredIff(entries, t);
    }
  }

  lemma NameAdded(tools: seq<DiscoveredTool>, tool: DiscoveredTool)
    ensures forall n :: HasName(tools + [tool], n) <==> HasName(tools, n) || n == tool.name
  {
    forall n ensures HasName(tools + [tool], n) <==> HasName(tools, n) || n == tool.name {
      if HasName(tools, n) {
        var i :| 0 <= i < |tools| && tools[i].name == n;
        assert (tools + [tool])[i].name == n;
      }
      assert (tools + [tool])[|tools|] == tool;
    }
  }

  lemma {:induction false} DiscoveredDistinct(entries: seq<Entry>)
    ensures DistinctNames(Discovered(entries))
  {
    if entries != [] {
      var last := entries[|entries| - 1];
      DiscoveredDistinct(entries[..|entries| - 1]);
      ScanEntryDistinct(Discovered(entries[..|entries| - 1]), last.file, last.isDir, last.target);
    }
  }

  predicate IsCandidate(e: Entry) { !e.isDir && IsToolFile(e.target) }

  /** Of several executables with one tool name, the first in listing order is registered. */
  lemma {:induction false} FirstFileWins(entries: seq<Entry>, i: nat)
    requires i < |entries| && IsCandidate(entries[i])
    requires forall j :: 0 <= j < i && IsCandidate(entries[j]) ==>
             ToolName(entries[j].file) != ToolName(entries[i].file)
    ensures ToolOf(entries[i].file, entries[i].target) in Discovered(entries)
  {
    hide ToolName;
    hide MetadataOf;
    var front := entries[..|entries| - 1];
    if i < |entries| - 1 {
      assert forall j :: 0 <= j < |front| ==> front[j] == entries[j];
      FirstFileWins(front, i);
    } else {
      forall k | 0 <= k < |Discovered(front)| ensures Discovered(front)[k].name != ToolName(entries[i].file) {
        var j := FromEntry(front, k);
        assert front[j] == entries[j];
      }
      var found := ScanEntry(Discovered(front), entries[i].file, entries[i].isDir, entries[i].target);
      assert found[|found| - 1] == ToolOf(entries[i].file, entries[i].target);
    }
  }

  /** Every discovered tool comes from an executable in the directory. */
  lemma {:induction false} FromEntry(entries: seq<Entry>, k: nat) returns (j: nat)
    requires k < |Discovered(entries)|
    ensures j < |entries| && IsCandidate(entries[j])
            && Discovered(entries)[k] == ToolOf(entries[j].file, entries[j].target)
  {
    hide ToolName;
    hide MetadataOf;
    var front := entries[..|entries| - 1];
    if k < |Discovered(front)| {
      j := FromEntry(front, k);
      assert front[j] == entries[j];
    } else {
      j := |entries| - 1;
    }
  }

  // ----- which files win

  /** The file is an executable, and no executable before it has the same tool name. */
  ghost predicate Wins(entries: seq<Entry>, i: nat)
    requires i < |entries|
  {
    IsCandidate(entries[i]) && forall j :: 0 <= j < i && IsCandidate(entries[j]) ==>
        ToolName(entries[j].file) != ToolName(entries[i].file)
  }

  lemma NameTaken(entries: seq<Entry>, j: nat, n: nat)
    requires j < n <= |entries| && IsCandidate(entries[j])
    ensures HasName(Discovered(entries[..n]), ToolName(entries[j].file))
    decreases n
  {
    hide ToolName;
    hide MetadataOf;
    hide HasName;
    var last := entries[n - 1];
    assert entries[..n][..n - 1] == entries[..n - 1];
    var front := Discovered(entries[..n - 1]);
    if j < n - 1 {
      NameTaken(entries, j, n - 1);
    }
    NameAdded(front,
        if last.target.File? then ToolOf(last.file, last.target) else DiscoveredTool("", "", "", [], None));
  }

  /** Discovery goes through the entries and adds exactly the winners. */
  lemma WinnerAdded(entries: seq<Entry>, n: nat)
    requires n < |entries|
    ensures Wins(entries, n) ==> entries[n].target.File?
    ensures Discovered(entries[..n + 1])
         == Discovered(entries[..n]) + (if Wins(entries, n) then [ToolOf(entries[n].file, entries[n].target)] else [])
  {
    hide ToolName;
    hide MetadataOf;
    var front, name := Discovered(entries[..n]), ToolName(entries[n].file);
    assert entries[..n + 1][..n] == entries[..n];
    if HasName(front, name) {
      var k :| 0 <= k < |front| && front[k].name == name;
      var j := FromEntry(entries[..n], k);
      assert !Wins(entries, n);
    } else {
      forall j | 0 <= j < n && IsCandidate(entries[j]) ensures ToolName(entries[j].file) != name {
        NameTaken(entries, j, n);
      }
    }
  }

  /** The tools that discovery yields are determined by the winners. */
  lemma {:induction false} SameWinners(a: seq<Entry>, b: seq<Entry>, n: nat)
    requires n <= |a| == |b|
    requires forall i :: 0 <= i < n ==> (Wins(a, i) <==> Wins(b, i))
    requires forall i :: 0 <= i < n && Wins(a, i) ==>
             a[i].target.File? && b[i].target.File? && ToolOf(a[i].file, a[i].target) == ToolOf(b[i].file, b[i].target)
    ensures Discovered(a[..n]) == Discovered(b[..n])
    decreases n
  {
    hide Wins;
    hide ToolOf;
    hide Discovered;
    if n > 0 {
      SameWinners(a, b, n - 1);
      WinnerAdded(a, n - 1);
      WinnerAdded(b, n - 1);
    } else {
      assert a[..0] == b[..0];
    }
  }

  lemma {:induction false} FromWinner(entries: seq<Entry>, n: nat, k: nat) returns (j: nat)
    requires n <= |entries| && k < |Discovered(entries[..n])|
    ensures j < n && Wins(entries, j) && entries[j].target.File?
            && Discovered(entries[..n])[k] == ToolOf(entries[j].file, entries[j].target)
    decreases n
  {
    hide Wins;
    hide ToolOf;
    hide Discovered;
    if n == 0 {
      NothingInNothing(entries);
    } else {
      WinnerAdded(entries, n - 1);
      if k < |Discovered(entries[..n - 1])| {
        j := FromWinner(entries, n - 1, k);
      } else {
        j := n - 1;
      }
    }
  }

  lemma NothingInNothing(entries: seq<Entry>)
    ensures Discovered(entries[..0]) == []
  {
  }

  /** Reading the first k entries only is enough exactly if no later entry wins. */
  lemma {:induction false} PrefixSuffices(entries: seq<Entry>, k: nat, n: nat)
    requires k <= n <= |entries|
    ensures Discovered(entries[..k]) <= Discovered(entries[..n])
    ensures Discovered(entries[..k]) == Discovered(entries[..n]) <==> forall i :: k <= i < n ==> !Wins(entries, i)
    decreases n
  {
    hide Wins;
    hide ToolOf;
    hide Discovered;
    if k < n {
      PrefixSuffices(entries, k, n - 1);
      WinnerAdded(entries, n - 1);
    }
  }

  // ----- when two states of a directory yield the same tools

  /** The same files win, and each of them declares the same. */
  ghost predicate SameTools(a: seq<Entry>, b: seq<Entry>)
    requires |a| == |b|
  {
    forall i :: 0 <= i < |a| ==> SameToolAt(a, b, i)
  }

  ghost predicate SameToolAt(a: seq<Entry>, b: seq<Entry>, i: nat)
    requires i < |a| == |b|
  {
    (Wins(a, i) <==> Wins(b, i)) && (Wins(a, i) ==> MetadataOf(a[i].target) == MetadataOf(b[i].target))
  }

  predicate SamePermissionsApart(t: Target, u: Target) {
    t == u || (t.File? && u.File? && u == t.(executable := u.executable, readable := u.readable))
  }

  /** The same entries, but for who may execute or read the files behind them. */
  ghost predicate SameButPermissions(a: seq<Entry>, b: seq<Entry>) {
    && |a| == |b|
    && forall i :: 0 <= i < |a| ==>
         a[i].file == b[i].file && a[i].isDir == b[i].isDir && SamePermissionsApart(a[i].target, b[i].target)
  }

  lemma PermissionsAreTransitive(a: seq<Entry>, b: seq<Entry>, c: seq<Entry>)
    requires SameButPermissions(a, b) && SameButPermissions(b, c)
    ensures SameButPermissions(a, c) && SameButPermissions(b, a)
  {
  }

  lemma SameDiscovery(a: seq<Entry>, b: seq<Entry>)
    requires SameButPermissions(a, b) && SameTools(a, b)
    ensures Discovered(a) == Discovered(b)
  {
    hide Discovered;
    hide Wins;
    hide MetadataOf;
    forall i | 0 <= i < |a|
      ensures Wins(a, i) <==> Wins(b, i)
      ensures Wins(a, i) ==>
              a[i].target.File? && b[i].target.File? && ToolOf(a[i].file, a[i].target) == ToolOf(b[i].file, b[i].target)
    {
      assert SameToolAt(a, b, i);
      WinnerAdded(a, i);
    }
    SameWinners(a, b, |a|);
    assert a[..|a|] == a && b[..|b|] == b;
  }

  /** If two entries of one tool name lead to one file, both sides show it with the same
      permissions under both. The file system sees to that at any moment; it can fail only
      between what was read of the one entry before a change and of the other after it. */
  ghost predicate ReadAlike(a: seq<Entry>, b: seq<Entry>)
    requires |a| == |b|
  {
    forall i, j :: 0 <= i < |a| && 0 <= j < |b| && a[i].target.File? && b[j].target.File?
                   && ToolName(a[i].file) == ToolName(b[j].file) && a[i].target.path == b[j].target.path
                   ==> a[j].target == a[i].target && b[i].target == b[j].target
  }

  predicate SameFile(t: Target, u: Target) { t.File? && u.File? && t.path == u.path }

  /** One file has one set of permissions, whatever entries lead to it. */
  ghost predicate Coherent(entries: seq<Entry>) {
    forall i, j :: 0 <= i < j < |entries| && SameFile(entries[i].target, entries[j].target) ==>
      entries[i].target == entries[j].target
  }

  lemma CoherentIsAlike(a: seq<Entry>, b: seq<Entry>)
    requires SameButPermissions(a, b) && Coherent(a) && Coherent(b)
    ensures ReadAlike(a, b)
  {
    hide ToolName;
  }

  lemma WinnerStays(a: seq<Entry>, b: seq<Entry>, i: nat)
    requires SameButPermissions(a, b) && ReadAlike(a, b) && i < |a| && Wins(a, i) && Discovered(a) == Discovered(b)
    ensures SameToolAt(a, b, i)
  {
    hide Discovered;
    hide MetadataOf;
    hide ToolName;
    FirstFileWins(a, i);
    var k :| 0 <= k < |Discovered(b)| && Discovered(b)[k] == ToolOf(a[i].file, a[i].target);
    assert b[..|b|] == b;
    var j := FromWinner(b, |b|, k);
    assert a[i].target.path == b[j].target.path && ToolName(a[i].file) == ToolName(b[j].file);
    assert a[j].target == a[i].target && b[i].target == b[j].target;
    assert IsCandidate(a[j]) && IsCandidate(b[i]);
  }

  lemma AlikeBothWays(a: seq<Entry>, b: seq<Entry>)
    requires SameButPermissions(a, b) && ReadAlike(a, b)
    ensures SameButPermissions(b, a) && ReadAlike(b, a)
  {
    hide ToolName;
  }

  /** A change of permissions alters discovery exactly if it alters, for some file, whether it
      is the first executable of its tool name or, if it is, what it declares. */
  lemma PermissionsMatter(a: seq<Entry>, b: seq<Entry>)
    requires SameButPermissions(a, b)
    ensures SameTools(a, b) ==> Discovered(a) == Discovered(b)
    ensures ReadAlike(a, b) && Discovered(a) == Discovered(b) ==> SameTools(a, b)
  {
    hide Discovered;
    hide Wins;
    hide MetadataOf;
    if SameTools(a, b) {
      SameDiscovery(a, b);
    } else if ReadAlike(a, b) && Discovered(a) == Discovered(b) {
      AlikeBothWays(a, b);
      hide ReadAlike;
      hide SameButPermissions;
      forall i | 0 <= i < |a| ensures SameToolAt(a, b, i) {
        if Wins(a, i) {
          WinnerStays(a, b, i);
        }
        if Wins(b, i) {
          WinnerStays(b, a, i);
        }
      }
    }
  }

  /** The first executable of a name among the entries up to an executable of that name. */
  lemma FirstOfName(entries: seq<Entry>, j: nat) returns (f: nat)
    requires j < |entries| && IsCandidate(entries[j])
    ensures f <= j && Wins(entries, f) && ToolName(entries[f].file) == ToolName(entries[j].file)
  {
    hide ToolName;
    hide IsCandidate;
    f := j;
    if l: nat :| l < j && IsCandidate(entries[l]) && ToolName(entries[l].file) == ToolName(entries[j].file) {
      f := FirstOfName(entries, l);
    }
  }

  /** What a scan has read when permissions change after its first k entries. */
  function Reread(before: seq<Entry>, after: seq<Entry>, k: nat): seq<Entry> {
    if k <= |before| == |after| then before[..k] + after[k..] else after
  }

  lemma RereadWinsBefore(before: seq<Entry>, after: seq<Entry>, k: nat, i: nat)
    requires |before| == |after| && i < k <= |before|
    ensures Wins(Reread(before, after, k), i) <==> Wins(before, i)
  {
    hide ToolName;
    hide IsCandidate;
    var mixed := Reread(before, after, k);
    assert forall j :: 0 <= j <= i ==> mixed[j] == before[j];
  }

  lemma SameNameTaken(a: seq<Entry>, b: seq<Entry>, k: nat, i: nat)
    requires SameButPermissions(a, b) && k <= i < |a| && a[k..] == b[k..] && Wins(a, i)
    requires forall n :: 0 <= n < k ==> (Wins(b, n) ==> Wins(a, n))
    ensures Wins(b, i)
  {
    hide ToolName;
    hide IsCandidate;
    assert a[i] == a[k..][i - k] == b[k..][i - k] == b[i];
    forall j | 0 <= j < i && IsCandidate(b[j]) ensures ToolName(b[j].file) != ToolName(b[i].file) {
      if j < k {
        var f := FirstOfName(b, j);
        assert IsCandidate(a[f]) && a[f].file == b[f].file;
      } else {
        assert a[j] == a[k..][j - k] == b[k..][j - k] == b[j];
      }
    }
  }

  /** When permissions change in the middle of a scan, only the entries that it has already
      read decide whether it still yields the present tools. */
  lemma ReadEntriesMatter(before: seq<Entry>, after: seq<Entry>, k: nat)
    requires SameButPermissions(before, after) && k <= |before|
    ensures SameTools(Reread(before, after, k), after) <==> forall i :: 0 <= i < k ==> SameToolAt(before, after, i)
  {
    hide Wins;
    hide MetadataOf;
    var mixed := Reread(before, after, k);
    assert SameButPermissions(mixed, after) && SameButPermissions(after, mixed);
    assert mixed[k..] == after[k..];
    forall i | 0 <= i < k ensures SameToolAt(mixed, after, i) <==> SameToolAt(before, after, i) {
      RereadWinsBefore(before, after, k, i);
      assert mixed[i] == before[i];
    }
    if forall i :: 0 <= i < k ==> SameToolAt(before, after, i) {
      forall i | 0 <= i < k ensures Wins(mixed, i) <==> Wins(after, i) {
        assert SameToolAt(mixed, after, i);
      }
      forall i | 0 <= i < |mixed| ensures SameToolAt(mixed, after, i) {
        if i >= k {
          assert mixed[i] == after[i];
          if Wins(mixed, i) {
            SameNameTaken(mixed, after, k, i);
          }
          if Wins(after, i) {
            SameNameTaken(after, mixed, k, i);
          }
        }
      }
    }
  }

  // ----- what discovery yields, said of files alone

  /** The entry leads to a regular file that may be executed, and its file is called so. */
  ghost predicate ExecutableCalled(e: Entry, name: string) {
    !e.isDir && e.target.File? && e.target.regular && e.target.executable && Named(e.file, name)
  }

  /** The tool is that of the i-th entry: of the executables called by its name this is the
      first, and the tool has its path and, if the file can be read, what it declares. */
  ghost predicate ToolOfEntry(entries: seq<Entry>, i: nat, t: DiscoveredTool)
    requires i < |entries|
  {
    var target := entries[i].target;
    && ExecutableCalled(entries[i], t.name)
    && (forall j :: 0 <= j < i ==> !ExecutableCalled(entries[j], t.name))
    && t.path == target.path
    && Metadata(t.description, t.params, t.timeout)
       == (if target.readable then Declared(ScanLines(target.text)) else Metadata("", [], None))
  }

  lemma CandidateCalled(e: Entry, name: string)
    ensures ExecutableCalled(e, name) <==> IsCandidate(e) && ToolName(e.file) == name
  {
    hide ToolName;
    hide Named;
    NamedByStem(e.file, name);
  }

  lemma WinnersTool(entries: seq<Entry>, i: nat, t: DiscoveredTool)
    requires i < |entries|
    ensures ToolOfEntry(entries, i, t) <==> Wins(entries, i) && t == ToolOf(entries[i].file, entries[i].target)
  {
    hide ToolName;
    hide ExecutableCalled;
    hide IsCandidate;
    hide Declared;
    hide ScanLines;
    forall j | 0 <= j <= i ensures ExecutableCalled(entries[j], t.name) <==>
        IsCandidate(entries[j]) && ToolName(entries[j].file) == t.name {
      CandidateCalled(entries[j], t.name);
    }
    assert IsCandidate(entries[i]) ==> entries[i].target.File? by {
      CandidateHasFile(entries[i]);
    }
    if entries[i].target.File? {
      var m := MetadataOf(entries[i].target);
      assert m == Metadata(m.description, m.params, m.timeout);
    }
  }

  lemma CandidateHasFile(e: Entry)
    ensures IsCandidate(e) ==> e.target.File?
  {
  }

  /** The tools discovered are exactly those of the entries. */
  lemma DiscoveredIff(entries: seq<Entry>, t: DiscoveredTool)
    ensures t in Discovered(entries) <==> exists i :: 0 <= i < |entries| && ToolOfEntry(entries, i, t)
  {
    hide Discovered;
    hide ToolOfEntry;
    hide Wins;
    hide ToolOf;
    if t in Discovered(entries) {
      var k :| 0 <= k < |Discovered(entries)| && Discovered(entries)[k] == t;
      assert entries[..|entries|] == entries;
      var i := FromWinner(entries, |entries|, k);
      WinnersTool(entries, i, t);
    }
    if i :| 0 <= i < |entries| && ToolOfEntry(entries, i, t) {
      WinnersTool(entries, i, t);
      WinnerFound(entries, i);
    }
  }

  lemma WinnerFound(entries: seq<Entry>, i: nat)
    requires i < |entries| && Wins(entries, i)
    ensures entries[i].target.File? && ToolOf(entries[i].file, entries[i].target) in Discovered(entries)
  {
    hide Discovered;
    hide ToolName;
    hide MetadataOf;
    FirstFileWins(entries, i);
  }
}

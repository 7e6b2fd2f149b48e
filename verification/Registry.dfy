/** The tool registry: the per-tool diff between the registered set and a new one, and the
    calls it makes to the server (registry.go). The server is a map from tool names to
    registrations with atomic updates. */
module Registry {
  import opened Results
  import opened Text
  import opened Timeout
  import opened Schema
  import opened Discover
  import opened ToolList

  /** What the server holds for one tool: what clients are shown and what its handler runs. */
  datatype Registration = Registration(description: string, schema: InputSchema, path: string, timeout: int64)

  type ServerMap = map<string, Registration>

  function RegistrationOf(tool: DiscoveredTool, global: int64): Registration {
    Registration(ToolDescription(tool, global), SchemaOf(tool.params), tool.path, Resolve(tool.timeout, global))
  }

  /** The text parses to the limit, and says so if there is none. */
  ghost predicate SaysLimit(text: string, limit: int64) {
    && (limit <= 0 ==> text == "none")
    && forall seconds: nat :: limit as int == seconds * SECOND ==> Meaning(text) == Some(limit)
  }

  /** The shown description: the tool's own, if it has one, and the time limit in brackets,
      which parses to the limit that the handler applies. */
  ghost predicate ShowsDescription(r: Registration, tool: DiscoveredTool) {
    exists text: string ::
      && SaysLimit(text, r.timeout)
      && r.description == (if tool.description == "" then "" else tool.description + " ") + "(timeout: " + text + ")"
  }

  /** What the server has to hold for a tool: its own path, its own time limit or else the
      global one, and the schema of its parameters. */
  ghost predicate Shows(r: Registration, tool: DiscoveredTool, global: int64) {
    && r.path == tool.path
    && r.timeout == (match tool.timeout case Some(own) => own case None => global)
    && r.schema == SchemaOf(tool.params)
    && ShowsDescription(r, tool)
  }

  lemma RegistrationShows(tool: DiscoveredTool, global: int64)
    ensures Shows(RegistrationOf(tool, global), tool, global)
  {
    hide SchemaOf;
    hide Meaning;
    hide TimeoutText;
    var r := RegistrationOf(tool, global);
    var text := TimeoutText(r.timeout as int);
    assert r.description == (if tool.description == "" then "" else tool.description + " ") + "(timeout: " + text
           + ")" by {
      hide Resolve;
      Bracketed(tool.description, text);
    }
    NoLimit(r.timeout);
    forall seconds: nat | r.timeout as int == seconds * SECOND ensures Meaning(text) == Some(r.timeout) {
      PrintParse(r.timeout, seconds);
    }
    assert SaysLimit(text, r.timeout);
  }

  lemma NoLimit(t: int64)
    ensures t <= 0 ==> TimeoutText(t as int) == "none"
  {
  }

  lemma Bracketed(description: string, text: string)
    ensures description + " " + ("(timeout: " + text + ")") == description + " " + "(timeout: " + text + ")"
    ensures "(timeout: " + text + ")" == "" + "(timeout: " + text + ")"
  {
  }

  /** The server holds exactly these tools, each with what it has to hold for it. */
  ghost predicate ShowsAll(m: ServerMap, tools: seq<DiscoveredTool>, global: int64) {
    && (forall i :: 0 <= i < |tools| ==> tools[i].name in m && Shows(m[tools[i].name], tools[i], global))
    && forall n :: n in m ==> HasName(tools, n)
  }

  /** The last tool of each name. */
  function ByName(tools: seq<DiscoveredTool>): (m: map<string, DiscoveredTool>)
    ensures forall n :: n in m ==> m[n].name == n && m[n] in tools
    ensures forall t :: t in tools ==> t.name in m
  {
    if tools == [] then map[]
    else ByName(tools[..|tools| - 1])[tools[|tools| - 1].name := tools[|tools| - 1]]
  }

  lemma {:induction false} ByNameDistinct(tools: seq<DiscoveredTool>, i: nat)
    requires DistinctNames(tools) && i < |tools|
    ensures tools[i].name in ByName(tools) && ByName(tools)[tools[i].name] == tools[i]
  {
    if i < |tools| - 1 {
      ByNameDistinct(tools[..|tools| - 1], i);
    }
  }

  /** The server map that registers exactly these tools. */
  function Registered(tools: seq<DiscoveredTool>, global: int64): ServerMap {
    map n | n in ByName(tools) :: RegistrationOf(ByName(tools)[n], global)
  }

  // ----- calls to the server

  datatype Op = Remove(names: set<string>) | Add(name: string, registration: Registration)

  /** RemoveTools takes all its names at once; AddTool replaces an existing name in place. */
  function Apply(m: ServerMap, op: Op): ServerMap {
    match op
    case Remove(names) => m - names
    case Add(name, r) => m[name := r]
  }

  function ApplyAll(m: ServerMap, ops: seq<Op>): ServerMap {
    if ops == [] then m else Apply(ApplyAll(m, ops[..|ops| - 1]), ops[|ops| - 1])
  }

  lemma ApplyAllAppend(m: ServerMap, ops: seq<Op>, op: Op)
    ensures ApplyAll(m, ops + [op]) == Apply(ApplyAll(m, ops), op)
  {
    assert (ops + [op])[..|ops|] == ops;
  }

  lemma NothingApplied(m: ServerMap)
    ensures ApplyAll(m, []) == m
  {
  }

  // ----- the diff

  predicate Unchanged(previous: map<string, DiscoveredTool>, tool: DiscoveredTool) {
    tool.name in previous && ToolEqual(previous[tool.name], tool)
  }

  function AddOps(previous: map<string, DiscoveredTool>, tools: seq<DiscoveredTool>, global: int64): seq<Op> {
    if tools == [] then []
    else
      var front, last := tools[..|tools| - 1], tools[|tools| - 1];
      AddOps(previous, front, global)
          + (if Unchanged(previous, last) then [] else [Add(last.name, RegistrationOf(last, global))])
  }

  lemma NoOps(previous: map<string, DiscoveredTool>, global: int64)
    ensures AddOps(previous, [], global) == []
  {
  }

  function RemovedNames(current: seq<DiscoveredTool>, tools: seq<DiscoveredTool>): set<string> {
    ByName(current).Keys - ByName(tools).Keys
  }

  function Removal(current: seq<DiscoveredTool>, tools: seq<DiscoveredTool>): (ops: seq<Op>)
    ensures |ops| <= 1
  {
    if RemovedNames(current, tools) == {} then [] else [Remove(RemovedNames(current, tools))]
  }

  /** The calls that replaceLocked makes: one removal of the names that are gone, then one
      addition per new or changed tool, in order. */
  function DiffOps(current: seq<DiscoveredTool>, tools: seq<DiscoveredTool>, global: int64): seq<Op> {
    Removal(current, tools) + AddOps(ByName(current), tools, global)
  }

  class Server {
    var tools: ServerMap
    ghost var calls: seq<Op>

    constructor ()
      ensures tools == map[] && calls == []
    {
      tools, calls := map[], [];
    }

    method RemoveTools(names: set<string>)
      modifies this
      ensures calls == old(calls) + [Remove(names)] && tools == Apply(old(tools), Remove(names))
    {
      tools := tools - names;
      calls := calls + [Remove(names)];
    }

    method AddTool(name: string, r: Registration)
      modifies this
      ensures calls == old(calls) + [Add(name, r)] && tools == Apply(old(tools), Add(name, r))
    {
      tools := tools[name := r];
      calls := calls + [Add(name, r)];
    }
  }

  class ToolRegistry {
    const server: Server
    const global: int64
    var current: seq<DiscoveredTool>

    /** What holds whenever the mutex is free. */
    ghost predicate Valid()
      reads this, server
    {
      && DistinctNames(current)
      && server.tools == Registered(current, global)
    }

    constructor (server: Server, global: int64)
      requires server.tools == map[]
      ensures Valid() && current == [] && this.server == server && this.global == global
    {
      this.server, this.global, current := server, global, [];
    }

    method IndexByName(tools: seq<DiscoveredTool>) returns (m: map<string, DiscoveredTool>)
      ensures m == ByName(tools)
    {
      m := map[];
      for k := 0 to |tools|
        invariant m == ByName(tools[..k])
      {
        assert tools[..k + 1][..k] == tools[..k];
        m := m[tools[k].name := tools[k]];
      }
      assert tools[..|tools|] == tools;
    }

    method AddToolLocked(tool: DiscoveredTool)
      modifies server
      ensures server.calls == old(server.calls) + [Add(tool.name, RegistrationOf(tool, global))]
      ensures server.tools == Apply(old(server.tools), Add(tool.name, RegistrationOf(tool, global)))
      ensures Shows(server.tools[tool.name], tool, global)
    {
      RegistrationShows(tool, global);
      hide Shows;
      var toolTimeout := Resolve(tool.timeout, global);
      var description := RegisteredDescription(tool.description, toolTimeout);
      var inputSchema := BuildInputSchema(tool.params);
      server.AddTool(tool.name, Registration(description, inputSchema, tool.path, toolTimeout));
    }

    /** The add loop of replaceLocked. */
    method AddChanged(previous: map<string, DiscoveredTool>, tools: seq<DiscoveredTool>)
      modifies server
      ensures server.calls == old(server.calls) + AddOps(previous, tools, global)
      ensures server.tools == ApplyAll(old(server.tools), AddOps(previous, tools, global))
    {
      hide RegistrationOf;
      hide ToolEqual;
      hide AddOps;
      hide Apply;
      hide ApplyAll;
      NothingApplied(server.tools);
      NoOps(previous, global);
      for k := 0 to |tools|
        invariant server.calls == old(server.calls) + AddOps(previous, tools[..k], global)
        invariant server.tools == ApplyAll(old(server.tools), AddOps(previous, tools[..k], global))
      {
        var tool := tools[k];
        AddOpsNext(previous, tools, k, global);
        if tool.name in previous && ToolEqual(previous[tool.name], tool) {
          continue;
        }
        ApplyAllAppend(old(server.tools), AddOps(previous, tools[..k], global),
            Add(tool.name, RegistrationOf(tool, global)));
        AddToolLocked(tool);
      }
      assert tools[..|tools|] == tools;
    }

    method ReplaceLocked(tools: seq<DiscoveredTool>)
      modifies this, server
      ensures current == tools
      ensures server.calls == old(server.calls) + DiffOps(old(current), tools, global)
      ensures server.tools == ApplyAll(old(server.tools), DiffOps(old(current), tools, global))
    {
      hide ByName;
      hide AddOps;
      hide Apply;
      hide ApplyAll;
      var previous := IndexByName(current);
      var want := IndexByName(tools);
      var removed := previous.Keys - want.Keys;
      assert removed == RemovedNames(current, tools);
      NothingApplied(server.tools);
      if removed != {} {
        ApplyAllAppend(server.tools, [], Remove(removed));
        assert [] + [Remove(removed)] == [Remove(removed)];
        server.RemoveTools(removed);
      }
      AddChanged(previous, tools);
      ApplyAllConcat(old(server.tools), Removal(old(current), tools), AddOps(previous, tools, global));
      current := tools;
    }

    /** replace: the whole update under the mutex. */
    method Replace(tools: seq<DiscoveredTool>)
      requires Valid() && DistinctNames(tools)
      modifies this, server
      ensures Valid() && current == tools && ShowsAll(server.tools, tools, global)
      ensures server.calls == old(server.calls) + DiffOps(old(current), tools, global)
    {
      hide RegistrationOf;
      hide Shows;
      ReplaceLocked(tools);
      DiffReaches(old(current), tools, global);
      RegisteredShows(tools, global);
    }

    /** replaceIfChanged: makes no call at all for an equal set, and in either case leaves
        what replace would have left. */
    method ReplaceIfChanged(tools: seq<DiscoveredTool>) returns (changed: bool)
      requires Valid() && DistinctNames(tools)
      modifies this, server
      ensures Valid() && current == tools && ShowsAll(server.tools, tools, global)
      ensures changed <==> !ToolsEqual(old(current), tools)
      ensures server.calls == old(server.calls) + DiffOps(old(current), tools, global)
      ensures server.tools == ApplyAll(old(server.tools), DiffOps(old(current), tools, global))
      ensures !changed ==> server.calls == old(server.calls) && server.tools == old(server.tools)
    {
      hide RegistrationOf;
      hide Shows;
      RegisteredShows(tools, global);
      if ToolsEqual(current, tools) {
        EqualSetsDiffEmpty(current, tools, global);
        return false;
      }
      ReplaceLocked(tools);
      DiffReaches(old(current), tools, global);
      return true;
    }
  }

  // ----- what every intermediate state of a replace shows

  /** What a client may see between the registrations of `current` and of `tools`: every
      name of both sets, no name of neither, and for each name one of the two versions. */
  ghost predicate Between(m: ServerMap, current: seq<DiscoveredTool>, tools: seq<DiscoveredTool>, global: int64) {
    var p, w := Registered(current, global), Registered(tools, global);
    && p.Keys * w.Keys <= m.Keys <= p.Keys + w.Keys
    && forall n :: n in m ==> (n in p && m[n] == p[n]) || (n in w && m[n] == w[n])
  }

  /** The names on which the tools so far have been put right, the others being as before. */
  ghost predicate AddedUpTo(m: ServerMap, start: ServerMap, tools: seq<DiscoveredTool>, k: nat, global: int64)
    requires k <= |tools|
  {
    && (forall n :: n in m <==> n in start || exists i :: 0 <= i < k && tools[i].name == n)
    && (forall i :: 0 <= i < k ==> tools[i].name in m && m[tools[i].name] == RegistrationOf(tools[i], global))
    && (forall n :: n in start && n in m && (forall i :: 0 <= i < k ==> tools[i].name != n) ==> m[n] == start[n])
  }

  /** The server map before the additions: the common names of the two sets. */
  function Common(current: seq<DiscoveredTool>, tools: seq<DiscoveredTool>, global: int64): ServerMap {
    Registered(current, global) - RemovedNames(current, tools)
  }

  /** An unchanged tool has the registration that the server already holds. */
  lemma UnchangedRegistration(current: seq<DiscoveredTool>, tool: DiscoveredTool, global: int64)
    requires Unchanged(ByName(current), tool)
    ensures tool.name in Registered(current, global)
            && Registered(current, global)[tool.name] == RegistrationOf(tool, global)
  {
    hide RegistrationOf;
    assert ByName(current)[tool.name] == tool;
  }

  lemma AddOpsNext(previous: map<string, DiscoveredTool>, tools: seq<DiscoveredTool>, k: nat, global: int64)
    requires k < |tools|
    ensures var ops, tool := AddOps(previous, tools[..k], global), tools[k];
            AddOps(previous, tools[..k + 1], global) == if Unchanged(previous, tool) then ops
                else ops + [Add(tool.name, RegistrationOf(tool, global))]
  {
    hide RegistrationOf;
    hide Unchanged;
    assert tools[..k + 1][..k] == tools[..k];
  }

  lemma NothingAdded(previous: map<string, DiscoveredTool>, start: ServerMap, tools: seq<DiscoveredTool>, global: int64)
    ensures AddedUpTo(ApplyAll(start, AddOps(previous, tools[..0], global)), start, tools, 0, global)
  {
  }

  lemma {:induction false} AddOpsProgress(current: seq<DiscoveredTool>, tools: seq<DiscoveredTool>, k: nat,
          global: int64)
    requires DistinctNames(tools) && k <= |tools|
    ensures AddedUpTo(ApplyAll(Common(current, tools, global), AddOps(ByName(current), tools[..k], global)),
                      Common(current, tools, global), tools, k, global)
    decreases k
  {
    hide RegistrationOf;
    hide ByName;
    hide AddOps;
    hide ApplyAll;
    hide AddedUpTo;
    hide Registered;
    hide Common;
    hide Unchanged;
    var start := Common(current, tools, global);
    if k == 0 {
      NothingAdded(ByName(current), start, tools, global);
    } else {
      var tool, ops := tools[k - 1], AddOps(ByName(current), tools[..k - 1], global);
      AddOpsProgress(current, tools, k - 1, global);
      AddOpsNext(ByName(current), tools, k - 1, global);
      AddedNext(ApplyAll(start, ops), start, tools, k - 1, global);
      if Unchanged(ByName(current), tool) {
        UnchangedRegistration(current, tool, global);
        CommonHas(current, tools, k - 1, global);
      } else {
        ApplyAllAppend(start, ops, Add(tool.name, RegistrationOf(tool, global)));
      }
    }
  }

  /** A registered tool that stays is not among the removed ones. */
  lemma CommonHas(current: seq<DiscoveredTool>, tools: seq<DiscoveredTool>, i: nat, global: int64)
    requires i < |tools| && tools[i].name in Registered(current, global)
    ensures tools[i].name in Common(current, tools, global)
    ensures Common(current, tools, global)[tools[i].name] == Registered(current, global)[tools[i].name]
  {
    assert tools[i] in tools;
  }

  lemma AddedNext(m: ServerMap, start: ServerMap, tools: seq<DiscoveredTool>, k: nat, global: int64)
    requires DistinctNames(tools) && k < |tools| && AddedUpTo(m, start, tools, k, global)
    ensures AddedUpTo(m[tools[k].name := RegistrationOf(tools[k], global)], start, tools, k + 1, global)
    ensures tools[k].name in start && start[tools[k].name] == RegistrationOf(tools[k], global) ==>
            AddedUpTo(m, start, tools, k + 1, global)
  {
    hide RegistrationOf;
    var m' := m[tools[k].name := RegistrationOf(tools[k], global)];
    if tools[k].name in start && start[tools[k].name] == RegistrationOf(tools[k], global) {
      assert m' == m;
    }
  }

  lemma RegisteredAt(tools: seq<DiscoveredTool>, i: nat, global: int64)
    requires DistinctNames(tools) && i < |tools|
    ensures tools[i].name in Registered(tools, global)
    ensures Registered(tools, global)[tools[i].name] == RegistrationOf(tools[i], global)
  {
    hide RegistrationOf;
    ByNameDistinct(tools, i);
  }

  lemma RegisteredFrom(tools: seq<DiscoveredTool>, name: string, global: int64)
    requires name in Registered(tools, global)
    ensures exists i :: 0 <= i < |tools| && tools[i].name == name
  {
    hide RegistrationOf;
    assert ByName(tools)[name] in tools;
  }

  /** What is registered for a set of tools is what has to be held for each. */
  lemma RegisteredShows(tools: seq<DiscoveredTool>, global: int64)
    requires DistinctNames(tools)
    ensures ShowsAll(Registered(tools, global), tools, global)
  {
    hide RegistrationOf;
    hide Shows;
    hide Registered;
    var m := Registered(tools, global);
    forall i | 0 <= i < |tools| ensures tools[i].name in m && Shows(m[tools[i].name], tools[i], global) {
      RegisteredAt(tools, i, global);
      RegistrationShows(tools[i], global);
    }
    forall n | n in m ensures HasName(tools, n) {
      RegisteredFrom(tools, n, global);
    }
  }

  /** The tool list shows of each tool the very description that the server holds, word by
      word behind its signature. */
  lemma ListShowsRegistration(tools: seq<DiscoveredTool>, i: nat, global: int64, width: int)
    requires DistinctNames(tools) && i < |tools|
    ensures tools[i].name in Registered(tools, global)
    ensures var shown := DescriptionLines(Registered(tools, global)[tools[i].name].description, width);
            Rendered([tools[i]], global, width) == Lines([Signature(tools[i].name, tools[i].params)] + shown)
  {
    RegisteredAt(tools, i, global);
    OneRendered(tools[i], global, width);
    hide Registered;
    hide Rendered;
    hide Signature;
    hide ToolDescription;
    hide SchemaOf;
  }

  lemma CommonKeys(current: seq<DiscoveredTool>, tools: seq<DiscoveredTool>, global: int64)
    ensures var p, w, start := Registered(current, global), Registered(tools, global), Common(current, tools, global);
            && (forall n :: n in start <==> n in p && n in w)
            && (forall n :: n in start ==> start[n] == p[n])
  {
    hide RegistrationOf;
    hide ByName;
  }

  /** The step from the additions so far to what clients see, for any maps. */
  lemma BetweenMaps(m: ServerMap, p: ServerMap, w: ServerMap, start: ServerMap, tools: seq<DiscoveredTool>, k: nat,
          global: int64)
    requires k <= |tools| && AddedUpTo(m, start, tools, k, global)
    requires forall n :: n in start <==> n in p && n in w
    requires forall n :: n in start ==> start[n] == p[n]
    requires forall i :: 0 <= i < |tools| ==> tools[i].name in w && w[tools[i].name] == RegistrationOf(tools[i], global)
    requires forall n :: n in w ==> exists i :: 0 <= i < |tools| && tools[i].name == n
    ensures p.Keys * w.Keys <= m.Keys <= p.Keys + w.Keys
    ensures forall n :: n in m ==> (n in p && m[n] == p[n]) || (n in w && m[n] == w[n])
    ensures k == |tools| ==> m == w
  {
    hide RegistrationOf;
    forall n | n in m ensures (n in p && m[n] == p[n]) || (n in w && m[n] == w[n]) {
      if i: nat :| i < k && tools[i].name == n {
        assert n in w && m[n] == w[n];
      } else {
        assert n in start && m[n] == start[n];
      }
    }
    if k == |tools| {
      forall n | n in w ensures n in m && m[n] == w[n] {
        var i :| 0 <= i < |tools| && tools[i].name == n;
      }
      assert m.Keys == w.Keys;
    }
  }

  lemma BetweenAdded(m: ServerMap, current: seq<DiscoveredTool>, tools: seq<DiscoveredTool>, k: nat, global: int64)
    requires DistinctNames(tools) && k <= |tools|
    requires AddedUpTo(m, Common(current, tools, global), tools, k, global)
    ensures Between(m, current, tools, global)
    ensures k == |tools| ==> m == Registered(tools, global)
  {
    hide RegistrationOf;
    hide AddedUpTo;
    hide Registered;
    hide Common;
    var p, w, start := Registered(current, global), Registered(tools, global), Common(current, tools, global);
    CommonKeys(current, tools, global);
    forall i | 0 <= i < |tools| ensures tools[i].name in w && w[tools[i].name] == RegistrationOf(tools[i], global) {
      RegisteredAt(tools, i, global);
    }
    forall n | n in w ensures exists i :: 0 <= i < |tools| && tools[i].name == n {
      RegisteredFrom(tools, n, global);
    }
    BetweenMaps(m, p, w, start, tools, k, global);
  }

  lemma BetweenStart(current: seq<DiscoveredTool>, tools: seq<DiscoveredTool>, global: int64)
    ensures Between(Registered(current, global), current, tools, global)
  {
    hide Registered;
  }

  lemma {:induction false} AddOpsSplit(previous: map<string, DiscoveredTool>, tools: seq<DiscoveredTool>, j: nat,
          global: int64)
    returns (k: nat)
    requires j <= |AddOps(previous, tools, global)|
    ensures k <= |tools| && AddOps(previous, tools[..k], global) == AddOps(previous, tools, global)[..j]
  {
    hide RegistrationOf;
    hide Unchanged;
    if j == |AddOps(previous, tools, global)| {
      k := |tools|;
      assert tools[..k] == tools;
    } else {
      var front := tools[..|tools| - 1];
      k := AddOpsSplit(previous, front, j, global);
      assert front[..k] == tools[..k];
      assert AddOps(previous, tools, global)[..j] == AddOps(previous, front, global)[..j];
    }
  }

  lemma {:induction false} ApplyAllConcat(m: ServerMap, a: seq<Op>, b: seq<Op>)
    ensures ApplyAll(m, a + b) == ApplyAll(ApplyAll(m, a), b)
    decreases |b|
  {
    hide Apply;
    if b == [] {
      assert a + b == a;
    } else {
      var c, op := b[..|b| - 1], b[|b| - 1];
      ApplyAllConcat(m, a, c);
      assert a + b == a + c + [op] && b == c + [op];
      ApplyAllAppend(m, a + c, op);
      ApplyAllAppend(ApplyAll(m, a), c, op);
    }
  }

  /** The removal alone leaves the common names. */
  lemma RemovalLeavesCommon(current: seq<DiscoveredTool>, tools: seq<DiscoveredTool>, global: int64)
    ensures ApplyAll(Registered(current, global), Removal(current, tools)) == Common(current, tools, global)
  {
    hide RegistrationOf;
    hide ByName;
    var removed, p := RemovedNames(current, tools), Registered(current, global);
    if removed == {} {
      assert p - removed == p;
    } else {
      assert [Remove(removed)][..0] == [];
    }
  }

  lemma DiffParts(current: seq<DiscoveredTool>, tools: seq<DiscoveredTool>, global: int64)
    ensures DiffOps(current, tools, global) == Removal(current, tools) + AddOps(ByName(current), tools, global)
    ensures ApplyAll(Registered(current, global), Removal(current, tools)) == Common(current, tools, global)
  {
    RemovalLeavesCommon(current, tools, global);
    hide Registered;
    hide AddOps;
  }

  /** No gap: after every prefix of the calls of a replace, a client sees all names of both
      sets, none of neither, each in its old or its new version. */
  lemma NoGap(current: seq<DiscoveredTool>, tools: seq<DiscoveredTool>, global: int64, j: nat)
    requires DistinctNames(tools) && j <= |DiffOps(current, tools, global)|
    ensures Between(ApplyAll(Registered(current, global), DiffOps(current, tools, global)[..j]), current, tools, global)
  {
    DiffParts(current, tools, global);
    hide RemovedNames;
    hide Registered;
    hide Common;
    hide DiffOps;
    hide AddOps;
    hide Between;
    hide AddedUpTo;
    var removal, adds := Removal(current, tools), AddOps(ByName(current), tools, global);
    hide Removal;
    hide ByName;
    var ops := DiffOps(current, tools, global);
    if j < |removal| {
      assert ops[..j] == [];
      BetweenStart(current, tools, global);
    } else {
      var k := AddOpsSplit(ByName(current), tools, j - |removal|, global);
      assert ops[..j] == removal + adds[..j - |removal|];
      ApplyAllConcat(Registered(current, global), removal, adds[..j - |removal|]);
      AddOpsProgress(current, tools, k, global);
      BetweenAdded(ApplyAll(Common(current, tools, global), adds[..j - |removal|]), current, tools, k, global);
    }
  }

  /** All the calls together turn the registration of the one set into that of the other. */
  lemma DiffReaches(current: seq<DiscoveredTool>, tools: seq<DiscoveredTool>, global: int64)
    requires DistinctNames(tools)
    ensures ApplyAll(Registered(current, global), DiffOps(current, tools, global)) == Registered(tools, global)
  {
    hide *;
    DiffParts(current, tools, global);
    var removal, adds := Removal(current, tools), AddOps(ByName(current), tools, global);
    assert tools[..|tools|] == tools;
    ApplyAllConcat(Registered(current, global), removal, adds);
    AddOpsProgress(current, tools, |tools|, global);
    BetweenAdded(ApplyAll(Common(current, tools, global), adds), current, tools, |tools|, global);
  }

  ghost predicate Touches(op: Op, name: string) {
    match op
    case Remove(names) => name in names
    case Add(n, _) => n == name
  }

  /** The call adds a tool that is new or changed. */
  ghost predicate FromChanged(op: Op, previous: map<string, DiscoveredTool>, tools: seq<DiscoveredTool>) {
    op.Add? && exists i :: 0 <= i < |tools| && tools[i].name == op.name && !Unchanged(previous, tools[i])
  }

  lemma {:induction false} AddOpsOrigin(previous: map<string, DiscoveredTool>, tools: seq<DiscoveredTool>, j: nat,
          global: int64)
    requires j < |AddOps(previous, tools, global)|
    ensures FromChanged(AddOps(previous, tools, global)[j], previous, tools)
  {
    hide RegistrationOf;
    hide Unchanged;
    var front, last := tools[..|tools| - 1], tools[|tools| - 1];
    var before := AddOps(previous, front, global);
    if j < |before| {
      AddOpsOrigin(previous, front, j, global);
      var i :| 0 <= i < |front| && front[i].name == before[j].name && !Unchanged(previous, front[i]);
      assert tools[i] == front[i];
    } else {
      assert tools[|tools| - 1] == last;
    }
  }

  lemma RemovalSparesWanted(current: seq<DiscoveredTool>, tools: seq<DiscoveredTool>, i: nat)
    requires i < |tools|
    ensures forall j :: 0 <= j < |Removal(current, tools)| ==> !Touches(Removal(current, tools)[j], tools[i].name)
  {
    assert tools[i] in tools;
  }

  lemma ChangedIsOther(op: Op, previous: map<string, DiscoveredTool>, tools: seq<DiscoveredTool>, i: nat)
    requires DistinctNames(tools) && i < |tools| && Unchanged(previous, tools[i]) && FromChanged(op, previous, tools)
    ensures !Touches(op, tools[i].name)
  {
    hide Unchanged;
  }

  /** No call of a replace touches a tool that is in both sets unchanged. */
  lemma UntouchedStays(current: seq<DiscoveredTool>, tools: seq<DiscoveredTool>, global: int64, i: nat, j: nat)
    requires DistinctNames(tools) && i < |tools| && Unchanged(ByName(current), tools[i])
    requires j < |DiffOps(current, tools, global)|
    ensures !Touches(DiffOps(current, tools, global)[j], tools[i].name)
  {
    hide *;
    DiffParts(current, tools, global);
    RemovalSparesWanted(current, tools, i);
    var r := |Removal(current, tools)|;
    if j >= r {
      AddOpsOrigin(ByName(current), tools, j - r, global);
      ChangedIsOther(DiffOps(current, tools, global)[j], ByName(current), tools, i);
    }
  }

  lemma {:induction false} AllUnchanged(previous: map<string, DiscoveredTool>, tools: seq<DiscoveredTool>,
          global: int64)
    requires forall i :: 0 <= i < |tools| ==> Unchanged(previous, tools[i])
    ensures AddOps(previous, tools, global) == []
  {
    hide Unchanged;
    if tools != [] {
      AllUnchanged(previous, tools[..|tools| - 1], global);
    }
  }

  /** For equal sets the diff is empty, so skipping it changes nothing. */
  lemma EqualSetsDiffEmpty(current: seq<DiscoveredTool>, tools: seq<DiscoveredTool>, global: int64)
    requires DistinctNames(current) && ToolsEqual(current, tools)
    ensures tools == current && DiffOps(current, tools, global) == []
  {
    assert tools == current;
    forall i | 0 <= i < |tools| ensures Unchanged(ByName(current), tools[i]) {
      ByNameDistinct(current, i);
    }
    hide Unchanged;
    hide ByName;
    AllUnchanged(ByName(current), tools, global);
  }

  lemma DuplicateByName(a: DiscoveredTool, b: DiscoveredTool)
    requires a.name == b.name
    ensures ByName([a]) == map[a.name := a] && ByName([b, a]) == map[a.name := a]
  {
    assert [a][..0] == [] && [b, a][..1] == [b] && [b][..0] == [];
  }

  lemma DuplicateAdds(previous: map<string, DiscoveredTool>, a: DiscoveredTool, b: DiscoveredTool, global: int64)
    requires a.name == b.name && a != b && previous == map[a.name := a]
    ensures AddOps(previous, [b, a], global) == [Add(b.name, RegistrationOf(b, global))]
  {
    hide RegistrationOf;
    assert [b, a][..1] == [b] && [b][..0] == [];
    assert AddOps(previous, [b], global) == [Add(b.name, RegistrationOf(b, global))];
  }

  /** Why names must be distinct: a set that declares a name twice, its second tool being
      the one registered already, is left with the first one registered. */
  lemma DuplicateNamesBreakReplace(a: DiscoveredTool, b: DiscoveredTool, global: int64)
    requires a.name == b.name && RegistrationOf(a, global) != RegistrationOf(b, global)
    ensures ApplyAll(Registered([a], global), DiffOps([a], [b, a], global)) != Registered([b, a], global)
  {
    hide RegistrationOf;
    hide ByName;
    hide AddOps;
    hide ApplyAll;
    DuplicateByName(a, b);
    DuplicateAdds(ByName([a]), a, b, global);
    var add := Add(b.name, RegistrationOf(b, global));
    assert DiffOps([a], [b, a], global) == [] + [add];
    hide DiffOps;
    ApplyAllAppend(Registered([a], global), [], add);
    NothingApplied(Registered([a], global));
    assert Registered([b, a], global)[a.name] == RegistrationOf(a, global);
  }
}

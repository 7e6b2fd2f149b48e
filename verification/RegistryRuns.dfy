/** Any number of replaces at once: the transition system of the registry's mutex, its
    diff baseline and the server map that clients list at any moment (registry.go). */
module RegistryRuns {
  import opened Results
  import opened Timeout
  import opened Discover
  import opened ToolList
  import opened Registry

  /** A caller of replace or replaceIfChanged. */
  datatype Caller = Waiting(tools: seq<DiscoveredTool>, onlyIfChanged: bool)
      | Working(tools: seq<DiscoveredTool>, done: nat) | Finished

  datatype State = State(current: seq<DiscoveredTool>, server: ServerMap, holder: Option<nat>, callers: map<nat,
      Caller>)

  /** Single steps, in any interleaving: a caller arrives, takes the mutex (and finds nothing
      to do, perhaps), makes one call to the server, or stores the baseline and leaves. */
  datatype Action = Arrive(id: nat, tools: seq<DiscoveredTool>, onlyIfChanged: bool) | Lock(id: nat)
      | CallServer(id: nat) | Unlock(id: nat)

  ghost predicate Enabled(s: State, a: Action, global: int64) {
    match a
    case Arrive(id, tools, _) => id !in s.callers && DistinctNames(tools)
    case Lock(id) => id in s.callers && s.callers[id].Waiting? && s.holder == None
    case CallServer(id) =>
      && id in s.callers && s.callers[id].Working?
      && s.callers[id].done < |DiffOps(s.current, s.callers[id].tools, global)|
    case Unlock(id) =>
      && id in s.callers && s.callers[id].Working?
      && s.callers[id].done >= |DiffOps(s.current, s.callers[id].tools, global)|
  }

  ghost function Step(s: State, a: Action, global: int64): State
    requires Enabled(s, a, global)
  {
    match a
    case Arrive(id, tools, onlyIfChanged) => s.(callers := s.callers[id := Waiting(tools, onlyIfChanged)])
    case Lock(id) =>
      var c := s.callers[id];
      if c.onlyIfChanged && ToolsEqual(s.current, c.tools) then s.(callers := s.callers[id := Finished])
      else s.(holder := Some(id), callers := s.callers[id := Working(c.tools, 0)])
    case CallServer(id) =>
      var c := s.callers[id];
      s.(server := Apply(s.server, DiffOps(s.current, c.tools, global)[c.done]),
          callers := s.callers[id := c.(done := c.done + 1)])
    case Unlock(id) =>
      s.(current := s.callers[id].tools, holder := None, callers := s.callers[id := Finished])
  }

  ghost predicate Start(s: State, global: int64) {
    && DistinctNames(s.current)
    && s.server == Registered(s.current, global)
    && s.holder == None
    && s.callers == map[]
  }

  /** The states of a run: each is the step of the one before. */
  ghost predicate IsRun(states: seq<State>, actions: seq<Action>, global: int64) {
    && |states| == |actions| + 1
    && Start(states[0], global)
    && forall i :: 0 <= i < |actions| ==>
         Enabled(states[i], actions[i], global) && states[i + 1] == Step(states[i], actions[i], global)
  }

  ghost predicate CallerOk(s: State, id: nat, global: int64)
    requires id in s.callers
  {
    match s.callers[id]
    case Waiting(tools, _) => DistinctNames(tools)
    case Working(tools, done) =>
      && DistinctNames(tools)
      && s.holder == Some(id)
      && done <= |DiffOps(s.current, tools, global)|
      && s.server == ApplyAll(Registered(s.current, global), DiffOps(s.current, tools, global)[..done])
    case Finished => true
  }

  ghost predicate Inv(s: State, global: int64) {
    && DistinctNames(s.current)
    && (s.holder == None ==> s.server == Registered(s.current, global))
    && (s.holder.Some? ==> s.holder.value in s.callers && s.callers[s.holder.value].Working?)
    && forall id :: id in s.callers ==> CallerOk(s, id, global)
  }

  lemma StepKeepsInv(s: State, a: Action, global: int64)
    requires Inv(s, global) && Enabled(s, a, global)
    ensures Inv(Step(s, a, global), global)
  {
    hide DiffOps;
    hide Registered;
    hide Apply;
    hide ApplyAll;
    hide DistinctNames;
    hide ToolsEqual;
    var s' := Step(s, a, global);
    if a.CallServer? {
      var c := s.callers[a.id];
      var ops := DiffOps(s.current, c.tools, global);
      assert ops[..c.done + 1] == ops[..c.done] + [ops[c.done]];
      ApplyAllAppend(Registered(s.current, global), ops[..c.done], ops[c.done]);
    } else if a.Unlock? {
      var c := s.callers[a.id];
      var ops := DiffOps(s.current, c.tools, global);
      assert ops[..c.done] == ops;
      DiffReaches(s.current, c.tools, global);
    } else if a.Lock? {
      NothingApplied(s.server);
      var ops := DiffOps(s.current, s.callers[a.id].tools, global);
      assert ops[..0] == [];
    }
    forall id | id in s'.callers ensures CallerOk(s', id, global) {
      if id != a.id {
        assert s'.callers[id] == s.callers[id] && CallerOk(s, id, global);
      }
    }
  }

  lemma {:induction false} RunKeepsInv(states: seq<State>, actions: seq<Action>, global: int64, i: nat)
    requires IsRun(states, actions, global) && i < |states|
    ensures Inv(states[i], global)
  {
    hide Inv;
    hide Start;
    hide Registered;
    hide Enabled;
    hide Step;
    if i > 0 {
      RunKeepsInv(states, actions, global, i - 1);
      StepKeepsInv(states[i - 1], actions[i - 1], global);
    } else {
      StartInv(states[0], global);
    }
  }

  lemma StartInv(s: State, global: int64)
    requires Start(s, global)
    ensures Inv(s, global)
  {
    hide Registered;
  }

  /** At any moment of any run: with the mutex free, the server holds the registration of the
      baseline; during a replace, every client sees all names that the old and the new set
      share, none outside both, each in its old or its new version. */
  lemma ClientsSeeNoGap(states: seq<State>, actions: seq<Action>, global: int64, i: nat)
    requires IsRun(states, actions, global) && i < |states|
    ensures var s := states[i];
            && (s.holder == None ==> s.server == Registered(s.current, global))
            && (s.holder.Some? ==> s.holder.value in s.callers && s.callers[s.holder.value].Working?
                                   && Between(s.server, s.current, s.callers[s.holder.value].tools, global))
  {
    RunKeepsInv(states, actions, global, i);
    hide Registered;
    hide Between;
    hide DiffOps;
    hide ApplyAll;
    hide IsRun;
    var s := states[i];
    if s.holder.Some? {
      var c := s.callers[s.holder.value];
      assert CallerOk(s, s.holder.value, global);
      NoGap(s.current, c.tools, global, c.done);
    }
  }

  /** With the mutex free, the server holds exactly the tools of the baseline, each with its own
      path, time limit, schema and description. */
  lemma FreeServerShowsTools(states: seq<State>, actions: seq<Action>, global: int64, i: nat)
    requires IsRun(states, actions, global) && i < |states| && states[i].holder == None
    ensures ShowsAll(states[i].server, states[i].current, global)
  {
    RunKeepsInv(states, actions, global, i);
    hide IsRun;
    hide Registered;
    hide ShowsAll;
    hide DistinctNames;
    RegisteredShows(states[i].current, global);
  }

  /** A replace never touches a tool that it does not change. */
  lemma UnchangedNeverRegisteredAgain(states: seq<State>, actions: seq<Action>, global: int64, i: nat, t: nat)
    requires IsRun(states, actions, global) && i < |actions| && actions[i].CallServer?
    requires var s := states[i];
             actions[i].id in s.callers && s.callers[actions[i].id].Working? && t < |s.callers[actions[i].id].tools|
             && Unchanged(ByName(s.current), s.callers[actions[i].id].tools[t])
    ensures var s, c := states[i], states[i].callers[actions[i].id];
            c.done < |DiffOps(s.current, c.tools, global)|
                && !Touches(DiffOps(s.current, c.tools, global)[c.done], c.tools[t].name)
  {
    RunKeepsInv(states, actions, global, i);
    var s, c := states[i], states[i].callers[actions[i].id];
    assert Enabled(s, actions[i], global) && CallerOk(s, actions[i].id, global);
    hide *;
    UntouchedStays(s.current, c.tools, global, t, c.done);
  }

  /** Whoever holds the mutex can go on, so nobody waits for it forever. */
  lemma HolderCanGoOn(states: seq<State>, actions: seq<Action>, global: int64, i: nat)
    requires IsRun(states, actions, global) && i < |states| && states[i].holder.Some?
    ensures var id :=
            states[i].holder.value; Enabled(states[i], CallServer(id), global) || Enabled(states[i], Unlock(id), global)
  {
    RunKeepsInv(states, actions, global, i);
    hide Registered;
    hide DiffOps;
    hide IsRun;
  }

  // ----- names that never leave

  ghost predicate AllKeep(s: State, name: string) {
    && HasName(s.current, name)
    && forall id :: id in s.callers ==> (s.callers[id].Waiting? ==> HasName(s.callers[id].tools, name))
                                        && (s.callers[id].Working? ==> HasName(s.callers[id].tools, name))
  }

  lemma {:induction false} RunKeepsName(states: seq<State>, actions: seq<Action>, global: int64, name: string, i: nat)
    requires IsRun(states, actions, global) && i < |states| && HasName(states[0].current, name)
    requires forall k :: 0 <= k < |actions| && actions[k].Arrive? ==> HasName(actions[k].tools, name)
    ensures AllKeep(states[i], name)
  {
    hide HasName;
    hide DiffOps;
    hide Registered;
    if i > 0 {
      RunKeepsName(states, actions, global, name, i - 1);
      var s, a := states[i - 1], actions[i - 1];
      assert Enabled(s, a, global) && states[i] == Step(s, a, global);
    }
  }

  lemma KeptIsRegistered(tools: seq<DiscoveredTool>, name: string, global: int64)
    requires HasName(tools, name)
    ensures name in Registered(tools, global)
  {
    hide RegistrationOf;
    var i :| 0 <= i < |tools| && tools[i].name == name;
    assert tools[i] in tools;
  }

  /** A tool name that is in the first set and in every set that anyone hands in is listed
      by the server at every moment, whatever replaces run concurrently. */
  lemma KeptNameAlwaysListed(states: seq<State>, actions: seq<Action>, global: int64, name: string, i: nat)
    requires IsRun(states, actions, global) && i < |states| && HasName(states[0].current, name)
    requires forall k :: 0 <= k < |actions| && actions[k].Arrive? ==> HasName(actions[k].tools, name)
    ensures name in states[i].server
  {
    RunKeepsName(states, actions, global, name, i);
    ClientsSeeNoGap(states, actions, global, i);
    var s := states[i];
    hide IsRun;
    hide Registered;
    hide HasName;
    KeptIsRegistered(s.current, name, global);
    if s.holder.Some? {
      KeptIsRegistered(s.callers[s.holder.value].tools, name, global);
    }
  }
}

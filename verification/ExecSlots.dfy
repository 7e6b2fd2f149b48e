/** The bound on concurrent tool executions, across hot reloads (registry.go). */
module ExecSlots {
  import opened Runs

  const DEFAULT_MAX_CONCURRENT_TOOLS: nat := 16

  /** Trying to send one more value into a channel that holds some, without waiting. */
  function Acquired(held: nat, limit: nat): (r: (bool, nat))
    ensures r.1 == held + (if r.0 then 1 else 0) && (held <= limit ==> r.1 <= limit)
  {
    if held < limit then (true, held + 1) else (false, held)
  }

  /** A buffered channel of empty values: what matters is how many it holds. */
  class ExecSlot {
    const limit: nat
    var held: nat

    ghost predicate Valid()
      reads this
    {
      held <= limit && limit > 0
    }

    constructor (limit: int)
      ensures Valid() && held == 0 && this.limit == if limit <= 0 then DEFAULT_MAX_CONCURRENT_TOOLS else limit
    {
      this.limit := if limit <= 0 then DEFAULT_MAX_CONCURRENT_TOOLS else limit;
      held := 0;
    }

    method TryAcquire() returns (ok: bool)
      requires Valid()
      modifies this
      ensures Valid() && (ok, held) == Acquired(old(held), limit)
    {
      ok := held < limit;
      if ok {
        held := held + 1;
      }
    }

    /** Receiving from an empty channel would block: the protocol below never does that. */
    method Release()
      requires Valid() && held > 0
      modifies this
      ensures Valid() && held == old(held) - 1
    {
      held := held - 1;
    }
  }

  // ----- the calls, each on the handler version that it was dispatched to

  datatype Phase = Parsing | Validating | Acquiring | Executing | Done(outcome: Outcome)

  /** A refusal remembers how many calls were inside executeTool at that moment. */
  datatype Outcome = Malformed | Invalid | AtCapacity(executing: nat) | Completed

  datatype Call = Call(handler: nat, phase: Phase)

  datatype State = State(limit: nat, held: nat, handler: nat, calls: map<nat, Call>)

  datatype Action = Replace | Dispatch(id: nat) | Parse(id: nat, ok: bool) | Validate(id: nat, ok: bool)
      | TryAcquire(id: nat) | Finish(id: nat)

  predicate At(s: State, id: nat, p: Phase) { id in s.calls && s.calls[id].phase == p }

  /** Finish releases the slot, so it must wait while the channel is empty. */
  predicate Enabled(s: State, a: Action) {
    match a
    case Replace => true
    case Dispatch(id) => id !in s.calls
    case Parse(id, _) => At(s, id, Parsing)
    case Validate(id, _) => At(s, id, Validating)
    case TryAcquire(id) => At(s, id, Acquiring)
    case Finish(id) => At(s, id, Executing) && s.held > 0
  }

  function SetPhase(s: State, id: nat, p: Phase): State
    requires id in s.calls
  {
    s.(calls := s.calls[id := s.calls[id].(phase := p)])
  }

  function Step(s: State, a: Action): State
    requires Enabled(s, a)
  {
    match a
    case Replace => s.(handler := s.handler + 1)
    case Dispatch(id) => s.(calls := s.calls[id := Call(s.handler, Parsing)])
    case Parse(id, ok) => SetPhase(s, id, if ok then Validating else Done(Malformed))
    case Validate(id, ok) => SetPhase(s, id, if ok then Acquiring else Done(Invalid))
    case TryAcquire(id) =>
      var (ok, held) := Acquired(s.held, s.limit);
      SetPhase(s, id, if ok then Executing else Done(AtCapacity(|Inside(s)|))).(held := held)
    case Finish(id) => SetPhase(s, id, Done(Completed)).(held := s.held - 1)
  }

  /** The calls inside executeTool, whatever handler version they run on. */
  function Inside(s: State): set<nat> { set id | id in s.calls && s.calls[id].phase == Executing }

  ghost predicate Inv(s: State) {
    && s.held == |Inside(s)|
    && s.held <= s.limit
    && forall id :: id in s.calls && s.calls[id].phase.Done? && s.calls[id].phase.outcome.AtCapacity?
         ==> s.calls[id].phase.outcome.executing == s.limit
  }

  ghost predicate IsRun(states: seq<State>, actions: seq<Action>) {
    && |states| == |actions| + 1
    && states[0].held == 0 && states[0].calls == map[]
    && forall i :: 0 <= i < |actions| ==> Enabled(states[i], actions[i]) && states[i + 1] == Step(states[i], actions[i])
  }

  lemma InsideAfter(s: State, id: nat, p: Phase)
    requires id in s.calls
    ensures p == Executing && s.calls[id].phase != Executing ==>
            Inside(SetPhase(s, id, p)) == Inside(s) + {id} && id !in Inside(s)
    ensures p != Executing && s.calls[id].phase == Executing ==>
            Inside(SetPhase(s, id, p)) == Inside(s) - {id} && id in Inside(s)
    ensures p != Executing && s.calls[id].phase != Executing ==> Inside(SetPhase(s, id, p)) == Inside(s)
  {
  }

  lemma AcquireKeepsInv(s: State, id: nat)
    requires Inv(s) && Enabled(s, TryAcquire(id))
    ensures Inv(Step(s, TryAcquire(id)))
  {
    var s' := Step(s, TryAcquire(id));
    InsideAfter(s, id, s'.calls[id].phase);
    assert Inside(s') == Inside(SetPhase(s, id, s'.calls[id].phase));
  }

  lemma StepKeepsInv(s: State, a: Action)
    requires Inv(s) && Enabled(s, a)
    ensures Inv(Step(s, a)) && Step(s, a).limit == s.limit
  {
    var s' := Step(s, a);
    match a
    case Replace => assert Inside(s') == Inside(s);
    case Dispatch(id) => assert Inside(s') == Inside(s);
    case Parse(id, ok) => InsideAfter(s, id, s'.calls[id].phase);
    case Validate(id, ok) => InsideAfter(s, id, s'.calls[id].phase);
    case TryAcquire(id) => AcquireKeepsInv(s, id);
    case Finish(id) =>
      InsideAfter(s, id, Done(Completed));
      assert Inside(s') == Inside(SetPhase(s, id, Done(Completed)));
  }

  lemma {:induction false} RunKeepsInv(states: seq<State>, actions: seq<Action>, i: nat)
    requires IsRun(states, actions) && i < |states|
    ensures Inv(states[i]) && states[i].limit == states[0].limit
  {
    hide Inv;
    hide Step;
    if i == 0 {
      StartInv(states[0]);
    } else {
      RunKeepsInv(states, actions, i - 1);
      StepKeepsInv(states[i - 1], actions[i - 1]);
    }
  }

  lemma StartInv(s: State)
    requires s.held == 0 && s.calls == map[]
    ensures Inv(s)
  {
    assert Inside(s) == {};
  }

  /** In every interleaving of calls and replaces: the slots held are the calls inside
      executeTool, old and new handlers together, never more than the limit; a call was
      refused only while exactly `limit` calls were inside; and release never blocks. */
  lemma SlotsConserved(states: seq<State>, actions: seq<Action>, i: nat, id: nat)
    requires IsRun(states, actions) && i < |states| && id in states[i].calls
    ensures var s := states[i];
            && s.held == |Inside(s)| <= states[0].limit
            && (s.calls[id].phase.Done? && s.calls[id].phase.outcome.AtCapacity? ==>
                 s.calls[id].phase.outcome.executing == states[0].limit)
            && (s.calls[id].phase == Executing ==> Enabled(s, Finish(id)))
  {
    RunKeepsInv(states, actions, i);
    var s := states[i];
    if s.calls[id].phase == Executing {
      assert id in Inside(s);
    }
  }

  /** Once no call is inside executeTool, no slot is lost: a validated call is admitted. */
  lemma IdleAdmits(states: seq<State>, actions: seq<Action>, i: nat, id: nat)
    requires IsRun(states, actions) && i < |states| && states[0].limit > 0
    requires Inside(states[i]) == {} && At(states[i], id, Acquiring)
    ensures At(Step(states[i], TryAcquire(id)), id, Executing)
  {
    RunKeepsInv(states, actions, i);
  }

  // ----- which calls get that far

  ghost predicate TakenInOrder(actions: seq<Action>, i: nat, a: Action, b: Action)
    requires i <= |actions|
  {
    exists k :: 0 <= k < i && actions[k] == b && Taken(actions, k, a)
  }

  lemma InOrderNext(actions: seq<Action>, i: nat, a: Action, b: Action)
    requires i < |actions|
    ensures TakenInOrder(actions, i + 1, a, b) <==>
            TakenInOrder(actions, i, a, b) || (actions[i] == b && Taken(actions, i, a))
  {
    hide Taken;
  }

  /** The call's arguments were found to be well-formed, then valid. */
  ghost predicate Passed(actions: seq<Action>, i: nat, id: nat)
    requires i <= |actions|
  {
    TakenInOrder(actions, i, Parse(id, true), Validate(id, true))
  }

  predicate PastChecks(p: Phase) {
    p.Acquiring? || p.Executing? || (p.Done? && (p.outcome.AtCapacity? || p.outcome.Completed?))
  }

  /** Where a call is tells how its checks were answered. */
  ghost predicate Answered(actions: seq<Action>, i: nat, id: nat, p: Phase)
    requires i <= |actions|
  {
    && (PastChecks(p) <==> Passed(actions, i, id))
    && (p == Done(Malformed) <==> Taken(actions, i, Parse(id, false)))
    && (p == Done(Invalid) <==> Taken(actions, i, Validate(id, false)))
    && (p.Validating? || p == Done(Invalid) ==> Taken(actions, i, Parse(id, true)))
  }

  /** Nothing was answered to a call that has not arrived. */
  ghost predicate Unanswered(actions: seq<Action>, i: nat, id: nat)
    requires i <= |actions|
  {
    && !Passed(actions, i, id) && !Taken(actions, i, Parse(id, false)) && !Taken(actions, i, Validate(id, false))
  }

  predicate Concerns(a: Action, id: nat) { !a.Replace? && a.id == id }

  lemma OthersAnswerNothing(actions: seq<Action>, i: nat, id: nat)
    requires i < |actions| && !Concerns(actions[i], id)
    ensures Passed(actions, i + 1, id) <==> Passed(actions, i, id)
    ensures forall ok :: Taken(actions, i + 1, Parse(id, ok)) <==> Taken(actions, i, Parse(id, ok))
    ensures forall ok :: Taken(actions, i + 1, Validate(id, ok)) <==> Taken(actions, i, Validate(id, ok))
  {
    hide Taken;
    hide TakenInOrder;
    InOrderNext(actions, i, Parse(id, true), Validate(id, true));
    forall ok: bool
      ensures Taken(actions, i + 1, Parse(id, ok)) <==> Taken(actions, i, Parse(id, ok))
      ensures Taken(actions, i + 1, Validate(id, ok)) <==> Taken(actions, i, Validate(id, ok))
    {
      TakenNext(actions, i, Parse(id, ok));
      TakenNext(actions, i, Validate(id, ok));
    }
  }

  lemma StepKeepsAnswers(s: State, actions: seq<Action>, i: nat, id: nat)
    requires i < |actions| && Enabled(s, actions[i]) && Concerns(actions[i], id)
    requires if id in s.calls then Answered(actions, i, id, s.calls[id].phase) else Unanswered(actions, i, id)
    ensures id in Step(s, actions[i]).calls && Answered(actions, i + 1, id, Step(s, actions[i]).calls[id].phase)
  {
    hide Taken;
    hide TakenInOrder;
    InOrderNext(actions, i, Parse(id, true), Validate(id, true));
    TakenNext(actions, i, Parse(id, true));
    TakenNext(actions, i, Parse(id, false));
    TakenNext(actions, i, Validate(id, true));
    TakenNext(actions, i, Validate(id, false));
  }

  lemma StepLeavesOthers(s: State, a: Action, id: nat)
    requires Enabled(s, a) && !Concerns(a, id)
    ensures id in Step(s, a).calls <==> id in s.calls
    ensures id in s.calls ==> Step(s, a).calls[id] == s.calls[id]
  {
  }

  lemma {:induction false} RunKeepsAnswers(states: seq<State>, actions: seq<Action>, i: nat, id: nat)
    requires IsRun(states, actions) && i < |states|
    ensures if id in states[i].calls then Answered(actions, i, id, states[i].calls[id].phase)
            else Unanswered(actions, i, id)
  {
    hide Step;
    hide Enabled;
    if i > 0 {
      RunKeepsAnswers(states, actions, i - 1, id);
      hide Taken;
      hide TakenInOrder;
      assert Enabled(states[i - 1], actions[i - 1]) && states[i] == Step(states[i - 1], actions[i - 1]);
      if Concerns(actions[i - 1], id) {
        StepKeepsAnswers(states[i - 1], actions, i - 1, id);
      } else {
        StepLeavesOthers(states[i - 1], actions[i - 1], id);
        OthersAnswerNothing(actions, i - 1, id);
      }
    }
  }

  /** In every run: a call asks for a slot, runs, or is refused at capacity exactly if its
      arguments have been found well-formed and then valid; it ends as malformed exactly if they
      were found malformed, and as invalid exactly if they were found invalid. */
  lemma OnlyValidCallsGoOn(states: seq<State>, actions: seq<Action>, i: nat, id: nat)
    requires IsRun(states, actions) && i < |states| && id in states[i].calls
    ensures var p := states[i].calls[id].phase;
            && (PastChecks(p) <==>
                 exists k, n :: 0 <= k < n < i && actions[k] == Parse(id, true) && actions[n] == Validate(id, true))
            && (p == Done(Malformed) <==> exists k :: 0 <= k < i && actions[k] == Parse(id, false))
            && (p == Done(Invalid) <==> exists k :: 0 <= k < i && actions[k] == Validate(id, false))
  {
    RunKeepsAnswers(states, actions, i, id);
    hide IsRun;
  }

  /** A call whose arguments are found malformed or invalid holds no slot at any moment. */
  lemma BadCallsNeverHoldASlot(states: seq<State>, actions: seq<Action>, i: nat, k: nat, id: nat)
    requires IsRun(states, actions) && i < |states| && k < |actions|
    requires actions[k] == Parse(id, false) || actions[k] == Validate(id, false)
    ensures id !in Inside(states[i])
  {
    RunKeepsAnswers(states, actions, |actions|, id);
    assert Taken(actions, |actions|, actions[k]);
    if id in Inside(states[i]) {
      RunKeepsAnswers(states, actions, i, id);
      PassedStays(actions, i, id);
      CallsKeepTheirHandler(states, actions, i, |actions|, id);
    }
  }

  lemma PassedStays(actions: seq<Action>, i: nat, id: nat)
    requires i <= |actions| && Passed(actions, i, id)
    ensures Passed(actions, |actions|, id)
  {
    hide Taken;
  }

  // ----- handlers of a replaced tool

  /** The calls inside executeTool that were dispatched to handler version h or an older one,
      and those on newer ones. */
  function InsideOld(s: State, h: nat): set<nat> {
    set id | id in s.calls && s.calls[id].phase == Executing && s.calls[id].handler <= h
  }

  function InsideNew(s: State, h: nat): set<nat> {
    set id | id in s.calls && s.calls[id].phase == Executing && s.calls[id].handler > h
  }

  /** Replacing tools gives no call more room: the calls still running on the handlers up to
      any version and those on later ones share the one bound. */
  lemma OldAndNewShareTheBound(states: seq<State>, actions: seq<Action>, i: nat, h: nat)
    requires IsRun(states, actions) && i < |states|
    ensures |InsideOld(states[i], h)| + |InsideNew(states[i], h)| == states[i].held <= states[0].limit
  {
    RunKeepsInv(states, actions, i);
    var s := states[i];
    assert InsideOld(s, h) + InsideNew(s, h) == Inside(s) && InsideOld(s, h) !! InsideNew(s, h);
  }

  /** A call stays with the handler version that it was dispatched to. */
  lemma {:induction false} CallsKeepTheirHandler(states: seq<State>, actions: seq<Action>, i: nat, j: nat, id: nat)
    requires IsRun(states, actions) && i <= j < |states| && id in states[i].calls
    ensures id in states[j].calls && states[j].calls[id].handler == states[i].calls[id].handler
  {
    if i < j {
      CallsKeepTheirHandler(states, actions, i, j - 1, id);
      assert Enabled(states[j - 1], actions[j - 1]) && states[j] == Step(states[j - 1], actions[j - 1]);
    }
  }

  /** How often the tool has been replaced before state i. */
  function Replaces(actions: seq<Action>, i: nat): nat
    requires i <= |actions|
  {
    if i == 0 then 0 else Replaces(actions, i - 1) + if actions[i - 1].Replace? then 1 else 0
  }

  lemma {:induction false} LatestHandler(states: seq<State>, actions: seq<Action>, i: nat)
    requires IsRun(states, actions) && i < |states|
    ensures states[i].handler == states[0].handler + Replaces(actions, i)
  {
    if i > 0 {
      LatestHandler(states, actions, i - 1);
      assert states[i] == Step(states[i - 1], actions[i - 1]);
    }
  }

  /** For good, a call runs on the handler of the last replace before it was dispatched. */
  lemma RunsOnTheLatestHandler(states: seq<State>, actions: seq<Action>, k: nat, i: nat, id: nat)
    requires IsRun(states, actions) && k < i < |states| && actions[k] == Dispatch(id)
    ensures id in states[i].calls
    ensures states[i].calls[id].handler == states[0].handler + Replaces(actions, k)
  {
    LatestHandler(states, actions, k);
    assert states[k + 1] == Step(states[k], actions[k]);
    CallsKeepTheirHandler(states, actions, k + 1, i, id);
  }
}

/** `breadboard/base.py`: the tolerant constructor wrapper shared by every device
    kind, and the stateful device whose `process_events` recomputes the state and
    then runs the actions bound to it.

    Kinds do not inherit here: each stateful kind holds a `StatefulDevice` and
    passes its own recompute step (`manage_state`) to `ProcessEvents`. */
module Base {
  import opened Wrappers
  import opened Json

  /** A constructed device object as the wiring code sees it: its name, its kind,
      the attribute names `getattr` can find on it, and its length for kinds that
      define `__len__` (an object whose length is 0 is falsy). */
  datatype DeviceObject = DeviceObject(name: string, kind: string, attributes: set<string>, length: Option<nat>)
  {
    predicate Truthy() { length != Some(0) }
  }

  /** What `try_to_instantiate` logs for a failed construction: the exception,
      tagged with the class name. */
  datatype FailedInstantiation = FailedInstantiation(className: string, error: Error)

  /** `cls.try_to_instantiate()(*args, **kwargs)`, given what `cls(*args, **kwargs)`
      does: the object on success, otherwise `None` and one logged error. */
  function TryToInstantiate<D>(className: string, construction: Result<D>): (r: (Option<D>, seq<FailedInstantiation>))
    ensures r.0.Some? <==> construction.Ok?
    ensures construction.Ok? ==> r.0.value == construction.value && r.1 == []
    ensures construction.Err? ==> r.1 == [FailedInstantiation(className, construction.error)]
  {
    match construction
    case Ok(d) => (Some(d), [])
    case Err(e) => (None, [FailedInstantiation(className, e)])
  }

  /** A kind's `manage_state`: given the state before the call, the state after it
      (pin readings and other inputs are captured by the caller). */
  type Rule = Option<string> -> Result<Option<string>>

  /** The events table `Devices` builds: device → state → actions. Its keys are
      whatever the configuration file held, so they are JSON values. */
  type Events<A> = map<Json, map<Json, seq<A>>>

  /** `events.get(name, {}).get(state, [])`. */
  function Bound<A>(events: Events<A>, name: string, state: string): (r: seq<A>)
    ensures JStr(name) !in events || JStr(state) !in events[JStr(name)] ==> r == []
    ensures JStr(name) in events && JStr(state) in events[JStr(name)] ==> r == events[JStr(name)][JStr(state)]
  {
    if JStr(name) in events && JStr(state) in events[JStr(name)] then events[JStr(name)][JStr(state)] else []
  }

  /** Awaiting `actions` one after another: the actions that were started, and
      the exception of the first one that raised, if any. */
  function RunInOrder<A>(actions: seq<A>, fails: A -> Option<Error>): (r: (seq<A>, Option<Error>))
    ensures r.0 <= actions
    ensures forall i :: 0 <= i < |r.0| - 1 ==> fails(r.0[i]).None?
    ensures r.1.None? <==> forall i :: 0 <= i < |actions| ==> fails(actions[i]).None?
    ensures r.1.None? ==> r.0 == actions
    ensures r.1.Some? ==> r.0 != [] && fails(r.0[|r.0| - 1]) == r.1
  {
    if actions == [] then ([], None)
    else match fails(actions[0])
      case Some(e) => ([actions[0]], Some(e))
      case None =>
        var rest := RunInOrder(actions[1..], fails);
        assert forall i :: 1 <= i < |actions| ==> actions[i] == actions[1..][i - 1];
        ([actions[0]] + rest.0, rest.1)
  }

  /** The effect of one `process_events` call on a device named `name` whose
      state was `prior`: the new state, the exception raised (if any) and the
      actions started. `rule == None` stands for a kind that never assigned
      `manage_state`. */
  function ProcessStep<A>(events: Events<A>, name: string, rule: Option<Rule>,
                          prior: Option<string>, fails: A -> Option<Error>): (r: (Option<string>, Option<Error>, seq<A>))
  {
    match rule
    case None => (prior, Some(AttributeError("manage_state")), [])
    case Some(f) =>
      match f(prior)
      case Err(e) => (prior, Some(e), [])
      case Ok(None) => (None, Some(RuntimeError("A state must be set")), [])
      case Ok(Some(s)) =>
        var run := RunInOrder(Bound(events, name, s), fails);
        (Some(s), run.1, run.0)
  }

  /** The actions are looked up under the state the rule has just computed, not
      the one the device had before the call. */
  lemma LookupUsesRecomputedState<A>(events: Events<A>, name: string, f: Rule,
                                     prior: Option<string>, fails: A -> Option<Error>, s: string)
    requires f(prior) == Ok(Some(s))
    requires forall a :: a in Bound(events, name, s) ==> fails(a).None?
    ensures ProcessStep(events, name, Some(f), prior, fails) == (Some(s), None, Bound(events, name, s))
  {
  }

  /** There is no "did the state change" test: when the rule leaves the state as
      it was, the actions bound to it run again. */
  lemma ActionsRunOnEveryCall<A>(events: Events<A>, name: string, f: Rule,
                                 s: string, fails: A -> Option<Error>)
    requires f(Some(s)) == Ok(Some(s))
    requires forall a :: a in Bound(events, name, s) ==> fails(a).None?
    ensures ProcessStep(events, name, Some(f), Some(s), fails) == (Some(s), None, Bound(events, name, s))
  {
    LookupUsesRecomputedState(events, name, f, Some(s), fails, s);
  }

  /** A device or state missing from the table runs nothing and raises nothing. */
  lemma UnboundStateRunsNothing<A>(events: Events<A>, name: string, f: Rule,
                                   prior: Option<string>, fails: A -> Option<Error>, s: string)
    requires f(prior) == Ok(Some(s))
    requires JStr(name) !in events || JStr(s) !in events[JStr(name)]
    ensures ProcessStep(events, name, Some(f), prior, fails) == (Some(s), None, [])
  {
  }

  /** How a kind supplies `manage_state`, whose result breadboard/base.py:69
      awaits: not at all (`AttributeError`), as a coroutine function (the
      matrix), or as a plain function that sets the state and returns a
      string or `None` (ToggleButton at breadboard/button.py:44, MomentaryButton
      in toggle mode at breadboard/button.py:93, Switch at
      breadboard/switch.py:47). */
  datatype ManageState = Unassigned | Coroutine(rule: Rule) | Plain(rule: Rule)

  /** What awaiting a string or `None` raises. */
  const AwaitError: Error := TypeError("object can't be used in 'await' expression")

  /** `process_events` as written: a plain `manage_state` runs and stores its
      state, and then the `await` of its result raises before any action. */
  function ProcessStepAsWritten<A>(events: Events<A>, name: string, m: ManageState,
                                   prior: Option<string>, fails: A -> Option<Error>): (Option<string>, Option<Error>, seq<A>)
  {
    match m
    case Unassigned => ProcessStep(events, name, None, prior, fails)
    case Coroutine(f) => ProcessStep(events, name, Some(f), prior, fails)
    case Plain(f) =>
      match f(prior)
      case Err(e) => (prior, Some(e), [])
      case Ok(s) => (s, Some(AwaitError), [])
  }

  /** A plain `manage_state` never lets an action run: its state is stored (or
      its own exception raised) and the await raises. */
  lemma PlainManageStateRunsNothing<A>(events: Events<A>, name: string, f: Rule,
                                       prior: Option<string>, fails: A -> Option<Error>)
    ensures var step := ProcessStepAsWritten(events, name, Plain(f), prior, fails);
            step.2 == [] && step.1.Some? &&
            (f(prior).Ok? ==> step.0 == f(prior).value && step.1 == Some(AwaitError)) &&
            (f(prior).Err? ==> step.0 == prior && step.1 == Some(f(prior).error))
  {
  }

  /** A coroutine `manage_state` is awaited to completion, which is the step
      `ProcessStep` describes. */
  lemma CoroutineManageStateIsProcessStep<A>(events: Events<A>, name: string, f: Rule,
                                             prior: Option<string>, fails: A -> Option<Error>)
    ensures ProcessStepAsWritten(events, name, Coroutine(f), prior, fails) == ProcessStep(events, name, Some(f), prior, fails)
  {
  }

  /** A device that keeps one of a fixed set of states (`StatefulDevice`). */
  class StatefulDevice {
    const name: string
    /** The kind's `_states`; `None` when the kind declares none. */
    const declared: Option<seq<string>>
    /** `_state`; `None` until a state is set. */
    var current: Option<string>

    constructor (name: string, declared: Option<seq<string>>)
      ensures this.name == name && this.declared == declared && current == None
    {
      this.name := name;
      this.declared := declared;
      current := None;
    }

    /** The `state` property. */
    function State(): (r: Result<string>)
      reads this
      ensures r.Ok? <==> current.Some?
      ensures r.Ok? ==> r.value == current.value
      ensures r.Err? ==> r.error == RuntimeError("A state must be set")
    {
      if current.None? then Err(RuntimeError("A state must be set")) else Ok(current.value)
    }

    /** The `states` property. */
    function States(): (r: Result<seq<string>>)
      ensures r.Ok? <==> declared.Some?
      ensures r.Ok? ==> r.value == declared.value
      ensures r.Err? ==> r.error == RuntimeError("Possible states must be given")
    {
      if declared.None? then Err(RuntimeError("Possible states must be given")) else Ok(declared.value)
    }

    /** The `/state` route: `{"state": state}`. */
    function GetState(): (r: Result<map<string, string>>)
      reads this
      ensures r.Ok? <==> State().Ok?
      ensures r.Ok? ==> r.value == map["state" := current.value]
      ensures r.Err? ==> r.error == RuntimeError("A state must be set")
    {
      var s :- State();
      Ok(map["state" := s])
    }

    /** `process_events`: recompute the state with the kind's rule, then await
        each action bound to (name, state), in list order, stopping at the first
        one that raises. Returns the exception raised, if any, and the actions
        that were started. */
    method ProcessEvents<A>(events: Events<A>, rule: Option<Rule>, fails: A -> Option<Error>)
      returns (raised: Option<Error>, trace: seq<A>)
      modifies this
      ensures current == ProcessStep(events, name, rule, old(current), fails).0
      ensures raised == ProcessStep(events, name, rule, old(current), fails).1
      ensures trace == ProcessStep(events, name, rule, old(current), fails).2
    {
      if rule.None? {
        return Some(AttributeError("manage_state")), [];
      }
      var next := rule.value(current);
      if next.Err? {
        return Some(next.error), [];
      }
      current := next.value;
      if current.None? {
        return Some(RuntimeError("A state must be set")), [];
      }
      var actions := Bound(events, name, current.value);
      raised, trace := RunActions(actions, fails);
    }

    /** The `for event_action in ...: await event_action()` loop. */
    static method RunActions<A>(actions: seq<A>, fails: A -> Option<Error>) returns (raised: Option<Error>, trace: seq<A>)
      ensures (trace, raised) == RunInOrder(actions, fails)
    {
      trace := [];
      var i := 0;
      while i < |actions|
        invariant 0 <= i <= |actions|
        invariant trace == actions[..i]
        invariant forall k :: 0 <= k < i ==> fails(actions[k]).None?
      {
        trace := trace + [actions[i]];
        var failure := fails(actions[i]);
        if failure.Some? {
          assert trace == actions[..i + 1];
          RunInOrderStopsAtFirstFailure(actions, fails, i);
          return failure, trace;
        }
        i := i + 1;
      }
      assert trace == actions;
      return None, trace;
    }
  }

  /** When the first `k` actions succeed and action `k` raises, exactly the
      first `k + 1` actions are started. */
  lemma {:induction false} RunInOrderStopsAtFirstFailure<A>(actions: seq<A>, fails: A -> Option<Error>, k: nat)
    requires k < |actions| && fails(actions[k]).Some?
    requires forall j :: 0 <= j < k ==> fails(actions[j]).None?
    ensures RunInOrder(actions, fails) == (actions[..k + 1], fails(actions[k]))
  {
    if k == 0 {
      assert actions[..1] == [actions[0]];
    } else {
      var rest := actions[1..];
      assert fails(rest[k - 1]).Some? && fails(rest[k - 1]) == fails(actions[k]);
      assert forall j :: 0 <= j < k - 1 ==> fails(rest[j]).None? by {
        assert forall j :: 0 <= j < k - 1 ==> rest[j] == actions[j + 1];
      }
      RunInOrderStopsAtFirstFailure(rest, fails, k - 1);
      RunInOrderStep(actions, fails);
      assert actions[..k + 1] == [actions[0]] + rest[..k];
    }
  }

  /** An action that succeeds is followed by the run of the rest. */
  lemma RunInOrderStep<A>(actions: seq<A>, fails: A -> Option<Error>)
    requires actions != [] && fails(actions[0]).None?
    ensures var rest := RunInOrder(actions[1..], fails);
            RunInOrder(actions, fails) == ([actions[0]] + rest.0, rest.1)
  {
  }
}

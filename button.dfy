/** `breadboard/button.py`: a physical toggle button, a physical momentary
    button and a virtual (API-driven) toggle button.

    A pin reading is a `bool` (high or low). Each kind's recompute step is a
    `Rule` handed to `StatefulDevice.ProcessEvents`. Two wiring quirks of the
    source are kept visible:
    - `toggle_state` is a plain function, yet `process_events` awaits what it
      returns (breadboard/base.py:69), which fails: see
      `ToggleRunsNoActionAsWritten`. The classes model the intended step, in
      which that await completes.
    - `VirtualToggleButton` assigns `on_state_change`, never `manage_state`
      (breadboard/button.py:135), so as written its `process_events` raises
      `AttributeError`; see `VirtualOnAsWritten`. Binding `toggle_state` alone
      would still meet the failing await (`VirtualOnBindingOnlyAsWritten`);
      the class models the button with both corrections. */
module Button {
  import opened Wrappers
  import opened Json
  import opened Base
  import opened EventActions

  /** `_states` of every button kind. */
  const ButtonStates: seq<string> := ["off", "on"]

  /** `self.states[1] if value else self.states[0]`. */
  function Level(value: bool): (s: string)
    ensures s in ButtonStates
    ensures s == "on" <==> value
  {
    if value then ButtonStates[1] else ButtonStates[0]
  }

  /** `ButtonModes[key]`: a lookup in `{"toggle": 1, "momentary": 2}`. */
  function ButtonMode(key: Json): (r: Result<int>)
    ensures r.Ok? <==> key == JStr("toggle") || key == JStr("momentary")
    ensures key == JStr("toggle") ==> r == Ok(1)
    ensures key == JStr("momentary") ==> r == Ok(2)
    ensures Hashable(key) && r.Err? ==> r.error == KeyError(KeyText(key))
  {
    if !Hashable(key) then Err(TypeError("unhashable type"))
    else if key == JStr("toggle") then Ok(1)
    else if key == JStr("momentary") then Ok(2)
    else Err(KeyError(KeyText(key)))
  }

  /** `toggle_state` of the physical toggle button as a recompute step: the state
      follows the reading when it differs from the last one seen, and otherwise
      stays (reading `self.state` fails if it was never set). */
  function ToggleRule(value: bool, last: Option<bool>): Rule
  {
    (prior: Option<string>) =>
      if last != Some(value) then Ok(Some(Level(value)))
      else if prior.None? then Err(RuntimeError("A state must be set"))
      else Ok(prior)
  }

  /** `toggle_state` of the momentary and virtual buttons: off becomes on, and
      anything else becomes off. */
  function FlipRule(): Rule
  {
    (prior: Option<string>) =>
      if prior.None? then Err(RuntimeError("A state must be set"))
      else if prior.value == ButtonStates[0] then Ok(Some(ButtonStates[1]))
      else Ok(Some(ButtonStates[0]))
  }

  /** The toggle button changes only on an edge of its input. */
  lemma ToggleRuleFollowsEdges(value: bool, last: Option<bool>, prior: string)
    ensures last != Some(value) ==> ToggleRule(value, last)(Some(prior)) == Ok(Some(Level(value)))
    ensures last == Some(value) ==> ToggleRule(value, last)(Some(prior)) == Ok(Some(prior))
  {
  }

  /** Flipping twice restores either button state. */
  lemma FlipTwiceRestores(s: string)
    requires s in ButtonStates
    ensures FlipRule()(Some(s)).Ok? && FlipRule()(Some(s)).value.Some?
    ensures FlipRule()(FlipRule()(Some(s)).value) == Ok(Some(s))
  {
  }

  /** `ToggleButton`. */
  class ToggleButton {
    const device: StatefulDevice
    /** `_last_state`: the last reading seen by `toggle_state`. */
    var lastValue: Option<bool>

    /** The initial state follows the input; no reading has been seen yet. */
    constructor (name: string, reading: bool)
      ensures device.name == name && device.declared == Some(ButtonStates)
      ensures device.current == Some(Level(reading)) && lastValue == None
      ensures fresh(device)
    {
      var d := new StatefulDevice(name, Some(ButtonStates));
      d.current := Some(Level(reading));
      device := d;
      lastValue := None;
    }

    /** `toggle_state` with the input reading `value`: on a change of the
        reading the state follows it and the reading is recorded; otherwise
        nothing changes. Returns the state. */
    method ToggleState(value: bool) returns (state: string)
      requires device.current.Some?
      modifies this, device
      ensures old(lastValue) != Some(value) ==> device.current == Some(Level(value)) && lastValue == Some(value)
      ensures old(lastValue) == Some(value) ==> device.current == old(device.current) && lastValue == old(lastValue)
      ensures Some(state) == device.current
    {
      if lastValue != Some(value) {
        device.current := Some(Level(value));
        lastValue := Some(value);
      }
      state := device.current.value;
    }

    /** One `process_events` call with the input reading `value`. */
    method ProcessEvents(events: Events<Action>, value: bool, fails: Action -> Option<Error>)
      returns (raised: Option<Error>, trace: seq<Action>)
      modifies this, device
      ensures var step := ProcessStep(events, device.name, Some(ToggleRule(value, old(lastValue))), old(device.current), fails);
              device.current == step.0 && raised == step.1 && trace == step.2
      ensures old(lastValue) != Some(value) ==> lastValue == Some(value)
      ensures old(lastValue) == Some(value) ==> lastValue == old(lastValue)
    {
      var rule := ToggleRule(value, lastValue);
      raised, trace := device.ProcessEvents(events, Some(rule), fails);
      if lastValue != Some(value) {
        lastValue := Some(value);
      }
    }
  }

  /** The first `toggle_state` always counts as a change, whatever the reading. */
  lemma FirstToggleIsAChange(value: bool, prior: Option<string>)
    ensures ToggleRule(value, None)(prior) == Ok(Some(Level(value)))
  {
  }

  /** As written, `toggle_state` is a plain function returning the state, so a
      `process_events` call stores the state that follows the reading and then
      fails at the await of that string (breadboard/base.py:69): a toggle
      button never runs an action. */
  lemma ToggleRunsNoActionAsWritten(events: Events<Action>, name: string, value: bool, last: Option<bool>,
                                    prior: Option<string>, fails: Action -> Option<Error>)
    ensures var step := ProcessStepAsWritten(events, name, Plain(ToggleRule(value, last)), prior, fails);
            step.2 == [] && step.1.Some? &&
            (last != Some(value) ==> step.0 == Some(Level(value)) && step.1 == Some(AwaitError))
  {
    PlainManageStateRunsNothing(events, name, ToggleRule(value, last), prior, fails);
  }

  /** The same holds for a momentary button in toggle mode: a press flips the
      state and the await then fails, so no action runs. */
  lemma MomentaryToggleRunsNoActionAsWritten(events: Events<Action>, name: string, s: string,
                                             fails: Action -> Option<Error>)
    requires s in ButtonStates
    ensures var step := ProcessStepAsWritten(events, name, Plain(FlipRule()), Some(s), fails);
            step == (FlipRule()(Some(s)).value, Some(AwaitError), []) && step.0 != Some(s)
  {
  }

  /** `MomentaryButton`. */
  class MomentaryButton {
    const device: StatefulDevice
    /** `self.mode`: 1 (toggle) or 2 (momentary). */
    const mode: int

    constructor (name: string, reading: bool, mode: int)
      ensures device.name == name && device.declared == Some(ButtonStates)
      ensures device.current == Some(Level(reading)) && this.mode == mode
      ensures fresh(device)
    {
      var d := new StatefulDevice(name, Some(ButtonStates));
      d.current := Some(Level(reading));
      device := d;
      this.mode := mode;
    }

    /** `manage_state` is assigned only in toggle mode. */
    function ManageState(): (r: Option<Rule>)
      ensures r.Some? <==> mode == 1
      ensures r.Some? ==> r.value == FlipRule()
    {
      if mode == 1 then Some(FlipRule()) else None
    }

    /** One pass of `_loop`: events are processed only while the input reads high. */
    method Poll(events: Events<Action>, value: bool, fails: Action -> Option<Error>)
      returns (raised: Option<Error>, trace: seq<Action>)
      modifies device
      ensures !value ==> device.current == old(device.current) && raised == None && trace == []
      ensures value ==>
                var step := ProcessStep(events, device.name, ManageState(), old(device.current), fails);
                device.current == step.0 && raised == step.1 && trace == step.2
    {
      if value {
        raised, trace := device.ProcessEvents(events, ManageState(), fails);
      } else {
        raised, trace := None, [];
      }
    }
  }

  /** `MomentaryButton(name, pin, mode)`: an unknown mode name raises. */
  method NewMomentaryButton(name: string, reading: bool, mode: Json) returns (r: Result<MomentaryButton>)
    ensures r.Ok? <==> ButtonMode(mode).Ok?
    ensures r.Err? ==> r.error == ButtonMode(mode).error
    ensures r.Ok? ==> fresh(r.value) && r.value.mode == ButtonMode(mode).value &&
                      r.value.device.current == Some(Level(reading))
  {
    var m := ButtonMode(mode);
    if m.Err? {
      return Err(m.error);
    }
    var b := new MomentaryButton(name, reading, m.value);
    return Ok(b);
  }

  /** In "momentary" mode nothing assigns `manage_state`, so a press raises
      `AttributeError` and changes nothing. */
  lemma MomentaryModeRaises(events: Events<Action>, name: string, prior: Option<string>, fails: Action -> Option<Error>)
    ensures ProcessStep(events, name, None, prior, fails) == (prior, Some(AttributeError("manage_state")), [])
  {
  }

  /** The initial state of a virtual button: its default value, which must be
      one of the states, or "off" when none is given (`None` or JSON `null`). */
  function VirtualInitial(defaultValue: Json): (r: Result<string>)
    ensures defaultValue == JNull ==> r == Ok("off")
    ensures defaultValue != JNull ==> (r.Ok? <==> defaultValue == JStr("off") || defaultValue == JStr("on"))
    ensures r.Ok? ==> r.value in ButtonStates
    ensures r.Err? ==> r.error.RuntimeError?
  {
    if defaultValue != JNull && !(defaultValue.JStr? && defaultValue.s in ButtonStates) then
      Err(RuntimeError("Default value must be one of the states"))
    else if defaultValue == JNull then Ok(ButtonStates[0])
    else Ok(defaultValue.s)
  }

  /** What the source assigns to `manage_state` for a virtual button: nothing. */
  function VirtualManageStateAsWritten(): Option<Rule>
  {
    None
  }

  /** As written, turning an "off" virtual button on raises `AttributeError`
      from `process_events` and leaves it "off": it can never be switched. */
  lemma VirtualOnAsWritten(events: Events<Action>, name: string, fails: Action -> Option<Error>)
    ensures ProcessStep(events, name, VirtualManageStateAsWritten(), Some("off"), fails) ==
              (Some("off"), Some(AttributeError("manage_state")), [])
  {
  }

  /** With `manage_state = toggle_state` alone, `toggle_state` is still a plain
      function whose returned string breadboard/base.py:69 awaits: turning an
      "off" virtual button on makes it "on", then fails at the await, and no
      action runs. */
  lemma VirtualOnBindingOnlyAsWritten(events: Events<Action>, name: string, fails: Action -> Option<Error>)
    ensures ProcessStepAsWritten(events, name, Plain(FlipRule()), Some("off"), fails) ==
              (Some("on"), Some(AwaitError), [])
  {
  }

  /** With `manage_state = toggle_state` and the await at breadboard/base.py:69
      completing, as evidently intended, turning an "off" virtual button on
      makes it "on" and runs the actions bound to "on". */
  lemma VirtualOnCorrected(events: Events<Action>, name: string, fails: Action -> Option<Error>)
    ensures var step := ProcessStep(events, name, Some(FlipRule()), Some("off"), fails);
            step.0 == Some("on") && (step.2, step.1) == RunInOrder(Bound(events, name, "on"), fails)
  {
  }

  /** `VirtualToggleButton`, with `manage_state` bound to `toggle_state` and the
      await at breadboard/base.py:69 completing. */
  class VirtualToggleButton {
    const device: StatefulDevice
    /** The output pin's level. */
    var output: bool
    /** `_events`: the table handed over by `_loop`. */
    var events: Events<Action>

    constructor (name: string, initial: string)
      requires initial in ButtonStates
      ensures device.name == name && device.declared == Some(ButtonStates)
      ensures device.current == Some(initial) && events == map[]
      ensures fresh(device)
    {
      var d := new StatefulDevice(name, Some(ButtonStates));
      d.current := Some(initial);
      device := d;
      output := false;
      events := map[];
    }

    /** `_loop`: only hands over the events table. */
    method Loop(events: Events<Action>)
      modifies this
      ensures this.events == events && output == old(output)
    {
      this.events := events;
    }

    /** `on()`: drive the output high; process events only from "off"; return
        `{"state": state}`. */
    method On(fails: Action -> Option<Error>) returns (r: Result<map<string, string>>, trace: seq<Action>)
      requires device.current.Some?
      modifies this, device
      ensures output && events == old(events)
      ensures old(device.current) != Some("off") ==>
                device.current == old(device.current) && trace == [] && r == Ok(map["state" := device.current.value])
      ensures old(device.current) == Some("off") ==>
                var step := ProcessStep(events, device.name, Some(FlipRule()), Some("off"), fails);
                device.current == step.0 && trace == step.2 &&
                (r.Ok? <==> step.1.None?) && (r.Ok? ==> r.value == map["state" := "on"])
    {
      output := true;
      trace := [];
      if device.current == Some(ButtonStates[0]) {
        var raised;
        raised, trace := device.ProcessEvents(events, Some(FlipRule()), fails);
        if raised.Some? {
          return Err(raised.value), trace;
        }
      }
      r := Ok(map["state" := device.current.value]);
    }

    /** `off()`: drive the output low; process events only from "on"; return
        `{"state": state}`. */
    method Off(fails: Action -> Option<Error>) returns (r: Result<map<string, string>>, trace: seq<Action>)
      requires device.current.Some?
      modifies this, device
      ensures !output && events == old(events)
      ensures old(device.current) != Some("on") ==>
                device.current == old(device.current) && trace == [] && r == Ok(map["state" := device.current.value])
      ensures old(device.current) == Some("on") ==>
                var step := ProcessStep(events, device.name, Some(FlipRule()), Some("on"), fails);
                device.current == step.0 && trace == step.2 &&
                (r.Ok? <==> step.1.None?) && (r.Ok? ==> r.value == map["state" := "off"])
    {
      output := false;
      trace := [];
      if device.current == Some(ButtonStates[1]) {
        var raised;
        raised, trace := device.ProcessEvents(events, Some(FlipRule()), fails);
        if raised.Some? {
          return Err(raised.value), trace;
        }
      }
      r := Ok(map["state" := device.current.value]);
    }
  }

  /** `VirtualToggleButton(name, pin, default_value)`. */
  method NewVirtualToggleButton(name: string, defaultValue: Json) returns (r: Result<VirtualToggleButton>)
    ensures r.Ok? <==> VirtualInitial(defaultValue).Ok?
    ensures r.Err? ==> r.error == VirtualInitial(defaultValue).error
    ensures r.Ok? ==> fresh(r.value) && r.value.device.current == Some(VirtualInitial(defaultValue).value)
  {
    var initial := VirtualInitial(defaultValue);
    if initial.Err? {
      return Err(initial.error);
    }
    var b := new VirtualToggleButton(name, initial.value);
    return Ok(b);
  }
}

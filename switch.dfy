/** `breadboard/switch.py`: a multi-position switch, one GPIO pin per state
    plus an optional "off" position with no pin.

    The mapping is given in configuration order as (state, pin) pairs; pin
    readings are an input `high: int -> bool` (pin number → reads high).
    `manage_state` is a plain function, yet `process_events` awaits what it
    returns (breadboard/base.py:69), which raises `TypeError` on `None`: see
    `SwitchRunsNoActionAsWritten`. The class models the intended step, in which
    that await completes. */
module Switch {
  import opened Wrappers
  import opened Base
  import opened EventActions

  /** The value a state maps to: a GPIO pin number, or `OFF_STATE`. */
  datatype PinSpec = OffPin | Gpio(number: int)

  /** `_pins_to_state`: pin → state, in dict insertion order. The pin object the
      source stores beside the state is the key itself (none for `OffPin`). */
  type PinTable = seq<(PinSpec, string)>

  /** `_states`: the mapping's states, in mapping order. */
  function StateNames(mapping: seq<(string, PinSpec)>): (r: seq<string>)
    ensures |r| == |mapping|
    ensures forall i :: 0 <= i < |r| ==> r[i] == mapping[i].0
  {
    if mapping == [] then [] else StateNames(mapping[..|mapping| - 1]) + [mapping[|mapping| - 1].0]
  }

  /** `table[key] = state` on a dict: an existing key keeps its position. */
  function Put(table: PinTable, key: PinSpec, state: string): (r: PinTable)
    ensures forall p :: p in r ==> p in table || p == (key, state)
    ensures (key, state) in r
    ensures forall p :: p in table && p.0 != key ==> p in r
    ensures DistinctPins(table) ==> DistinctPins(r)
  {
    if table == [] then [(key, state)]
    else if table[0].0 == key then [(key, state)] + table[1..]
    else [table[0]] + Put(table[1..], key, state)
  }

  /** A dict has one entry per key. */
  predicate DistinctPins(table: PinTable) {
    forall i, j :: 0 <= i < j < |table| ==> table[i].0 != table[j].0
  }

  /** The table the constructor loop builds. */
  function BuildTable(mapping: seq<(string, PinSpec)>): (r: PinTable)
    ensures forall p :: p in r ==> p.1 in StateNames(mapping)
    ensures DistinctPins(r)
  {
    if mapping == [] then []
    else
      var last := mapping[|mapping| - 1];
      assert forall s :: s in StateNames(mapping[..|mapping| - 1]) ==> s in StateNames(mapping);
      Put(BuildTable(mapping[..|mapping| - 1]), last.1, last.0)
  }

  /** The states whose pin reads high at construction, in mapping order. */
  function HighStates(mapping: seq<(string, PinSpec)>, high: int -> bool): (r: seq<string>)
    ensures forall s :: s in r ==> s in StateNames(mapping)
  {
    if mapping == [] then []
    else
      var last := mapping[|mapping| - 1];
      var before := HighStates(mapping[..|mapping| - 1], high);
      assert forall s :: s in StateNames(mapping[..|mapping| - 1]) ==> s in StateNames(mapping);
      if last.1.Gpio? && high(last.1.number) then before + [last.0] else before
  }

  /** `_pins_to_state[OFF_STATE][1]`. */
  function OffState(table: PinTable): (r: Result<string>)
    ensures r.Ok? <==> exists i :: 0 <= i < |table| && table[i].0 == OffPin
    ensures r.Ok? ==> (OffPin, r.value) in table
    ensures r.Err? ==> r.error == KeyError("off")
  {
    if table == [] then Err(KeyError("off"))
    else if table[0].0 == OffPin then Ok(table[0].1)
    else OffState(table[1..])
  }

  /** The state the constructor leaves: the state of the one high pin; with no
      high pin, the off state (a `KeyError` when there is none); with several,
      a `RuntimeError`. */
  function InitialState(mapping: seq<(string, PinSpec)>, high: int -> bool): (r: Result<string>)
  {
    var hs := HighStates(mapping, high);
    if |hs| > 1 then Err(RuntimeError("Multiple states set"))
    else if |hs| == 1 then Ok(hs[0])
    else OffState(BuildTable(mapping))
  }

  /** A constructed switch always starts in one of its own states. */
  lemma InitialStateIsAState(mapping: seq<(string, PinSpec)>, high: int -> bool)
    requires InitialState(mapping, high).Ok?
    ensures InitialState(mapping, high).value in StateNames(mapping)
  {
    var hs := HighStates(mapping, high);
    if |hs| == 0 {
      var off := OffState(BuildTable(mapping)).value;
      assert (OffPin, off) in BuildTable(mapping);
    }
  }

  /** The high states of a prefix of the mapping are a prefix of its high states. */
  lemma {:induction false} HighStatesPrefix(mapping: seq<(string, PinSpec)>, high: int -> bool, j: nat)
    requires j <= |mapping|
    ensures HighStates(mapping[..j], high) <= HighStates(mapping, high)
    decreases |mapping|
  {
    if j < |mapping| {
      var init := mapping[..|mapping| - 1];
      assert mapping[..j] == init[..j];
      HighStatesPrefix(init, high, j);
    } else {
      assert mapping[..j] == mapping;
    }
  }

  /** The first high pin, in table order, whose state differs from `prior`. */
  function FirstChange(table: PinTable, high: int -> bool, prior: Option<string>): (r: Option<string>)
    ensures r.Some? <==> exists i :: 0 <= i < |table| && Closes(table[i], high) && Some(table[i].1) != prior
    ensures r.Some? ==> exists i :: 0 <= i < |table| && Closes(table[i], high) && table[i].1 == r.value &&
                          Some(r.value) != prior &&
                          forall j :: 0 <= j < i && Closes(table[j], high) ==> Some(table[j].1) == prior
  {
    if table == [] then None
    else if Closes(table[0], high) && Some(table[0].1) != prior then Some(table[0].1)
    else
      var rest := FirstChange(table[1..], high, prior);
      assert forall i :: 1 <= i < |table| ==> table[i] == table[1..][i - 1];
      if rest.Some? then
        ghost var k :| 0 <= k < |table[1..]| && Closes(table[1..][k], high) && table[1..][k].1 == rest.value &&
                       forall j :: 0 <= j < k && Closes(table[1..][j], high) ==> Some(table[1..][j].1) == prior;
        assert Closes(table[k + 1], high) && table[k + 1].1 == rest.value;
        assert forall j :: 0 <= j < k + 1 && Closes(table[j], high) ==> Some(table[j].1) == prior by {
          forall j | 0 <= j < k + 1 && Closes(table[j], high)
            ensures Some(table[j].1) == prior
          {
            if j > 0 {
              assert table[j] == table[1..][j - 1];
            }
          }
        }
        rest
      else
        rest
  }

  /** `pin and pin.value()`: the entry has a pin and it reads high. */
  predicate Closes(entry: (PinSpec, string), high: int -> bool) {
    entry.0.Gpio? && high(entry.0.number)
  }

  /** `pin_active` after a full pass: some pin reads high. */
  predicate AnyHigh(table: PinTable, high: int -> bool) {
    exists i :: 0 <= i < |table| && Closes(table[i], high)
  }

  /** `manage_state`: the first high pin whose state differs from the current
      one wins; with no high pin the state falls back to the off state (a
      `KeyError` when there is none); otherwise it is left as it was. */
  function SwitchNext(table: PinTable, high: int -> bool, prior: Option<string>): (r: Result<Option<string>>)
  {
    match FirstChange(table, high, prior)
    case Some(s) => Ok(Some(s))
    case None =>
      if AnyHigh(table, high) then Ok(prior)
      else
        match OffState(table)
        case Err(e) => Err(e)
        case Ok(off) => Ok(Some(off))
  }

  /** The rule handed to `process_events`. */
  function SwitchRule(table: PinTable, high: int -> bool): Rule
  {
    (prior: Option<string>) => SwitchNext(table, high, prior)
  }

  /** The state stays one of the switch's states. */
  lemma SwitchStaysInStates(mapping: seq<(string, PinSpec)>, high: int -> bool, prior: string)
    requires prior in StateNames(mapping)
    requires SwitchNext(BuildTable(mapping), high, Some(prior)).Ok?
    ensures SwitchNext(BuildTable(mapping), high, Some(prior)).value.Some?
    ensures SwitchNext(BuildTable(mapping), high, Some(prior)).value.value in StateNames(mapping)
  {
    var table := BuildTable(mapping);
    var first := FirstChange(table, high, Some(prior));
    if first.Some? {
      var i :| 0 <= i < |table| && Closes(table[i], high) && table[i].1 == first.value;
      assert table[i] in table;
    } else if !AnyHigh(table, high) {
      assert (OffPin, OffState(table).value) in table;
    }
  }

  /** When every high pin maps to the current state, nothing changes. */
  lemma HeldPositionKeepsState(table: PinTable, high: int -> bool, prior: string)
    requires AnyHigh(table, high)
    requires forall i :: 0 <= i < |table| && Closes(table[i], high) ==> table[i].1 == prior
    ensures SwitchNext(table, high, Some(prior)) == Ok(Some(prior))
  {
  }

  /** With no pin high the switch falls back to the off state, whatever it was. */
  lemma ReleasedGoesOff(table: PinTable, high: int -> bool, prior: Option<string>)
    requires !AnyHigh(table, high)
    ensures OffState(table).Ok? ==> SwitchNext(table, high, prior) == Ok(Some(OffState(table).value))
    ensures OffState(table).Err? ==> SwitchNext(table, high, prior) == Err(KeyError("off"))
  {
  }

  /** `Switch`. */
  class Switch {
    const device: StatefulDevice
    const table: PinTable

    constructor (name: string, states: seq<string>, table: PinTable, initial: string)
      ensures device.name == name && device.declared == Some(states)
      ensures device.current == Some(initial) && this.table == table
      ensures fresh(device)
    {
      var d := new StatefulDevice(name, Some(states));
      d.current := Some(initial);
      device := d;
      this.table := table;
    }

    /** `manage_state`, with its for/else loop and early return. Returns the
        exception raised, if any; the state is then left as it was. */
    method ManageState(high: int -> bool) returns (raised: Option<Error>)
      modifies device
      ensures var next := SwitchNext(table, high, old(device.current));
              (raised.None? <==> next.Ok?) &&
              (next.Ok? ==> device.current == next.value) &&
              (next.Err? ==> raised == Some(next.error) && device.current == old(device.current))
    {
      var prior := device.current;
      var active := false;
      var i := 0;
      while i < |table|
        invariant 0 <= i <= |table|
        invariant device.current == prior
        invariant active <==> exists k :: 0 <= k < i && Closes(table[k], high)
        invariant forall k :: 0 <= k < i && Closes(table[k], high) ==> Some(table[k].1) == prior
      {
        var entry := table[i];
        if entry.0.Gpio? && high(entry.0.number) {
          active := true;
          if Some(entry.1) != device.current {
            device.current := Some(entry.1);
            FirstChangeAt(table, high, prior, i);
            return None;
          }
        }
        i := i + 1;
      }
      assert FirstChange(table, high, prior).None?;
      if !active {
        var off := OffState(table);
        if off.Err? {
          return Some(off.error);
        }
        if device.current != Some(off.value) {
          device.current := Some(off.value);
        }
      }
      return None;
    }

    /** One `process_events` call with the pins reading `high`. */
    method ProcessEvents(events: Events<Action>, high: int -> bool, fails: Action -> Option<Error>)
      returns (raised: Option<Error>, trace: seq<Action>)
      modifies device
      ensures var step := ProcessStep(events, device.name, Some(SwitchRule(table, high)), old(device.current), fails);
              device.current == step.0 && raised == step.1 && trace == step.2
    {
      raised, trace := device.ProcessEvents(events, Some(SwitchRule(table, high)), fails);
    }
  }

  /** As written, `manage_state` is a plain function returning `None`, so every
      `process_events` call stores the new state and then raises `TypeError`
      at the await (breadboard/base.py:69): a switch never runs an action. */
  lemma SwitchRunsNoActionAsWritten(events: Events<Action>, name: string, table: PinTable, high: int -> bool,
                                    prior: Option<string>, fails: Action -> Option<Error>)
    ensures var step := ProcessStepAsWritten(events, name, Plain(SwitchRule(table, high)), prior, fails);
            step.2 == [] &&
            (SwitchNext(table, high, prior).Ok? ==> step.0 == SwitchNext(table, high, prior).value && step.1 == Some(AwaitError)) &&
            (SwitchNext(table, high, prior).Err? ==> step.0 == prior && step.1 == Some(SwitchNext(table, high, prior).error))
  {
    PlainManageStateRunsNothing(events, name, SwitchRule(table, high), prior, fails);
  }

  /** An entry that closes with a new state, after entries that all closed
      with the current one, is the first change. */
  lemma FirstChangeAt(table: PinTable, high: int -> bool, prior: Option<string>, i: nat)
    requires i < |table| && Closes(table[i], high) && Some(table[i].1) != prior
    requires forall k :: 0 <= k < i && Closes(table[k], high) ==> Some(table[k].1) == prior
    ensures FirstChange(table, high, prior) == Some(table[i].1)
  {
    var r := FirstChange(table, high, prior);
    var j :| 0 <= j < |table| && Closes(table[j], high) && table[j].1 == r.value && Some(r.value) != prior &&
             forall k :: 0 <= k < j && Closes(table[k], high) ==> Some(table[k].1) == prior;
    if j < i {
      assert false;
    } else if i < j {
      assert false;
    }
  }

  /** One more mapping entry: its state is named, its pin recorded, and its
      state is high when its pin reads high. */
  lemma MappingStep(mapping: seq<(string, PinSpec)>, high: int -> bool, i: nat)
    requires i < |mapping|
    ensures var (state, pin) := mapping[i];
            StateNames(mapping[..i + 1]) == StateNames(mapping[..i]) + [state] &&
            BuildTable(mapping[..i + 1]) == Put(BuildTable(mapping[..i]), pin, state) &&
            HighStates(mapping[..i + 1], high) ==
              HighStates(mapping[..i], high) + (if pin.Gpio? && high(pin.number) then [state] else [])
  {
    assert mapping[..i + 1][..i] == mapping[..i];
  }

  /** `Switch(name, state_pin_mapping)`: walks the mapping in order, recording
      each state and its pin, and raises on a second high pin; with no high pin
      the off state is looked up. */
  method NewSwitch(name: string, mapping: seq<(string, PinSpec)>, high: int -> bool) returns (r: Result<Switch>)
    ensures r.Ok? <==> InitialState(mapping, high).Ok?
    ensures r.Err? ==> r.error == InitialState(mapping, high).error
    ensures r.Ok? ==> fresh(r.value) && fresh(r.value.device) &&
                      r.value.device.declared == Some(StateNames(mapping)) &&
                      r.value.table == BuildTable(mapping) &&
                      r.value.device.current == Some(InitialState(mapping, high).value)
  {
    var states, table, found, clash := WalkMapping(mapping, high);
    if clash {
      return Err(RuntimeError("Multiple states set"));
    }
    var initial: string;
    if found.Some? {
      initial := found.value;
    } else {
      var off := OffState(table);
      if off.Err? {
        return Err(off.error);
      }
      initial := off.value;
    }
    var s := new Switch(name, states, table, initial);
    return Ok(s);
  }

  /** The constructor's loop over the mapping: the states and the pin table,
      and the one state whose pin reads high, if any; it stops at a second
      high pin. */
  method WalkMapping(mapping: seq<(string, PinSpec)>, high: int -> bool)
    returns (states: seq<string>, table: PinTable, found: Option<string>, clash: bool)
    ensures clash <==> |HighStates(mapping, high)| > 1
    ensures !clash ==> states == StateNames(mapping) && table == BuildTable(mapping)
    ensures !clash ==> (found.None? <==> HighStates(mapping, high) == [])
    ensures !clash && found.Some? ==> HighStates(mapping, high) == [found.value]
  {
    states, table, found, clash := [], [], None, false;
    var i := 0;
    while i < |mapping|
      invariant 0 <= i <= |mapping|
      invariant states == StateNames(mapping[..i]) && table == BuildTable(mapping[..i])
      invariant |HighStates(mapping[..i], high)| <= 1
      invariant found.None? <==> HighStates(mapping[..i], high) == []
      invariant found.Some? ==> HighStates(mapping[..i], high) == [found.value]
    {
      var state := mapping[i].0;
      var pin := mapping[i].1;
      MappingStep(mapping, high, i);
      states := states + [state];
      if pin.Gpio? {
        if high(pin.number) {
          if found.Some? {
            HighStatesPrefix(mapping, high, i + 1);
            clash := true;
            return;
          }
          found := Some(state);
        }
      }
      table := Put(table, pin, state);
      i := i + 1;
    }
    assert mapping[..i] == mapping;
  }
}

/** `breadboard/rotary_encoder.py`: a quadrature rotary encoder whose two
    channels (a, b) are read in the pin interrupt handler `process`.

    The encoder declares no `manage_state`, and `_loop` only stores the events
    table, so the actions bound to its states are never run; `process` is the
    whole of its state machine. */
module RotaryEncoder {
  import opened Wrappers
  import opened Base

  /** `_states`. */
  const EncoderStates: seq<string> := ["increasing", "decreasing"]

  /** `a.value() << 1 | b.value()`: channel a is the high bit, b the low bit. */
  function Status(a: bool, b: bool): (r: int)
    ensures 0 <= r <= 3
    ensures r / 2 == (if a then 1 else 0) && r % 2 == (if b then 1 else 0)
  {
    (if a then 2 else 0) + (if b then 1 else 0)
  }

  /** `last << 2 | status`; with `status` below 4 the or is an addition. */
  function Transition(last: int, status: int): int
  {
    last * 4 + status
  }

  /** The direction a changed reading reports: 0b1000 (10 → 00) is
      "decreasing", 0b0100 (01 → 00) is "increasing", anything else none. */
  function Turn(last: int, status: int): Option<string>
  {
    var transition := Transition(last, status);
    if transition == 0x8 then Some(EncoderStates[1])
    else if transition == 0x4 then Some(EncoderStates[0])
    else None
  }

  /** For two-bit statuses, only the two falling edges into 00 report a turn. */
  lemma TurnDecodesEdges(last: int, status: int)
    requires 0 <= last <= 3 && 0 <= status <= 3
    ensures Turn(last, status) == Some("decreasing") <==> last == 2 && status == 0
    ensures Turn(last, status) == Some("increasing") <==> last == 1 && status == 0
    ensures Turn(last, status).None? <==> !(status == 0 && (last == 1 || last == 2))
  {
  }

  /** `RotaryEncoder`. */
  class RotaryEncoder {
    const device: StatefulDevice
    /** `_last_status`: the previous two-bit reading. */
    var lastStatus: int

    /** The state starts as '', which is not one of `_states`; the last status is 0. */
    constructor (name: string)
      ensures device.name == name && device.declared == Some(EncoderStates)
      ensures device.current == Some("") && lastStatus == 0
      ensures fresh(device)
    {
      var d := new StatefulDevice(name, Some(EncoderStates));
      d.current := Some("");
      device := d;
      lastStatus := 0;
    }

    /** The interrupt handler: ignore an unchanged reading; otherwise set the
        state to the turn the transition reports, if any, and record the reading. */
    method Process(a: bool, b: bool)
      modifies this, device
      ensures Status(a, b) == old(lastStatus) ==> lastStatus == old(lastStatus) && device.current == old(device.current)
      ensures Status(a, b) != old(lastStatus) ==> lastStatus == Status(a, b)
      ensures Status(a, b) != old(lastStatus) ==>
                var turn := Turn(old(lastStatus), Status(a, b));
                device.current == if turn.Some? then turn else old(device.current)
    {
      var status := Status(a, b);
      if status == lastStatus {
        return;
      }
      var state := Turn(lastStatus, status);
      if state.Some? {
        device.current := state;
      }
      lastStatus := status;
    }
  }

  /** '' is not a declared state, so `state` reads '' until the first turn. */
  lemma InitialStateUndeclared()
    ensures "" !in EncoderStates
  {
  }
}

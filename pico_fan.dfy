/** `pico_enclosure/fan.py`: the enclosure's 4-pin PWM fan, with the duty
    formula of `breadboard/fan.py` at the full 16-bit maximum. */
module PicoFan {
  import opened Wrappers
  import BoardFan = Fan

  const FullDuty: int := 65535

  /** The duty value `_set(value)` writes. */
  function Duty(speed: int): int
  {
    BoardFan.Duty(speed, FullDuty)
  }

  /** Speed 0 gives duty 65535, speed 100 gives 0, and the duty value never
      rises with the speed. */
  lemma DutyShape(s1: int, s2: int)
    requires s1 <= s2
    ensures Duty(0) == 65535 && Duty(100) == 0
    ensures Duty(s2) <= Duty(s1)
  {
    BoardFan.DutyEndpoints(FullDuty);
    BoardFan.DutyNonIncreasing(s1, s2, FullDuty);
  }

  /** `Fan`. */
  class Fan {
    /** `_speed_value`. */
    var speed: int
    /** The value last written to the PWM duty register; None until the
        first write. */
    var duty: Option<int>

    /** `Fan(pin, freq)`: the stored speed is 0 and nothing is written; `freq`
        is accepted and never used. */
    constructor (freq: int)
      ensures speed == 0 && duty == None
    {
      speed := 0;
      duty := None;
    }

    /** `on()`: apply the stored speed. */
    method On()
      modifies this
      ensures speed == old(speed) && duty == Some(Duty(speed))
    {
      duty := Some(Duty(speed));
    }

    /** `off()`: apply speed 0; the stored speed is kept. */
    method Off()
      modifies this
      ensures speed == old(speed) && duty == Some(FullDuty)
    {
      duty := Some(Duty(0));
      BoardFan.DutyEndpoints(FullDuty);
    }

    /** `set(value)`: store the speed and apply it. */
    method Set(value: int)
      modifies this
      ensures speed == value && duty == Some(Duty(value))
    {
      speed := value;
      duty := Some(Duty(speed));
    }
  }
}

/** `breadboard/fan.py`: a 4-pin PWM fan whose speed is a percentage.

    The PWM output is the last value handed to `duty_u16`. The duty formula
    `round((100 - value) / 100 * max_duty_cycle)` is taken on the exact
    rational, rounding half to even. */
module Fan {
  import opened Numeric

  /** The duty value for a speed: inverted, so a faster fan gets a lower duty. */
  function Duty(speed: int, maxDuty: int): int
  {
    RoundHalfEven((100 - speed) * maxDuty, 100)
  }

  /** Speed 0 gives the maximum duty value and speed 100 gives 0. */
  lemma DutyEndpoints(maxDuty: int)
    ensures Duty(0, maxDuty) == maxDuty
    ensures Duty(100, maxDuty) == 0
  {
    RoundHalfEvenExact(maxDuty, 100);
    assert 100 * maxDuty == maxDuty * 100;
    RoundHalfEvenExact(0, 100);
  }

  /** With a non-negative maximum, the duty value never rises as the speed rises. */
  lemma DutyNonIncreasing(s1: int, s2: int, maxDuty: nat)
    requires s1 <= s2
    ensures Duty(s2, maxDuty) <= Duty(s1, maxDuty)
  {
    assert (100 - s2) * maxDuty <= (100 - s1) * maxDuty by {
      if maxDuty > 0 {
        MulStrict(maxDuty, 100 - s2, 100 - s1);
      }
    }
    RoundHalfEvenMonotonic((100 - s2) * maxDuty, (100 - s1) * maxDuty, 100);
  }

  /** Speeds are not range-checked: above 100 the duty value drops to 0 or
      below, under 0 it reaches the maximum or above, and with the default
      maximum one step out of range already leaves [0, 65530]. */
  lemma OutOfRangeSpeeds(speed: int, maxDuty: nat)
    ensures speed > 100 ==> Duty(speed, maxDuty) <= 0
    ensures speed < 0 ==> Duty(speed, maxDuty) >= maxDuty
    ensures Duty(101, DefaultMaxDuty) < 0 && Duty(-1, DefaultMaxDuty) > DefaultMaxDuty
  {
    DutyEndpoints(maxDuty);
    if speed > 100 {
      DutyNonIncreasing(100, speed, maxDuty);
    }
    if speed < 0 {
      DutyNonIncreasing(speed, 0, maxDuty);
    }
    assert Duty(101, DefaultMaxDuty) == -655;
    assert Duty(-1, DefaultMaxDuty) == 66185;
  }

  const DefaultFreq: int := 25000
  const DefaultIdle: int := 25
  const DefaultMaxDuty: int := 65530

  /** `Fan`. */
  class Fan {
    const name: string
    const freq: int
    const maxDuty: int
    /** `_speed_value`: the speed `on` returns to. */
    var speed: int
    /** The value last written to the PWM duty register. */
    var duty: int

    /** `Fan(name, pin, freq, idle, max_duty_cycle)`: the idle speed is stored
        and applied at once. */
    constructor (name: string, freq: int, idle: int, maxDuty: int)
      ensures this.name == name && this.freq == freq && this.maxDuty == maxDuty
      ensures speed == idle && duty == Duty(idle, maxDuty)
    {
      this.name := name;
      this.freq := freq;
      this.maxDuty := maxDuty;
      speed := idle;
      duty := Duty(idle, maxDuty);
    }

    /** `on()`: apply the stored speed. */
    method On()
      modifies this
      ensures speed == old(speed) && duty == Duty(speed, maxDuty)
    {
      duty := Duty(speed, maxDuty);
    }

    /** `off()`: apply speed 0, which is the maximum duty value; the stored
        speed is kept for the next `on`. */
    method Off()
      modifies this
      ensures speed == old(speed) && duty == maxDuty
    {
      duty := Duty(0, maxDuty);
      DutyEndpoints(maxDuty);
    }

    /** `set(value=...)`: store the speed and apply it. */
    method Set(value: int)
      modifies this
      ensures speed == value && duty == Duty(value, maxDuty)
    {
      speed := value;
      duty := Duty(speed, maxDuty);
    }
  }
}

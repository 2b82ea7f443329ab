/** `breadboard/environment.py`, `DHTXX` and its `DHT11` / `DHT22` kinds: a
    temperature and humidity sensor read through a PIO state machine.

    The state machine delivers the five frame bytes; they, the clock and the
    second clock reading after a measurement are inputs. Temperatures and
    humidities are held in tenths (the source divides by 10 into a float). */
module Dht {
  import opened Wrappers
  import opened Numeric

  /** `_DHTXX_SM_CLOCK_FREQ`: 500 kHz, one cycle every 2 us. */
  const SmClockFreq: int := 500000

  /** A reading as `data` reports it: both in tenths, None before the first
      measurement. */
  datatype Climate = Climate(temperature: Option<int>, humidity: Option<int>)

  /** A decoded frame, both fields in tenths. */
  datatype Measurement = Measurement(humidity: nat, temperature: int)

  /** `round(ms / 1000 * _DHTXX_SM_CLOCK_FREQ)`: a pulse length in state
      machine cycles. */
  function PulseCycles(ms: int): int
  {
    RoundHalfEven(ms * SmClockFreq, 1000)
  }

  /** A pulse of `ms` milliseconds is `ms * 500` cycles: 10000 for the DHT11's
      20 ms and 1000 for the DHT22's 2 ms. */
  lemma PulseCyclesExact(ms: int)
    ensures PulseCycles(ms) == ms * 500
    ensures PulseCycles(Dht11PulseMs) == 10000 && PulseCycles(Dht22PulseMs) == 1000
  {
    assert ms * SmClockFreq == (ms * 500) * 1000;
    RoundHalfEvenExact(ms * 500, 1000);
    assert Dht11PulseMs * SmClockFreq == 10000 * 1000;
    RoundHalfEvenExact(10000, 1000);
    assert Dht22PulseMs * SmClockFreq == 1000 * 1000;
    RoundHalfEvenExact(1000, 1000);
  }

  const Dht11RestTime: int := 1
  const Dht11PulseMs: int := 20
  const Dht22RestTime: int := 2
  const Dht22PulseMs: int := 2

  /** Bit 15 is the sign and the low 15 bits the magnitude. */
  function SignMagnitude(raw: int): int
  {
    (if raw / 32768 == 0 then 1 else -1) * (raw % 32768)
  }

  /** The low byte of the sum of the four data bytes. */
  function Checksum(b0: Byte, b1: Byte, b2: Byte, b3: Byte): Byte
  {
    (b0 + b1 + b2 + b3) % 256
  }

  /** `data`'s frame decoding: humidity is bytes 0-1 and the raw temperature
      bytes 2-3, both big-endian; the frame is accepted exactly when byte 4 is
      the checksum of the others. */
  function Decode(frame: seq<Byte>): (r: Result<Measurement>)
    requires |frame| == 5
    ensures r.Ok? <==> frame[4] == Checksum(frame[0], frame[1], frame[2], frame[3])
    ensures r.Err? ==> r.error == Exception("Checksum validation failed.")
  {
    var humidity := frame[0] as int * 256 + frame[1];
    var rawTemp := frame[2] as int * 256 + frame[3];
    if frame[4] != (humidity / 256 + humidity % 256 + rawTemp / 256 + rawTemp % 256) % 256 then
      Err(Exception("Checksum validation failed."))
    else
      Ok(Measurement(humidity, SignMagnitude(rawTemp)))
  }

  /** The frame a sensor sends for a measurement (a zero temperature is sent
      with the sign bit clear). */
  function Encode(m: Measurement): (frame: seq<Byte>)
    requires m.humidity < 65536 && -32768 < m.temperature < 32768
    ensures |frame| == 5
  {
    var raw := if m.temperature < 0 then 32768 - m.temperature else m.temperature;
    var b0, b1, b2, b3 := m.humidity / 256, m.humidity % 256, raw / 256, raw % 256;
    [b0, b1, b2, b3, Checksum(b0, b1, b2, b3)]
  }

  /** Every measurement in range survives being sent and decoded. */
  lemma DecodeEncode(m: Measurement)
    requires m.humidity < 65536 && -32768 < m.temperature < 32768
    ensures Decode(Encode(m)) == Ok(m)
  {
    var raw := if m.temperature < 0 then 32768 - m.temperature else m.temperature;
    assert (raw / 256) * 256 + raw % 256 == raw;
    assert (m.humidity / 256) * 256 + m.humidity % 256 == m.humidity;
    assert raw / 32768 == (if m.temperature < 0 then 1 else 0);
  }

  /** A set sign bit with a zero magnitude reads as 0, the same as a clear one. */
  lemma NegativeZero()
    ensures Decode([0, 0, 0x80, 0, 0x80]) == Ok(Measurement(0, 0))
    ensures Decode([0, 0, 0, 0, 0]) == Ok(Measurement(0, 0))
  {
  }

  /** `round(t * 9 / 5 + 32, 1)` on a temperature of `t` tenths of a degree,
      in tenths of a degree Fahrenheit. */
  function Fahrenheit(t: int): int
  {
    RoundHalfEven(9 * t + 1600, 5)
  }

  /** Freezing and boiling points convert exactly, and the conversion keeps order. */
  lemma FahrenheitShape(t1: int, t2: int)
    requires t1 <= t2
    ensures Fahrenheit(0) == 320 && Fahrenheit(1000) == 2120
    ensures Fahrenheit(t1) <= Fahrenheit(t2)
  {
    RoundHalfEvenExact(320, 5);
    RoundHalfEvenExact(2120, 5);
    RoundHalfEvenMonotonic(9 * t1 + 1600, 9 * t2 + 1600, 5);
  }

  /** What `data` returns from the stored fields: the temperature as stored
      for "celsius", converted otherwise, which raises `TypeError` before any
      measurement. */
  function Report(temp: Option<int>, humidity: Option<int>, unit: string): (r: Result<Climate>)
    ensures unit == "celsius" ==> r == Ok(Climate(temp, humidity))
    ensures unit != "celsius" ==> (r.Err? <==> temp.None?)
    ensures unit != "celsius" && temp.Some? ==> r == Ok(Climate(Some(Fahrenheit(temp.value)), humidity))
  {
    if unit == "celsius" then Ok(Climate(temp, humidity))
    else if temp.None? then Err(TypeError("unsupported operand type(s) for *: 'NoneType' and 'int'"))
    else Ok(Climate(Some(Fahrenheit(temp.value)), humidity))
  }

  /** `DHTXX`. */
  class DHTXX {
    const name: string
    /** `_rest_time`, in seconds. */
    const restTime: int
    /** `_initial_low_pulse_duration`, in state machine cycles. */
    const pulse: int
    /** `_unit`. */
    const unit: string
    /** `_temp`, in tenths. */
    var temp: Option<int>
    /** `_humidity`, in tenths. */
    var humidity: Option<int>
    /** `_last_measurement_time`. */
    var lastTime: int

    /** `DHTXX(name, pin, rest_time, initial_low_pulse_duration, unit=...)`. */
    constructor (name: string, restTime: int, pulseMs: int, unit: string)
      ensures this.name == name && this.restTime == restTime && this.unit == unit
      ensures pulse == pulseMs * 500
      ensures temp == None && humidity == None && lastTime == 0
    {
      this.name := name;
      this.restTime := restTime;
      PulseCyclesExact(pulseMs);
      pulse := PulseCycles(pulseMs);
      this.unit := unit;
      temp := None;
      humidity := None;
      lastTime := 0;
    }

    /** `data()` at time `now`: a new frame is read only when more than the
        rest time has passed since the last measurement. A frame that fails
        the checksum raises and changes nothing; a good one is stored and the
        time (`finished`, the clock read after the frame) recorded. */
    method Data(now: int, frame: seq<Byte>, finished: int) returns (r: Result<Climate>)
      requires |frame| == 5
      modifies this
      ensures now - old(lastTime) <= restTime ==>
                temp == old(temp) && humidity == old(humidity) && lastTime == old(lastTime) &&
                r == Report(temp, humidity, unit)
      ensures now - old(lastTime) > restTime && Decode(frame).Err? ==>
                temp == old(temp) && humidity == old(humidity) && lastTime == old(lastTime) &&
                r == Err(Decode(frame).error)
      ensures now - old(lastTime) > restTime && Decode(frame).Ok? ==>
                temp == Some(Decode(frame).value.temperature) &&
                humidity == Some(Decode(frame).value.humidity) &&
                lastTime == finished && r == Report(temp, humidity, unit)
    {
      if now - lastTime > restTime {
        var decoded := Decode(frame);
        if decoded.Err? {
          return Err(decoded.error);
        }
        humidity := Some(decoded.value.humidity);
        temp := Some(decoded.value.temperature);
        lastTime := finished;
      }
      r := Report(temp, humidity, unit);
    }
  }

  /** `DHT11(name, pin)`: rest 1 s, 20 ms start pulse. */
  method NewDht11(name: string, unit: string) returns (d: DHTXX)
    ensures d.restTime == 1 && d.pulse == 10000 && d.unit == unit && d.name == name
    ensures d.temp == None && d.humidity == None && d.lastTime == 0
  {
    d := new DHTXX(name, Dht11RestTime, Dht11PulseMs, unit);
  }

  /** `DHT22(name, pin)` (also `AM2302`): rest 2 s, 2 ms start pulse. */
  method NewDht22(name: string, unit: string) returns (d: DHTXX)
    ensures d.restTime == 2 && d.pulse == 1000 && d.unit == unit && d.name == name
    ensures d.temp == None && d.humidity == None && d.lastTime == 0
  {
    d := new DHTXX(name, Dht22RestTime, Dht22PulseMs, unit);
  }
}

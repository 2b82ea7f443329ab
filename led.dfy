/** `breadboard/led.py`: a strip of NeoPixels driven with one grey level
    (`NeoPixel`) or with colours (`RGBNeoPixel`).

    `_np` (the pixel buffer the hardware shows) and `_state` (the colour each
    pixel was last set to) are arrays indexed by pixel. `_np` keeps one byte
    per channel: the NeoPixel driver stores each value in a `bytearray`, where
    MicroPython keeps the low byte of the integer (`Stored`); `_state` keeps
    the values as given. `COLOR_MAP` is a
    parameter. The `round(v * brightness / 100)` of the source is taken on the
    exact rational, rounding half to even as Python's `round` does. */
module Led {
  import opened Wrappers
  import opened Numeric

  type Color = (int, int, int)

  const Black: Color := (0, 0, 0)

  /** `DEFAULT_COLOR`. */
  const DefaultColor: Color := (0, 0, 0)

  /** `round(v * brightness / 100)`. */
  function Scale(v: int, brightness: int): int
  {
    RoundHalfEven(v * brightness, 100)
  }

  function ScaleColor(c: Color, brightness: int): Color
  {
    (Scale(c.0, brightness), Scale(c.1, brightness), Scale(c.2, brightness))
  }

  /** At brightness 100 a channel keeps its value. */
  lemma FullBrightnessIsExact(c: Color)
    ensures ScaleColor(c, 100) == c
  {
    RoundHalfEvenExact(c.0, 100);
    RoundHalfEvenExact(c.1, 100);
    RoundHalfEvenExact(c.2, 100);
  }

  /** Scaling is monotonic in the brightness for a non-negative channel. */
  lemma ScaleMonotonic(v: nat, b1: int, b2: int)
    requires b1 <= b2
    ensures Scale(v, b1) <= Scale(v, b2)
  {
    assert v * b1 <= v * b2 by {
      if v > 0 {
        MulStrict(v, b1, b2);
      }
    }
    RoundHalfEvenMonotonic(v * b1, v * b2, 100);
  }

  /** A colour whose channels each fit in one byte. */
  predicate IsByteColor(c: Color) {
    0 <= c.0 < 256 && 0 <= c.1 < 256 && 0 <= c.2 < 256
  }

  /** Every pixel of a buffer holds a byte colour. */
  predicate Bytes(buffer: seq<Color>) {
    forall i :: 0 <= i < |buffer| ==> IsByteColor(buffer[i])
  }

  /** One channel as the driver's `bytearray` stores it: the low byte of the
      integer, so the stored value differs from the given one by a multiple
      of 256. */
  function ByteOf(v: int): (b: int)
    ensures 0 <= b < 256
    ensures 0 <= v < 256 ==> b == v
    ensures (v - b) % 256 == 0
  {
    v % 256
  }

  /** `_np[idx] = color`: the colour the pixel buffer then holds. */
  function Stored(c: Color): (r: Color)
    ensures IsByteColor(r)
    ensures IsByteColor(c) ==> r == c
  {
    (ByteOf(c.0), ByteOf(c.1), ByteOf(c.2))
  }

  /** `set(brightness=200)` asks for the grey level 510, which the buffer
      holds as 254. */
  lemma OverBrightGreyWraps()
    ensures Scale(255, 200) == 510
    ensures Stored((Scale(255, 200), Scale(255, 200), Scale(255, 200))) == (254, 254, 254)
  {
    RoundHalfEvenExact(510, 100);
    assert 255 * 200 == 510 * 100;
  }

  /** `_write_to_neopixel(color)` on one buffer: every pixel not on the
      blacklist takes the colour. */
  function Paint(buffer: seq<Color>, c: Color, blacklist: seq<int>): (r: seq<Color>)
    ensures |r| == |buffer|
    ensures forall i :: 0 <= i < |r| ==> r[i] == if i in blacklist then buffer[i] else c
  {
    seq(|buffer|, i requires 0 <= i < |buffer| => if i in blacklist then buffer[i] else c)
  }

  /** `on()`: every pixel not on the blacklist shows its recorded colour, as
      the buffer stores it. */
  function Show(buffer: seq<Color>, state: seq<Color>, blacklist: seq<int>): (r: seq<Color>)
    requires |state| == |buffer|
    ensures |r| == |buffer|
    ensures forall i :: 0 <= i < |r| ==> r[i] == if i in blacklist then buffer[i] else Stored(state[i])
  {
    seq(|buffer|, i requires 0 <= i < |buffer| => if i in blacklist then buffer[i] else Stored(state[i]))
  }

  /** Every record as the buffer stores it. */
  function StoredAll(state: seq<Color>): (r: seq<Color>)
    ensures |r| == |state| && Bytes(r)
    ensures forall i :: 0 <= i < |r| ==> r[i] == Stored(state[i])
  {
    seq(|state|, i requires 0 <= i < |state| => Stored(state[i]))
  }

  /** `off()`: every pixel, blacklisted or not, goes dark. */
  function Dark(n: nat): (r: seq<Color>)
    ensures |r| == n && forall i :: 0 <= i < n ==> r[i] == Black
  {
    seq(n, _ => Black)
  }

  /** Blacklisted pixels are dark. */
  predicate BlacklistDark(buffer: seq<Color>, blacklist: seq<int>) {
    forall i :: 0 <= i < |buffer| && i in blacklist ==> buffer[i] == Black
  }

  /** Turning on twice shows the same as turning on once. */
  lemma ShowIdempotent(buffer: seq<Color>, state: seq<Color>, blacklist: seq<int>)
    requires |state| == |buffer|
    ensures Show(Show(buffer, state, blacklist), state, blacklist) == Show(buffer, state, blacklist)
  {
  }

  /** Off, then on, gives back what a lit strip showed, when blacklisted
      pixels were dark. */
  lemma OffThenOnRestores(buffer: seq<Color>, state: seq<Color>, blacklist: seq<int>)
    requires |state| == |buffer| && BlacklistDark(buffer, blacklist)
    ensures Show(Dark(|buffer|), state, blacklist) == Show(buffer, state, blacklist)
  {
  }

  /** After painting, turning on shows exactly what was painted. */
  lemma PaintThenShow(buffer: seq<Color>, state: seq<Color>, c: Color, blacklist: seq<int>)
    requires |state| == |buffer|
    ensures Show(Paint(buffer, Stored(c), blacklist), Paint(state, c, blacklist), blacklist) ==
              Paint(buffer, Stored(c), blacklist)
  {
  }

  /** `brightness or self._default_brightness or 100`: a falsy (missing or 0)
      brightness falls back to the default, then to 100. */
  function EffectiveBrightness(brightness: Option<int>, defaultBrightness: int): (b: int)
    ensures brightness.Some? && brightness.value != 0 ==> b == brightness.value
    ensures (brightness.None? || brightness == Some(0)) && defaultBrightness != 0 ==> b == defaultBrightness
    ensures (brightness.None? || brightness == Some(0)) && defaultBrightness == 0 ==> b == 100
    ensures b != 0
  {
    if brightness.Some? && brightness.value != 0 then brightness.value
    else if defaultBrightness != 0 then defaultBrightness
    else 100
  }

  /** "grey" starts at index `i` of `t`. */
  predicate GreyAt(t: string, i: int) {
    0 <= i && i + 4 <= |t| && t[i] == 'g' && t[i + 1] == 'r' && t[i + 2] == 'e' && t[i + 3] == 'y'
  }

  /** `s.replace("grey", "gray")`: left to right, without overlaps. The
      result is the input with the 'e' of every "grey" turned into 'a' and
      every other character kept. */
  function ReplaceGrey(s: string): (r: string)
    ensures |r| == |s|
    ensures forall i :: 0 <= i < |s| ==> r[i] == (if GreyAt(s, i - 2) then 'a' else s[i])
  {
    if |s| < 4 then s
    else if GreyAt(s, 0) then
      var tail := ReplaceGrey(s[4..]);
      assert forall k :: -2 <= k ==> (GreyAt(s[4..], k) <==> GreyAt(s, k + 4));
      "gray" + tail
    else
      var tail := ReplaceGrey(s[1..]);
      assert forall k :: -2 <= k ==> (GreyAt(s[1..], k) <==> GreyAt(s, k + 1));
      [s[0]] + tail
  }

  /** A string that does not start with 'g' keeps its first character and
      has the rest replaced. */
  lemma KeepsHead(u: string)
    requires u != [] && u[0] != 'g'
    ensures ReplaceGrey(u) == [u[0]] + ReplaceGrey(u[1..])
  {
  }

  /** "grey" at the start of the result was already "grey" at the start. */
  lemma NoGreyAtHead(s: string)
    ensures GreyAt(ReplaceGrey(s), 0) ==> GreyAt(s, 0)
  {
    if |s| >= 4 && !GreyAt(s, 0) && s[1] != 'g' {
      KeepsHead(s[1..]);
      if s[2] != 'g' {
        KeepsHead(s[2..]);
      }
    }
  }

  /** No "grey" survives the replacement. */
  lemma {:induction false} ReplaceGreyLeavesNoGrey(s: string)
    ensures forall i :: !GreyAt(ReplaceGrey(s), i)
    decreases |s|
  {
    var r := ReplaceGrey(s);
    if |s| < 4 {
    } else if GreyAt(s, 0) {
      ReplaceGreyLeavesNoGrey(s[4..]);
      var rest := ReplaceGrey(s[4..]);
      forall i
        ensures !GreyAt(r, i)
      {
        if i >= 4 {
          assert !GreyAt(rest, i - 4);
        }
      }
    } else {
      ReplaceGreyLeavesNoGrey(s[1..]);
      var rest := ReplaceGrey(s[1..]);
      forall i
        ensures !GreyAt(r, i)
      {
        if i == 0 {
          NoGreyAtHead(s);
        } else {
          assert !GreyAt(rest, i - 1);
        }
      }
    }
  }

  /** The key a colour name is looked up under. */
  function ColorKey(name: string): string
  {
    ReplaceGrey(Lower(name))
  }

  /** `RGBNeoPixel.set`'s colour: the chosen channels (`Channels`), each
      scaled by the effective brightness. */
  function RgbColor(red: Option<int>, green: Option<int>, blue: Option<int>, brightness: Option<int>,
                    color: Option<string>, defaultBrightness: int, colors: map<string, Color>): (r: Result<Color>)
    ensures r.Err? ==> r.error.ValueError?
  {
    var c :- Channels(red, green, blue, color, colors);
    Ok(ScaleColor(c, EffectiveBrightness(brightness, defaultBrightness)))
  }

  /** The unscaled colour: explicit channels when any is truthy (then all
      three must be given), else a named colour looked up in `colors`. */
  function Channels(red: Option<int>, green: Option<int>, blue: Option<int>, color: Option<string>,
                    colors: map<string, Color>): (r: Result<Color>)
    ensures r.Err? ==> r.error.ValueError?
  {
    if Truthy(red) || Truthy(green) || Truthy(blue) then
      if red.None? || green.None? || blue.None? then
        Err(ValueError(PartialChannels))
      else Ok((red.value, green.value, blue.value))
    else if color.Some? && color.value != "" then
      if ColorKey(color.value) in colors then Ok(colors[ColorKey(color.value)])
      else Err(ValueError("Unknown color given: " + color.value))
    else Err(ValueError(NoColor))
  }

  const PartialChannels: string := "`red`, `green`, and `blue` must all be given if any are given."
  const NoColor: string := "Either a `color` or values for `red`, `green`, and `blue` must be given"

  /** An `int` argument's truthiness. */
  predicate Truthy(v: Option<int>) {
    v.Some? && v.value != 0
  }

  /** What `RgbColor` promises, case by case. */
  lemma RgbColorCases(red: Option<int>, green: Option<int>, blue: Option<int>, brightness: Option<int>,
                      color: Option<string>, defaultBrightness: int, colors: map<string, Color>)
    ensures var r := RgbColor(red, green, blue, brightness, color, defaultBrightness, colors);
            var b := EffectiveBrightness(brightness, defaultBrightness);
            && ((Truthy(red) || Truthy(green) || Truthy(blue)) && (red.None? || green.None? || blue.None?) ==> r.Err?)
            && (red.Some? && green.Some? && blue.Some? && (Truthy(red) || Truthy(green) || Truthy(blue)) ==>
                  r == Ok(ScaleColor((red.value, green.value, blue.value), b)))
            && (!(Truthy(red) || Truthy(green) || Truthy(blue)) && color.Some? && color.value != "" ==>
                  (r.Ok? <==> ColorKey(color.value) in colors) &&
                  (r.Ok? ==> r.value == ScaleColor(colors[ColorKey(color.value)], b)))
            && (!(Truthy(red) || Truthy(green) || Truthy(blue)) && (color.None? || color == Some("")) ==> r.Err?)
  {
    var c := Channels(red, green, blue, color, colors);
    var b := EffectiveBrightness(brightness, defaultBrightness);
    assert RgbColor(red, green, blue, brightness, color, defaultBrightness, colors) ==
           if c.Err? then Err(c.error) else Ok(ScaleColor(c.value, b));
  }

  /** The strip of one `NeoPixel` or `RGBNeoPixel`. */
  class NeoPixel {
    const blacklist: seq<int>
    /** `_default_brightness`: the configured value, or 0. */
    const defaultBrightness: int
    /** `_np`: what the pixels show, one byte per channel. */
    const strip: array<Color>
    /** `_state`: the colour each pixel was last set to. */
    const state: array<Color>

    predicate Valid()
      reads this, strip
    {
      strip.Length == state.Length && strip != state && BlacklistDark(strip[..], blacklist) && Bytes(strip[..])
    }

    /** A fresh strip is dark and every pixel records `initial`. */
    constructor (count: nat, blacklist: seq<int>, defaultBrightness: int, initial: Color)
      ensures Valid()
      ensures this.blacklist == blacklist && this.defaultBrightness == defaultBrightness
      ensures strip[..] == Dark(count) && state[..] == seq(count, _ => initial)
      ensures fresh(strip) && fresh(state)
    {
      this.blacklist := blacklist;
      this.defaultBrightness := defaultBrightness;
      strip := new Color[count](_ => Black);
      state := new Color[count](_ => initial);
      new;
      assert strip[..] == Dark(count);
    }

    /** `_write_to_neopixel(color)`: strip and record take the colour, except on
        blacklisted pixels; the strip holds the colour's low bytes. */
    method WriteColor(c: Color)
      requires Valid()
      modifies strip, state
      ensures Valid()
      ensures strip[..] == Paint(old(strip[..]), Stored(c), blacklist)
      ensures state[..] == Paint(old(state[..]), c, blacklist)
    {
      var idx := 0;
      while idx < strip.Length
        invariant 0 <= idx <= strip.Length
        invariant forall i :: 0 <= i < strip.Length ==> strip[i] == if i < idx && i !in blacklist then Stored(c) else old(strip[i])
        invariant forall i :: 0 <= i < state.Length ==> state[i] == if i < idx && i !in blacklist then c else old(state[i])
      {
        if idx !in blacklist {
          strip[idx] := Stored(c);
          state[idx] := c;
        }
        idx := idx + 1;
      }
    }

    /** `on()`: show the recorded colours; the record is unchanged. Returns `{}`. */
    method On() returns (r: map<string, int>)
      requires Valid()
      modifies strip
      ensures Valid() && r == map[]
      ensures strip[..] == Show(old(strip[..]), state[..], blacklist)
    {
      var idx := 0;
      while idx < strip.Length
        invariant 0 <= idx <= strip.Length
        invariant forall i :: 0 <= i < strip.Length ==> strip[i] == if i < idx && i !in blacklist then Stored(state[i]) else old(strip[i])
      {
        if idx !in blacklist {
          strip[idx] := Stored(state[idx]);
        }
        idx := idx + 1;
      }
      r := map[];
    }

    /** `off()`: every pixel dark; the record is unchanged. Returns `{}`. */
    method Off() returns (r: map<string, int>)
      requires Valid()
      modifies strip
      ensures Valid() && r == map[]
      ensures strip[..] == Dark(strip.Length)
    {
      var idx := 0;
      while idx < strip.Length
        invariant 0 <= idx <= strip.Length
        invariant forall i :: 0 <= i < strip.Length ==> strip[i] == if i < idx then Black else old(strip[i])
      {
        strip[idx] := Black;
        idx := idx + 1;
      }
      r := map[];
    }

    /** `NeoPixel.set(brightness)`: every pixel the grey level of the brightness.
        Returns `{"brightness": brightness}`. */
    method SetBrightness(brightness: int) returns (r: map<string, int>)
      requires Valid()
      modifies strip, state
      ensures Valid() && r == map["brightness" := brightness]
      ensures var level := Scale(255, brightness);
              strip[..] == Paint(old(strip[..]), Stored((level, level, level)), blacklist) &&
              state[..] == Paint(old(state[..]), (level, level, level), blacklist)
    {
      var level := Scale(255, brightness);
      WriteColor((level, level, level));
      r := map["brightness" := brightness];
    }

    /** `RGBNeoPixel.set(...)`: compute the colour, write it, and return the
        recorded colour of pixel 0 (a `KeyError` on an empty strip). */
    method SetColor(red: Option<int>, green: Option<int>, blue: Option<int>, brightness: Option<int>,
                    color: Option<string>, colors: map<string, Color>) returns (r: Result<map<string, int>>)
      requires Valid()
      modifies strip, state
      ensures Valid()
      ensures var c := RgbColor(red, green, blue, brightness, color, defaultBrightness, colors);
              (c.Err? ==> r == Err(c.error) && strip[..] == old(strip[..]) && state[..] == old(state[..])) &&
              (c.Ok? ==> strip[..] == Paint(old(strip[..]), Stored(c.value), blacklist) &&
                         state[..] == Paint(old(state[..]), c.value, blacklist) &&
                         (state.Length == 0 ==> r == Err(KeyError("0"))) &&
                         (state.Length > 0 ==> r == Ok(map["red" := state[0].0, "green" := state[0].1, "blue" := state[0].2])))
    {
      var c := RgbColor(red, green, blue, brightness, color, defaultBrightness, colors);
      if c.Err? {
        return Err(c.error);
      }
      WriteColor(c.value);
      if state.Length == 0 {
        return Err(KeyError("0"));
      }
      r := Ok(map["red" := state[0].0, "green" := state[0].1, "blue" := state[0].2]);
    }
  }

  /** `NeoPixel(name=..., pin=..., count, blacklist, default_brightness)`: every
      pixel records the grey level of the default brightness (0 when none is
      given), and the strip is turned on. */
  method NewNeoPixel(count: nat, blacklist: seq<int>, defaultBrightness: Option<int>) returns (p: NeoPixel)
    ensures fresh(p) && fresh(p.strip) && fresh(p.state) && p.Valid()
    ensures var level := Scale(255, if defaultBrightness.Some? then defaultBrightness.value else 0);
            p.state[..] == seq(count, _ => (level, level, level)) &&
            p.strip[..] == Show(Dark(count), p.state[..], blacklist)
  {
    var b := if defaultBrightness.Some? then defaultBrightness.value else 0;
    var level := Scale(255, b);
    p := new NeoPixel(count, blacklist, b, (level, level, level));
    var _ := p.On();
  }

  /** How `default_color` is given: a colour name or channel values. */
  datatype ColorSpec = Named(name: string) | Channels(c: Color)

  /** `default_color or DEFAULT_COLOR`, then a name is looked up as given (no
      lower-casing here); an unknown name raises `KeyError`. */
  function DefaultColorOf(spec: Option<ColorSpec>, colors: map<string, Color>): (r: Result<Color>)
    ensures spec.None? || spec == Some(Named("")) ==> r == Ok(DefaultColor)
    ensures r.Err? <==> spec.Some? && spec.value.Named? && spec.value.name != "" && spec.value.name !in colors
  {
    match spec
    case None => Ok(DefaultColor)
    case Some(Named(name)) =>
      if name == "" then Ok(DefaultColor)
      else if name in colors then Ok(colors[name])
      else Err(KeyError(name))
    case Some(Channels(c)) => Ok(c)
  }

  /** `RGBNeoPixel(...)`: every pixel records the default colour scaled by the
      default brightness; the strip is turned on when `default_on`. */
  method NewRgbNeoPixel(count: nat, blacklist: seq<int>, defaultBrightness: Option<int>, defaultColor: Option<ColorSpec>,
                        defaultOn: bool, colors: map<string, Color>) returns (r: Result<NeoPixel>)
    ensures r.Err? <==> DefaultColorOf(defaultColor, colors).Err?
    ensures r.Ok? ==>
              var p := r.value;
              var b := if defaultBrightness.Some? then defaultBrightness.value else 0;
              var initial := ScaleColor(DefaultColorOf(defaultColor, colors).value, b);
              fresh(p) && p.Valid() && p.defaultBrightness == b &&
              p.state[..] == seq(count, _ => initial) &&
              p.strip[..] == if defaultOn then Show(Dark(count), p.state[..], blacklist) else Dark(count)
  {
    var c := DefaultColorOf(defaultColor, colors);
    if c.Err? {
      return Err(c.error);
    }
    var b := if defaultBrightness.Some? then defaultBrightness.value else 0;
    var p := new NeoPixel(count, blacklist, b, ScaleColor(c.value, b));
    if defaultOn {
      var _ := p.On();
    }
    return Ok(p);
  }
}

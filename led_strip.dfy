/** `pico_enclosure/led_strip.py`: the enclosure's NeoPixel strip.

    `_np` and `_state` are arrays of colours; pixel writes past the end of
    `_np` raise `IndexError`. `_np` holds the low byte of each channel, as the
    NeoPixel driver's `bytearray` does (`Led.Stored`); `_state` keeps the
    values as given. Only brightness 1 (the default) is modelled:
    `round(c * 1)` is `c`. */
module LedStrip {
  import opened Wrappers
  import opened Numeric
  import opened Led

  /** `range(start, end, step)` for one channel, with the step the source
      picks: 1 when ascending, else `-round(|start - end| / n)`. Dividing by a
      strip of length 0 raises `ZeroDivisionError`; a step of 0 raises
      `ValueError`. */
  function ChannelStep(start: int, end: int, n: nat): (r: Result<int>)
    ensures start <= end ==> r == Ok(1)
    ensures start > end && n == 0 ==> r == Err(ZeroDivisionError)
    ensures r.Ok? ==> r.value != 0
    ensures start > end && n > 0 && r.Ok? ==> r.value == -RoundHalfEven(start - end, n)
  {
    if start > end then
      if n == 0 then Err(ZeroDivisionError)
      else
        var step := -RoundHalfEven(start - end, n);
        if step == 0 then Err(ValueError("range() arg 3 must not be zero")) else Ok(step)
    else Ok(1)
  }

  /** `len(range(start, end, step))`. */
  function RangeLength(start: int, end: int, step: int): (r: nat)
    requires step != 0
    ensures step > 0 ==> (r == 0 <==> start >= end)
    ensures step < 0 ==> (r == 0 <==> start <= end)
  {
    if step > 0 then (if start >= end then 0 else (end - start + step - 1) / step)
    else (if start <= end then 0 else (start - end + (-step) - 1) / (-step))
  }

  /** The steps of the three channel ranges, built in channel order: the
      first channel that raises decides the error. */
  function Steps(start: Color, end: Color, n: nat): (r: Result<Color>)
  {
    var s0 :- ChannelStep(start.0, end.0, n);
    var s1 :- ChannelStep(start.1, end.1, n);
    var s2 :- ChannelStep(start.2, end.2, n);
    Ok((s0, s1, s2))
  }

  /** How many colours `zip(*ranges)` yields: the shortest range. */
  function GradientLength(start: Color, end: Color, steps: Color): nat
    requires steps.0 != 0 && steps.1 != 0 && steps.2 != 0
  {
    var a := RangeLength(start.0, end.0, steps.0);
    var b := RangeLength(start.1, end.1, steps.1);
    var c := RangeLength(start.2, end.2, steps.2);
    if a <= b && a <= c then a else if b <= c then b else c
  }

  /** The `k`-th colour of the gradient. */
  function GradientColor(start: Color, steps: Color, k: nat): Color
  {
    (start.0 + k * steps.0, start.1 + k * steps.1, start.2 + k * steps.2)
  }

  /** A channel whose start equals its end has an empty range, so nothing is written. */
  lemma FlatChannelWritesNothing(start: Color, end: Color, steps: Color)
    requires steps.0 != 0 && steps.1 != 0 && steps.2 != 0
    requires start.0 == end.0 || start.1 == end.1 || start.2 == end.2
    ensures GradientLength(start, end, steps) == 0
  {
  }

  /** The ascending steps are 1, so a gradient between two colours whose
      channels all rise by at least `d` yields at least `d` colours. */
  lemma AscendingGradientLength(start: Color, end: Color, n: nat, d: nat)
    requires end.0 - start.0 >= d && end.1 - start.1 >= d && end.2 - start.2 >= d
    ensures Steps(start, end, n) == Ok((1, 1, 1))
    ensures GradientLength(start, end, (1, 1, 1)) >= d
  {
  }

  /** A descending channel raises `ValueError` exactly when its step rounds
      to 0: when the drop is at most half the strip's length (half exactly
      is a tie, which rounds to the even 0). */
  lemma ZeroStepRaises(start: int, end: int, n: nat)
    requires start > end && n > 0
    ensures ChannelStep(start, end, n).Err? <==> 2 * (start - end) <= n
    ensures ChannelStep(start, end, n).Err? ==>
              ChannelStep(start, end, n) == Err(ValueError("range() arg 3 must not be zero"))
  {
    var r := RoundHalfEven(start - end, n);
    if 2 * (start - end) <= n {
      if r >= 1 {
        MulStrict(n, 1, r);
        if r >= 2 {
          MulStrict(n, 2, r);
        }
      } else if r <= -1 {
        MulStrict(n, r, -1);
      }
    }
  }

  /** `LEDStrip`. */
  class LEDStrip {
    const blacklist: seq<int>
    /** `_np`, one byte per channel. */
    const strip: array<Color>
    /** `_state`. */
    const state: array<Color>

    predicate Valid()
      reads this, strip, state
    {
      strip.Length == state.Length && strip != state && BlacklistDark(state[..], blacklist) && Bytes(strip[..])
    }

    /** `LEDStrip(pin, led_count, blacklist)`: every record is (0, 0, 0); nothing
        is shown yet. */
    constructor (count: nat, blacklist: seq<int>)
      ensures Valid() && this.blacklist == blacklist
      ensures state[..] == Dark(count) && strip[..] == Dark(count)
      ensures fresh(strip) && fresh(state)
    {
      this.blacklist := blacklist;
      strip := new Color[count](_ => Black);
      state := new Color[count](_ => Black);
      new;
      assert state[..] == Dark(count);
      assert strip[..] == Dark(count);
    }

    /** `fill(red, green, blue)`: strip and record of every pixel not on the
        blacklist take the colour; the strip holds its low bytes. */
    method Fill(c: Color)
      requires Valid()
      modifies strip, state
      ensures Valid()
      ensures strip[..] == Paint(old(strip[..]), Stored(c), blacklist)
      ensures state[..] == Paint(old(state[..]), c, blacklist)
    {
      var idx := 0;
      while idx < strip.Length
        invariant 0 <= idx <= strip.Length
        invariant forall i :: 0 <= i < strip.Length ==> strip[i] == if i < idx && i !in blacklist then Stored(c) else old(strip[i])
        invariant forall i :: 0 <= i < state.Length ==> state[i] == if i < idx && i !in blacklist then c else old(state[i])
      {
        if idx !in blacklist {
          strip[idx] := Stored(c);
          state[idx] := c;
        }
        idx := idx + 1;
      }
    }

    /** `gradient(start, end)`: the `k`-th colour of the channel ranges goes to
        pixel `k` (the strip holding its low bytes), skipping blacklisted
        pixels; a pixel past the strip's end
        raises `IndexError` after the pixels before it were written. */
    method Gradient(start: Color, end: Color) returns (r: Result<()>)
      requires Valid()
      modifies strip, state
      ensures Valid()
      ensures var steps := Steps(start, end, strip.Length);
              (steps.Err? ==> r == Err(steps.error) && strip[..] == old(strip[..]) && state[..] == old(state[..])) &&
              (steps.Ok? ==>
                 var m := GradientLength(start, end, steps.value);
                 var last := Written(m, strip.Length, blacklist);
                 (r.Err? <==> last < m) && (r.Err? ==> r.error == IndexError) &&
                 forall i :: 0 <= i < strip.Length ==>
                   var painted := i < last && i !in blacklist;
                   strip[i] == (if painted then Stored(GradientColor(start, steps.value, i)) else old(strip[i])) &&
                   state[i] == (if painted then GradientColor(start, steps.value, i) else old(state[i])))
    {
      var stepped := Steps(start, end, strip.Length);
      if stepped.Err? {
        return Err(stepped.error);
      }
      var steps := stepped.value;
      var m := GradientLength(start, end, steps);
      var idx := 0;
      while idx < m
        invariant 0 <= idx <= m
        invariant idx <= Written(m, strip.Length, blacklist)
        invariant forall i :: 0 <= i < strip.Length ==>
                    strip[i] == (if i < idx && i !in blacklist then Stored(GradientColor(start, steps, i)) else old(strip[i])) &&
                    state[i] == (if i < idx && i !in blacklist then GradientColor(start, steps, i) else old(state[i]))
      {
        if idx !in blacklist {
          if idx >= strip.Length {
            WrittenStops(m, strip.Length, blacklist, idx);
            return Err(IndexError);
          }
          var c := GradientColor(start, steps, idx);
          strip[idx] := Stored(c);
          state[idx] := c;
        }
        WrittenContinues(m, strip.Length, blacklist, idx);
        idx := idx + 1;
      }
      r := Ok(());
    }

    /** `on()`: every record is shown, blacklisted pixels included. */
    method On()
      requires Valid()
      modifies strip
      ensures Valid() && strip[..] == StoredAll(state[..])
    {
      var idx := 0;
      while idx < state.Length
        invariant 0 <= idx <= state.Length
        invariant forall i :: 0 <= i < strip.Length ==> strip[i] == if i < idx then Stored(state[i]) else old(strip[i])
      {
        strip[idx] := Stored(state[idx]);
        idx := idx + 1;
      }
    }

    /** `off()`: every pixel dark; the records are unchanged. */
    method Off()
      requires Valid()
      modifies strip
      ensures Valid() && strip[..] == Dark(strip.Length)
    {
      var idx := 0;
      while idx < strip.Length
        invariant 0 <= idx <= strip.Length
        invariant forall i :: 0 <= i < strip.Length ==> strip[i] == if i < idx then Black else old(strip[i])
      {
        strip[idx] := Black;
        idx := idx + 1;
      }
    }
  }

  /** How far a gradient of `m` colours gets on a strip of `n` pixels: the
      first non-blacklisted index at or past `n`, or `m` when there is none. */
  function Written(m: nat, n: nat, blacklist: seq<int>): (w: nat)
    ensures w <= m
    ensures forall i :: 0 <= i < w && i !in blacklist ==> i < n
    ensures w < m ==> w >= n && w !in blacklist
  {
    WrittenFrom(0, m, n, blacklist)
  }

  function WrittenFrom(k: nat, m: nat, n: nat, blacklist: seq<int>): (w: nat)
    requires k <= m
    requires forall i :: 0 <= i < k && i !in blacklist ==> i < n
    ensures k <= w <= m
    ensures forall i :: 0 <= i < w && i !in blacklist ==> i < n
    ensures w < m ==> w >= n && w !in blacklist
    decreases m - k
  {
    if k == m then m
    else if k !in blacklist && k >= n then k
    else WrittenFrom(k + 1, m, n, blacklist)
  }

  lemma WrittenContinues(m: nat, n: nat, blacklist: seq<int>, idx: nat)
    requires idx < m && idx <= Written(m, n, blacklist)
    requires idx in blacklist || idx < n
    ensures idx + 1 <= Written(m, n, blacklist)
  {
    var w := Written(m, n, blacklist);
    if w == idx {
      assert w < m;
    }
  }

  lemma WrittenStops(m: nat, n: nat, blacklist: seq<int>, idx: nat)
    requires idx < m && idx <= Written(m, n, blacklist)
    requires idx !in blacklist && idx >= n
    ensures Written(m, n, blacklist) == idx
  {
  }
}

/** `breadboard/lcd.py`: an HD44780U character display driven over a 4-bit
    data bus.

    The data pins are an array of output levels, in data-line order (DB4 to
    DB7). An enable pulse latches the register-select level and the data pins
    into the display; the model records each latched `Frame`. A bit passed to
    `_set_data` is an integer such as `v & 0x40`; a pin is driven high iff it
    is non-zero, so bits are `bool` here. Pulse timing is not modelled. */
module Lcd {
  import opened Wrappers
  import opened Numeric

  /** What one enable pulse latches: the register-select level and the data pins. */
  datatype Frame = Frame(rs: bool, pins: seq<bool>)

  /** The display's observable state: the cursor, the pin levels and every
      frame latched so far. */
  datatype Panel = Panel(x: int, y: int, rs: bool, pins: seq<bool>, frames: seq<Frame>)

  /** `_set_data` with the bits of the "set address" command for `address`:
      a leading 1, then bits 6..0. */
  function AddressBits(address: int): seq<bool>
  {
    [true] + MsbBits(address, 7)
  }

  /** The bits of a character: bits 7..0 of its code. */
  function CharBits(c: char): seq<bool>
  {
    MsbBits(c as int, 8)
  }

  /** The "clear display" command. */
  const ClearCommand: int := 0x01

  /** The bits `clear` sends: 0, 0, 0, 0, 0, 0, 0, 1. */
  const ClearBits: seq<bool> := MsbBits(ClearCommand, 8)

  /** Data line `-i` (1-based from the end) takes the `i`-th bit of the nibble;
      the other lines keep their level. */
  function Drive(pins: seq<bool>, nibble: seq<bool>): (r: seq<bool>)
    requires |nibble| <= |pins|
    ensures |r| == |pins|
    ensures forall j :: 0 <= j < |nibble| ==> r[|pins| - 1 - j] == nibble[j]
    ensures forall k :: 0 <= k < |pins| - |nibble| ==> r[k] == pins[k]
  {
    seq(|pins|, k requires 0 <= k < |pins| => if |pins| - 1 - k < |nibble| then nibble[|pins| - 1 - k] else pins[k])
  }

  function Min(a: int, b: int): int { if a < b then a else b }

  /** `(bits[:4], bits[4:8])`. */
  function Nibbles(bits: seq<bool>): (r: (seq<bool>, seq<bool>))
    ensures |r.0| <= 4 && |r.1| <= 4
  {
    (bits[..Min(4, |bits|)], bits[Min(4, |bits|)..Min(8, |bits|)])
  }

  /** One nibble of a transfer: an empty one is skipped; otherwise drive the
      data lines, set the register select and pulse enable. */
  function SendNibble(p: Panel, nibble: seq<bool>, rs: bool): Panel
    requires |nibble| <= |p.pins|
  {
    if nibble == [] then p
    else
      var pins := Drive(p.pins, nibble);
      p.(pins := pins, rs := rs, frames := p.frames + [Frame(rs, pins)])
  }

  /** `_set_data_4_bit_mode(*bits, rs=rs)`. */
  function SetData(p: Panel, bits: seq<bool>, rs: bool): (r: Panel)
    requires |p.pins| == 4
    ensures |r.pins| == 4 && r.x == p.x && r.y == p.y
  {
    var n := Nibbles(bits);
    SendNibble(SendNibble(p, n.0, rs), n.1, rs)
  }

  /** DB7 down to DB4 of the data pins, as a bit string. */
  function Bus(pins: seq<bool>): seq<bool>
    requires |pins| == 4
  {
    [pins[3], pins[2], pins[1], pins[0]]
  }

  /** An 8-bit transfer latches two frames with the same register select: the
      high nibble, then the low nibble, each read DB7 first. Together they
      spell the byte that was sent. */
  lemma EightBitTransfer(p: Panel, bits: seq<bool>, rs: bool)
    requires |p.pins| == 4 && |bits| == 8
    ensures var r := SetData(p, bits, rs);
            |r.frames| == |p.frames| + 2 && r.frames[..|p.frames|] == p.frames &&
            r.frames[|p.frames|].rs == rs && r.frames[|p.frames| + 1].rs == rs &&
            |r.frames[|p.frames|].pins| == 4 && |r.frames[|p.frames| + 1].pins| == 4 &&
            Bus(r.frames[|p.frames|].pins) == bits[..4] && Bus(r.frames[|p.frames| + 1].pins) == bits[4..] &&
            BitsValue(Bus(r.frames[|p.frames|].pins) + Bus(r.frames[|p.frames| + 1].pins)) == BitsValue(bits)
  {
    assert bits[4..8] == bits[4..];
    assert Nibbles(bits) == (bits[..4], bits[4..]);
    var q := SendNibble(p, bits[..4], rs);
    NibbleFrame(p, bits[..4], rs);
    NibbleFrame(q, bits[4..], rs);
    assert bits[..4] + bits[4..] == bits;
  }

  /** A full nibble latches one frame whose bus reads that nibble. */
  lemma NibbleFrame(p: Panel, nibble: seq<bool>, rs: bool)
    requires |p.pins| == 4 && |nibble| == 4
    ensures var r := SendNibble(p, nibble, rs);
            |r.pins| == 4 && r.frames == p.frames + [Frame(rs, r.pins)] && Bus(r.pins) == nibble
  {
    var pins := Drive(p.pins, nibble);
    assert Bus(pins) == nibble;
  }

  /** A 4-bit transfer latches a single frame: its second nibble is empty. */
  lemma FourBitTransfer(p: Panel, bits: seq<bool>, rs: bool)
    requires |p.pins| == 4 && |bits| == 4
    ensures var r := SetData(p, bits, rs);
            r.frames == p.frames + [Frame(rs, r.pins)] && Bus(r.pins) == bits
  {
  }

  /** The bytes on the bus: the "set address" command for an address below 128
      is 0x80 plus the address, and a character is its code modulo 256. */
  lemma CommandBytes(address: int, c: char)
    ensures 0 <= address < 128 ==> BitsValue(AddressBits(address)) == 0x80 + address
    ensures BitsValue(CharBits(c)) == (c as int) % 256
  {
    BitsValueLead(true, MsbBits(address, 7));
    MsbBitsValue(address, 7);
    MsbBitsValue(c as int, 8);
    assert Pow2(7) == 128;
    assert Pow2(8) == 256;
  }

  /** `move_to(x, y, update_cursor)`: with `update_cursor`, coordinates past the
      last column or row raise and nothing is sent or changed; otherwise the
      address command for `x + 64 * y` is sent. The cursor then becomes (x, y). */
  function MoveTo(p: Panel, x: int, y: int, update: bool, columns: int, rows: int): (r: Result<Panel>)
    requires |p.pins| == 4
    ensures r.Err? <==> update && (x > columns - 1 || y > rows - 1)
    ensures r.Ok? ==> r.value.x == x && r.value.y == y && |r.value.pins| == 4
    ensures r.Ok? && !update ==> r.value == p.(x := x, y := y)
    ensures r.Ok? && update ==> r.value == SetData(p, AddressBits(x + 64 * y), false).(x := x, y := y)
  {
    if update && (x > columns - 1 || y > rows - 1) then
      Err(RuntimeError("Coordinates must be within the display"))
    else
      var q := if update then SetData(p, AddressBits(x + 64 * y), false) else p;
      Ok(q.(x := x, y := y))
  }

  /** The cursor after writing one character at (x, y): one column right, or
      the start of the next row past the last column, wrapping to row 0 past
      the last row. The flag says whether a wrap (and so an address command)
      happens. */
  function Advance(x: int, y: int, columns: int, rows: int): (int, int, bool)
  {
    if x + 1 > columns - 1 then (0, if y + 1 > rows - 1 then 0 else y + 1, true)
    else (x + 1, y, false)
  }

  /** Writing from inside the display stays inside it, and the cursor moves
      one cell along in reading order, wrapping at the end. */
  lemma AdvanceStaysInside(x: int, y: int, columns: int, rows: int)
    requires 0 <= x < columns && 0 <= y < rows
    ensures var (nx, ny, _) := Advance(x, y, columns, rows);
            0 <= nx < columns && 0 <= ny < rows &&
            ny * columns + nx == (y * columns + x + 1) % (columns * rows)
  {
    var (nx, ny, wrap) := Advance(x, y, columns, rows);
    var n := columns * rows;
    var i := y * columns + x;
    if !wrap {
      assert i + 1 <= y * columns + columns - 1;
      assert y * columns + columns == (y + 1) * columns;
      MulStrict(columns, y + 1, rows);
      DivModUnique(i + 1, n, 0, i + 1);
    } else if ny == y + 1 {
      assert ny * columns == y * columns + columns;
      MulStrict(columns, y + 2, rows);
      assert (y + 2) * columns == ny * columns + columns;
      DivModUnique(i + 1, n, 0, i + 1);
    } else {
      assert y == rows - 1 && x == columns - 1;
      assert i + 1 == (rows - 1) * columns + columns == n;
      DivModUnique(i + 1, n, 1, 0);
    }
  }

  /** The cursor cell in reading order. */
  function Cell(p: Panel, columns: int): int
  {
    p.y * columns + p.x
  }

  predicate Inside(p: Panel, columns: int, rows: int)
  {
    0 <= p.x < columns && 0 <= p.y < rows
  }

  lemma CellInRange(p: Panel, columns: int, rows: int)
    requires Inside(p, columns, rows)
    ensures 0 <= Cell(p, columns) < columns * rows
  {
    MulStrict(columns, p.y + 1, rows);
  }

  /** `write_char(c)`: send the character with register select high, then
      advance the cursor; the address command is sent only on a wrap. The
      character is already on the display if the move raises. */
  function WriteChar(p: Panel, c: char, columns: int, rows: int): (r: (Panel, Option<Error>))
    requires |p.pins| == 4
    ensures |r.0.pins| == 4
    ensures Inside(p, columns, rows) ==>
              r.1.None? && Inside(r.0, columns, rows) &&
              Cell(r.0, columns) == (Cell(p, columns) + 1) % (columns * rows)
  {
    assert Inside(p, columns, rows) ==> var (nx, ny, _) := Advance(p.x, p.y, columns, rows);
             0 <= nx < columns && 0 <= ny < rows && ny * columns + nx == (Cell(p, columns) + 1) % (columns * rows) by {
      if Inside(p, columns, rows) {
        AdvanceStaysInside(p.x, p.y, columns, rows);
      }
    }
    var q := SetData(p, CharBits(c), true);
    var (nx, ny, wrap) := Advance(q.x, q.y, columns, rows);
    match MoveTo(q, nx, ny, wrap, columns, rows)
    case Ok(moved) => (moved, None)
    case Err(e) => (q, Some(e))
  }

  /** Within the display, a character never raises: it latches its two frames,
      then the address frames only on a wrap. */
  lemma WriteCharInside(p: Panel, c: char, columns: int, rows: int)
    requires |p.pins| == 4 && 0 <= p.x < columns && 0 <= p.y < rows
    ensures var (r, e) := WriteChar(p, c, columns, rows);
            var (nx, ny, wrap) := Advance(p.x, p.y, columns, rows);
            var q := SetData(p, CharBits(c), true);
            e.None? && r.x == nx && r.y == ny &&
            r.frames == if wrap then SetData(q, AddressBits(nx + 64 * ny), false).frames else q.frames
  {
    AdvanceStaysInside(p.x, p.y, columns, rows);
  }

  /** `write(string)`: the characters in order, stopping at the first that
      raises. Starting inside the display, a string of any length is written
      without error and leaves the cursor `|s|` cells further on in reading
      order. */
  function WriteString(p: Panel, s: string, columns: int, rows: int): (r: (Panel, Option<Error>))
    requires |p.pins| == 4
    ensures |r.0.pins| == 4
    ensures Inside(p, columns, rows) ==>
              r.1.None? && Inside(r.0, columns, rows) &&
              Cell(r.0, columns) == (Cell(p, columns) + |s|) % (columns * rows)
    decreases |s|
  {
    assert Inside(p, columns, rows) ==> Cell(p, columns) == (Cell(p, columns) + 0) % (columns * rows) &&
                                        ((Cell(p, columns) + 1) % (columns * rows) + (|s| - 1)) % (columns * rows) ==
                                          (Cell(p, columns) + |s|) % (columns * rows) by {
      if Inside(p, columns, rows) {
        CellInRange(p, columns, rows);
        DivModUnique(Cell(p, columns), columns * rows, 0, Cell(p, columns));
        ModAddOne(Cell(p, columns), |s| - 1, columns * rows);
      }
    }
    if s == [] then (p, None)
    else
      var (q, e) := WriteChar(p, s[0], columns, rows);
      if e.Some? then (q, e) else WriteString(q, s[1..], columns, rows)
  }

  /** `((i + 1) % n + k) % n == (i + 1 + k) % n`. */
  lemma ModAddOne(i: int, k: int, n: int)
    requires n > 0
    ensures ((i + 1) % n + k) % n == (i + 1 + k) % n
  {
    var q := (i + 1) / n;
    var m := (i + 1) % n;
    var q2 := (m + k) / n;
    var m2 := (m + k) % n;
    assert i + 1 + k == n * (q + q2) + m2 by {
      assert i + 1 == n * q + m;
      assert m + k == n * q2 + m2;
      assert n * q + n * q2 == n * (q + q2);
    }
    DivModUnique(i + 1 + k, n, q + q2, m2);
  }

  /** `clear()`: send the "clear display" command and put the cursor at (0, 0)
      without an address command. */
  function Clear(p: Panel): (r: Panel)
    requires |p.pins| == 4
    ensures r.x == 0 && r.y == 0 && |r.pins| == 4
  {
    SetData(p, ClearBits, false).(x := 0, y := 0)
  }

  /** `clear` latches exactly the two frames of 0x01 and homes the cursor. */
  lemma ClearSendsOneCommand(p: Panel)
    requires |p.pins| == 4
    ensures |Clear(p).frames| == |p.frames| + 2
    ensures BitsValue(Bus(Clear(p).frames[|p.frames|].pins) + Bus(Clear(p).frames[|p.frames| + 1].pins)) == 0x01
    ensures !Clear(p).frames[|p.frames|].rs && !Clear(p).frames[|p.frames| + 1].rs
  {
    EightBitTransfer(p, ClearBits, false);
    MsbBitsValue(ClearCommand, 8);
    assert Pow2(8) == 256;
  }

  /** `HD44780U_LCD`. */
  class Display {
    const columns: int
    const rows: int
    /** `_data_pins`: the levels of DB4 to DB7. */
    const dataPins: array<bool>
    /** `_rs`: the register-select level. */
    var rs: bool
    var x: int
    var y: int
    /** Every frame latched by an enable pulse, in order. */
    var frames: seq<Frame>

    /** The display as a value. */
    function Snapshot(): Panel
      reads this, dataPins
    {
      Panel(x, y, rs, dataPins[..], frames)
    }

    /** Pins start low and the cursor at (0, 0). */
    constructor (columns: int, rows: int)
      ensures this.columns == columns && this.rows == rows
      ensures Snapshot() == Panel(0, 0, false, [false, false, false, false], [])
      ensures fresh(dataPins)
    {
      this.columns := columns;
      this.rows := rows;
      dataPins := new bool[4](_ => false);
      rs := false;
      x, y := 0, 0;
      frames := [];
      new;
      assert dataPins[..] == [false, false, false, false];
    }

    /** The inner loop of a nibble: pin `-idx` takes bit `idx - 1`. */
    method DriveNibble(nibble: seq<bool>)
      requires |nibble| <= dataPins.Length
      modifies dataPins
      ensures dataPins[..] == Drive(old(dataPins[..]), nibble)
    {
      var idx := 1;
      while idx <= |nibble|
        invariant 1 <= idx <= |nibble| + 1
        invariant forall j :: 0 <= j < idx - 1 ==> dataPins[dataPins.Length - 1 - j] == nibble[j]
        invariant forall k :: 0 <= k < dataPins.Length - (idx - 1) ==> dataPins[k] == old(dataPins[k])
      {
        dataPins[dataPins.Length - idx] := nibble[idx - 1];
        idx := idx + 1;
      }
    }

    /** `_set_data_4_bit_mode(*bits, rs=level)`. */
    method SendData(bits: seq<bool>, level: bool)
      requires dataPins.Length == 4
      modifies this, dataPins
      ensures Snapshot() == SetData(old(Snapshot()), bits, level)
    {
      var nibbles := Nibbles(bits);
      ghost var p0 := Snapshot();
      if nibbles.0 != [] {
        DriveNibble(nibbles.0);
        rs := level;
        frames := frames + [Frame(rs, dataPins[..])];
      }
      ghost var p1 := Snapshot();
      assert p1 == SendNibble(p0, nibbles.0, level);
      if nibbles.1 != [] {
        DriveNibble(nibbles.1);
        rs := level;
        frames := frames + [Frame(rs, dataPins[..])];
      }
      assert Snapshot() == SendNibble(p1, nibbles.1, level);
    }

    /** `move_to(x, y, update_cursor)`. */
    method MoveCursor(nx: int, ny: int, update: bool) returns (r: Result<()>)
      requires dataPins.Length == 4
      modifies this, dataPins
      ensures var m := MoveTo(old(Snapshot()), nx, ny, update, columns, rows);
              (r.Ok? <==> m.Ok?) && (m.Ok? ==> Snapshot() == m.value) &&
              (m.Err? ==> r.error == m.error && Snapshot() == old(Snapshot()))
    {
      if update {
        if nx > columns - 1 || ny > rows - 1 {
          return Err(RuntimeError("Coordinates must be within the display"));
        }
        SendData(AddressBits(nx + 64 * ny), false);
      }
      x, y := nx, ny;
      return Ok(());
    }

    /** `write_char(c)`. */
    method PutChar(c: char) returns (r: Result<()>)
      requires dataPins.Length == 4
      modifies this, dataPins
      ensures var w := WriteChar(old(Snapshot()), c, columns, rows);
              Snapshot() == w.0 && (r.Err? <==> w.1.Some?) && (r.Err? ==> r.error == w.1.value)
    {
      SendData(CharBits(c), true);
      var (nx, ny, newline) := Advance(x, y, columns, rows);
      r := MoveCursor(nx, ny, newline);
    }

    /** `write(string)`: returns `{}`. */
    method Write(s: string) returns (r: Result<map<string, string>>)
      requires dataPins.Length == 4
      modifies this, dataPins
      ensures var w := WriteString(old(Snapshot()), s, columns, rows);
              Snapshot() == w.0 && (r.Err? <==> w.1.Some?) &&
              (r.Err? ==> r.error == w.1.value) && (r.Ok? ==> r.value == map[])
    {
      var i := 0;
      while i < |s|
        invariant 0 <= i <= |s|
        invariant WriteString(old(Snapshot()), s, columns, rows) == WriteString(Snapshot(), s[i..], columns, rows)
      {
        var written := PutChar(s[i]);
        if written.Err? {
          return Err(written.error);
        }
        assert s[i..][1..] == s[i + 1..];
        i := i + 1;
      }
      return Ok(map[]);
    }

    /** `clear()`: returns `{}`. */
    method ClearDisplay() returns (r: map<string, string>)
      requires dataPins.Length == 4
      modifies this, dataPins
      ensures Snapshot() == Clear(old(Snapshot())) && r == map[]
    {
      SendData(ClearBits, false);
      var moved := MoveCursor(0, 0, false);
      r := map[];
    }
  }

  /** `HD44780U_LCD(...)`: only four data pins (4-bit mode) are supported. */
  method NewDisplay(dataPinCount: nat, columns: int, rows: int) returns (r: Result<Display>)
    ensures r.Err? <==> dataPinCount != 4
    ensures r.Err? ==> r.error.RuntimeError?
    ensures r.Ok? ==> fresh(r.value) && r.value.dataPins.Length == 4 &&
                      r.value.columns == columns && r.value.rows == rows &&
                      r.value.Snapshot() == Panel(0, 0, false, [false, false, false, false], [])
  {
    if dataPinCount != 4 {
      return Err(RuntimeError("Only 4-bit mode is supported."));
    }
    var d := new Display(columns, rows);
    return Ok(d);
  }
}

/** `breadboard/logging.py`: the firmware's logger. A record passing the
    level filter is written as one JSON line to the serial console and as one
    HTML-wrapped line to the in-memory log buffer the API serves.

    The console and the buffer are fields that writes append to; the clock
    reading (`time.localtime(time.time())`) is a parameter. `message % params`
    is taken as done by the caller: `message` is the formatted text. */
module Logging {
  import opened Wrappers
  import opened Numeric

  /** `LOGGING_LEVELS`. */
  const LoggingLevels: map<string, int> := map["DEBUG" := 0, "INFO" := 1, "WARN" := 2, "ERROR" := 3]

  /** `REV_LOGGING_LEVELS`, written out. */
  const RevLoggingLevels: map<int, string> := map[0 := "DEBUG", 1 := "INFO", 2 := "WARN", 3 := "ERROR"]

  /** The reversed table is `LOGGING_LEVELS` with every pair swapped: the two
      tables are inverse to each other, and the levels are 0 to 3. */
  lemma RevIsInverse()
    ensures RevLoggingLevels.Keys == {0, 1, 2, 3}
    ensures forall k :: k in LoggingLevels ==> LoggingLevels[k] in RevLoggingLevels && RevLoggingLevels[LoggingLevels[k]] == k
    ensures forall v :: v in RevLoggingLevels ==> RevLoggingLevels[v] in LoggingLevels && LoggingLevels[RevLoggingLevels[v]] == v
  {
    assert LoggingLevels.Keys == {"DEBUG", "INFO", "WARN", "ERROR"};
  }

  /** `debug`, `info`, `warn` and `error` log at levels 0 to 3, and their
      records name the level in lower case. */
  lemma BoundLevels()
    ensures LoggingLevels["DEBUG"] == 0 && LoggingLevels["INFO"] == 1
    ensures LoggingLevels["WARN"] == 2 && LoggingLevels["ERROR"] == 3
    ensures Lower(RevLoggingLevels[0]) == "debug" && Lower(RevLoggingLevels[1]) == "info"
    ensures Lower(RevLoggingLevels[2]) == "warn" && Lower(RevLoggingLevels[3]) == "error"
  {
    RevIsInverse();
  }

  /** One field of `format_time_tuple`: values below 10 get a leading "0". */
  function Pad(v: int): string
  {
    if v > 2000 then IntToString(v) else if v >= 10 then IntToString(v) else "0" + IntToString(v)
  }

  /** `format_time_tuple(t)`: "Y-M-D h:m:s" from the first six fields; a
      shorter tuple cannot be unpacked. */
  function FormatTimeTuple(t: seq<int>): Result<string>
  {
    if |t| < 6 then Err(ValueError("need more than " + NatToString(|t|) + " values to unpack"))
    else Ok(Stamp(Pad(t[0]), Pad(t[1]), Pad(t[2]), Pad(t[3]), Pad(t[4]), Pad(t[5])))
  }

  /** "Y-M-D h:m:s": the date, a space, the time of day. */
  function Stamp(y: string, mo: string, d: string, h: string, mi: string, s: string): string
  {
    Joined(y, '-', mo, '-', d) + " " + Joined(h, ':', mi, ':', s)
  }

  /** Three fields with a separator between each two. */
  function Joined(a: string, c1: char, b: string, c2: char, c: string): string
  {
    a + [c1] + b + [c2] + c
  }

  /** Where the fields and separators of `Joined` sit. */
  lemma JoinedSlices(a: string, c1: char, b: string, c2: char, c: string)
    ensures var r := Joined(a, c1, b, c2, c);
            var i, j := |a|, |a| + 1 + |b|;
            |r| == j + 1 + |c| && r[i] == c1 && r[j] == c2 &&
            r[..i] == a && r[i + 1..j] == b && r[j + 1..] == c
  {
  }

  /** Where the fields of a stamp with a four-character year and two-character
      other fields sit. */
  lemma StampSlices(y: string, mo: string, d: string, h: string, mi: string, s: string)
    requires |y| == 4 && |mo| == 2 && |d| == 2 && |h| == 2 && |mi| == 2 && |s| == 2
    ensures var r := Stamp(y, mo, d, h, mi, s);
            |r| == 19 && r[4] == '-' && r[7] == '-' && r[10] == ' ' && r[13] == ':' && r[16] == ':' &&
            r[0..4] == y && r[5..7] == mo && r[8..10] == d && r[11..13] == h && r[14..16] == mi && r[17..19] == s
  {
    var date, clock := Joined(y, '-', mo, '-', d), Joined(h, ':', mi, ':', s);
    var r := Stamp(y, mo, d, h, mi, s);
    JoinedSlices(y, '-', mo, '-', d);
    JoinedSlices(h, ':', mi, ':', s);
    assert r[..10] == date && r[11..] == clock;
    assert r[0..4] == date[..4] && r[5..7] == date[5..7] && r[8..10] == date[8..];
    assert r[11..13] == clock[..2] && r[14..16] == clock[3..5] && r[17..19] == clock[6..];
  }

  /** A field from 0 to 99 is two digits that read back as the field. */
  lemma PadTwoDigits(v: int)
    requires 0 <= v < 100
    ensures |Pad(v)| == 2 && AllDigits(Pad(v)) && DigitsValue(Pad(v)) == v
  {
    var p := Pad(v);
    if v < 10 {
      assert p == "0" + [DigitChar(v)];
      assert p[..1] == "0" && "0"[..0] == [];
    } else {
      DigitsValueOfNatToString(v);
      assert NatToString(v) == NatToString(v / 10) + [DigitChar(v % 10)];
    }
  }

  /** A four-digit year is four digits that read back as the year. */
  lemma PadYear(y: int)
    requires 1000 <= y < 10000
    ensures |Pad(y)| == 4 && AllDigits(Pad(y)) && DigitsValue(Pad(y)) == y
  {
    DigitsValueOfNatToString(y);
    assert NatToString(y) == NatToString(y / 10) + [DigitChar(y % 10)];
    assert NatToString(y / 10) == NatToString(y / 100) + [DigitChar(y / 10 % 10)];
    assert NatToString(y / 100) == NatToString(y / 1000) + [DigitChar(y / 100 % 10)];
  }

  /** A time with a four-digit year and two-digit other fields renders as
      19 characters, "YYYY-MM-DD hh:mm:ss", whose digit groups read back as
      the fields. */
  lemma TimeLayout(t: seq<int>)
    requires |t| >= 6 && 1000 <= t[0] < 10000
    requires forall i :: 1 <= i < 6 ==> 0 <= t[i] < 100
    ensures FormatTimeTuple(t).Ok?
    ensures var r := FormatTimeTuple(t).value;
            |r| == 19 && r[4] == '-' && r[7] == '-' && r[10] == ' ' && r[13] == ':' && r[16] == ':' &&
            AllDigits(r[0..4]) && DigitsValue(r[0..4]) == t[0] &&
            AllDigits(r[5..7]) && DigitsValue(r[5..7]) == t[1] &&
            AllDigits(r[8..10]) && DigitsValue(r[8..10]) == t[2] &&
            AllDigits(r[11..13]) && DigitsValue(r[11..13]) == t[3] &&
            AllDigits(r[14..16]) && DigitsValue(r[14..16]) == t[4] &&
            AllDigits(r[17..19]) && DigitsValue(r[17..19]) == t[5]
  {
    var y, mo, d, h, mi, s := Pad(t[0]), Pad(t[1]), Pad(t[2]), Pad(t[3]), Pad(t[4]), Pad(t[5]);
    PadYear(t[0]);
    PadTwoDigits(t[1]);
    PadTwoDigits(t[2]);
    PadTwoDigits(t[3]);
    PadTwoDigits(t[4]);
    PadTwoDigits(t[5]);
    assert FormatTimeTuple(t) == Ok(Stamp(y, mo, d, h, mi, s));
    StampSlices(y, mo, d, h, mi, s);
  }

  /** `str(v).replace('"', '\\"')`. Every quote of the result is escaped. */
  function Escape(s: string): (r: string)
    ensures forall i :: 0 <= i < |r| && r[i] == '"' ==> 0 < i && r[i - 1] == '\\'
    ensures r != [] ==> r[0] != '"'
  {
    if s == [] then []
    else (if s[0] == '"' then ['\\', '"'] else [s[0]]) + Escape(s[1..])
  }

  /** Reading an escaped value back: `\"` is a quote, every other character
      stands for itself. */
  function Unescape(s: string): string
  {
    if |s| >= 2 && s[0] == '\\' && s[1] == '"' then ['"'] + Unescape(s[2..])
    else if s == [] then []
    else [s[0]] + Unescape(s[1..])
  }

  /** Escaping loses nothing: the value reads back exactly. */
  lemma {:induction false} UnescapeEscape(s: string)
    ensures Unescape(Escape(s)) == s
    decreases |s|
  {
    if s != [] {
      var rest := Escape(s[1..]);
      UnescapeEscape(s[1..]);
      if s[0] == '"' {
        assert Escape(s) == ['\\', '"'] + rest;
        assert (['\\', '"'] + rest)[2..] == rest;
      } else {
        assert Escape(s) == [s[0]] + rest;
        assert ([s[0]] + rest)[1..] == rest;
        assert s == [s[0]] + s[1..];
      }
    }
  }

  /** One custom entry: `, "k": "v"` with the value escaped. */
  function Entry(key: string, value: string): string
  {
    ", \"" + key + "\": \"" + Escape(value) + "\""
  }

  /** The custom entries of a record, in keyword order. */
  function CustomEntries(kwargs: seq<(string, string)>): string
  {
    if kwargs == [] then "" else Entry(kwargs[0].0, kwargs[0].1) + CustomEntries(kwargs[1..])
  }

  /** Entries render independently, in the order given. */
  lemma {:induction false} CustomEntriesAppend(a: seq<(string, string)>, b: seq<(string, string)>)
    ensures CustomEntries(a + b) == CustomEntries(a) + CustomEntries(b)
    decreases |a|
  {
    if a == [] {
      assert a + b == b;
    } else {
      assert (a + b)[0] == a[0] && (a + b)[1..] == a[1..] + b;
      CustomEntriesAppend(a[1..], b);
    }
  }

  /** `message.replace("\n", " ")`. */
  function OneLine(message: string): (r: string)
    ensures |r| == |message| && '\n' !in r
    ensures forall i :: 0 <= i < |r| && message[i] != '\n' ==> r[i] == message[i]
  {
    seq(|message|, i requires 0 <= i < |message| => if message[i] == '\n' then ' ' else message[i])
  }

  /** `LOG_MSG_TEMPLATE`. */
  function LogLine(time: string, level: string, custom: string, message: string): string
  {
    "{\"timestamp\": \"" + time + "\", \"level\": \"" + level + "\"" + custom + ", \"message\": \"" + message + "\"}"
  }

  const HtmlPrefix: string := "<div class=\"row\"><div class=\"col\"><div class=\"alert alert-primary text-wrap\" role=\"alert\"><pre><code>"
  const HtmlSuffix: string := "</code></pre></div></div></div>"

  /** `HTML_LOG_MSG_TEMPLATE`: the same line wrapped in an alert box. */
  function HtmlLine(line: string): string
  {
    HtmlPrefix + line + HtmlSuffix
  }

  /** The line a passing record renders to: the clock must unpack and the
      requested level must have a name. */
  function Render(message: string, requested: int, kwargs: seq<(string, string)>, now: seq<int>): (r: Result<string>)
    ensures r.Ok? <==> |now| >= 6 && requested in RevLoggingLevels
    ensures r.Ok? ==> r.value == LogLine(FormatTimeTuple(now).value, Lower(RevLoggingLevels[requested]),
                                         CustomEntries(kwargs), OneLine(message))
  {
    var time :- FormatTimeTuple(now);
    if requested !in RevLoggingLevels then Err(KeyError(IntToString(requested)))
    else Ok(LogLine(time, Lower(RevLoggingLevels[requested]), CustomEntries(kwargs), OneLine(message)))
  }

  /** `_level` as the setter leaves it: it stores the name it was given. */
  datatype StoredLevel = Number(n: int) | Name(s: string)

  /** `requested_level >= self._level`: an int cannot be compared with a str. */
  function Passes(requested: int, level: StoredLevel): Result<bool>
  {
    match level
    case Number(n) => Ok(requested >= n)
    case Name(_) => Err(TypeError("'>=' not supported between instances of 'int' and 'str'"))
  }

  /** The level setter as written: it checks the name and stores the name. */
  function SetLevelAsWritten(value: string): Result<StoredLevel>
  {
    if value !in LoggingLevels then Err(Exception("Unknown logging level: " + value)) else Ok(Name(value))
  }

  /** After `logger.level = "INFO"` every log call raises `TypeError`. */
  lemma LevelSetterAsWritten(requested: int)
    ensures SetLevelAsWritten("INFO") == Ok(Name("INFO"))
    ensures Passes(requested, SetLevelAsWritten("INFO").value).Err?
    ensures Passes(requested, Number(LoggingLevels["INFO"])) == Ok(requested >= 1)
  {
  }

  /** What a passing record with rendered `line` appends: a console line
      when `serial_log` is on, an HTML line when `file_log` is on. */
  function Writes(serialLog: bool, fileLog: bool, line: string): (w: (seq<string>, string))
    ensures |w.0| == (if serialLog then 1 else 0) && (serialLog ==> w.0[0] == line + "\n")
    ensures w.1 == (if fileLog then HtmlLine(line) + "\n" else "")
  {
    (if serialLog then [line + "\n"] else [], if fileLog then HtmlLine(line) + "\n" else "")
  }

  /** What `_print_log` appends to the console and to the buffer, or what it
      raises: a record below the threshold, or one with no destination on,
      writes nothing and cannot fail; any other is rendered before the first
      write. */
  function Outcome(serialLog: bool, fileLog: bool, level: int, message: string, requested: int,
                   kwargs: seq<(string, string)>, now: seq<int>): (r: Result<(seq<string>, string)>)
    ensures requested < level || (!serialLog && !fileLog) ==> r == Ok(([], ""))
    ensures requested >= level && (serialLog || fileLog) ==>
              (r.Err? <==> |now| < 6 || requested !in RevLoggingLevels)
  {
    if requested < level || (!serialLog && !fileLog) then Ok(([], ""))
    else
      var line :- Render(message, requested, kwargs, now);
      Ok(Writes(serialLog, fileLog, line))
  }

  /** `_print_log` as written: the list of destinations is built before the
      loop, and it reads `log_buffer`, which only exists with `file_log`. */
  function OutcomeAsWritten(serialLog: bool, fileLog: bool, level: int, message: string, requested: int,
                            kwargs: seq<(string, string)>, now: seq<int>): Result<(seq<string>, string)>
  {
    if requested < level then Ok(([], ""))
    else if !fileLog then Err(AttributeError("log_buffer"))
    else Outcome(serialLog, fileLog, level, message, requested, kwargs, now)
  }

  /** With `file_log` off, every record that passes the filter raises
      `AttributeError` and nothing reaches the console; the intended logger
      prints the record. */
  lemma FileLogOffAsWritten(level: int, message: string, requested: int, kwargs: seq<(string, string)>, now: seq<int>)
    requires requested >= level && |now| >= 6 && requested in RevLoggingLevels
    ensures OutcomeAsWritten(true, false, level, message, requested, kwargs, now) == Err(AttributeError("log_buffer"))
    ensures var r := Outcome(true, false, level, message, requested, kwargs, now);
            r.Ok? && r.value.0 == [Render(message, requested, kwargs, now).value + "\n"] && r.value.1 == ""
  {
  }

  /** `Logger`. */
  class Logger {
    const serialLog: bool
    const fileLog: bool
    /** `_level`, always a number. */
    var level: int
    /** The lines written to `sys.stdout`. */
    var console: seq<string>
    /** `log_buffer`'s contents; it stays empty without `file_log`. */
    var buffer: string

    constructor (serialLog: bool, fileLog: bool, level: int)
      ensures this.serialLog == serialLog && this.fileLog == fileLog && this.level == level
      ensures console == [] && buffer == ""
    {
      this.serialLog := serialLog;
      this.fileLog := fileLog;
      this.level := level;
      console := [];
      buffer := "";
    }

    /** `logger.level = value`: an unknown name raises; a known one sets the
        threshold to that name's number. */
    method SetLevel(value: string) returns (r: Result<()>)
      modifies this
      ensures value !in LoggingLevels ==> r == Err(Exception("Unknown logging level: " + value)) && level == old(level)
      ensures value in LoggingLevels ==> r == Ok(()) && level == LoggingLevels[value]
      ensures console == old(console) && buffer == old(buffer)
    {
      if value !in LoggingLevels {
        return Err(Exception("Unknown logging level: " + value));
      }
      level := LoggingLevels[value];
      r := Ok(());
    }

    /** `_print_log`: appends what `Outcome` says, or raises its error with
        nothing written. */
    method PrintLog(message: string, requested: int, kwargs: seq<(string, string)>, now: seq<int>) returns (r: Result<()>)
      modifies this
      ensures level == old(level)
      ensures var o := Outcome(serialLog, fileLog, level, message, requested, kwargs, now);
              (o.Err? ==> r == Err(o.error) && console == old(console) && buffer == old(buffer)) &&
              (o.Ok? ==> r == Ok(()) && console == old(console) + o.value.0 && buffer == old(buffer) + o.value.1)
    {
      if requested < level || (!serialLog && !fileLog) {
        return Ok(());
      }
      var line := Render(message, requested, kwargs, now);
      if line.Err? {
        return Err(line.error);
      }
      if serialLog {
        console := console + [line.value + "\n"];
      }
      if fileLog {
        buffer := buffer + (HtmlLine(line.value) + "\n");
      }
      r := Ok(());
    }
  }

  /** `Logger(serial_log, file_log, level)`: an unknown level name raises
      `KeyError`; DEBUG is the default. */
  method NewLogger(serialLog: bool, fileLog: bool, level: string) returns (r: Result<Logger>)
    ensures level !in LoggingLevels <==> r.Err?
    ensures r.Err? ==> r.error == KeyError(level)
    ensures r.Ok? ==> r.value.level == LoggingLevels[level] && r.value.console == [] && r.value.buffer == ""
    ensures r.Ok? ==> r.value.serialLog == serialLog && r.value.fileLog == fileLog
  {
    if level !in LoggingLevels {
      return Err(KeyError(level));
    }
    var logger := new Logger(serialLog, fileLog, LoggingLevels[level]);
    r := Ok(logger);
  }
}

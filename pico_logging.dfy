/** `pico_enclosure/logging.py`: the enclosure's logger. A record passing the
    level filter is printed as "[level - time] message" and appended to the
    in-memory log buffer.

    The clock reading is a parameter, already rendered as text. */
module PicoLogging {
  import opened Wrappers
  import opened Numeric
  import Logging

  /** What `_print_log` is handed: a format string with the `str` texts of
      its parameters, or an exception object (from `exception`). */
  datatype Message = Text(template: string, params: seq<string>) | Raised(description: string)

  /** `template % params` for parameters that are strings (Python's str
      formatting, which the breadboard logger applies too): `%%` gives "%",
      `%s` takes the next parameter, and the parameters must be used up.
      A '%' at the end raises `ValueError`, as does any other character after
      a '%' (flags, widths and the other conversions are not modelled). */
  function Interpolate(template: string, params: seq<string>): (r: Result<string>)
    ensures r.Err? ==> r.error.ValueError? || r.error.TypeError?
    decreases |template|
  {
    if template == [] then
      if params == [] then Ok("") else Err(TypeError("not all arguments converted during string formatting"))
    else if template[0] != '%' then
      var rest := Interpolate(template[1..], params);
      if rest.Err? then rest else Ok([template[0]] + rest.value)
    else if |template| == 1 then Err(ValueError("incomplete format"))
    else if template[1] == '%' then
      var rest := Interpolate(template[2..], params);
      if rest.Err? then rest else Ok("%" + rest.value)
    else if template[1] != 's' then Err(ValueError("unsupported format character '" + [template[1]] + "'"))
    else if params == [] then Err(TypeError("not enough arguments for format string"))
    else
      var rest := Interpolate(template[2..], params[1..]);
      if rest.Err? then rest else Ok(params[0] + rest.value)
  }

  /** A first character other than '%' is copied. */
  lemma PlainStep(whole: string, params: seq<string>)
    requires whole != [] && whole[0] != '%'
    ensures var after := Interpolate(whole[1..], params);
            Interpolate(whole, params) == if after.Err? then after else Ok([whole[0]] + after.value)
  {
  }

  /** Text without a '%' in front of the rest passes through unchanged. */
  lemma {:induction false} PlainPrefix(plain: string, rest: string, params: seq<string>)
    requires '%' !in plain
    ensures Interpolate(plain + rest, params) ==
            (if Interpolate(rest, params).Ok? then Ok(plain + Interpolate(rest, params).value) else Interpolate(rest, params))
    decreases |plain|
  {
    var tail := Interpolate(rest, params);
    if plain == [] {
      assert plain + rest == rest;
      if tail.Ok? {
        assert plain + tail.value == tail.value;
      }
    } else {
      var whole := plain + rest;
      assert whole[0] == plain[0] && plain[0] != '%';
      assert whole[1..] == plain[1..] + rest;
      PlainPrefix(plain[1..], rest, params);
      PlainStep(whole, params);
      if tail.Ok? {
        assert [plain[0]] + (plain[1..] + tail.value) == plain + tail.value;
      }
    }
  }

  /** Text without a '%' formats to itself with no parameters, and raises
      `TypeError` with any. */
  lemma PlainText(t: string, params: seq<string>)
    requires '%' !in t
    ensures Interpolate(t, params) ==
            if params == [] then Ok(t) else Err(TypeError("not all arguments converted during string formatting"))
  {
    PlainPrefix(t, "", params);
    assert t + "" == t;
  }

  /** A template of plain pieces joined by "%s". */
  function Template(pieces: seq<string>): string
    requires |pieces| >= 1
  {
    if |pieces| == 1 then pieces[0] else pieces[0] + "%s" + Template(pieces[1..])
  }

  /** The pieces with the parameters in between, in order. */
  function Filled(pieces: seq<string>, params: seq<string>): string
    requires |pieces| == |params| + 1
  {
    if params == [] then pieces[0] else pieces[0] + params[0] + Filled(pieces[1..], params[1..])
  }

  /** Each "%s" takes the next parameter: a template of n + 1 plain pieces
      formats with exactly n parameters, placed in order, and raises
      `TypeError` with any other number. */
  lemma {:induction false} ParamsInOrder(pieces: seq<string>, params: seq<string>)
    requires |pieces| >= 1 && forall i :: 0 <= i < |pieces| ==> '%' !in pieces[i]
    ensures |params| == |pieces| - 1 ==> Interpolate(Template(pieces), params) == Ok(Filled(pieces, params))
    ensures |params| != |pieces| - 1 ==>
              Interpolate(Template(pieces), params).Err? && Interpolate(Template(pieces), params).error.TypeError?
    decreases |pieces|
  {
    if |pieces| == 1 {
      PlainText(pieces[0], params);
    } else {
      var tail := Template(pieces[1..]);
      assert Template(pieces) == pieces[0] + ("%s" + tail);
      PlainPrefix(pieces[0], "%s" + tail, params);
      var spec := "%s" + tail;
      assert spec[0] == '%' && spec[1] == 's' && spec[2..] == tail;
      if params != [] {
        ParamsInOrder(pieces[1..], params[1..]);
        if |params| == |pieces| - 1 {
          var inner := Filled(pieces[1..], params[1..]);
          assert Interpolate(spec, params) == Ok(params[0] + inner);
          assert pieces[0] + (params[0] + inner) == pieces[0] + params[0] + inner;
        }
      }
    }
  }

  /** Doubling every '%' makes text that formats back to itself. */
  function EscapePercent(t: string): (r: string)
  {
    if t == [] then [] else (if t[0] == '%' then "%%" else [t[0]]) + EscapePercent(t[1..])
  }

  /** `EscapePercent` is undone by formatting without parameters. */
  lemma {:induction false} EscapeRoundTrip(t: string)
    ensures Interpolate(EscapePercent(t), []) == Ok(t)
    decreases |t|
  {
    if t != [] {
      EscapeRoundTrip(t[1..]);
      var e := EscapePercent(t);
      if t[0] == '%' {
        assert e[2..] == EscapePercent(t[1..]);
      } else {
        assert e[1..] == EscapePercent(t[1..]);
      }
      assert [t[0]] + t[1..] == t;
    }
  }

  /** A message ending in a lone '%' raises `ValueError`; "%%" prints one '%'. */
  lemma PercentSigns()
    ensures Interpolate("100%", []) == Err(ValueError("incomplete format"))
    ensures Interpolate("a%%b", []) == Ok("a%b")
  {
    assert "100%"[1..] == "00%" && "00%"[1..] == "0%" && "0%"[1..] == "%";
    PlainText("b", []);
    assert "%%b"[0] == '%' && "%%b"[1] == '%' && "%%b"[2..] == "b";
    assert "%" + "b" == "%b";
    assert Interpolate("%%b", []) == Ok("%b");
    assert "a%%b"[0] == 'a' && "a%%b"[1..] == "%%b";
    assert ['a'] + "%b" == "a%b";
  }

  /** `message % params`: an exception object has no `%`. */
  function Format(m: Message): (r: Result<string>)
    ensures m.Raised? ==> r.Err? && r.error.TypeError?
    ensures m.Text? ==> r == Interpolate(m.template, m.params)
  {
    match m
    case Text(t, ps) => Interpolate(t, ps)
    case Raised(_) => Err(TypeError("unsupported operand type(s) for %: 'Exception' and 'tuple'"))
  }

  /** `LOG_MSG_TEMPLATE`: the level is printed as its number. */
  function Line(requested: int, time: string, message: string): string
  {
    "[" + IntToString(requested) + " - " + time + "] " + message
  }

  /** A record at one of the four levels opens with that level's digit, then
      " - " and the time, and ends with the message. */
  lemma LineShape(requested: int, time: string, message: string)
    requires 0 <= requested <= 3
    ensures var l := Line(requested, time, message);
            |l| == 7 + |time| + |message| && l[0] == '[' && l[1] == DigitChar(requested) &&
            l[2..5] == " - " && l[5..5 + |time|] == time && l[5 + |time|..7 + |time|] == "] " &&
            l[7 + |time|..] == message
  {
    assert IntToString(requested) == [DigitChar(requested)];
  }

  /** What `_print_log` prints and appends, or what it raises: the message is
      formatted before the filter, so a message that cannot be formatted
      raises at any level; a passing record goes to every enabled
      destination. */
  function Outcome(serialLog: bool, fileLog: bool, level: int, m: Message, requested: int, time: string)
    : (r: Result<(seq<string>, string)>)
    ensures r.Err? <==> Format(m).Err?
    ensures r.Err? ==> r.error == Format(m).error
    ensures Format(m).Ok? && requested < level ==> r == Ok(([], ""))
    ensures Format(m).Ok? && requested >= level ==>
              var l := Line(requested, time, Format(m).value);
              r.value.0 == (if serialLog then [l] else []) && r.value.1 == (if fileLog then l + "\n" else "")
  {
    var message :- Format(m);
    if requested < level then Ok(([], ""))
    else
      var l := Line(requested, time, message);
      Ok((if serialLog then [l] else [], if fileLog then l + "\n" else ""))
  }

  /** `Logger`. */
  class Logger {
    const serialLog: bool
    const fileLog: bool
    /** `_level`, always a number. */
    var level: int
    /** The lines printed. */
    var console: seq<string>
    /** `log_buffer`'s contents; it stays empty without `file_log`. */
    var buffer: string

    constructor (serialLog: bool, fileLog: bool, level: int)
      ensures this.serialLog == serialLog && this.fileLog == fileLog && this.level == level
      ensures console == [] && buffer == ""
    {
      this.serialLog := serialLog;
      this.fileLog := fileLog;
      this.level := level;
      console := [];
      buffer := "";
    }

    /** `logger.level = value`: an unknown name raises; a known one sets the
        threshold to that name's number. */
    method SetLevel(value: string) returns (r: Result<()>)
      modifies this
      ensures value !in Logging.LoggingLevels ==> r == Err(Exception("Unknown logging level: " + value)) && level == old(level)
      ensures value in Logging.LoggingLevels ==> r == Ok(()) && level == Logging.LoggingLevels[value]
      ensures console == old(console) && buffer == old(buffer)
    {
      if value !in Logging.LoggingLevels {
        return Err(Exception("Unknown logging level: " + value));
      }
      level := Logging.LoggingLevels[value];
      r := Ok(());
    }

    /** `_print_log`: appends what `Outcome` says, or raises its error with
        nothing written. */
    method PrintLog(m: Message, requested: int, time: string) returns (r: Result<()>)
      modifies this
      ensures level == old(level)
      ensures var o := Outcome(serialLog, fileLog, level, m, requested, time);
              (o.Err? ==> r == Err(o.error) && console == old(console) && buffer == old(buffer)) &&
              (o.Ok? ==> r == Ok(()) && console == old(console) + o.value.0 && buffer == old(buffer) + o.value.1)
    {
      var message := Format(m);
      if message.Err? {
        return Err(message.error);
      }
      if requested >= level {
        var l := Line(requested, time, message.value);
        if serialLog {
          console := console + [l];
        }
        if fileLog {
          buffer := buffer + (l + "\n");
        }
      }
      r := Ok(());
    }
  }

  /** `Logger(serial_log, file_log, level)`: an unknown level name raises
      `KeyError`; INFO is the default. */
  method NewLogger(serialLog: bool, fileLog: bool, level: string) returns (r: Result<Logger>)
    ensures level !in Logging.LoggingLevels <==> r.Err?
    ensures r.Err? ==> r.error == KeyError(level)
    ensures r.Ok? ==> r.value.level == Logging.LoggingLevels[level] && r.value.console == [] && r.value.buffer == ""
    ensures r.Ok? ==> r.value.serialLog == serialLog && r.value.fileLog == fileLog
  {
    if level !in Logging.LoggingLevels {
      return Err(KeyError(level));
    }
    var logger := new Logger(serialLog, fileLog, Logging.LoggingLevels[level]);
    r := Ok(logger);
  }

  /** The default level, INFO, suppresses `debug` records and lets the other
      three through. */
  lemma DefaultLevel(serialLog: bool, fileLog: bool, m: Message, text: string, time: string)
    requires Format(m) == Ok(text)
    ensures Outcome(serialLog, fileLog, Logging.LoggingLevels["INFO"], m, Logging.LoggingLevels["DEBUG"], time) == Ok(([], ""))
    ensures forall requested :: 1 <= requested <= 3 ==>
              Outcome(serialLog, fileLog, Logging.LoggingLevels["INFO"], m, requested, time)
                == Ok((if serialLog then [Line(requested, time, text)] else [], if fileLog then Line(requested, time, text) + "\n" else ""))
  {
  }

  /** `exception(e)` as written: `self.error(e)` hands the exception object to
      `_print_log`, whose `message % params` raises `TypeError`, whatever the
      level and the destinations. */
  function ExceptionAsWritten(serialLog: bool, fileLog: bool, level: int, description: string, time: string)
    : Result<(seq<string>, string)>
  {
    Outcome(serialLog, fileLog, level, Raised(description), Logging.LoggingLevels["ERROR"], time)
  }

  /** `exception(e)` as intended: `self.error("%s", e)` logs the exception's
      text at ERROR, whatever '%' signs it holds. */
  function ExceptionCorrected(serialLog: bool, fileLog: bool, level: int, description: string, time: string)
    : Result<(seq<string>, string)>
  {
    Outcome(serialLog, fileLog, level, Text("%s", [description]), Logging.LoggingLevels["ERROR"], time)
  }

  /** An exception is never logged as written; as intended it reaches every
      enabled destination whenever the threshold is a level name's number. */
  lemma ExceptionRaises(serialLog: bool, fileLog: bool, level: int, description: string, time: string)
    requires level in Logging.RevLoggingLevels
    ensures ExceptionAsWritten(serialLog, fileLog, level, description, time).Err?
    ensures ExceptionAsWritten(serialLog, fileLog, level, description, time).error.TypeError?
    ensures var r := ExceptionCorrected(serialLog, fileLog, level, description, time);
            r.Ok? && r.value.0 == (if serialLog then [Line(3, time, description)] else []) &&
            r.value.1 == (if fileLog then Line(3, time, description) + "\n" else "")
  {
    Logging.RevIsInverse();
    assert "%s"[0] == '%' && "%s"[1] == 's' && "%s"[2..] == "";
    assert Interpolate("", []) == Ok("");
    assert description + "" == description;
    assert Format(Text("%s", [description])) == Ok(description);
  }
}

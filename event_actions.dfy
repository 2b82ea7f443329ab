/** `breadboard/event_actions.py`: the actions an event can trigger (an HTTP GET
    to a webhook, or a call of a device operation) and the parser that builds
    them from the `"action"` member of an event in the configuration file. */
module EventActions {
  import opened Wrappers
  import opened Numeric
  import opened Json
  import opened Base
  import PicoLogging

  // ---------------------------------------------------------------------------
  // URL_PATTERN = (http[s]?)://(.*?):?(\d*)(/.*), applied with `re.match`
  // ---------------------------------------------------------------------------

  datatype Url = Url(scheme: string, host: string, port: nat, path: string)

  /** Group 1 and the `://` after it: "https" is tried before "http". */
  function Scheme(url: string): (r: Option<string>)
    ensures r.Some? ==> (r.value == "http" || r.value == "https") && |r.value| + 3 <= |url|
    ensures r.Some? ==> url[..|r.value| + 3] == r.value + "://"
    ensures r.None? <==> !(|url| >= 7 && url[..7] == "http://") && !(|url| >= 8 && url[..8] == "https://")
  {
    if |url| >= 8 && url[..8] == "https://" then Some("https")
    else if |url| >= 7 && url[..7] == "http://" then Some("http")
    else None
  }

  /** Length of the run of ASCII digits starting at `i` (what greedy `\d*` takes). */
  function DigitRun(s: string, i: nat): (n: nat)
    requires i <= |s|
    ensures i + n <= |s|
    ensures forall j :: i <= j < i + n ==> IsDigit(s[j])
    ensures i + n == |s| || !IsDigit(s[i + n])
    decreases |s| - i
  {
    if i < |s| && IsDigit(s[i]) then 1 + DigitRun(s, i + 1) else 0
  }

  /** 1 when the optional `:` can be taken at `q`. */
  function ColonAt(s: string, q: nat): (c: nat)
    ensures c <= 1
    ensures c == 1 <==> q < |s| && s[q] == ':'
  {
    if q < |s| && s[q] == ':' then 1 else 0
  }

  /** Where `(\d*)` ends when the host group stops at `q`. */
  function DigitsEnd(s: string, q: nat): (e: nat)
    requires q <= |s|
    ensures q <= e <= |s|
  {
    var d := q + ColonAt(s, q);
    d + DigitRun(s, d)
  }

  /** The rest of the pattern, `:?(\d*)(/.*)`, matches when the host group stops
      at `q`. Backtracking `:?` or `\d*` cannot help: the character after a
      shorter digit run is a digit, never `/`. */
  predicate SplitsAt(s: string, q: nat)
    requires q <= |s|
  {
    DigitsEnd(s, q) < |s| && s[DigitsEnd(s, q)] == '/'
  }

  /** The non-greedy host group `(.*?)`: the first stop `q` at or after `from`
      where the rest matches, never passing a newline (`.` does not match it). */
  function LazyHost(s: string, from: nat): (r: Option<nat>)
    requires from <= |s|
    ensures r.Some? ==> from <= r.value < |s| && SplitsAt(s, r.value)
    ensures r.Some? ==> forall j :: from <= j < r.value ==> s[j] != '\n'
    ensures r.Some? ==> forall j {:trigger SplitsAt(s, j)} :: from <= j < r.value ==> !SplitsAt(s, j)
    decreases |s| - from
  {
    if SplitsAt(s, from) then Some(from)
    else if from < |s| && s[from] != '\n' then LazyHost(s, from + 1)
    else None
  }

  /** Number of characters before the next newline (what greedy `.*` takes). */
  function LineLength(s: string, i: nat): (n: nat)
    requires i <= |s|
    ensures i + n <= |s|
    ensures forall j :: i <= j < i + n ==> s[j] != '\n'
    ensures i + n == |s| || s[i + n] == '\n'
    decreases |s| - i
  {
    if i < |s| && s[i] != '\n' then 1 + LineLength(s, i + 1) else 0
  }

  /** The groups when the host group stops at `q`: `int(port) if port else 80`
      for group 3, and group 4 running to the end of the line. */
  function MatchAt(url: string, scheme: string, q: nat): Url
    requires |scheme| + 3 <= q <= |url|
  {
    var start := |scheme| + 3;
    var d := q + ColonAt(url, q);
    var e := DigitsEnd(url, q);
    var digits := url[d..e];
    assert AllDigits(digits);
    Url(scheme, url[start..q], PortOf(digits), url[e..e + LineLength(url, e)])
  }

  /** `int(port) if port else 80`. */
  function PortOf(digits: string): nat
    requires AllDigits(digits)
  {
    if digits == [] then 80 else DigitsValue(digits)
  }

  /** `Webhook.__init__`: `URL_PATTERN.match(url)`, or `RuntimeError`. */
  function ParseUrl(url: string): Result<Url>
  {
    match Scheme(url)
    case None => Err(RuntimeError("Could not parse address"))
    case Some(scheme) =>
      match LazyHost(url, |scheme| + 3)
      case None => Err(RuntimeError("Could not parse address"))
      case Some(q) => Ok(MatchAt(url, scheme, q))
  }

  /** What a successful match guarantees: the URL starts with the scheme and
      "://", and the host and the path (which starts with "/") hold no newline. */
  lemma ParseUrlSound(url: string)
    requires ParseUrl(url).Ok?
    ensures var u := ParseUrl(url).value;
            Scheme(url) == Some(u.scheme) && url[..|u.scheme| + 3] == u.scheme + "://" &&
            |u.path| >= 1 && u.path[0] == '/' && '\n' !in u.path && '\n' !in u.host
  {
    var scheme := Scheme(url).value;
    var q := LazyHost(url, |scheme| + 3).value;
    assert ParseUrl(url) == Ok(MatchAt(url, scheme, q));
    MatchSound(url, scheme, q);
  }

  /** The groups when the host group stops at `q`, where the rest matches,
      with no newline before it. */
  lemma MatchSound(url: string, scheme: string, q: nat)
    requires |scheme| + 3 <= q < |url| && SplitsAt(url, q)
    requires forall j :: |scheme| + 3 <= j < q ==> url[j] != '\n'
    ensures var u := MatchAt(url, scheme, q);
            u.scheme == scheme && |u.path| >= 1 && u.path[0] == '/' && '\n' !in u.path && '\n' !in u.host
  {
    var start := |scheme| + 3;
    var e := DigitsEnd(url, q);
    MatchAtFields(url, scheme, q);
    var host := url[start..q];
    assert forall k :: 0 <= k < q - start ==> host[k] == url[start + k];
    PathOfLine(url, e, LineLength(url, e));
  }

  /** The scheme, host and path groups of `MatchAt`. */
  lemma MatchAtFields(url: string, scheme: string, q: nat)
    requires |scheme| + 3 <= q <= |url|
    ensures var u, e := MatchAt(url, scheme, q), DigitsEnd(url, q);
            u.scheme == scheme && u.host == url[|scheme| + 3..q] && u.path == url[e..e + LineLength(url, e)]
  {
  }

  /** A line that starts with `/` at `e`, taken up to the newline. */
  lemma PathOfLine(url: string, e: nat, n: nat)
    requires e < |url| && url[e] == '/' && e + n <= |url| && n == LineLength(url, e)
    ensures |url[e..e + n]| >= 1 && url[e..e + n][0] == '/' && '\n' !in url[e..e + n]
  {
    var path := url[e..e + n];
    assert forall k :: 0 <= k < n ==> path[k] == url[e + k];
  }

  lemma {:induction false} DigitRunExact(s: string, i: nat, n: nat)
    requires i + n <= |s|
    requires forall j :: i <= j < i + n ==> IsDigit(s[j])
    requires i + n == |s| || !IsDigit(s[i + n])
    ensures DigitRun(s, i) == n
    decreases n
  {
    if n > 0 {
      DigitRunExact(s, i + 1, n - 1);
    }
  }

  lemma {:induction false} LineLengthExact(s: string, i: nat)
    requires i <= |s|
    requires forall j :: i <= j < |s| ==> s[j] != '\n'
    ensures LineLength(s, i) == |s| - i
    decreases |s| - i
  {
    if i < |s| {
      LineLengthExact(s, i + 1);
    }
  }

  lemma {:induction false} LazyHostFinds(s: string, from: nat, q: nat)
    requires from <= q <= |s|
    requires forall j :: from <= j < q ==> s[j] != '\n'
    requires forall j {:trigger SplitsAt(s, j)} :: from <= j < q ==> !SplitsAt(s, j)
    requires SplitsAt(s, q)
    ensures LazyHost(s, from) == Some(q)
    decreases q - from
  {
    if from < q {
      LazyHostFinds(s, from + 1, q);
    }
  }

  /** Inside a host free of `/` and newlines, the rest of the pattern cannot
      match, provided the host is followed by a character that is neither a
      digit nor `/` (such as the `:` of an explicit port), or ends in a
      character that is neither a digit nor `:`. */
  lemma NoSplitInsideHost(s: string, start: nat, end: nat, j: nat)
    requires start <= j < end < |s|
    requires forall k :: start <= k < end ==> s[k] != '/' && s[k] != '\n'
    requires (!IsDigit(s[end]) && s[end] != '/') || (!IsDigit(s[end - 1]) && s[end - 1] != ':')
    ensures !SplitsAt(s, j)
  {
    var d := j + ColonAt(s, j);
    var e := DigitsEnd(s, j);
    assert d <= end;
    assert forall k :: d <= k < e ==> IsDigit(s[k]);
  }

  lemma SchemeOfPrefix(scheme: string, rest: string)
    requires scheme == "http" || scheme == "https"
    ensures Scheme(scheme + "://" + rest) == Some(scheme)
  {
    var url := scheme + "://" + rest;
    if scheme == "http" {
      assert url[..7] == "http://";
      assert |url| >= 8 ==> url[4] == ':' && url[..8] != "https://";
    } else {
      assert url[..8] == "https://";
    }
  }

  /** `ParseUrl` when the host group stops at `q`. */
  lemma ParseUrlAt(url: string, scheme: string, q: nat)
    requires Scheme(url) == Some(scheme)
    requires |scheme| + 3 <= q <= |url|
    requires forall j :: |scheme| + 3 <= j < q ==> url[j] != '\n'
    requires forall j {:trigger SplitsAt(url, j)} :: |scheme| + 3 <= j < q ==> !SplitsAt(url, j)
    requires SplitsAt(url, q)
    ensures ParseUrl(url) == Ok(MatchAt(url, scheme, q))
  {
    LazyHostFinds(url, |scheme| + 3, q);
  }

  /** The groups when the digits of group 3 end at `e` and no newline follows. */
  lemma MatchAtIs(url: string, scheme: string, q: nat, e: nat, port: nat)
    requires |scheme| + 3 <= q <= e <= |url|
    requires DigitsEnd(url, q) == e
    requires var digits := url[q + ColonAt(url, q)..e];
             AllDigits(digits) && port == PortOf(digits)
    requires forall j :: e <= j < |url| ==> url[j] != '\n'
    ensures MatchAt(url, scheme, q) == Url(scheme, url[|scheme| + 3..q], port, url[e..])
  {
    LineLengthExact(url, e);
    assert url[e..e + LineLength(url, e)] == url[e..];
  }

  /** No stop of the host group inside a host free of `/` and newlines, under
      the conditions of `NoSplitInsideHost`. */
  lemma HostStopsAtEnd(url: string, start: nat, end: nat)
    requires start <= end < |url|
    requires forall k :: start <= k < end ==> url[k] != '/' && url[k] != '\n'
    requires (!IsDigit(url[end]) && url[end] != '/') || end == start || (!IsDigit(url[end - 1]) && url[end - 1] != ':')
    ensures forall j {:trigger SplitsAt(url, j)} :: start <= j < end ==> !SplitsAt(url, j)
  {
    forall j | start <= j < end
      ensures !SplitsAt(url, j)
    {
      NoSplitInsideHost(url, start, end, j);
    }
  }

  /** `piece` sits in `s` at position `i`. */
  predicate Placed(s: string, i: nat, piece: string) {
    i + |piece| <= |s| && forall k :: i <= k < i + |piece| ==> s[k] == piece[k - i]
  }

  lemma PlacedSlice(s: string, i: nat, piece: string)
    requires Placed(s, i, piece)
    ensures s[i..i + |piece|] == piece
  {
    assert forall k :: 0 <= k < |piece| ==> s[i..i + |piece|][k] == piece[k];
  }

  /** The pieces of scheme "://" host mid digits path, one after another. */
  lemma UrlLayout(scheme: string, host: string, mid: string, digits: string, path: string)
    requires scheme == "http" || scheme == "https"
    ensures var url := scheme + "://" + host + mid + digits + path;
            var start := |scheme| + 3;
            Scheme(url) == Some(scheme) && |url| == start + |host| + |mid| + |digits| + |path| &&
            Placed(url, start, host) && Placed(url, start + |host|, mid) &&
            Placed(url, start + |host| + |mid|, digits) && Placed(url, start + |host| + |mid| + |digits|, path)
  {
    var rest := host + mid + digits + path;
    var url := scheme + "://" + host + mid + digits + path;
    assert url == scheme + "://" + rest;
    SchemeOfPrefix(scheme, rest);
  }

  /** Where the pattern's `:?(\d*)` ends when the host group stops right after
      the host: at the path's `/`. */
  lemma LayoutDigitsEnd(url: string, end: nat, mid: string, digits: string, path: string)
    requires mid == ":" || mid == ""
    requires AllDigits(digits) && |path| >= 1 && path[0] == '/'
    requires Placed(url, end, mid) && Placed(url, end + |mid|, digits) && Placed(url, end + |mid| + |digits|, path)
    ensures ColonAt(url, end) == |mid|
    ensures DigitsEnd(url, end) == end + |mid| + |digits| && url[end + |mid| + |digits|] == '/'
  {
    var d := end + |mid|;
    var e := d + |digits|;
    assert url[e] == path[0];
    assert mid == "" ==> url[end] == if digits == [] then '/' else digits[0];
    DigitRunExact(url, d, |digits|);
  }

  /** `ParseUrl` when the host group can stop at `end` and nowhere before it,
      and the digits after the optional colon end at the path's `/`. */
  lemma ParseSplit(url: string, scheme: string, end: nat, e: nat, port: nat)
    requires Scheme(url) == Some(scheme)
    requires |scheme| + 3 <= end <= e < |url|
    requires DigitsEnd(url, end) == e && url[e] == '/'
    requires var digits := url[end + ColonAt(url, end)..e];
             AllDigits(digits) && port == PortOf(digits)
    requires forall j :: |scheme| + 3 <= j < end ==> url[j] != '\n'
    requires forall j :: e <= j < |url| ==> url[j] != '\n'
    requires forall j {:trigger SplitsAt(url, j)} :: |scheme| + 3 <= j < end ==> !SplitsAt(url, j)
    ensures ParseUrl(url) == Ok(Url(scheme, url[|scheme| + 3..end], port, url[e..]))
  {
    ParseUrlAt(url, scheme, end);
    MatchAtIs(url, scheme, end, e, port);
  }

  /** For a URL made of scheme "://" host mid digits path, where `mid` is ":"
      or empty, the host holds no `/` or newline and does not end in what the
      port group would take: what `ParseSplit` needs, with `end` right after
      the host and `e` at the path. */
  lemma PlacedSplit(url: string, scheme: string, host: string, mid: string, digits: string, path: string)
    requires mid == ":" || mid == ""
    requires forall i :: 0 <= i < |host| ==> host[i] != '/' && host[i] != '\n'
    requires forall i :: 0 <= i < |path| ==> path[i] != '\n'
    requires |path| >= 1 && path[0] == '/' && AllDigits(digits)
    requires mid == "" && host != [] ==> !IsDigit(host[|host| - 1]) && host[|host| - 1] != ':'
    requires |url| == |scheme| + 3 + |host| + |mid| + |digits| + |path|
    requires Placed(url, |scheme| + 3, host) && Placed(url, |scheme| + 3 + |host|, mid)
    requires Placed(url, |scheme| + 3 + |host| + |mid|, digits)
    requires Placed(url, |scheme| + 3 + |host| + |mid| + |digits|, path)
    ensures var end := |scheme| + 3 + |host|;
            var e := end + |mid| + |digits|;
            DigitsEnd(url, end) == e && url[e] == '/' && url[end + ColonAt(url, end)..e] == digits &&
            (forall j :: |scheme| + 3 <= j < end ==> url[j] != '\n') &&
            (forall j :: e <= j < |url| ==> url[j] != '\n') &&
            (forall j {:trigger SplitsAt(url, j)} :: |scheme| + 3 <= j < end ==> !SplitsAt(url, j))
  {
    var start := |scheme| + 3;
    var end := start + |host|;
    LayoutDigitsEnd(url, end, mid, digits, path);
    assert host != [] ==> url[end - 1] == host[|host| - 1];
    HostStopsAtEnd(url, start, end);
    PlacedSlice(url, end + |mid|, digits);
  }

  /** The URL assembled from its pieces parses back into them. */
  lemma ParseLayout(scheme: string, host: string, mid: string, digits: string, path: string, port: nat)
    requires scheme == "http" || scheme == "https"
    requires mid == ":" || mid == ""
    requires '/' !in host && '\n' !in host
    requires |path| >= 1 && path[0] == '/' && '\n' !in path
    requires AllDigits(digits) && port == PortOf(digits)
    requires mid == "" && host != [] ==> !IsDigit(host[|host| - 1]) && host[|host| - 1] != ':'
    ensures ParseUrl(scheme + "://" + host + mid + digits + path) == Ok(Url(scheme, host, port, path))
  {
    var url := scheme + "://" + host + mid + digits + path;
    var end := |scheme| + 3 + |host|;
    var e := end + |mid| + |digits|;
    assert url[|scheme| + 3..end] == host by {
      UrlLayout(scheme, host, mid, digits, path);
      PlacedSlice(url, |scheme| + 3, host);
    }
    assert url[e..] == path by {
      UrlLayout(scheme, host, mid, digits, path);
      PlacedSlice(url, e, path);
      assert url[e..] == url[e..e + |path|];
    }
    assert ParseUrl(url) == Ok(Url(scheme, url[|scheme| + 3..end], port, url[e..])) by {
      UrlLayout(scheme, host, mid, digits, path);
      PlacedSplit(url, scheme, host, mid, digits, path);
      ParseSplit(url, scheme, end, e, port);
    }
  }

  /** With an explicit `:port`, host, port and path are split around it. */
  lemma ExplicitPortRoundTrip(scheme: string, host: string, port: nat, path: string)
    requires scheme == "http" || scheme == "https"
    requires '/' !in host && '\n' !in host
    requires |path| >= 1 && path[0] == '/' && '\n' !in path
    ensures ParseUrl(scheme + "://" + host + ":" + NatToString(port) + path) == Ok(Url(scheme, host, port, path))
  {
    DigitsValueOfNatToString(port);
    ParseLayout(scheme, host, ":", NatToString(port), path, port);
  }

  /** When no port is given the port is 80, provided the host does not end in a
      digit or `:` (otherwise the lazy host group gives those characters up). */
  lemma PortlessRoundTrip(scheme: string, host: string, path: string)
    requires scheme == "http" || scheme == "https"
    requires '/' !in host && '\n' !in host
    requires host != [] ==> !IsDigit(host[|host| - 1]) && host[|host| - 1] != ':'
    requires |path| >= 1 && path[0] == '/' && '\n' !in path
    ensures ParseUrl(scheme + "://" + host + path) == Ok(Url(scheme, host, 80, path))
  {
    ParseLayout(scheme, host, "", "", path, 80);
    AppendEmpty(scheme + "://" + host);
    AppendEmpty(scheme + "://" + host + "");
  }

  /** The host group is lazy, so digits at the end of a port-less host are taken
      as the port: "http://server1/x" has host "server" and port 1. */
  lemma TrailingHostDigitsBecomePort(scheme: string, host: string, n: nat, path: string)
    requires scheme == "http" || scheme == "https"
    requires '/' !in host && '\n' !in host
    requires host != [] ==> !IsDigit(host[|host| - 1]) && host[|host| - 1] != ':'
    requires |path| >= 1 && path[0] == '/' && '\n' !in path
    ensures ParseUrl(scheme + "://" + host + NatToString(n) + path) == Ok(Url(scheme, host, n, path))
  {
    DigitsValueOfNatToString(n);
    ParseLayout(scheme, host, "", NatToString(n), path, n);
    AppendEmpty(scheme + "://" + host);
  }

  lemma AppendEmpty(s: string)
    ensures s + "" == s
  {
  }


  // ---------------------------------------------------------------------------
  // The actions
  // ---------------------------------------------------------------------------

  datatype Action =
    | Webhook(url: Url)
      /** `DeviceAction`: the operation `operation` of device `device`, resolved
          at construction, and the keyword arguments it will be called with. */
    | DeviceAction(device: string, operation: string, kwargs: seq<(string, Json)>)

  /** A call of a device operation with keyword arguments. */
  datatype Invocation = Invocation(device: string, operation: string, kwargs: seq<(string, Json)>)

  // ---------------------------------------------------------------------------
  // The debug line of a webhook call: `logger.debug(f"Sending `{repr(request)}` ...")`
  // ---------------------------------------------------------------------------

  /** The request a webhook call writes. */
  function Request(path: string): string
  {
    "GET " + path + " HTTP/1.1\r\n\r\n"
  }

  /** The quote `repr` of a str uses: double quotes when the text holds a
      single quote and no double quote, single quotes otherwise. */
  function ReprQuote(s: string): (q: char)
    ensures q == '\'' || q == '"'
  {
    if '\'' in s && '"' !in s then '"' else '\''
  }

  /** How one character appears between the quotes of `repr(s)`. */
  function ReprChar(c: char, q: char): (r: string)
    requires q == '\'' || q == '"'
    ensures r != []
    ensures c == '%' <==> '%' in r
    ensures c == '%' ==> r == "%"
  {
    if c == '\\' then "\\\\"
    else if c == q then ['\\', q]
    else if c == '\t' then "\\t"
    else if c == '\n' then "\\n"
    else if c == '\r' then "\\r"
    else if c < ' ' || c as int == 127 then "\\x" + [HexDigit(c as int / 16), HexDigit(c as int % 16)]
    else [c]
  }

  function ReprBody(s: string, q: char): string
    requires q == '\'' || q == '"'
  {
    if s == [] then "" else ReprChar(s[0], q) + ReprBody(s[1..], q)
  }

  /** `repr(s)` of a str. */
  function StrRepr(s: string): string
  {
    [ReprQuote(s)] + ReprBody(s, ReprQuote(s)) + [ReprQuote(s)]
  }

  /** The message `Webhook.__call__` hands to `logger.debug` once connected. */
  function DebugText(url: Url): string
  {
    "Sending `" + StrRepr(Request(url.path)) + "` to " + url.host + ":" + NatToString(url.port)
  }

  /** Scanning `s` for the '%' signs of `s % ()`, with `open` set just after a
      '%' that is not yet paired: `None` when formatting fails, else whether a
      '%' is left open at the end. */
  function PercentScan(s: string, open: bool): Option<bool>
  {
    if s == [] then Some(open)
    else if s[0] == '%' then PercentScan(s[1..], !open)
    else if open then None
    else PercentScan(s[1..], false)
  }

  /** Every '%' of `s` is half of a "%%". */
  predicate PercentsPaired(s: string)
  {
    PercentScan(s, false) == Some(false)
  }

  /** The scan of `a + b` continues from where the scan of `a` ends. */
  function Resume(first: Option<bool>, rest: string): Option<bool>
  {
    if first.None? then None else PercentScan(rest, first.value)
  }

  /** `message % ()`, the first step of every logger call (breadboard/logging.py:80),
      succeeds exactly when the message's '%' signs pair up. */
  lemma {:induction false} FormatsWithoutParams(s: string)
    ensures PicoLogging.Interpolate(s, []).Ok? <==> PercentsPaired(s)
    decreases |s|
  {
    if s != [] {
      if s[0] != '%' {
        FormatsWithoutParams(s[1..]);
      } else if |s| >= 2 && s[1] == '%' {
        FormatsWithoutParams(s[2..]);
        assert s[1..][1..] == s[2..];
        assert PercentScan(s, false) == PercentScan(s[1..], true) == PercentScan(s[2..], false);
        assert PicoLogging.Interpolate(s, []).Ok? == PicoLogging.Interpolate(s[2..], []).Ok?;
      } else {
        assert PercentScan(s, false) == PercentScan(s[1..], true) != Some(false);
      }
    }
  }

  lemma {:induction false} ScanConcat(a: string, b: string, open: bool)
    ensures PercentScan(a + b, open) == Resume(PercentScan(a, open), b)
    decreases |a|
  {
    if a == [] {
      assert a + b == b;
    } else {
      assert (a + b)[0] == a[0];
      assert (a + b)[1..] == a[1..] + b;
      if a[0] == '%' {
        ScanConcat(a[1..], b, !open);
      } else if !open {
        ScanConcat(a[1..], b, false);
      }
    }
  }

  /** Text without a '%' keeps a closed scan closed and fails an open one. */
  lemma {:induction false} ScanPlain(t: string, open: bool)
    requires t != [] && '%' !in t
    ensures PercentScan(t, open) == if open then None else Some(false)
    decreases |t|
  {
    if |t| > 1 {
      ScanPlain(t[1..], false);
    }
  }

  /** Escaping for `repr` adds no '%' and removes none, so it keeps the scan. */
  lemma {:induction false} ScanReprBody(s: string, q: char, open: bool)
    requires q == '\'' || q == '"'
    ensures PercentScan(ReprBody(s, q), open) == PercentScan(s, open)
    decreases |s|
  {
    if s != [] {
      var head := ReprChar(s[0], q);
      ScanConcat(head, ReprBody(s[1..], q), open);
      if s[0] == '%' {
        assert PercentScan(head, open) == Some(!open);
        ScanReprBody(s[1..], q, !open);
      } else {
        ScanPlain(head, open);
        if !open {
          ScanReprBody(s[1..], q, false);
        }
      }
    }
  }

  /** A piece of text followed by a '%'-free piece fails the scan unless its
      own '%' signs pair up. */
  lemma PairedBefore(x: string, after: string)
    requires after != [] && '%' !in after
    ensures PercentScan(x + after, false) == if PercentsPaired(x) then Some(false) else None
  {
    ScanConcat(x, after, false);
    if PercentScan(x, false).Some? {
      ScanPlain(after, PercentScan(x, false).value);
    }
  }

  /** A '%'-free piece in front changes nothing. */
  lemma PlainBefore(before: string, x: string)
    requires before != [] && '%' !in before
    ensures PercentScan(before + x, false) == PercentScan(x, false)
  {
    ScanConcat(before, x, false);
    ScanPlain(before, false);
  }

  /** The request scans as its path does. */
  lemma ScanRequest(path: string)
    ensures PercentScan(Request(path), false) == if PercentsPaired(path) then Some(false) else None
  {
    PairedBefore(path, " HTTP/1.1\r\n\r\n");
    assert Request(path) == "GET " + (path + " HTTP/1.1\r\n\r\n");
    PlainBefore("GET ", path + " HTTP/1.1\r\n\r\n");
  }

  /** What follows the request in the debug line scans as the host does. */
  lemma ScanTail(q: char, host: string, port: string)
    requires '%' !in port && q != '%'
    ensures PercentScan([q] + "` to " + host + ":" + port, false) == if PercentsPaired(host) then Some(false) else None
  {
    PairedBefore(host, ":" + port);
    assert [q] + "` to " + host + ":" + port == ([q] + "` to ") + (host + (":" + port));
    PlainBefore([q] + "` to ", host + (":" + port));
  }

  /** The debug line formats exactly when the '%' signs of the URL's path and
      of its host pair up; the port is digits and the rest of the line is fixed. */
  lemma DebugFormats(url: Url)
    ensures PicoLogging.Interpolate(DebugText(url), []).Ok? <==> PercentsPaired(url.path) && PercentsPaired(url.host)
  {
    var req := Request(url.path);
    var q := ReprQuote(req);
    var port := NatToString(url.port);
    assert '%' !in port by {
      forall i | 0 <= i < |port| ensures port[i] != '%' { assert IsDigit(port[i]); }
    }
    var body := ReprBody(req, q);
    var tail := [q] + "` to " + url.host + ":" + port;
    FormatsWithoutParams(DebugText(url));
    ScanRequest(url.path);
    ScanReprBody(req, q, false);
    ScanTail(q, url.host, port);
    assert DebugText(url) == ("Sending `" + [q]) + (body + tail);
    PlainBefore("Sending `" + [q], body + tail);
    ScanConcat(body, tail, false);
  }

  /** What one webhook call did: the request text written, if it was written,
      the errors it logged, and the exception that left the call, if any. */
  datatype WebhookOutcome = WebhookOutcome(sent: Option<string>, logged: seq<Error>, raised: Option<Error>)

  /** `Webhook.__call__`, given whether the connection and the write succeed.
      Socket failures are `OSError`s, which are logged. Between the connection
      and the write the debug line is formatted with `message % ()`; a '%' in
      the path or host that is not half of a "%%" makes that raise, and the
      exception is not an `OSError`, so it leaves the call before the request
      is written. */
  function CallWebhook(url: Url, connects: bool, writes: bool): (r: WebhookOutcome)
    ensures r.sent.Some? <==> connects && writes && PercentsPaired(url.path) && PercentsPaired(url.host)
    ensures r.sent.Some? ==> r.sent.value == Request(url.path)
    ensures r.raised.Some? <==> connects && !(PercentsPaired(url.path) && PercentsPaired(url.host))
    ensures r.raised.Some? ==> r.raised.value.TypeError? || r.raised.value.ValueError?
    ensures r.logged != [] <==> r.sent.None? && r.raised.None?
    ensures forall e :: e in r.logged ==> e == OSError
  {
    DebugFormats(url);
    if !connects then WebhookOutcome(None, [OSError], None)
    else
      var debug := PicoLogging.Interpolate(DebugText(url), []);
      if debug.Err? then WebhookOutcome(None, [], Some(debug.error))
      else if !writes then WebhookOutcome(None, [OSError], None)
      else WebhookOutcome(Some(Request(url.path)), [], None)
  }

  /** A percent-encoded path, such as "/a%20b", is never sent: the debug line
      raises once the connection is made. */
  lemma PercentEncodedPathRaises(scheme: string, host: string, port: nat, writes: bool)
    ensures var r := CallWebhook(Url(scheme, host, port, "/a%20b"), true, writes);
            r.sent.None? && r.raised.Some? && r.logged == []
  {
    var path := "/a%20b";
    assert path[..2] == "/a" && path[2..] == "%20b";
    ScanConcat("/a", "%20b", false);
    assert "/a" + "%20b" == path;
  }

  /** `DeviceAction.__call__`: the resolved operation with the stored arguments. */
  function Invoke(a: Action): (r: Option<Invocation>)
    ensures r.Some? <==> a.DeviceAction?
    ensures r.Some? ==> r.value.device == a.device && r.value.operation == a.operation && r.value.kwargs == a.kwargs
  {
    match a
    case Webhook(_) => None
    case DeviceAction(d, op, kw) => Some(Invocation(d, op, kw))
  }

  /** `getattr(devices[name], action)`, as `DeviceAction.__init__` resolves it. */
  function Resolve(devices: map<string, DeviceObject>, name: Json, operation: Json): (r: Result<(string, string)>)
    ensures r.Ok? <==> name.JStr? && name.s in devices && operation.JStr? && operation.s in devices[name.s].attributes
    ensures r.Ok? ==> r.value == (name.s, operation.s)
    ensures Hashable(name) && !(name.JStr? && name.s in devices) ==> r == Err(KeyError(KeyText(name)))
    ensures name.JStr? && name.s in devices && operation.JStr? && operation.s !in devices[name.s].attributes ==>
              r == Err(AttributeError(operation.s))
  {
    if !Hashable(name) then Err(TypeError("unhashable type"))
    else if !name.JStr? || name.s !in devices then Err(KeyError(KeyText(name)))
    else if !operation.JStr? then Err(TypeError("attribute name must be string"))
    else if operation.s !in devices[name.s].attributes then Err(AttributeError(operation.s))
    else Ok((name.s, operation.s))
  }

  /** `EVENT_ACTIONS[kind](**arguments, devices=devices)`. */
  function BuildAction(kind: string, arguments: Json, devices: map<string, DeviceObject>): Result<Action>
  {
    if kind != "webhook" && kind != "device" then Err(KeyError(kind))
    else if !arguments.JObject? then Err(TypeError("argument after ** must be a mapping"))
    else if Lookup(arguments.fields, "devices").Some? then Err(TypeError("got multiple values for argument 'devices'"))
    else if kind == "webhook" then
      match Lookup(arguments.fields, "url")
      case None => Err(TypeError("missing required argument 'url'"))
      case Some(JStr(u)) =>
        var url :- ParseUrl(u);
        Ok(Webhook(url))
      case Some(_) => Err(TypeError("expected string"))
    else
      match (Lookup(arguments.fields, "name"), Lookup(arguments.fields, "action"))
      case (None, _) => Err(TypeError("missing required argument 'name'"))
      case (_, None) => Err(TypeError("missing required argument 'action'"))
      case (Some(name), Some(operation)) =>
        var resolved :- Resolve(devices, name, operation);
        Ok(DeviceAction(resolved.0, resolved.1, Without(Without(arguments.fields, "name"), "action")))
  }

  /** A device action is built only from a dict naming an existing device and
      one of its attributes; the other members become the keyword arguments. */
  lemma DeviceActionBuilt(arguments: Json, devices: map<string, DeviceObject>)
    requires BuildAction("device", arguments, devices).Ok?
    ensures var a := BuildAction("device", arguments, devices).value;
            arguments.JObject? && a.DeviceAction? &&
            Lookup(arguments.fields, "devices").None? &&
            Lookup(arguments.fields, "name") == Some(JStr(a.device)) &&
            Lookup(arguments.fields, "action") == Some(JStr(a.operation)) &&
            a.device in devices && a.operation in devices[a.device].attributes &&
            a.kwargs == Without(Without(arguments.fields, "name"), "action")
  {
  }

  /** A webhook is built only from a dict whose "url" member is a string that
      `URL_PATTERN` matches. */
  lemma WebhookBuilt(arguments: Json, devices: map<string, DeviceObject>)
    requires BuildAction("webhook", arguments, devices).Ok?
    ensures var a := BuildAction("webhook", arguments, devices).value;
            arguments.JObject? && a.Webhook? && Lookup(arguments.fields, "devices").None? &&
            Lookup(arguments.fields, "url").Some? && Lookup(arguments.fields, "url").value.JStr? &&
            ParseUrl(Lookup(arguments.fields, "url").value.s) == Ok(a.url)
  {
  }

  /** The action objects `parse_event_actions` iterates over: a single dict is
      wrapped in a list. */
  function ActionObjects(raw: Json): (r: Result<seq<Json>>)
    ensures raw.JObject? ==> r == Ok([raw])
    ensures raw.JList? ==> r == Ok(raw.items)
    ensures r.Err? <==> !raw.JObject? && !raw.JList? && !raw.JStr?
  {
    if raw.JObject? then Ok([raw]) else Iterate(raw)
  }

  /** One action per (kind, arguments) pair, in order; the first failure raises. */
  function BuildAll(pairs: seq<(string, Json)>, devices: map<string, DeviceObject>): (r: Result<seq<Action>>)
    ensures r.Ok? <==> forall i :: 0 <= i < |pairs| ==> BuildAction(pairs[i].0, pairs[i].1, devices).Ok?
    ensures r.Ok? ==> |r.value| == |pairs|
    ensures r.Ok? ==> forall i :: 0 <= i < |pairs| ==> r.value[i] == BuildAction(pairs[i].0, pairs[i].1, devices).value
    decreases |pairs|
  {
    if pairs == [] then Ok([])
    else
      var first :- BuildAction(pairs[0].0, pairs[0].1, devices);
      var rest :- BuildAll(pairs[1..], devices);
      assert forall i :: 1 <= i < |pairs| ==> pairs[i] == pairs[1..][i - 1];
      Ok([first] + rest)
  }

  /** The loop over action objects: each must have `.items()`. */
  function ParseObjects(objects: seq<Json>, devices: map<string, DeviceObject>): (r: Result<seq<Action>>)
    decreases |objects|
  {
    if objects == [] then Ok([])
    else
      var pairs :- Items(objects[0]);
      Joined(BuildAll(pairs, devices), ParseObjects(objects[1..], devices))
  }

  /** `parse_event_actions(raw_json, devices)` as a value. */
  function ParseSpec(raw: Json, devices: map<string, DeviceObject>): (r: Result<seq<Action>>)
  {
    var objects :- ActionObjects(raw);
    ParseObjects(objects, devices)
  }

  /** A single action object behaves as a one-element list. */
  lemma SingleObjectIsOneElementList(fields: seq<(string, Json)>, devices: map<string, DeviceObject>)
    ensures ParseSpec(JObject(fields), devices) == ParseSpec(JList([JObject(fields)]), devices)
  {
  }

  /** Each pair of one action object yields exactly one action, in order. */
  lemma {:induction false} OneActionPerPair(fields: seq<(string, Json)>, devices: map<string, DeviceObject>)
    ensures ParseSpec(JObject(fields), devices).Ok? <==>
              forall i :: 0 <= i < |fields| ==> BuildAction(fields[i].0, fields[i].1, devices).Ok?
    ensures ParseSpec(JObject(fields), devices).Ok? ==>
              var actions := ParseSpec(JObject(fields), devices).value;
              |actions| == |fields| &&
              forall i :: 0 <= i < |fields| ==> actions[i] == BuildAction(fields[i].0, fields[i].1, devices).value
  {
    var objects := [JObject(fields)];
    assert ParseObjects(objects[1..], devices) == Ok([]);
    var built := BuildAll(fields, devices);
    if built.Ok? {
      assert ParseObjects(objects, devices) == Ok(built.value + []);
      assert built.value + [] == built.value;
    }
  }

  /** An action kind other than "webhook" or "device" raises `KeyError`. */
  lemma UnknownKindRaisesKeyError(kind: string, arguments: Json, devices: map<string, DeviceObject>)
    requires kind != "webhook" && kind != "device"
    ensures ParseSpec(JObject([(kind, arguments)]), devices) == Err(KeyError(kind))
  {
    assert BuildAll([(kind, arguments)], devices) == Err(KeyError(kind));
  }

  /** `parse_event_actions`, with its two nested loops appending to the list. */
  method ParseEventActions(raw: Json, devices: map<string, DeviceObject>) returns (r: Result<seq<Action>>)
    ensures r == ParseSpec(raw, devices)
  {
    var listed := ActionObjects(raw);
    if listed.Err? {
      return Err(listed.error);
    }
    var objects := listed.value;
    var eventActions: seq<Action> := [];
    var i := 0;
    assert objects[0..] == objects;
    PrefixedNothing(ParseObjects(objects, devices));
    while i < |objects|
      invariant 0 <= i <= |objects|
      invariant ParseObjects(objects, devices) == Prefixed(eventActions, ParseObjects(objects[i..], devices))
    {
      ParseObjectsAt(objects, i, devices);
      var items := Items(objects[i]);
      if items.Err? {
        return Err(items.error);
      }
      var built := AppendActions(items.value, devices, eventActions);
      if built.Err? {
        PrefixedErr(eventActions, BuildAll(items.value, devices), ParseObjects(objects[i + 1..], devices));
        return Err(built.error);
      }
      PrefixedOk(eventActions, built.value[|eventActions|..], BuildAll(items.value, devices), ParseObjects(objects[i + 1..], devices));
      assert built.value == eventActions + built.value[|eventActions|..];
      eventActions := built.value;
      i := i + 1;
    }
    assert objects[i..] == [];
    assert eventActions + [] == eventActions;
    return Ok(eventActions);
  }

  /** The objects from `i` on: those of object `i`, then the rest. */
  lemma ParseObjectsAt(objects: seq<Json>, i: nat, devices: map<string, DeviceObject>)
    requires i < |objects|
    ensures var items := Items(objects[i]);
            ParseObjects(objects[i..], devices) ==
              if items.Err? then Err(items.error)
              else Joined(BuildAll(items.value, devices), ParseObjects(objects[i + 1..], devices))
  {
    assert objects[i..][0] == objects[i] && objects[i..][1..] == objects[i + 1..];
  }

  /** The inner loop: append the action of each (kind, arguments) pair to
      `done`, stopping at the first one that raises. */
  method AppendActions(pairs: seq<(string, Json)>, devices: map<string, DeviceObject>, done: seq<Action>)
    returns (r: Result<seq<Action>>)
    ensures r == Prefixed(done, BuildAll(pairs, devices))
    ensures r.Ok? ==> |done| <= |r.value| && r.value[..|done|] == done
  {
    var acc := done;
    var j := 0;
    assert pairs[0..] == pairs;
    while j < |pairs|
      invariant 0 <= j <= |pairs|
      invariant |done| <= |acc| && acc[..|done|] == done
      invariant Prefixed(done, BuildAll(pairs, devices)) == Prefixed(acc, BuildAll(pairs[j..], devices))
    {
      BuildAllAt(pairs, j, devices);
      var action := BuildAction(pairs[j].0, pairs[j].1, devices);
      if action.Err? {
        return Err(action.error);
      }
      PrefixedStep(acc, action.value, BuildAll(pairs[j + 1..], devices));
      acc := acc + [action.value];
      j := j + 1;
    }
    assert pairs[j..] == [] && acc + [] == acc;
    return Ok(acc);
  }

  /** The pairs from `j` on: the action of pair `j`, then the rest. */
  lemma BuildAllAt(pairs: seq<(string, Json)>, j: nat, devices: map<string, DeviceObject>)
    requires j < |pairs|
    ensures var action := BuildAction(pairs[j].0, pairs[j].1, devices);
            BuildAll(pairs[j..], devices) ==
              if action.Err? then Err(action.error)
              else Joined(Ok([action.value]), BuildAll(pairs[j + 1..], devices))
  {
    assert pairs[j..][0] == pairs[j] && pairs[j..][1..] == pairs[j + 1..];
  }

  /** The actions of `first` followed by those of `rest`; the first error wins. */
  function Joined(first: Result<seq<Action>>, rest: Result<seq<Action>>): Result<seq<Action>>
  {
    var a :- first;
    var b :- rest;
    Ok(a + b)
  }

  /** `done` followed by what a later step produces, or that step's error. */
  function Prefixed(done: seq<Action>, later: Result<seq<Action>>): Result<seq<Action>>
  {
    match later
    case Ok(rest) => Ok(done + rest)
    case Err(e) => Err(e)
  }

  lemma PrefixedNothing(later: Result<seq<Action>>)
    ensures Prefixed([], later) == later
  {
    if later.Ok? {
      assert [] + later.value == later.value;
    }
  }

  lemma PrefixedStep(acc: seq<Action>, a: Action, later: Result<seq<Action>>)
    ensures Prefixed(acc, Joined(Ok([a]), later)) == Prefixed(acc + [a], later)
  {
    if later.Ok? {
      assert acc + ([a] + later.value) == acc + [a] + later.value;
    }
  }

  lemma PrefixedErr(before: seq<Action>, first: Result<seq<Action>>, rest: Result<seq<Action>>)
    requires first.Err?
    ensures Prefixed(before, Joined(first, rest)) == Err(first.error)
  {
  }

  lemma PrefixedOk(before: seq<Action>, own: seq<Action>, first: Result<seq<Action>>, rest: Result<seq<Action>>)
    requires first == Ok(own)
    ensures Prefixed(before, Joined(first, rest)) == Prefixed(before + own, rest)
  {
    if rest.Ok? {
      assert before + (own + rest.value) == before + own + rest.value;
    }
  }
}

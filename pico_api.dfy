/** `pico_enclosure/api.py`: the enclosure's minimal web server. A route
    table maps paths to handlers; a connection's request line is split into
    method, path and protocol, and the handler of the path's route answers
    with an HTML page, or the server answers 404.

    The reader is the sequence of lines the client sends; the writer's output
    is returned as the sequence of strings written. Handlers are functions
    from their positional arguments to a result or the error they raise. */
module PicoApi {
  import opened Wrappers
  import opened Numeric

  // ---------------------------------------------------------------------------
  // `str.split` on one character
  // ---------------------------------------------------------------------------

  /** `s.split(c)`: the pieces between the occurrences of `c`. */
  function Split(s: string, c: char): (r: seq<string>)
    ensures |r| >= 1
    ensures forall i :: 0 <= i < |r| ==> c !in r[i]
    decreases |s|
  {
    if s == [] then [""]
    else
      var rest := Split(s[1..], c);
      if s[0] == c then [""] + rest else [[s[0]] + rest[0]] + rest[1..]
  }

  /** `c.join(parts)`. */
  function Join(parts: seq<string>, c: char): string
    requires |parts| >= 1
  {
    if |parts| == 1 then parts[0] else parts[0] + [c] + Join(parts[1..], c)
  }

  /** How many times `c` occurs in `s`. */
  function Count(s: string, c: char): nat
  {
    if s == [] then 0 else (if s[0] == c then 1 else 0) + Count(s[1..], c)
  }

  /** Splitting loses nothing: joining the pieces back gives the text. */
  lemma {:induction false} JoinSplit(s: string, c: char)
    ensures Join(Split(s, c), c) == s
    decreases |s|
  {
    if s != [] {
      var rest := Split(s[1..], c);
      JoinSplit(s[1..], c);
      if s[0] == c {
        assert Split(s, c)[1..] == rest;
      } else {
        var r := Split(s, c);
        if |rest| == 1 {
          assert r == [[s[0]] + rest[0]];
        } else {
          assert r[1..] == rest[1..];
          assert Join(r, c) == [s[0]] + rest[0] + [c] + Join(rest[1..], c);
        }
      }
    }
  }

  /** A piece that holds no `c`, then `c`: splitting takes the piece off the front. */
  lemma {:induction false} SplitAfter(a: string, c: char, b: string)
    requires c !in a
    ensures Split(a + [c] + b, c) == [a] + Split(b, c)
    decreases |a|
  {
    if a == [] {
      assert [] + [c] + b == [c] + b;
      assert ([c] + b)[1..] == b;
    } else {
      assert (a + [c] + b)[1..] == a[1..] + [c] + b;
      SplitAfter(a[1..], c, b);
      assert [a[0]] + a[1..] == a;
    }
  }

  /** Text without `c` is one piece. */
  lemma {:induction false} SplitWhole(a: string, c: char)
    requires c !in a
    ensures Split(a, c) == [a]
    decreases |a|
  {
    if a != [] {
      SplitWhole(a[1..], c);
      assert [a[0]] + a[1..] == a;
    }
  }

  /** Pieces without `c` split back out of their join. */
  lemma {:induction false} SplitJoin(parts: seq<string>, c: char)
    requires |parts| >= 1
    requires forall i :: 0 <= i < |parts| ==> c !in parts[i]
    ensures Split(Join(parts, c), c) == parts
    decreases |parts|
  {
    if |parts| == 1 {
      SplitWhole(parts[0], c);
    } else {
      SplitJoin(parts[1..], c);
      SplitAfter(parts[0], c, Join(parts[1..], c));
      assert [parts[0]] + parts[1..] == parts;
    }
  }

  /** There is one more piece than there are separators. */
  lemma {:induction false} SplitCount(s: string, c: char)
    ensures |Split(s, c)| == Count(s, c) + 1
    decreases |s|
  {
    if s != [] {
      SplitCount(s[1..], c);
    }
  }

  lemma {:induction false} CountConcat(a: string, b: string, c: char)
    ensures Count(a + b, c) == Count(a, c) + Count(b, c)
    decreases |a|
  {
    if a != [] {
      assert (a + b)[0] == a[0] && (a + b)[1..] == a[1..] + b;
      assert Count(a + b, c) == (if a[0] == c then 1 else 0) + Count(a[1..] + b, c);
      CountConcat(a[1..], b, c);
    } else {
      assert a + b == b;
    }
  }

  // ---------------------------------------------------------------------------
  // `str(await reader.readline())`: the text of a bytes object
  // ---------------------------------------------------------------------------

  const Space: Byte := 32

  /** The quote `str(b)` uses: double quotes when the bytes hold a single
      quote and no double quote, single quotes otherwise. */
  function Quote(line: seq<Byte>): (q: char)
    ensures q == '\'' || q == '"'
  {
    if 39 in line && 34 !in line then '"' else '\''
  }

  /** How one byte appears between the quotes of `str(b)`. */
  function ReprByte(b: Byte, q: char): string
  {
    if b == 92 then "\\\\"
    else if b as char == q then ['\\', q]
    else if b == 9 then "\\t"
    else if b == 10 then "\\n"
    else if b == 13 then "\\r"
    else if b < 32 || b >= 127 then "\\x" + [HexDigit(b / 16), HexDigit(b % 16)]
    else [b as char]
  }

  function ReprBody(line: seq<Byte>, q: char): string
  {
    if line == [] then "" else ReprByte(line[0], q) + ReprBody(line[1..], q)
  }

  /** `str(line)`: "b", the quote, the escaped bytes, the quote. */
  function Repr(line: seq<Byte>): string
  {
    "b" + [Quote(line)] + ReprBody(line, Quote(line)) + [Quote(line)]
  }

  /** Only a space byte shows as a space. */
  lemma ReprByteSpaces(b: Byte, q: char)
    requires q == '\'' || q == '"'
    ensures Count(ReprByte(b, q), ' ') == if b == Space then 1 else 0
  {
    var r := ReprByte(b, q);
    if b != Space {
      assert ' ' !in r;
      CountAbsent(r, ' ');
    }
  }

  lemma {:induction false} CountAbsent(s: string, c: char)
    requires c !in s
    ensures Count(s, c) == 0
    decreases |s|
  {
    if s != [] {
      CountAbsent(s[1..], c);
    }
  }

  lemma {:induction false} ReprBodySpaces(line: seq<Byte>, q: char)
    requires q == '\'' || q == '"'
    ensures Count(ReprBody(line, q), ' ') == CountBytes(line, Space)
    decreases |line|
  {
    if line != [] {
      ReprByteSpaces(line[0], q);
      ReprBodySpaces(line[1..], q);
      CountConcat(ReprByte(line[0], q), ReprBody(line[1..], q), ' ');
    }
  }

  function CountBytes(line: seq<Byte>, b: Byte): nat
  {
    if line == [] then 0 else (if line[0] == b then 1 else 0) + CountBytes(line[1..], b)
  }

  /** The text of a request line splits on spaces into as many pieces as the
      bytes do: one more than its space bytes. */
  lemma ReprPieces(line: seq<Byte>)
    ensures |Split(Repr(line), ' ')| == CountBytes(line, Space) + 1
  {
    var q := Quote(line);
    ReprBodySpaces(line, q);
    CountConcat("b" + [q], ReprBody(line, q), ' ');
    CountConcat("b" + [q] + ReprBody(line, q), [q], ' ');
    SplitCount(Repr(line), ' ');
  }

  lemma {:induction false} ReprBodyConcat(a: seq<Byte>, b: seq<Byte>, q: char)
    ensures ReprBody(a + b, q) == ReprBody(a, q) + ReprBody(b, q)
    decreases |a|
  {
    if a != [] {
      assert (a + b)[0] == a[0] && (a + b)[1..] == a[1..] + b;
      assert ReprBody(a + b, q) == ReprByte(a[0], q) + ReprBody(a[1..] + b, q);
      ReprBodyConcat(a[1..], b, q);
    } else {
      assert a + b == b;
    }
  }

  lemma {:induction false} ReprBodyNoSpace(a: seq<Byte>, q: char)
    requires q == '\'' || q == '"'
    requires Space !in a
    ensures ' ' !in ReprBody(a, q)
    decreases |a|
  {
    if a != [] {
      ReprByteSpaces(a[0], q);
      ReprBodyNoSpace(a[1..], q);
      if ' ' in ReprByte(a[0], q) {
        var i :| 0 <= i < |ReprByte(a[0], q)| && ReprByte(a[0], q)[i] == ' ';
        CountPositive(ReprByte(a[0], q), ' ', i);
      }
    }
  }

  lemma {:induction false} CountPositive(s: string, c: char, i: nat)
    requires i < |s| && s[i] == c
    ensures Count(s, c) > 0
    decreases i
  {
    if i > 0 {
      CountPositive(s[1..], c, i - 1);
    }
  }

  /** A byte that `str(b)` shows as itself. */
  predicate Plain(b: Byte)
  {
    32 < b < 127 && b != 34 && b != 39 && b != 92
  }

  /** The characters of plain bytes. */
  function Chars(line: seq<Byte>): (s: string)
    ensures |s| == |line| && forall i :: 0 <= i < |line| ==> s[i] == line[i] as char
  {
    if line == [] then []
    else
      var rest := Chars(line[1..]);
      assert forall i :: 1 <= i < |line| ==> line[1..][i - 1] == line[i];
      [line[0] as char] + rest
  }

  lemma {:induction false} ReprBodyPlain(a: seq<Byte>, q: char)
    requires q == '\'' || q == '"'
    requires forall i :: 0 <= i < |a| ==> Plain(a[i])
    ensures ReprBody(a, q) == Chars(a)
    decreases |a|
  {
    if a != [] {
      var rest := a[1..];
      assert forall i :: 0 <= i < |rest| ==> rest[i] == a[i + 1];
      ReprBodyPlain(rest, q);
      assert ReprByte(a[0], q) == [a[0] as char] by {
        assert a[0] as char != q;
      }
    }
  }

  /** The escaped text of "method path protocol" keeps both spaces. */
  lemma ReprBodyRequest(m: seq<Byte>, p: seq<Byte>, v: seq<Byte>, q: char)
    requires q == '\'' || q == '"'
    ensures ReprBody(m + [Space] + p + [Space] + v, q) == ReprBody(m, q) + " " + ReprBody(p, q) + " " + ReprBody(v, q)
  {
    assert ReprBody([Space], q) == " ";
    ReprBodyConcat(m, [Space], q);
    ReprBodyConcat(m + [Space], p, q);
    ReprBodyConcat(m + [Space] + p, [Space], q);
    ReprBodyConcat(m + [Space] + p + [Space], v, q);
  }

  /** The text of "method path protocol": its three escaped parts between
      the spaces, with "b" and the quote before and the quote after. */
  lemma ReprRequest(m: seq<Byte>, p: seq<Byte>, v: seq<Byte>)
    ensures var line := m + [Space] + p + [Space] + v;
            var q := Quote(line);
            Repr(line) == ("b" + [q] + ReprBody(m, q)) + " " + ReprBody(p, q) + " " + (ReprBody(v, q) + [q])
  {
    var line := m + [Space] + p + [Space] + v;
    var q := Quote(line);
    var x, rm, rp, rv := "b" + [q], ReprBody(m, q), ReprBody(p, q), ReprBody(v, q);
    ReprBodyRequest(m, p, v, q);
    calc {
      Repr(line);
      x + (rm + " " + rp + " " + rv) + [q];
      { Assoc(x, rm + " " + rp + " ", rv); }
      x + (rm + " " + rp + " ") + rv + [q];
      { Assoc(x + (rm + " " + rp + " "), rv, [q]); }
      x + (rm + " " + rp + " ") + (rv + [q]);
      { Assoc(x, rm + " " + rp, " "); Assoc(x, rm + " ", rp); Assoc(x, rm, " "); }
      x + rm + " " + rp + " " + (rv + [q]);
    }
  }

  lemma Assoc<T>(a: seq<T>, b: seq<T>, c: seq<T>)
    ensures a + (b + c) == a + b + c
  {
  }

  /** A request line "method path protocol" whose path is plain bytes: the
      text splits into three pieces, the middle one being the path itself. */
  lemma RequestPath(m: seq<Byte>, p: seq<Byte>, v: seq<Byte>)
    requires Space !in m && Space !in v
    requires forall i :: 0 <= i < |p| ==> Plain(p[i])
    ensures var parts := Split(Repr(m + [Space] + p + [Space] + v), ' ');
            |parts| == 3 && parts[1] == Chars(p)
  {
    var line := m + [Space] + p + [Space] + v;
    var q := Quote(line);
    var rm, rp, rv := ReprBody(m, q), ReprBody(p, q), ReprBody(v, q);
    var head := "b" + [q] + rm;
    var tail := rv + [q];
    ReprRequest(m, p, v);
    assert ' ' !in head && ' ' !in tail by {
      ReprBodyNoSpace(m, q);
      ReprBodyNoSpace(v, q);
    }
    assert rp == Chars(p) by {
      ReprBodyPlain(p, q);
    }
    RequestPieces(head, rp, tail);
  }


  // ---------------------------------------------------------------------------
  // Parameters and dispatch
  // ---------------------------------------------------------------------------

  /** A handler: its positional arguments to its result or the error it raises. */
  type Handler = seq<string> -> Result<string>

  /** The keys of a dictionary, in insertion order. */
  function Keys(d: seq<(string, string)>): seq<string>
  {
    if d == [] then [] else [d[0].0] + Keys(d[1..])
  }

  /** `d[k]`: the value bound to `k`, if any. */
  function Get(d: seq<(string, string)>, k: string): Option<string>
  {
    if d == [] then None else if d[0].0 == k then Some(d[0].1) else Get(d[1..], k)
  }

  /** `d[k] = v` on a dictionary kept as its items in insertion order: an
      existing key keeps its place and takes the new value, a new key goes
      last, and every other key keeps its value. */
  function Insert(d: seq<(string, string)>, k: string, v: string): (r: seq<(string, string)>)
    ensures k in Keys(d) ==> Keys(r) == Keys(d)
    ensures k !in Keys(d) ==> Keys(r) == Keys(d) + [k]
    ensures Get(r, k) == Some(v)
    ensures forall j :: j != k ==> Get(r, j) == Get(d, j)
  {
    if d == [] then [(k, v)]
    else if d[0].0 == k then [(k, v)] + d[1..]
    else [d[0]] + Insert(d[1..], k, v)
  }

  /** The text before the first "=" of a segment. */
  function SegmentKey(segment: string): string
  {
    Split(segment, '=')[0]
  }

  /** The keys of the segments, in order. */
  function SegmentKeys(segments: seq<string>): seq<string>
  {
    if segments == [] then [] else [SegmentKey(segments[0])] + SegmentKeys(segments[1..])
  }

  /** The keys of `ks` not in `seen`, each once, in order of first occurrence. */
  function FirstOccurrences(ks: seq<string>, seen: seq<string>): seq<string>
  {
    if ks == [] then []
    else if ks[0] in seen then FirstOccurrences(ks[1..], seen)
    else [ks[0]] + FirstOccurrences(ks[1..], seen + [ks[0]])
  }

  /** The value of the last segment whose key is `k`, if any (every segment
      splits into a key and a value). */
  function LastValue(segments: seq<string>, k: string): Option<string>
  {
    if segments == [] then None
    else
      var later := LastValue(segments[1..], k);
      if later.Some? then later
      else if |Split(segments[0], '=')| == 2 && SegmentKey(segments[0]) == k then Some(Split(segments[0], '=')[1])
      else None
  }

  /** `dict(v.split("=") for v in segments)`, from element `index` on: every
      segment must split into exactly a key and a value. On success the keys
      of `d` come first and the segments' new keys follow in order of first
      occurrence; the last segment with a key decides its value. */
  function DictOf(segments: seq<string>, index: nat, d: seq<(string, string)>): (r: Result<seq<(string, string)>>)
    ensures r.Err? <==> exists i :: 0 <= i < |segments| && |Split(segments[i], '=')| != 2
    ensures r.Err? ==> r.error.ValueError?
    ensures r.Ok? ==> Keys(r.value) == Keys(d) + FirstOccurrences(SegmentKeys(segments), Keys(d))
    ensures r.Ok? ==> forall k :: Get(r.value, k) == (if LastValue(segments, k).Some? then LastValue(segments, k) else Get(d, k))
    decreases |segments|
  {
    if segments == [] then Ok(d)
    else
      var kv := Split(segments[0], '=');
      if |kv| != 2 then
        Err(ValueError("dictionary update sequence element #" + NatToString(index) + " has length " +
                       NatToString(|kv|) + "; 2 is required"))
      else
        var r := DictOf(segments[1..], index + 1, Insert(d, kv[0], kv[1]));
        assert forall i :: 1 <= i < |segments| ==> segments[i] == segments[1..][i - 1];
        r
  }

  /** `parts = request_path.split("?")`; parameters only with exactly one "?",
      built from `parts[query]`. The source uses `parts[0]`. */
  function Params(parts: seq<string>, query: nat): Result<Option<seq<(string, string)>>>
    requires query < 2
  {
    if |parts| == 2 then
      var d :- DictOf(Split(parts[query], '&'), 0, []);
      Ok(Some(d))
    else Ok(None)
  }

  /** `*params or []`: the keys of the parameters, or nothing. */
  function Args(params: Option<seq<(string, string)>>): seq<string>
  {
    if params.Some? then Keys(params.value) else []
  }

  /** What a connection gets: nothing, because the server never stops reading
      headers; an error that escapes `route_requests`; or what was written. */
  datatype Served = Hangs | Raised(error: Error) | Wrote(output: seq<string>)

  const OkStatus: string := "HTTP/1.0 200 OK\r\nContent-type: text/html\r\n\r\n"
  const NotFoundStatus: string := "HTTP/1.0 404 PAGE NOT FOUND\r\nContent-type: text/html\r\n\r\n"

  /** The HTML page with `heading` as its title line. */
  function Page(heading: string): string
  {
    "<!DOCTYPE html>\n        <html>\n            <head><title>Pico Print</title></head>\n            <body>\n" +
    "                <h1>" + heading + "</h1>\n            </body>\n        </html>\n        "
  }

  const NotFound: seq<string> := [NotFoundStatus, Page("404 - Page Not Found")]

  /** The `try` block: the route's handler answers 200 with its result; an
      unknown route, or a `KeyError` from the handler, answers 404; any other
      error escapes. */
  function Respond(routes: map<string, Handler>, route: string, args: seq<string>): Served
  {
    if route !in routes then Wrote(NotFound)
    else
      var result := routes[route](args);
      if result.Ok? then Wrote([OkStatus, Page(result.value)])
      else if result.error.KeyError? then Wrote(NotFound)
      else Raised(result.error)
  }

  /** An unknown route, or a `KeyError` from its handler, answers 404; a
      result answers 200 with the result as the page's heading; any other
      error escapes. */
  lemma RespondCases(routes: map<string, Handler>, route: string, args: seq<string>)
    ensures route !in routes ==> Respond(routes, route, args) == Wrote(NotFound)
    ensures route in routes && routes[route](args).Ok? ==>
              Respond(routes, route, args) == Wrote([OkStatus, Page(routes[route](args).value)])
    ensures route in routes && routes[route](args).Err? ==>
              Respond(routes, route, args) ==
                (if routes[route](args).error.KeyError? then Wrote(NotFound) else Raised(routes[route](args).error))
  {
  }

  /** Everything after the headers, for the request line's text; parameters
      come from `parts[query]`. */
  function Dispatch(routes: map<string, Handler>, request: string, query: nat): Served
    requires query < 2
  {
    var pieces := Split(request, ' ');
    if |pieces| != 3 then
      Raised(ValueError(if |pieces| < 3 then "not enough values to unpack (expected 3, got " + NatToString(|pieces|) + ")"
                        else "too many values to unpack (expected 3)"))
    else PathResponse(routes, pieces[1], query)
  }

  /** The route and parameters of the request path, then the `try` block. */
  function PathResponse(routes: map<string, Handler>, path: string, query: nat): Served
    requires query < 2
  {
    var parts := Split(path, '?');
    match Params(parts, query)
    case Err(e) => Raised(e)
    case Ok(params) => Respond(routes, parts[0], Args(params))
  }

  /** The first line from `k` on that is exactly "\r\n", if any. */
  function HeaderEnd(lines: seq<seq<Byte>>, k: nat): (r: Option<nat>)
    requires k <= |lines|
    ensures r.Some? ==> k <= r.value < |lines| && lines[r.value] == [13, 10]
    ensures r.Some? ==> forall i :: k <= i < r.value ==> lines[i] != [13, 10]
    ensures r.None? ==> forall i :: k <= i < |lines| ==> lines[i] != [13, 10]
    decreases |lines| - k
  {
    if k == |lines| then None
    else if lines[k] == [13, 10] then Some(k)
    else HeaderEnd(lines, k + 1)
  }

  /** `route_requests` on a reader that yields `lines` and then only empty
      reads: without a "\r\n" line the header loop never ends. */
  function Serve(routes: map<string, Handler>, lines: seq<seq<Byte>>, query: nat): Served
    requires query < 2
  {
    var request := if lines == [] then [] else lines[0];
    if lines == [] || HeaderEnd(lines, 1).None? then Hangs
    else Dispatch(routes, Repr(request), query)
  }

  // ---------------------------------------------------------------------------
  // The server
  // ---------------------------------------------------------------------------

  /** `API`. */
  class API {
    /** `_routes`. */
    var routes: map<string, Handler>

    constructor ()
      ensures routes == map[]
    {
      routes := map[];
    }

    /** `route(path)(f)`: `f` answers `path` from now on, replacing any earlier
        handler, and comes back unchanged. */
    method Route(path: string, f: Handler) returns (g: Handler)
      modifies this
      ensures routes == old(routes)[path := f]
      ensures g == f
    {
      routes := routes[path := f];
      g := f;
    }

    /** `route_requests(reader, writer)`. */
    method RouteRequests(lines: seq<seq<Byte>>) returns (s: Served)
      ensures s == Serve(routes, lines, 0)
    {
      if lines == [] {
        return Hangs;
      }
      var k := 1;
      while k < |lines| && lines[k] != [13, 10]
        invariant 1 <= k <= |lines|
        invariant HeaderEnd(lines, 1) == HeaderEnd(lines, k)
        decreases |lines| - k
      {
        k := k + 1;
      }
      if k == |lines| {
        return Hangs;
      }
      s := Dispatch(routes, Repr(lines[0]), 0);
    }
  }

  /** `test_route`: "Hello, World", for a call without arguments. */
  function TestRoute(args: seq<string>): Result<string>
  {
    if args == [] then Ok("Hello, World")
    else Err(TypeError("function takes 0 positional arguments but " + NatToString(|args|) + " were given"))
  }

  /** The routes of the module's `api`. */
  const TestRoutes: map<string, Handler> := map["/test" := TestRoute]

  /** The module's `api`, with "/test" registered. */
  method NewApi() returns (api: API)
    ensures api.routes == TestRoutes
  {
    api := new API();
    var _ := api.Route("/test", TestRoute);
  }

  /** "/test" answers with its greeting. */
  lemma TestServes(request: string)
    requires var pieces := Split(request, ' '); |pieces| == 3 && pieces[1] == "/test"
    ensures Dispatch(TestRoutes, request, 0) == Wrote([OkStatus, Page("Hello, World")])
  {
    TestPath();
  }

  lemma TestPath()
    ensures PathResponse(TestRoutes, "/test", 0) == Wrote([OkStatus, Page("Hello, World")])
  {
    SplitWhole("/test", '?');
    assert Params(["/test"], 0) == Ok(None);
    assert TestRoutes["/test"]([]) == Ok("Hello, World");
  }

  /** A request line with other than two spaces raises `ValueError` before
      any route is looked up. */
  lemma MalformedRequest(routes: map<string, Handler>, lines: seq<seq<Byte>>, query: nat)
    requires query < 2 && lines != [] && HeaderEnd(lines, 1).Some?
    requires CountBytes(lines[0], Space) != 2
    ensures Serve(routes, lines, query).Raised? && Serve(routes, lines, query).error.ValueError?
  {
    ReprPieces(lines[0]);
  }

  /** A request line with one space, "GET /x", fails the three-way
      unpacking and names the two values it got. */
  lemma TwoPieceRequest(routes: map<string, Handler>, query: nat)
    requires query < 2
    ensures Dispatch(routes, "GET /x", query) == Raised(ValueError("not enough values to unpack (expected 3, got 2)"))
  {
    var parts := ["GET", "/x"];
    assert Join(parts, ' ') == "GET /x" by {
      assert parts[1..] == ["/x"];
    }
    assert ' ' !in "GET" && ' ' !in "/x" by {
      assert forall k :: 0 <= k < |"GET"| ==> "GET"[k] != ' ';
      assert forall k :: 0 <= k < |"/x"| ==> "/x"[k] != ' ';
    }
    SplitJoin(parts, ' ');
    assert NatToString(2) == "2" by {
      assert DigitChar(2) == '2';
    }
    assert |Split("GET /x", ' ')| == 2;
    assert "not enough values to unpack (expected 3, got " + NatToString(2) + ")" ==
           "not enough values to unpack (expected 3, got 2)";
  }

  /** The route is the path up to its first "?", whatever follows. */
  lemma UnknownRoute(routes: map<string, Handler>, request: string, query: nat)
    requires query < 2
    requires var pieces := Split(request, ' '); |pieces| == 3 && Split(pieces[1], '?')[0] !in routes
    requires var pieces := Split(request, ' '); |Split(pieces[1], '?')| != 2
    ensures Dispatch(routes, request, query) == Wrote(NotFound)
  {
  }

  /** A path with exactly one "?" whose route part holds no "=": as written
      the parameters are built from the route, whose first piece cannot be a
      key and a value, so `ValueError` is raised, whatever the query. */
  lemma ParamsAsWritten(route: string, query: string)
    requires '?' !in route && '?' !in query && '=' !in route
    ensures Split(route + "?" + query, '?') == [route, query]
    ensures Params(Split(route + "?" + query, '?'), 0).Err?
    ensures Params(Split(route + "?" + query, '?'), 0).error.ValueError?
  {
    assert route + "?" + query == route + ['?'] + query;
    SplitAfter(route, '?', query);
    SplitWhole(query, '?');
    var segments := Split(route, '&');
    assert '=' !in segments[0] by {
      JoinSplit(route, '&');
      JoinHead(segments, '&');
    }
    SplitWhole(segments[0], '=');
  }

  /** With the parameters taken from the query, "route?key=value" gives the
      one parameter `key` = `value`. */
  lemma ParamsCorrected(route: string, key: string, value: string)
    requires '?' !in route && Token(key) && Token(value)
    ensures Split(route + "?" + key + "=" + value, '?') == [route, key + "=" + value]
    ensures Params(Split(route + "?" + key + "=" + value, '?'), 1) == Ok(Some([(key, value)]))
  {
    var query := key + "=" + value;
    assert route + "?" + key + "=" + value == route + ['?'] + query;
    SplitAfter(route, '?', query);
    assert '?' !in query && '&' !in query;
    SplitWhole(query, '?');
    SplitWhole(query, '&');
    assert query == key + ['='] + value;
    SplitAfter(key, '=', value);
    SplitWhole(value, '=');
    var kv := Split(query, '=');
    assert kv == [key, value];
    assert [query][1..] == [];
    assert DictOf([], 1, Insert([], key, value)) == Ok([(key, value)]);
    assert DictOf([query], 0, []) == Ok([(key, value)]);
  }

  /** A whole request whose path has one "?" and a route without "=": as
      written `ValueError` escapes before any handler is looked up. */
  lemma QueryAsWritten(routes: map<string, Handler>, m: string, route: string, query: string, v: string)
    requires '?' !in route && '?' !in query && '=' !in route
    requires ' ' !in m && ' ' !in route && ' ' !in query && ' ' !in v
    ensures Dispatch(routes, m + " " + (route + "?" + query) + " " + v, 0).Raised?
    ensures Dispatch(routes, m + " " + (route + "?" + query) + " " + v, 0).error.ValueError?
  {
    RequestPieces(m, route + "?" + query, v);
    assert PathResponse(routes, route + "?" + query, 0).Raised? &&
           PathResponse(routes, route + "?" + query, 0).error.ValueError? by {
      ParamsAsWritten(route, query);
    }
  }

  /** The same request with the parameters taken from the query calls the
      route's handler with the key. */
  lemma QueryCorrected(routes: map<string, Handler>, m: string, route: string, key: string, value: string, v: string)
    requires '?' !in route && Token(key) && Token(value)
    requires ' ' !in m && ' ' !in route && ' ' !in v
    ensures Dispatch(routes, m + " " + (route + "?" + key + "=" + value) + " " + v, 1) == Respond(routes, route, [key])
  {
    var path := route + "?" + key + "=" + value;
    RequestPieces(m, path, v);
    assert PathResponse(routes, path, 1) == Respond(routes, route, [key]) by {
      ParamsCorrected(route, key, value);
      assert [(key, value)][1..] == [];
      assert Args(Some([(key, value)])) == [key];
    }
  }

  /** Text that can stand as a parameter's key or value in a query. */
  predicate Token(s: string)
  {
    '?' !in s && '&' !in s && '=' !in s && ' ' !in s
  }

  lemma RequestPieces(m: string, p: string, v: string)
    requires ' ' !in m && ' ' !in p && ' ' !in v
    ensures Split(m + " " + p + " " + v, ' ') == [m, p, v]
  {
    assert m + " " + p + " " + v == m + [' '] + (p + [' '] + v);
    SplitAfter(m, ' ', p + [' '] + v);
    SplitAfter(p, ' ', v);
    SplitWhole(v, ' ');
  }

  lemma JoinHead(parts: seq<string>, c: char)
    requires |parts| >= 1
    ensures parts[0] <= Join(parts, c)
  {
  }
}

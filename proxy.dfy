/** proxy.go: a stdin-to-HTTP JSON-RPC relay. Every non-empty stdin line is decoded,
    forwarded to the target URL, and answered on stdout with the server's reply or a
    JSON-RPC error; the log file it writes is named after the target's port and the
    start time. */
module StdioProxy {
  import opened Wrappers
  import opened Json
  import opened Relay

  /** The text `forwardJSONRPCRequest` puts before each forwarding failure. */
  const ForwardWording := Wording(
    "failed to marshal request", "failed to create HTTP request", "HTTP request failed",
    "failed to read response", "failed to parse response JSON")

  /** The error response for `request`, with message `message + ": " + err`, built as
      `sendErrorResponse` builds it: the two fixed members first, then the `id` when the
      request's map has one. */
  method SendErrorResponse(request: Json, code: int, message: string, err: string) returns (response: Json)
    ensures response == ErrorResponse(request, code, message + ": " + err)
    ensures IsErrorWith(response, code, message + ": " + err)
    ensures HasId(response) <==> IdOf(request).Some?
  {
    var fields := map["jsonrpc" := Str("2.0"), "error" := ErrorObject(code, message + ": " + err)];
    if request.Object? && "id" in request.fields {
      fields := fields["id" := request.fields["id"]];
    }
    response := Object(fields);
  }

  /** What stdout receives for one non-empty line: a -32700 error when `json.Unmarshal`
      fails (carrying the `id` of whatever map it filled, so none after a syntax error), a
      -32603 error carrying the request's `id` when forwarding fails, and the server's
      decoded reply otherwise. */
  function LineResponse(line: string, t: Transport): (response: Json)
    ensures var u := UnmarshalMap(t.decode(line));
      && (u.err.Some? ==>
            && IsErrorWith(response, ParseErrorCode, "Parse error: " + u.err.value)
            && (HasId(response) <==> IdOf(u.request).Some?)
            && (HasId(response) ==> response.fields["id"] == IdOf(u.request).value))
      && (u.err.None? && Forward(u.request, t, ForwardWording).Failure? ==>
            && IsErrorWith(response, InternalErrorCode,
                 "Internal error: " + Forward(u.request, t, ForwardWording).error)
            && (HasId(response) <==> IdOf(u.request).Some?)
            && (HasId(response) ==> response.fields["id"] == IdOf(u.request).value))
      && (u.err.None? && Forward(u.request, t, ForwardWording).Success? ==>
            response == Forward(u.request, t, ForwardWording).value)
    ensures t.decode(line).Malformed? ==> !HasId(response)
  {
    var u := UnmarshalMap(t.decode(line));
    match u.err
    case Some(err) => ErrorResponse(u.request, ParseErrorCode, "Parse error: " + err)
    case None =>
      match Forward(u.request, t, ForwardWording)
      case Failure(err) => ErrorResponse(u.request, InternalErrorCode, "Internal error: " + err)
      case Success(reply) => reply
  }

  /** One pass of the relay loop for a non-empty line: decode, forward, and hand the
      reply or the error response to stdout. */
  method RelayLine(line: string, t: Transport) returns (response: Json)
    ensures response == LineResponse(line, t)
  {
    var u := UnmarshalMap(t.decode(line));
    match u.err {
      case Some(err) =>
        response := SendErrorResponse(u.request, ParseErrorCode, "Parse error", err);
        assert "Parse error" + ": " + err == "Parse error: " + err;
      case None =>
        match Forward(u.request, t, ForwardWording) {
          case Failure(err) =>
            response := SendErrorResponse(u.request, InternalErrorCode, "Internal error", err);
            assert "Internal error" + ": " + err == "Internal error: " + err;
          case Success(reply) =>
            response := reply;
        }
    }
  }

  /** The lines the relay handles: the non-empty ones, in order. */
  function NonEmpty(lines: seq<string>): (kept: seq<string>)
    ensures |kept| <= |lines|
    ensures forall l :: l in kept ==> l in lines && l != ""
    ensures forall l :: l in lines && l != "" ==> l in kept
  {
    if lines == [] then []
    else
      var last := lines[|lines| - 1];
      NonEmpty(lines[..|lines| - 1]) + (if last == "" then [] else [last])
  }

  /** The lines handled from a concatenation are those of each part, in turn. */
  lemma {:induction false} NonEmptyAppend(a: seq<string>, b: seq<string>)
    ensures NonEmpty(a + b) == NonEmpty(a) + NonEmpty(b)
    decreases |b|
  {
    if b == [] {
      assert a + b == a;
    } else {
      var c := a + b;
      assert c[..|c| - 1] == a + b[..|b| - 1] && c[|c| - 1] == b[|b| - 1];
      NonEmptyAppend(a, b[..|b| - 1]);
    }
  }

  /** `handleStdinToHTTP` over the whole of stdin: the responses written, one for each
      non-empty line and in the same order, and the final message count. */
  method HandleStdinToHTTP(lines: seq<string>, t: Transport) returns (written: seq<Json>, messageCount: nat)
    ensures messageCount == |written| == |NonEmpty(lines)|
    ensures forall i :: 0 <= i < |written| ==> written[i] == LineResponse(NonEmpty(lines)[i], t)
  {
    written := [];
    messageCount := 0;
    for n := 0 to |lines|
      invariant messageCount == |written| == |NonEmpty(lines[..n])|
      invariant forall i :: 0 <= i < |written| ==> written[i] == LineResponse(NonEmpty(lines[..n])[i], t)
    {
      assert lines[..n + 1][..n] == lines[..n];
      var line := lines[n];
      if line == "" {
        continue;
      }
      messageCount := messageCount + 1;
      var response := RelayLine(line, t);
      assert NonEmpty(lines[..n + 1]) == NonEmpty(lines[..n]) + [line];
      written := written + [response];
    }
    assert lines[..|lines|] == lines;
  }

  /** The digits `u.Port()` can return: `url.Parse` rejects a URL whose port is not all
      digits. */
  type PortDigits = s: string | forall i :: 0 <= i < |s| ==> '0' <= s[i] <= '9'

  /** The parts of a parsed URL the port derivation reads. */
  datatype Url = Url(scheme: string, port: PortDigits)

  predicate AllDigits(s: string)
  {
    forall i :: 0 <= i < |s| ==> '0' <= s[i] <= '9'
  }

  /** The port label of the log file: the URL's explicit port, else the default port of
      `http` or `https`, else "noport"; "unknown" when the URL does not parse. */
  function PortNumber(parsed: Result<Url, string>): (p: string)
    ensures p != ""
    ensures p == "unknown" <==> parsed.Failure?
    ensures p == "noport" <==>
      parsed.Success? && parsed.value.port == "" && parsed.value.scheme != "http" && parsed.value.scheme != "https"
    ensures AllDigits(p) <==> parsed.Success? && (parsed.value.port != "" || parsed.value.scheme in {"http", "https"})
    ensures parsed.Success? && parsed.value.port != "" ==> p == parsed.value.port
    ensures parsed.Success? && parsed.value.port == "" && parsed.value.scheme == "http" ==> p == "80"
    ensures parsed.Success? && parsed.value.port == "" && parsed.value.scheme == "https" ==> p == "443"
  {
    assert !AllDigits("unknown") && !AllDigits("noport") by {
      assert "unknown"[0] == 'u' && "noport"[0] == 'n';
    }
    match parsed
    case Failure(_) => "unknown"
    case Success(u) =>
      if u.port != "" then u.port
      else if u.scheme == "http" then "80"
      else if u.scheme == "https" then "443"
      else "noport"
  }

  /** The local time fields the file name is made of (`time.Now()` is a parameter). */
  datatype Clock = Clock(month: nat, day: nat, year: nat, hour: nat, minute: nat, second: nat)

  predicate ValidClock(c: Clock)
  {
    1 <= c.month <= 12 && 1 <= c.day <= 31 && c.hour < 24 && c.minute < 60 && c.second < 60
  }

  function DigitChar(d: nat): (c: char)
    requires d < 10
    ensures '0' <= c <= '9' && c as int - '0' as int == d
  {
    ('0' as int + d) as char
  }

  function DigitValue(c: char): nat
    requires '0' <= c <= '9'
  {
    c as int - '0' as int
  }

  /** `%02d` of a number below 100: two decimal digits, the first zero below 10. */
  function Pad2(n: nat): (s: string)
    requires n < 100
    ensures |s| == 2 && AllDigits(s)
    ensures DigitValue(s[0]) * 10 + DigitValue(s[1]) == n
  {
    [DigitChar(n / 10), DigitChar(n % 10)]
  }

  /** `MMDDYYhhmmss`: the six time fields as `%02d`, the year reduced to its last two
      digits. */
  function Stamp(c: Clock): (s: string)
    requires ValidClock(c)
    ensures |s| == 12 && AllDigits(s)
  {
    Pad2(c.month) + Pad2(c.day) + Pad2(c.year % 100) + Pad2(c.hour) + Pad2(c.minute) + Pad2(c.second)
  }

  /** The two-digit number at `s[k..k + 2]`. */
  function TwoDigitsAt(s: string, k: nat): nat
    requires k + 2 <= |s| && AllDigits(s)
  {
    DigitValue(s[k]) * 10 + DigitValue(s[k + 1])
  }

  /** Reads the six time fields back from twelve digits. */
  function ReadStamp(s: string): Clock
    requires |s| == 12 && AllDigits(s)
  {
    Clock(TwoDigitsAt(s, 0), TwoDigitsAt(s, 2), TwoDigitsAt(s, 4), TwoDigitsAt(s, 6), TwoDigitsAt(s, 8), TwoDigitsAt(s, 10))
  }

  /** The digits give back every field, the year as its last two digits. */
  lemma StampRoundTrip(c: Clock)
    requires ValidClock(c)
    ensures ReadStamp(Stamp(c)) == c.(year := c.year % 100)
  {
    var s := Stamp(c);
    var m, d, y := Pad2(c.month), Pad2(c.day), Pad2(c.year % 100);
    var h, mi, sec := Pad2(c.hour), Pad2(c.minute), Pad2(c.second);
    assert s == m + d + y + h + mi + sec;
    assert s[0] == m[0] && s[1] == m[1] && s[2] == d[0] && s[3] == d[1];
    assert s[4] == y[0] && s[5] == y[1] && s[6] == h[0] && s[7] == h[1];
    assert s[8] == mi[0] && s[9] == mi[1] && s[10] == sec[0] && s[11] == sec[1];
  }

  /** `<port>_MMDDYYhhmmss.log`. */
  function LogFileName(port: string, c: Clock): (name: string)
    requires ValidClock(c)
    ensures |name| == |port| + 17
    ensures name[..|port|] == port && name[|port|] == '_' && name[|name| - 4..] == ".log"
  {
    port + "_" + Stamp(c) + ".log"
  }

  /** Reads a log file name back into its port label and time fields. */
  function ParseLogFileName(name: string): (r: Option<(string, Clock)>)
    ensures r.Some? ==> |name| == |r.value.0| + 17 && name[..|r.value.0|] == r.value.0
  {
    if |name| < 17 then None
    else
      var k := |name| - 17;
      var stamp := name[k + 1..|name| - 4];
      if name[k] == '_' && name[|name| - 4..] == ".log" && AllDigits(stamp) then
        Some((name[..k], ReadStamp(stamp)))
      else None
  }

  /** The file name determines the port label and every time field it encodes. */
  lemma LogFileNameRoundTrip(port: string, c: Clock)
    requires ValidClock(c)
    ensures ParseLogFileName(LogFileName(port, c)) == Some((port, c.(year := c.year % 100)))
  {
    var name := LogFileName(port, c);
    assert name[|port| + 1..|name| - 4] == Stamp(c);
    StampRoundTrip(c);
  }

  /** A log directory the loop can use: it exists or can be created, and the log file
      opens inside it. */
  predicate Usable(dir: string, fileName: string, mkdirOk: string -> bool, openOk: string -> bool,
                   join: (string, string) -> string)
  {
    mkdirOk(dir) && openOk(join(dir, fileName))
  }

  /** `dirs[i]` is the first usable directory. */
  predicate FirstUsable(dirs: seq<string>, i: nat, fileName: string, mkdirOk: string -> bool, openOk: string -> bool,
                        join: (string, string) -> string)
    requires i < |dirs|
  {
    && Usable(dirs[i], fileName, mkdirOk, openOk, join)
    && forall j :: 0 <= j < i ==> !Usable(dirs[j], fileName, mkdirOk, openOk, join)
  }

  /** `createLogger`'s directory loop: the path of the log file in the first usable
      directory, or the error when none is usable. */
  method CreateLogFile(dirs: seq<string>, fileName: string, mkdirOk: string -> bool, openOk: string -> bool,
                       join: (string, string) -> string) returns (r: Result<string, string>)
    ensures r.Failure? <==> forall i :: 0 <= i < |dirs| ==> !Usable(dirs[i], fileName, mkdirOk, openOk, join)
    ensures r.Failure? ==> r.error == "failed to create log file in any location"
    ensures r.Success? ==>
      exists i :: 0 <= i < |dirs| && FirstUsable(dirs, i, fileName, mkdirOk, openOk, join) && r.value == join(dirs[i], fileName)
  {
    var isOpen := false;
    var logPath := "";
    var n := 0;
    while n < |dirs| && !isOpen
      invariant 0 <= n <= |dirs|
      invariant !isOpen ==> forall j :: 0 <= j < n ==> !Usable(dirs[j], fileName, mkdirOk, openOk, join)
      invariant isOpen ==>
        0 < n && FirstUsable(dirs, n - 1, fileName, mkdirOk, openOk, join) && logPath == join(dirs[n - 1], fileName)
    {
      var dir := dirs[n];
      n := n + 1;
      if !mkdirOk(dir) {
        continue;
      }
      logPath := join(dir, fileName);
      isOpen := openOk(logPath);
    }
    if !isOpen {
      return Failure("failed to create log file in any location");
    }
    r := Success(logPath);
  }
}

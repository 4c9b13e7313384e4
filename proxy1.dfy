/** proxy1.go: the simpler stdin-to-HTTP relay. An empty line is skipped and a line that
    is not a JSON object (or null) is dropped; every other line is forwarded and answered
    with the server's reply, or with a fixed -32603 "Internal error" response. */
module SimpleProxy {
  import opened Wrappers
  import opened Json
  import opened Relay

  /** The text `forwardRequest` puts before each forwarding failure. */
  const ForwardWording := Wording(
    "failed to marshal request", "failed to create HTTP request", "failed to send request",
    "failed to read response", "failed to parse response")

  /** A line the relay answers: non-empty and decoding into a map. */
  predicate Answered(line: string, t: Transport)
  {
    line != "" && Unmarshals(t.decode(line))
  }

  /** The lines the relay answers, in order. */
  function AnsweredLines(lines: seq<string>, t: Transport): (kept: seq<string>)
    ensures |kept| <= |lines|
  {
    if lines == [] then []
    else
      var last := lines[|lines| - 1];
      AnsweredLines(lines[..|lines| - 1], t) + (if Answered(last, t) then [last] else [])
  }

  /** The answered lines are the lines of `lines` that are answered, and only those. */
  lemma {:induction false} AnsweredLinesMembers(lines: seq<string>, t: Transport)
    ensures forall l :: l in AnsweredLines(lines, t) ==> l in lines && Answered(l, t)
    ensures forall l :: l in lines && Answered(l, t) ==> l in AnsweredLines(lines, t)
    decreases |lines|
  {
    if lines != [] {
      var init, last := lines[..|lines| - 1], lines[|lines| - 1];
      AnsweredLinesMembers(init, t);
      assert lines == init + [last];
    }
  }

  /** Adding a line at the end adds it to the answered lines exactly when it is answered. */
  lemma AnsweredLinesSnoc(lines: seq<string>, line: string, t: Transport)
    ensures AnsweredLines(lines + [line], t) == AnsweredLines(lines, t) + (if Answered(line, t) then [line] else [])
  {
    var c := lines + [line];
    assert c[..|c| - 1] == lines && c[|c| - 1] == line;
  }

  /** The lines answered from a concatenation are those of each part, in turn. */
  lemma {:induction false} AnsweredLinesAppend(a: seq<string>, b: seq<string>, t: Transport)
    ensures AnsweredLines(a + b, t) == AnsweredLines(a, t) + AnsweredLines(b, t)
    decreases |b|
  {
    if b == [] {
      assert a + b == a;
    } else {
      var init, last := b[..|b| - 1], b[|b| - 1];
      var added := if Answered(last, t) then [last] else [];
      assert b == init + [last] && a + b == (a + init) + [last];
      calc {
        AnsweredLines(a + b, t);
        { AnsweredLinesSnoc(a + init, last, t); }
        AnsweredLines(a + init, t) + added;
        { AnsweredLinesAppend(a, init, t); }
        (AnsweredLines(a, t) + AnsweredLines(init, t)) + added;
        AnsweredLines(a, t) + (AnsweredLines(init, t) + added);
        { AnsweredLinesSnoc(init, last, t); }
        AnsweredLines(a, t) + AnsweredLines(b, t);
      }
    }
  }

  /** The response to a line, as written for an answered one: the server's decoded reply
      to the line's map, or, when forwarding fails, the -32603 error with the fixed message
      and the request's `id` when it has one. */
  function Respond(line: string, t: Transport): (response: Json)
    ensures var request := UnmarshalMap(t.decode(line)).request;
      && (Forward(request, t, ForwardWording).Success? ==> response == Forward(request, t, ForwardWording).value)
      && (Forward(request, t, ForwardWording).Failure? ==>
            && IsErrorWith(response, InternalErrorCode, "Internal error")
            && (HasId(response) <==> IdOf(request).Some?)
            && (HasId(response) ==> response.fields["id"] == IdOf(request).value))
  {
    var request := UnmarshalMap(t.decode(line)).request;
    match Forward(request, t, ForwardWording)
    case Success(reply) => reply
    case Failure(_) => ErrorResponse(request, InternalErrorCode, "Internal error")
  }

  /** One pass of the relay loop: nothing for a line it skips or cannot decode, otherwise
      the server's reply or the error response built in place. */
  method HandleLine(line: string, t: Transport) returns (response: Option<Json>)
    ensures response.Some? <==> Answered(line, t)
    ensures response.Some? ==> response.value == Respond(line, t)
  {
    if line == "" {
      return None;
    }
    var parsed := UnmarshalMap(t.decode(line));
    if parsed.err.Some? {
      return None;
    }
    var request := parsed.request;
    match Forward(request, t, ForwardWording) {
      case Failure(_) =>
        var fields := map["jsonrpc" := Str("2.0"), "error" := ErrorObject(InternalErrorCode, "Internal error")];
        if request.Object? && "id" in request.fields {
          fields := fields["id" := request.fields["id"]];
        }
        response := Some(Object(fields));
      case Success(reply) =>
        response := Some(reply);
    }
  }

  /** `written` holds the responses to `kept`, one for one. */
  predicate RespondsTo(written: seq<Json>, kept: seq<string>, t: Transport)
  {
    |written| == |kept| && forall i :: 0 <= i < |written| ==> written[i] == Respond(kept[i], t)
  }

  lemma RespondsToSnoc(written: seq<Json>, kept: seq<string>, line: string, t: Transport)
    requires RespondsTo(written, kept, t)
    ensures RespondsTo(written + [Respond(line, t)], kept + [line], t)
  {
    var w, k := written + [Respond(line, t)], kept + [line];
    forall i | 0 <= i < |w| ensures w[i] == Respond(k[i], t) {
      if i < |written| {
        assert w[i] == written[i] && k[i] == kept[i];
      }
    }
  }

  /** `handleStdio` over the whole of stdin: exactly one response per answered line, in
      order, and nothing for the others. */
  method HandleStdio(lines: seq<string>, t: Transport) returns (written: seq<Json>)
    ensures |written| == |AnsweredLines(lines, t)|
    ensures forall i :: 0 <= i < |written| ==> written[i] == Respond(AnsweredLines(lines, t)[i], t)
  {
    written := [];
    for n := 0 to |lines|
      invariant RespondsTo(written, AnsweredLines(lines[..n], t), t)
    {
      var line := lines[n];
      assert lines[..n + 1] == lines[..n] + [line];
      AnsweredLinesSnoc(lines[..n], line, t);
      var response := HandleLine(line, t);
      if response.Some? {
        RespondsToSnoc(written, AnsweredLines(lines[..n], t), line, t);
        written := written + [response.value];
      }
    }
    assert lines[..|lines|] == lines;
  }
}

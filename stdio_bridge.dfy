/**
 * The stdio-to-HTTP JSON-RPC relay (MCP/stdio_bridge.py): every non-blank
 * line read from standard input is decoded, posted to the HTTP server, and
 * the server's answer (or a synthesised JSON-RPC error) is written back,
 * except for notifications.
 *
 * The HTTP round trip is a parameter `server`: given how many requests were
 * sent before and the request itself, it says what came back. The global
 * `session_id` and the requests sent so far are the fields of a `Bridge`.
 */
module StdioBridge {
  import opened Json
  import opened Text

  // ---------------------------------------------------------------------------
  // Requests and exchanges
  // ---------------------------------------------------------------------------

  /** A POST to the server: URL, headers and the JSON-RPC message as the body. */
  datatype Request = Request(url: string, headers: map<string, string>, body: Json)

  /**
   * What one `urlopen` call ends in:
   * - `Answered`: the response's `Mcp-Session-Id` header (if any), its
   *   `Content-Type` (empty when absent), and its body decoded as UTF-8, or
   *   the message of the exception reading or decoding it raised;
   * - `HttpError`: an `HTTPError` with its status code, its body (None when
   *   reading or decoding it failed) and its `str(e)`;
   * - `Failed`: any other exception, with its `str(e)`.
   */
  datatype Exchange =
    | Answered(sessionHeader: Option<string>, contentType: string, body: Result<string>)
    | HttpError(code: int, errorBody: Option<string>, description: string)
    | Failed(description: string)

  /** The server: the outcome of the `n`-th request (counting from 0). */
  type Server = (nat, Request) -> Exchange

  const EventStream := "text/event-stream"
  const ServerErrorCode := -32000
  const ParseErrorCode := -32700

  /** Whether a session id is present and non-empty (`if session_id:`). */
  predicate HasSession(session: Option<string>) {
    session.Some? && session.value != ""
  }

  /**
   * The headers of every request: JSON content, the bearer token, both
   * accepted response types, and the session id exactly when one is held.
   */
  function Headers(token: string, session: Option<string>): (h: map<string, string>)
    ensures "Content-Type" in h && h["Content-Type"] == "application/json"
    ensures "Authorization" in h && h["Authorization"] == "Bearer " + token
    ensures "Accept" in h && h["Accept"] == "application/json, text/event-stream"
    ensures "Mcp-Session-Id" in h <==> HasSession(session)
    ensures HasSession(session) ==> h["Mcp-Session-Id"] == session.value
    ensures h.Keys <= {"Content-Type", "Authorization", "Accept", "Mcp-Session-Id"}
  {
    var base := map[
      "Content-Type" := "application/json",
      "Authorization" := "Bearer " + token,
      "Accept" := "application/json, text/event-stream"];
    if HasSession(session) then base["Mcp-Session-Id" := session.value] else base
  }

  /**
   * The session id after an exchange: replaced by a non-empty
   * `Mcp-Session-Id` response header, kept otherwise (error paths included).
   */
  function SessionAfter(session: Option<string>, ex: Exchange): (s: Option<string>)
    ensures s != session ==> ex.Answered? && HasSession(ex.sessionHeader) && s == ex.sessionHeader
    ensures ex.Answered? && HasSession(ex.sessionHeader) ==> s == ex.sessionHeader
    ensures session.Some? ==> s.Some?
  {
    if ex.Answered? && HasSession(ex.sessionHeader) then ex.sessionHeader else session
  }

  // ---------------------------------------------------------------------------
  // Event-stream bodies
  // ---------------------------------------------------------------------------

  /** The payload of a stripped `data:` line, itself stripped; None for other lines. */
  function Payload(line: string): (p: Option<string>)
    ensures p.Some? <==> StartsWith(Strip(line), "data:")
    ensures p.Some? ==> p.value == Strip(Strip(line)[5..])
  {
    var l := Strip(line);
    if StartsWith(l, "data:") then Some(Strip(l[5..])) else None
  }

  /** What one line adds to `results`: the decoded payload of a non-empty `data:` line that parses. */
  function LineValue(line: string, loads: Parser): (r: seq<Json>)
    ensures |r| <= 1
    ensures |r| == 1 <==> Payload(line).Some? && Payload(line).value != "" && loads(Payload(line).value).Ok?
    ensures |r| == 1 ==> r[0] == loads(Payload(line).value).value
  {
    var p := Payload(line);
    if p.Some? && p.value != "" && loads(p.value).Ok? then [loads(p.value).value] else []
  }

  /** The values collected from a list of lines, in order. */
  function StreamValues(lines: seq<string>, loads: Parser): (r: seq<Json>)
  {
    if lines == [] then []
    else StreamValues(lines[..|lines| - 1], loads) + LineValue(lines[|lines| - 1], loads)
  }

  /** Every collected value is the decoded payload of one of the lines: `i` is that line. */
  lemma {:induction false} StreamValueSource(lines: seq<string>, loads: Parser, k: nat) returns (i: nat)
    requires k < |StreamValues(lines, loads)|
    ensures i < |lines| && LineValue(lines[i], loads) == [StreamValues(lines, loads)[k]]
  {
    var init, last := lines[..|lines| - 1], lines[|lines| - 1];
    var before := StreamValues(init, loads);
    assert StreamValues(lines, loads) == before + LineValue(last, loads);
    if k < |before| {
      i := StreamValueSource(init, loads, k);
      assert lines[i] == init[i];
    } else {
      i := |lines| - 1;
    }
  }

  lemma LastFromLines(lines: seq<string>, loads: Parser)
    ensures var v := Last(StreamValues(lines, loads));
      v.Some? ==> exists i | 0 <= i < |lines| :: LineValue(lines[i], loads) == [v.value]
  {
    var values := StreamValues(lines, loads);
    if values != [] {
      var i := StreamValueSource(lines, loads, |values| - 1);
    }
  }

  /** `results[-1] if results else None`. */
  function Last(values: seq<Json>): (r: Option<Json>)
    ensures r.None? <==> values == []
    ensures r.Some? ==> r.value == values[|values| - 1]
  {
    if values == [] then None else Some(values[|values| - 1])
  }

  /** The value an event-stream body yields: the last `data:` payload that parses. */
  function LastStreamValue(body: string, loads: Parser): (r: Option<Json>)
    ensures r.Some? ==> exists i | 0 <= i < |Split(body, '\n')| :: LineValue(Split(body, '\n')[i], loads) == [r.value]
  {
    LastFromLines(Split(body, '\n'), loads);
    Last(StreamValues(Split(body, '\n'), loads))
  }

  /** The SSE branch of `send_to_server`: collect every parsed payload, keep the last. */
  method DecodeEventStream(body: string, loads: Parser) returns (r: Option<Json>)
    ensures r == LastStreamValue(body, loads)
  {
    var lines := Split(body, '\n');
    var results := CollectPayloads(lines, loads);
    r := Last(results);
  }

  /** The loop over the body's lines, appending each `data:` payload that parses. */
  method CollectPayloads(lines: seq<string>, loads: Parser) returns (results: seq<Json>)
    ensures results == StreamValues(lines, loads)
  {
    results := [];
    for i := 0 to |lines|
      invariant results == StreamValues(lines[..i], loads)
    {
      StreamValuesStep(lines, i, loads);
      var line := Strip(lines[i]);
      if StartsWith(line, "data:") {
        var jsonStr := Strip(line[5..]);
        if jsonStr != "" {
          match loads(jsonStr)
          case Ok(v) =>
            assert LineValue(lines[i], loads) == [v];
            results := results + [v];
          case Err(_) =>
            assert LineValue(lines[i], loads) == [];
        } else {
          assert LineValue(lines[i], loads) == [];
        }
      } else {
        assert LineValue(lines[i], loads) == [];
      }
    }
    assert lines[..|lines|] == lines;
  }

  lemma StreamValuesStep(lines: seq<string>, i: nat, loads: Parser)
    requires i < |lines|
    ensures StreamValues(lines[..i + 1], loads) == StreamValues(lines[..i], loads) + LineValue(lines[i], loads)
  {
    assert lines[..i + 1][..i] == lines[..i];
  }

  lemma {:induction false} StreamValuesAppend(a: seq<string>, b: seq<string>, loads: Parser)
    ensures StreamValues(a + b, loads) == StreamValues(a, loads) + StreamValues(b, loads)
    decreases |b|
  {
    if b != [] {
      var b', x := b[..|b| - 1], b[|b| - 1];
      assert (a + b)[..|a + b| - 1] == a + b' && (a + b)[|a + b| - 1] == x;
      StreamValuesAppend(a, b', loads);
      var v := LineValue(x, loads);
      assert StreamValues(a + b, loads) == StreamValues(a + b', loads) + v;
      assert StreamValues(b, loads) == StreamValues(b', loads) + v;
      ConcatAssoc(StreamValues(a, loads), StreamValues(b', loads), v);
    } else {
      assert a + b == a;
    }
  }

  lemma StreamValuesSingle(line: string, loads: Parser)
    ensures StreamValues([line], loads) == LineValue(line, loads)
  {
    assert [line][..0] == [];
  }

  const DoneMarker := "[DONE]"
  const DoneLine := "data: " + DoneMarker

  /** A `data: ` line carries its payload, when the payload has no surrounding whitespace. */
  lemma DataLinePayload(p: string)
    requires p != [] && !IsSpace(p[0]) && !IsSpace(p[|p| - 1])
    ensures Payload("data: " + p) == Some(p)
  {
    var line := "data: " + p;
    NoOuterSpaceStrip(line);
    assert line[..5] == "data:";
    var rest := line[5..];
    assert rest == [' '] + p;
    assert rest[1..] == p;
    assert SkipSpace(rest, 1) == 1;
    assert TrimStart(rest) == p;
    assert TrimEnd(p) == p;
  }

  lemma DoneLineIsSkipped(loads: Parser)
    requires loads(DoneMarker).Err?
    ensures LineValue(DoneLine, loads) == []
  {
    DataLinePayload(DoneMarker);
  }

  /**
   * A line that yields a value hides every earlier one: the last yielding
   * line wins, whatever came before it (a `data: [DONE]` line included).
   */
  lemma LastLineWins(before: seq<string>, line: string, v: Json, loads: Parser)
    requires LineValue(line, loads) == [v]
    ensures Last(StreamValues(before + [line], loads)) == Some(v)
  {
    StreamValuesSingle(line, loads);
    StreamValuesAppend(before, [line], loads);
  }

  /** A line that yields nothing leaves the values of the lines around it as they were. */
  lemma SkippedLineAddsNothing(before: seq<string>, line: string, after: seq<string>, loads: Parser)
    requires LineValue(line, loads) == []
    ensures StreamValues(before + [line] + after, loads) == StreamValues(before, loads) + StreamValues(after, loads)
  {
    StreamValuesSingle(line, loads);
    StreamValuesAppend(before, [line], loads);
    assert StreamValues(before + [line], loads) == StreamValues(before, loads);
    StreamValuesAppend(before + [line], after, loads);
  }

  /**
   * `[DONE]` does not end the stream: when the marker does not parse, a
   * `data: [DONE]` line adds nothing and the lines after it still count.
   */
  lemma DoneLineAddsNothing(before: seq<string>, after: seq<string>, loads: Parser)
    requires loads(DoneMarker).Err?
    ensures StreamValues(before + [DoneLine] + after, loads) == StreamValues(before, loads) + StreamValues(after, loads)
  {
    DoneLineIsSkipped(loads);
    SkippedLineAddsNothing(before, DoneLine, after, loads);
  }

  /** Without a `data:` line that parses, an event stream yields nothing. */
  lemma {:induction false} NothingParsedNothingReturned(lines: seq<string>, loads: Parser)
    requires forall i | 0 <= i < |lines| :: LineValue(lines[i], loads) == []
    ensures StreamValues(lines, loads) == []
  {
    if lines != [] {
      NothingParsedNothingReturned(lines[..|lines| - 1], loads);
    }
  }

  // ---------------------------------------------------------------------------
  // send_to_server
  // ---------------------------------------------------------------------------

  /** The JSON-RPC error object the bridge synthesises for a message with this id. */
  function ServerError(id: Json, message: string): (r: Json)
    ensures r.JObj? && Truthy(r) && "result" !in r.fields
    ensures Get(r.fields, "jsonrpc") == JStr("2.0") && Get(r.fields, "id") == id
    ensures Get(r.fields, "error").JObj?
    ensures Get(Get(r.fields, "error").fields, "code") == JInt(-32000)
    ensures Get(Get(r.fields, "error").fields, "message") == JStr(message)
  {
    ErrorResponse(id, ServerErrorCode, message)
  }

  /** `message.get("id")`. */
  function IdOf(message: map<string, Json>): Json {
    Get(message, "id")
  }

  /**
   * What `send_to_server` returns for a message after the given exchange.
   * A body that cannot be read, a plain body that does not parse and every
   * exception become a `-32000` error carrying the message's own id.
   */
  function ResponseFor(message: map<string, Json>, ex: Exchange, loads: Parser): (r: Option<Json>)
    ensures ex.HttpError? ==> r == Some(ServerError(IdOf(message),
      "HTTP " + IntToString(ex.code) + ": " + (if ex.errorBody.Some? then ex.errorBody.value else ex.description)))
    ensures ex.Failed? ==> r == Some(ServerError(IdOf(message), ex.description))
    ensures ex.Answered? && ex.body.Err? ==> r == Some(ServerError(IdOf(message), ex.body.msg))
    ensures ex.Answered? && ex.body.Ok? && Contains(ex.contentType, EventStream) ==>
      r == LastStreamValue(ex.body.value, loads)
    ensures ex.Answered? && ex.body.Ok? && !Contains(ex.contentType, EventStream) ==>
      (r.None? <==> AllSpace(ex.body.value))
    ensures ex.Answered? && ex.body.Ok? && !Contains(ex.contentType, EventStream) && !AllSpace(ex.body.value) ==>
      r == Some(if loads(ex.body.value).Ok? then loads(ex.body.value).value
                else ServerError(IdOf(message), loads(ex.body.value).msg))
  {
    var id := IdOf(message);
    match ex
    case Answered(_, contentType, body) =>
      (match body
       case Err(msg) => Some(ServerError(id, msg))
       case Ok(text) =>
         if Contains(contentType, EventStream) then LastStreamValue(text, loads)
         else if Strip(text) == "" then None
         else match loads(text)
           case Ok(v) => Some(v)
           case Err(msg) => Some(ServerError(id, msg)))
    case HttpError(code, errorBody, description) =>
      var detail := if errorBody.Some? then errorBody.value else description;
      Some(ServerError(id, "HTTP " + IntToString(code) + ": " + detail))
    case Failed(description) => Some(ServerError(id, description))
  }

  /** The reply relayed for one forwarded message, given what the server did with it. */
  method Respond(message: map<string, Json>, ex: Exchange, loads: Parser) returns (response: Option<Json>)
    ensures response == ResponseFor(message, ex, loads)
  {
    var id := Get(message, "id");
    match ex {
      case Answered(_, contentType, body) =>
        match body {
          case Err(msg) =>
            response := Some(ErrorResponse(id, ServerErrorCode, msg));
          case Ok(text) =>
            if Contains(contentType, EventStream) {
              response := DecodeEventStream(text, loads);
            } else if Strip(text) != "" {
              match loads(text) {
                case Ok(v) => response := Some(v);
                case Err(msg) => response := Some(ErrorResponse(id, ServerErrorCode, msg));
              }
            } else {
              response := None;
            }
        }
      case HttpError(code, errorBody, description) =>
        var detail := description;
        if errorBody.Some? {
          detail := errorBody.value;
        }
        response := Some(ErrorResponse(id, ServerErrorCode, "HTTP " + IntToString(code) + ": " + detail));
      case Failed(description) =>
        response := Some(ErrorResponse(id, ServerErrorCode, description));
    }
  }

  /** Every error the bridge synthesises for a forwarded message carries that message's id. */
  lemma ErrorsReuseTheId(message: map<string, Json>, ex: Exchange, loads: Parser)
    requires !ex.Answered? || ex.body.Err?
    ensures var r := ResponseFor(message, ex, loads);
      r.Some? && r.value.JObj? && Get(r.value.fields, "id") == IdOf(message)
      && Get(Get(r.value.fields, "error").fields, "code") == JInt(ServerErrorCode)
  {
  }

  // ---------------------------------------------------------------------------
  // The per-line loop of main
  // ---------------------------------------------------------------------------

  /** The bridge's state: the session id and the requests sent so far. */
  datatype State = State(session: Option<string>, sent: seq<Request>)

  /** What one input line produces: at most one output line, and the new state. */
  datatype Turn = Turn(output: seq<Json>, state: State)

  /**
   * Whether a line either does not decode or decodes to an object. A
   * non-object message is still sent; `message.get` then raises when the
   * exchange fails or the response is truthy, and otherwise the loop goes on
   * without a reply. Such lines are outside the model.
   */
  predicate DecodesToObject(line: string, loads: Parser) {
    Strip(line) != "" && loads(Strip(line)).Ok? ==> loads(Strip(line)).value.JObj?
  }

  /** The JSON-RPC parse error written for a line that does not decode. */
  function ParseError(msg: string): Json {
    ErrorResponse(JNull, ParseErrorCode, "Parse error: " + msg)
  }

  /** One iteration of the loop in `main`. */
  function Step(url: string, token: string, st: State, line: string, server: Server, loads: Parser): (t: Turn)
    requires DecodesToObject(line, loads)
    ensures |t.output| <= 1
    ensures |st.sent| <= |t.state.sent| <= |st.sent| + 1 && t.state.sent[..|st.sent|] == st.sent
    ensures |t.state.sent| == |st.sent| + 1 ==> t.state.sent[|st.sent|].headers == Headers(token, st.session)
  {
    var text := Strip(line);
    if text == "" then Turn([], st)
    else match loads(text)
      case Err(msg) => Turn([ParseError(msg)], st)
      case Ok(message) =>
        var request := Request(url, Headers(token, st.session), message);
        var ex := server(|st.sent|, request);
        var response := ResponseFor(message.fields, ex, loads);
        var output := if response.Some? && Truthy(response.value) && IdOf(message.fields) != JNull
          then [response.value] else [];
        assert (st.sent + [request])[..|st.sent|] == st.sent;
        Turn(output, State(SessionAfter(st.session, ex), st.sent + [request]))
  }

  /** The loop over the first lines: everything written, and the state reached. */
  function Relay(url: string, token: string, st: State, lines: seq<string>, server: Server, loads: Parser): (t: Turn)
    requires forall i | 0 <= i < |lines| :: DecodesToObject(lines[i], loads)
    ensures |st.sent| <= |t.state.sent| <= |st.sent| + |lines| && t.state.sent[..|st.sent|] == st.sent
  {
    if lines == [] then Turn([], st)
    else
      var before := Relay(url, token, st, lines[..|lines| - 1], server, loads);
      var last := Step(url, token, before.state, lines[|lines| - 1], server, loads);
      Turn(before.output + last.output, last.state)
  }

  /** A blank line is skipped: no output and no request. */
  lemma BlankLineIsInert(url: string, token: string, st: State, line: string, server: Server, loads: Parser)
    requires AllSpace(line)
    ensures Step(url, token, st, line, server, loads) == Turn([], st)
  {
  }

  /** A line that does not decode gets exactly one `-32700` reply with a null id, and nothing is sent. */
  lemma UndecodableLineGetsParseError(url: string, token: string, st: State, line: string, server: Server, loads: Parser)
    requires !AllSpace(line) && loads(Strip(line)).Err?
    ensures var t := Step(url, token, st, line, server, loads);
      t.state == st && |t.output| == 1 && t.output[0].JObj?
      && Get(t.output[0].fields, "id") == JNull
      && Get(Get(t.output[0].fields, "error").fields, "code") == JInt(ParseErrorCode)
  {
  }

  /**
   * A decoded message is forwarded exactly once, and a reply is written
   * exactly when the response is present and truthy and the message has a
   * non-null id: notifications never get one, not even an error.
   */
  lemma ReplyOnlyToRequests(url: string, token: string, st: State, line: string, server: Server, loads: Parser)
    requires !AllSpace(line) && loads(Strip(line)).Ok? && loads(Strip(line)).value.JObj?
    ensures var message := loads(Strip(line)).value.fields;
      var request := Request(url, Headers(token, st.session), JObj(message));
      var response := ResponseFor(message, server(|st.sent|, request), loads);
      var t := Step(url, token, st, line, server, loads);
      && t.state.sent == st.sent + [request]
      && (t.output != [] <==> response.Some? && Truthy(response.value) && IdOf(message) != JNull)
      && (t.output != [] ==> t.output == [response.value])
  {
  }

  /** The session id is never cleared, and a held id is only ever replaced by a non-empty one. */
  lemma {:induction false} SessionNeverCleared(url: string, token: string, st: State, lines: seq<string>, server: Server, loads: Parser)
    requires forall i | 0 <= i < |lines| :: DecodesToObject(lines[i], loads)
    requires HasSession(st.session)
    ensures HasSession(Relay(url, token, st, lines, server, loads).state.session)
  {
    if lines != [] {
      SessionNeverCleared(url, token, st, lines[..|lines| - 1], server, loads);
    }
  }

  /** Once a session id is held, every request sent afterwards carries it in `Mcp-Session-Id`. */
  lemma {:induction false} SessionSentOnLaterRequests(url: string, token: string, st: State, lines: seq<string>, server: Server, loads: Parser)
    requires forall i | 0 <= i < |lines| :: DecodesToObject(lines[i], loads)
    requires HasSession(st.session)
    ensures var sent := Relay(url, token, st, lines, server, loads).state.sent;
      |st.sent| <= |sent| && forall k | |st.sent| <= k < |sent| ::
        "Mcp-Session-Id" in sent[k].headers && sent[k].headers["Mcp-Session-Id"] != ""
  {
    if lines != [] {
      var prefix := lines[..|lines| - 1];
      var before := Relay(url, token, st, prefix, server, loads).state;
      SessionSentOnLaterRequests(url, token, st, prefix, server, loads);
      SessionNeverCleared(url, token, st, prefix, server, loads);
      var after := Step(url, token, before, lines[|lines| - 1], server, loads).state;
      assert Relay(url, token, st, lines, server, loads).state == after;
      forall k | |st.sent| <= k < |after.sent|
        ensures "Mcp-Session-Id" in after.sent[k].headers && after.sent[k].headers["Mcp-Session-Id"] != ""
      {
        if k < |before.sent| {
          assert after.sent[k] == after.sent[..|before.sent|][k];
        }
      }
    }
  }

  /** The state reached over `a + b` is the state reached over `b` from the state `a` leads to. */
  lemma {:induction false} RelayAppendState(url: string, token: string, st: State, a: seq<string>, b: seq<string>, server: Server, loads: Parser)
    requires forall i | 0 <= i < |a| :: DecodesToObject(a[i], loads)
    requires forall i | 0 <= i < |b| :: DecodesToObject(b[i], loads)
    ensures forall i | 0 <= i < |a + b| :: DecodesToObject((a + b)[i], loads)
    ensures var mid := Relay(url, token, st, a, server, loads);
      var rest := Relay(url, token, mid.state, b, server, loads);
      Relay(url, token, st, a + b, server, loads).state == rest.state
    decreases |b|
  {
    DecodesAppend(a, b, loads);
    if b == [] {
      assert a + b == a;
    } else {
      var b', x := b[..|b| - 1], b[|b| - 1];
      RelayAppendState(url, token, st, a, b', server, loads);
      assert (a + b)[..|a + b| - 1] == a + b' && (a + b)[|a + b| - 1] == x;
      var mid := Relay(url, token, st, a, server, loads);
      var rest := Relay(url, token, mid.state, b', server, loads);
      var last := Step(url, token, rest.state, x, server, loads);
      RelayLast(url, token, st, a + b, server, loads);
      RelayLast(url, token, mid.state, b, server, loads);
    }
  }

  /** The lines written over `a + b` are those written over `a`, then those written over `b`. */
  lemma {:induction false} RelayAppendOutput(url: string, token: string, st: State, a: seq<string>, b: seq<string>, server: Server, loads: Parser)
    requires forall i | 0 <= i < |a| :: DecodesToObject(a[i], loads)
    requires forall i | 0 <= i < |b| :: DecodesToObject(b[i], loads)
    ensures forall i | 0 <= i < |a + b| :: DecodesToObject((a + b)[i], loads)
    ensures var mid := Relay(url, token, st, a, server, loads);
      Relay(url, token, st, a + b, server, loads).output == mid.output + Relay(url, token, mid.state, b, server, loads).output
    decreases |b|
  {
    DecodesAppend(a, b, loads);
    if b == [] {
      assert a + b == a;
    } else {
      var b', x := b[..|b| - 1], b[|b| - 1];
      RelayAppendOutput(url, token, st, a, b', server, loads);
      RelayAppendState(url, token, st, a, b', server, loads);
      assert (a + b)[..|a + b| - 1] == a + b' && (a + b)[|a + b| - 1] == x;
      var mid := Relay(url, token, st, a, server, loads);
      var rest := Relay(url, token, mid.state, b', server, loads);
      var last := Step(url, token, rest.state, x, server, loads);
      RelayLast(url, token, st, a + b, server, loads);
      RelayLast(url, token, mid.state, b, server, loads);
      ConcatAssoc(mid.output, rest.output, last.output);
    }
  }

  lemma ConcatAssoc(x: seq<Json>, y: seq<Json>, z: seq<Json>)
    ensures x + y + z == x + (y + z)
  {
  }

  /** Running the loop over `a + b` is running it over `a`, then over `b` from the state reached. */
  lemma RelayAppend(url: string, token: string, st: State, a: seq<string>, b: seq<string>, server: Server, loads: Parser)
    requires forall i | 0 <= i < |a| :: DecodesToObject(a[i], loads)
    requires forall i | 0 <= i < |b| :: DecodesToObject(b[i], loads)
    ensures forall i | 0 <= i < |a + b| :: DecodesToObject((a + b)[i], loads)
    ensures var mid := Relay(url, token, st, a, server, loads);
      var rest := Relay(url, token, mid.state, b, server, loads);
      Relay(url, token, st, a + b, server, loads) == Turn(mid.output + rest.output, rest.state)
  {
    RelayAppendState(url, token, st, a, b, server, loads);
    RelayAppendOutput(url, token, st, a, b, server, loads);
  }

  /** The loop's last iteration, with the lines before it already relayed. */
  lemma RelayLast(url: string, token: string, st: State, lines: seq<string>, server: Server, loads: Parser)
    requires forall i | 0 <= i < |lines| :: DecodesToObject(lines[i], loads)
    requires lines != []
    ensures var before := Relay(url, token, st, lines[..|lines| - 1], server, loads);
      var last := Step(url, token, before.state, lines[|lines| - 1], server, loads);
      Relay(url, token, st, lines, server, loads) == Turn(before.output + last.output, last.state)
  {
  }

  lemma DecodesAppend(a: seq<string>, b: seq<string>, loads: Parser)
    requires forall i | 0 <= i < |a| :: DecodesToObject(a[i], loads)
    requires forall i | 0 <= i < |b| :: DecodesToObject(b[i], loads)
    ensures forall i | 0 <= i < |a + b| :: DecodesToObject((a + b)[i], loads)
  {
    forall i | 0 <= i < |a + b|
      ensures DecodesToObject((a + b)[i], loads)
    {
      if i >= |a| {
        assert (a + b)[i] == b[i - |a|];
      }
    }
  }

  /**
   * The request a decodable line sends is built from the session held when
   * the line is read, and it stays at its place in the requests sent,
   * whatever lines follow.
   */
  lemma RequestCarriesHeldSession(url: string, token: string, st: State, before: seq<string>, line: string,
                                  after: seq<string>, server: Server, loads: Parser)
    requires forall i | 0 <= i < |before| :: DecodesToObject(before[i], loads)
    requires DecodesToObject(line, loads)
    requires forall i | 0 <= i < |after| :: DecodesToObject(after[i], loads)
    requires !AllSpace(line) && loads(Strip(line)).Ok?
    ensures forall i | 0 <= i < |before + [line] + after| :: DecodesToObject((before + [line] + after)[i], loads)
    ensures var held := Relay(url, token, st, before, server, loads).state;
      var sent := Relay(url, token, st, before + [line] + after, server, loads).state.sent;
      && |held.sent| < |sent|
      && sent[|held.sent|] == Request(url, Headers(token, held.session), loads(Strip(line)).value)
      && (HasSession(held.session) ==> sent[|held.sent|].headers["Mcp-Session-Id"] == held.session.value)
  {
    var held := Relay(url, token, st, before, server, loads).state;
    RelayAppend(url, token, st, before, [line], server, loads);
    assert [line][..0] == [];
    var next := Step(url, token, held, line, server, loads);
    assert Relay(url, token, st, before + [line], server, loads).state == next.state;
    RelayAppend(url, token, st, before + [line], after, server, loads);
  }

  /** A session id learned part-way through is carried by every request sent after it was learned. */
  lemma SessionLearnedMidRun(url: string, token: string, st: State, a: seq<string>, b: seq<string>, server: Server, loads: Parser)
    requires forall i | 0 <= i < |a| :: DecodesToObject(a[i], loads)
    requires forall i | 0 <= i < |b| :: DecodesToObject(b[i], loads)
    requires HasSession(Relay(url, token, st, a, server, loads).state.session)
    ensures forall i | 0 <= i < |a + b| :: DecodesToObject((a + b)[i], loads)
    ensures var learned := Relay(url, token, st, a, server, loads).state;
      var sent := Relay(url, token, st, a + b, server, loads).state.sent;
      |learned.sent| <= |sent| && forall k | |learned.sent| <= k < |sent| ::
        "Mcp-Session-Id" in sent[k].headers && sent[k].headers["Mcp-Session-Id"] != ""
  {
    RelayAppend(url, token, st, a, b, server, loads);
    SessionSentOnLaterRequests(url, token, Relay(url, token, st, a, server, loads).state, b, server, loads);
  }

  /** Each input line yields at most one output line. */
  lemma {:induction false} AtMostOneReplyPerLine(url: string, token: string, st: State, lines: seq<string>, server: Server, loads: Parser)
    requires forall i | 0 <= i < |lines| :: DecodesToObject(lines[i], loads)
    ensures |Relay(url, token, st, lines, server, loads).output| <= |lines|
  {
    if lines != [] {
      AtMostOneReplyPerLine(url, token, st, lines[..|lines| - 1], server, loads);
    }
  }

  // ---------------------------------------------------------------------------
  // The bridge process
  // ---------------------------------------------------------------------------

  /** The running bridge: its command-line settings, the global `session_id` and the requests it has sent. */
  class Bridge {
    const url: string
    const token: string
    var sessionId: Option<string>
    var sent: seq<Request>

    function Current(): State
      reads this
    {
      State(sessionId, sent)
    }

    constructor (url: string, token: string)
      ensures this.url == url && this.token == token
      ensures sessionId == None && sent == []
    {
      this.url := url;
      this.token := token;
      sessionId := None;
      sent := [];
    }

    /** `send_to_server`: one POST, the session capture, and the decoded response. */
    method SendToServer(message: map<string, Json>, server: Server, loads: Parser) returns (response: Option<Json>)
      modifies this
      ensures var request := Request(url, Headers(token, old(sessionId)), JObj(message));
        var ex := server(|old(sent)|, request);
        && sent == old(sent) + [request]
        && sessionId == SessionAfter(old(sessionId), ex)
        && response == ResponseFor(message, ex, loads)
    {
      var headers := map[
        "Content-Type" := "application/json",
        "Authorization" := "Bearer " + token,
        "Accept" := "application/json, text/event-stream"];
      if sessionId.Some? && sessionId.value != "" {
        headers := headers["Mcp-Session-Id" := sessionId.value];
      }
      assert headers == Headers(token, sessionId);
      var request := Request(url, headers, JObj(message));
      var ex := server(|sent|, request);
      sent := sent + [request];
      if ex.Answered? && ex.sessionHeader.Some? && ex.sessionHeader.value != "" {
        sessionId := ex.sessionHeader;
      }
      response := Respond(message, ex, loads);
    }

    /** The loop of `main` over the input lines; returns the lines written, in order. */
    method Run(lines: seq<string>, server: Server, loads: Parser) returns (output: seq<Json>)
      requires forall i | 0 <= i < |lines| :: DecodesToObject(lines[i], loads)
      modifies this
      ensures var t := Relay(url, token, old(Current()), lines, server, loads);
        output == t.output && Current() == t.state
    {
      ghost var start := Current();
      output := [];
      for i := 0 to |lines|
        invariant Relay(url, token, start, lines[..i], server, loads) == Turn(output, Current())
      {
        assert lines[..i + 1][..i] == lines[..i];
        assert lines[..i + 1][i] == lines[i];
        var line := Strip(lines[i]);
        if line == "" {
          assert output + [] == output;
          continue;
        }
        match loads(line) {
          case Err(msg) =>
            output := output + [ErrorResponse(JNull, ParseErrorCode, "Parse error: " + msg)];
          case Ok(message) =>
            var response := SendToServer(message.fields, server, loads);
            if response.Some? && Truthy(response.value) && Get(message.fields, "id") != JNull {
              output := output + [response.value];
            } else {
              assert output + [] == output;
            }
        }
      }
      assert lines[..|lines|] == lines;
    }
  }
}

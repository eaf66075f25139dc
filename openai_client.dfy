/**
 * The OpenAI client of the MCP server (`MCP/server/integrations/openai.py`)
 * outside JSON extraction: the server-sent-event accumulation of a streamed
 * chat completion, the request payload of a chat completion, the API-key
 * checks, the lazily created HTTP session of one client, and the per-key
 * cache of clients kept by the manager.
 *
 * The HTTP exchanges themselves are inputs: the streamed lines, the outcome
 * of the `/models` probe.
 */
module OpenAIClient {
  import opened Json
  import opened Text

  // ---------------------------------------------------------------------------
  // _stream_completion
  // ---------------------------------------------------------------------------

  /** What one line of the event stream does to the accumulated content. */
  datatype LineEffect =
    | Ignore              // not a `data: ` line, a payload that does not decode, or a delta without content
    | Stop                // the `[DONE]` marker: the loop breaks
    | Append(part: Json)  // `delta["content"]`, whatever its JSON type
    | Raise               // an exception other than a decoding error escapes the loop

  /** The outcome of `_stream_completion`: the joined content, or an exception. */
  datatype Completion = Returned(content: string) | Raised

  /**
   * `data["choices"][0].get("delta", {})` followed by `if "content" in delta:
   * content_parts.append(delta["content"])`, with Python's behaviour on
   * values of the wrong type: a missing key, an empty or non-list `choices`,
   * a first choice that is not a dict, and a `delta` that is neither a dict
   * nor a container all raise.
   */
  function ChunkEffect(data: Json): (e: LineEffect)
    ensures e.Append? <==>
      data.JObj? && "choices" in data.fields && data.fields["choices"].JArr? && |data.fields["choices"].items| > 0
      && data.fields["choices"].items[0].JObj? && "delta" in data.fields["choices"].items[0].fields
      && data.fields["choices"].items[0].fields["delta"].JObj?
      && "content" in data.fields["choices"].items[0].fields["delta"].fields
    ensures e.Append? ==> e.part == data.fields["choices"].items[0].fields["delta"].fields["content"]
    ensures e == Raise <==>
      || !data.JObj? || "choices" !in data.fields
      || !data.fields["choices"].JArr? || data.fields["choices"].items == []
      || !data.fields["choices"].items[0].JObj?
      || ("delta" in data.fields["choices"].items[0].fields
          && var delta := data.fields["choices"].items[0].fields["delta"];
          || delta.JNull? || delta.JBool? || delta.JInt? || delta.JReal?
          || (delta.JStr? && Contains(delta.s, "content"))
          || (delta.JArr? && JStr("content") in delta.items))
    ensures e != Stop
  {
    if !data.JObj? || "choices" !in data.fields then Raise
    else
      var choices := data.fields["choices"];
      if !choices.JArr? || |choices.items| == 0 then Raise
      else
        var first := choices.items[0];
        if !first.JObj? then Raise
        else
          var delta := if "delta" in first.fields then first.fields["delta"] else JObj(map[]);
          match delta
          case JObj(f) => if "content" in f then Append(f["content"]) else Ignore
          case JStr(s) => if Contains(s, "content") then Raise else Ignore
          case JArr(items) => if JStr("content") in items then Raise else Ignore
          case _ => Raise
  }

  /** The effect of one streamed line. */
  function Effect(line: string, loads: Parser): LineEffect {
    if !StartsWith(line, "data: ") then Ignore
    else
      var dataStr := line[6..];
      if Strip(dataStr) == "[DONE]" then Stop
      else match loads(dataStr)
        case Err(_) => Ignore
        case Ok(data) => ChunkEffect(data)
  }

  /** `Effect` with the parser fixed. */
  function EffectOf(loads: Parser): string -> LineEffect {
    line => Effect(line, loads)
  }

  /** `f` applied to each line, in order. */
  function MapLines(lines: seq<string>, f: string -> LineEffect): (es: seq<LineEffect>)
    ensures |es| == |lines| && forall i | 0 <= i < |lines| :: es[i] == f(lines[i])
  {
    seq(|lines|, i requires 0 <= i < |lines| => f(lines[i]))
  }

  /** The effects of the lines, one per line. */
  function Effects(lines: seq<string>, loads: Parser): seq<LineEffect> {
    MapLines(lines, EffectOf(loads))
  }

  /** The parts a run of effects yields, in order, up to the first `Stop`; None once one raises. */
  function Gather(effects: seq<LineEffect>): Option<seq<Json>> {
    if effects == [] then Some([])
    else match effects[0]
      case Ignore => Gather(effects[1..])
      case Stop => Some([])
      case Raise => None
      case Append(p) => Then([p], Gather(effects[1..]))
  }

  /** The content parts collected from the lines, in order, up to `[DONE]`; None if an exception escapes. */
  function Collect(lines: seq<string>, loads: Parser): Option<seq<Json>> {
    Gather(Effects(lines, loads))
  }

  /** Parts already collected, followed by whatever the remaining lines give. */
  function Then(parts: seq<Json>, rest: Option<seq<Json>>): Option<seq<Json>> {
    if rest.None? then None else Some(parts + rest.value)
  }

  predicate AllText(parts: seq<Json>) {
    forall k | 0 <= k < |parts| :: parts[k].JStr?
  }

  function Concat(parts: seq<Json>): string
    requires AllText(parts)
  {
    if parts == [] then "" else parts[0].s + Concat(parts[1..])
  }

  /** `"".join(content_parts)`, which raises unless every part is a string. */
  function Finish(collected: Option<seq<Json>>): (r: Completion)
    ensures r.Returned? <==> collected.Some? && AllText(collected.value)
    ensures r.Returned? ==> r.content == Concat(collected.value)
  {
    if collected.Some? && AllText(collected.value) then Returned(Concat(collected.value)) else Raised
  }

  /** The SSE loop of `_stream_completion` over the lines of an already accepted response. */
  method StreamCompletion(lines: seq<string>, loads: Parser) returns (r: Completion)
    ensures r == Finish(Collect(lines, loads))
  {
    var contentParts: seq<Json> := [];
    var i := 0;
    ghost var effects := Effects(lines, loads);
    assert effects[0..] == effects;
    ThenEmpty(Collect(lines, loads));
    while i < |lines|
      invariant 0 <= i <= |lines|
      invariant Collect(lines, loads) == Then(contentParts, Gather(effects[i..]))
    {
      var line := lines[i];
      GatherStep(effects, i);
      if StartsWith(line, "data: ") {
        var dataStr := line[6..];
        if Strip(dataStr) == "[DONE]" {
          break;
        }
        match loads(dataStr)
        case Err(_) =>
        case Ok(data) =>
          match ChunkEffect(data)
          case Append(part) =>
            ThenAppend(contentParts, part, Gather(effects[i + 1..]));
            contentParts := contentParts + [part];
          case Raise =>
            return Raised;
          case _ =>
      }
      i := i + 1;
    }
    if i == |lines| {
      assert effects[i..] == [];
    }
    assert contentParts + [] == contentParts;
    r := Finish(Some(contentParts));
  }

  lemma GatherStep(effects: seq<LineEffect>, i: nat)
    requires i < |effects|
    ensures Gather(effects[i..]) == match effects[i]
      case Ignore => Gather(effects[i + 1..])
      case Stop => Some([])
      case Raise => None
      case Append(p) => Then([p], Gather(effects[i + 1..]))
  {
    assert effects[i..][0] == effects[i];
    assert effects[i..][1..] == effects[i + 1..];
  }

  lemma ThenEmpty(c: Option<seq<Json>>)
    ensures Then([], c) == c
  {
    if c.Some? {
      assert [] + c.value == c.value;
    }
  }

  lemma ThenAppend(parts: seq<Json>, p: Json, rest: Option<seq<Json>>)
    ensures Then(parts, Then([p], rest)) == Then(parts + [p], rest)
  {
    if rest.Some? {
      assert parts + ([p] + rest.value) == parts + [p] + rest.value;
    }
  }

  lemma EffectsSplit(before: seq<string>, line: string, after: seq<string>, loads: Parser)
    ensures Effects(before + [line] + after, loads) == Effects(before, loads) + Effects([line], loads) + Effects(after, loads)
    ensures Effects(before + after, loads) == Effects(before, loads) + Effects(after, loads)
  {
    EffectsAppend(before, [line], loads);
    EffectsAppend(before + [line], after, loads);
    EffectsAppend(before, after, loads);
  }

  lemma EffectsSingle(line: string, loads: Parser)
    ensures Effects([line], loads) == [Effect(line, loads)]
  {
  }

  lemma EffectsAppend(xs: seq<string>, ys: seq<string>, loads: Parser)
    ensures Effects(xs + ys, loads) == Effects(xs, loads) + Effects(ys, loads)
  {
    MapLinesAppend(xs, ys, EffectOf(loads));
  }

  lemma MapLinesAppend(xs: seq<string>, ys: seq<string>, f: string -> LineEffect)
    ensures MapLines(xs + ys, f) == MapLines(xs, f) + MapLines(ys, f)
  {
    var l := MapLines(xs + ys, f);
    var r := MapLines(xs, f) + MapLines(ys, f);
    forall i | 0 <= i < |l| ensures l[i] == r[i] {
      if i < |xs| {
        assert (xs + ys)[i] == xs[i];
      } else {
        assert (xs + ys)[i] == ys[i - |xs|];
      }
    }
  }

  lemma {:induction false} GatherStop(before: seq<LineEffect>, after: seq<LineEffect>)
    ensures Gather(before + [Stop] + after) == Gather(before)
  {
    if before == [] {
      assert before + [Stop] + after == [Stop] + after;
    } else {
      assert (before + [Stop] + after)[1..] == before[1..] + [Stop] + after;
      GatherStop(before[1..], after);
    }
  }

  lemma {:induction false} GatherIgnore(before: seq<LineEffect>, after: seq<LineEffect>)
    ensures Gather(before + [Ignore] + after) == Gather(before + after)
  {
    if before == [] {
      assert before + [Ignore] + after == [Ignore] + after;
      assert ([Ignore] + after)[1..] == after;
      assert before + after == after;
    } else {
      assert (before + [Ignore] + after)[1..] == before[1..] + [Ignore] + after;
      assert (before + after)[1..] == before[1..] + after;
      GatherIgnore(before[1..], after);
    }
  }

  /** Lines after the `[DONE]` marker are never read. */
  lemma DoneEndsStream(before: seq<string>, done: string, after: seq<string>, loads: Parser)
    requires Effect(done, loads) == Stop
    ensures Collect(before + [done] + after, loads) == Collect(before, loads)
  {
    EffectsSplit(before, done, after, loads);
    EffectsSingle(done, loads);
    GatherStop(Effects(before, loads), Effects(after, loads));
  }

  /** A line that is not `data: `, or whose payload does not decode, can be removed without effect. */
  lemma IgnoredLineIsInert(before: seq<string>, line: string, after: seq<string>, loads: Parser)
    requires Effect(line, loads) == Ignore
    ensures Collect(before + [line] + after, loads) == Collect(before + after, loads)
  {
    EffectsSplit(before, line, after, loads);
    EffectsSingle(line, loads);
    GatherIgnore(Effects(before, loads), Effects(after, loads));
  }

  lemma {:induction false} GatherRaise(before: seq<LineEffect>, after: seq<LineEffect>)
    requires Stop !in before
    ensures Gather(before + [Raise] + after) == None
  {
    if before == [] {
      assert before + [Raise] + after == [Raise] + after;
    } else {
      assert (before + [Raise] + after)[1..] == before[1..] + [Raise] + after;
      GatherRaise(before[1..], after);
    }
  }

  /** A line that raises, read before any `[DONE]`, aborts the whole completion: no content is returned. */
  lemma RaisingLineAborts(before: seq<string>, line: string, after: seq<string>, loads: Parser)
    requires Effect(line, loads) == Raise
    requires Stop !in Effects(before, loads)
    ensures Collect(before + [line] + after, loads) == None
    ensures Finish(Collect(before + [line] + after, loads)) == Raised
  {
    EffectsSplit(before, line, after, loads);
    EffectsSingle(line, loads);
    GatherRaise(Effects(before, loads), Effects(after, loads));
  }

  /** The three chunk shapes that end the stream differently: an empty `choices` and a string `delta` mentioning "content" raise, an empty first choice is ignored. */
  lemma ChunkShapes()
    ensures ChunkEffect(JObj(map["choices" := JArr([])])) == Raise
    ensures ChunkEffect(JObj(map["choices" := JArr([JObj(map["delta" := JStr("some content")])])])) == Raise
    ensures ChunkEffect(JObj(map["choices" := JArr([JObj(map[])])])) == Ignore
  {
    assert OccursAt("some content", "content", 5);
  }

  /** A chunk whose `choices` is empty, read before any `[DONE]`, makes the completion raise. */
  lemma EmptyChoicesAborts(before: seq<string>, payload: string, after: seq<string>, loads: Parser)
    requires Strip(payload) != "[DONE]"
    requires loads(payload) == Ok(JObj(map["choices" := JArr([])]))
    requires Stop !in Effects(before, loads)
    ensures Finish(Collect(before + ["data: " + payload] + after, loads)) == Raised
  {
    DataLineEffect(payload, loads);
    ChunkShapes();
    RaisingLineAborts(before, "data: " + payload, after, loads);
  }

  /** The payload of a streamed chunk whose first choice carries `piece` as delta content. */
  function DeltaChunk(piece: string): Json {
    JObj(map["choices" := JArr([JObj(map["delta" := JObj(map["content" := JStr(piece)])])])])
  }

  const HelPayload := "{\"choices\": [{\"delta\": {\"content\": \"Hel\"}}]}"
  const LoPayload := "{\"choices\": [{\"delta\": {\"content\": \"lo\"}}]}"

  /** A `data: ` line whose payload is not the marker does what its decoded payload says. */
  lemma DataLineEffect(payload: string, loads: Parser)
    requires Strip(payload) != "[DONE]"
    ensures Effect("data: " + payload, loads) == match loads(payload)
      case Err(_) => Ignore
      case Ok(data) => ChunkEffect(data)
  {
    var line := "data: " + payload;
    assert line[..6] == "data: ";
    assert line[6..] == payload;
  }

  lemma ChunkLineEffect(payload: string, piece: string, loads: Parser)
    requires Strip(payload) != "[DONE]"
    requires loads(payload) == Ok(DeltaChunk(piece))
    ensures Effects(["data: " + payload], loads) == [Append(JStr(piece))]
  {
    DataLineEffect(payload, loads);
    EffectsSingle("data: " + payload, loads);
  }

  lemma MarkerLineEffect(loads: Parser)
    ensures Effects(["data: [DONE]"], loads) == [Stop]
  {
    var done := "data: [DONE]";
    assert done[..6] == "data: " && done[6..] == "[DONE]";
    NoOuterSpaceStrip("[DONE]");
    EffectsSingle(done, loads);
  }

  lemma CommentLineEffect(loads: Parser)
    ensures Effects([": keep-alive"], loads) == [Ignore]
  {
    NotStartsWith(": keep-alive", "data: ");
    EffectsSingle(": keep-alive", loads);
  }

  lemma ExampleGather()
    ensures Gather([Append(JStr("Hel")), Ignore, Append(JStr("lo"))]) == Some([JStr("Hel"), JStr("lo")])
  {
    var es := [Append(JStr("Hel")), Ignore, Append(JStr("lo"))];
    assert es[1..] == [Ignore, Append(JStr("lo"))];
    assert es[1..][1..] == [Append(JStr("lo"))];
    assert [Append(JStr("lo"))][1..] == [];
    assert [JStr("lo")] + [] == [JStr("lo")];
    assert Gather([Append(JStr("lo"))]) == Some([JStr("lo")]);
    assert [JStr("Hel")] + [JStr("lo")] == [JStr("Hel"), JStr("lo")];
  }

  lemma ExamplePayloads()
    ensures Strip(HelPayload) != "[DONE]" && Strip(LoPayload) != "[DONE]"
  {
    NoOuterSpaceStrip(HelPayload);
    NoOuterSpaceStrip(LoPayload);
  }

  lemma ExampleChunkLines(loads: Parser)
    requires loads(HelPayload) == Ok(DeltaChunk("Hel")) && loads(LoPayload) == Ok(DeltaChunk("lo"))
    ensures Effects(["data: " + HelPayload], loads) == [Append(JStr("Hel"))]
    ensures Effects(["data: " + LoPayload], loads) == [Append(JStr("lo"))]
  {
    ExamplePayloads();
    ChunkLineEffect(HelPayload, "Hel", loads);
    ChunkLineEffect(LoPayload, "lo", loads);
  }

  lemma ExampleEffects(loads: Parser)
    requires loads(HelPayload) == Ok(DeltaChunk("Hel")) && loads(LoPayload) == Ok(DeltaChunk("lo"))
    ensures Effects(["data: " + HelPayload, ": keep-alive", "data: " + LoPayload], loads)
      == [Append(JStr("Hel")), Ignore, Append(JStr("lo"))]
  {
    var hel, keep, lo := "data: " + HelPayload, ": keep-alive", "data: " + LoPayload;
    ExampleChunkLines(loads);
    CommentLineEffect(loads);
    assert [hel, keep, lo] == [hel] + [keep] + [lo];
    EffectsAppend([hel], [keep], loads);
    EffectsAppend([hel] + [keep], [lo], loads);
  }

  lemma ExampleStops(loads: Parser)
    ensures Collect(["data: " + HelPayload, ": keep-alive", "data: " + LoPayload, "data: [DONE]", "data: " + HelPayload], loads)
      == Gather(Effects(["data: " + HelPayload, ": keep-alive", "data: " + LoPayload], loads))
  {
    var hel, keep, lo, done := "data: " + HelPayload, ": keep-alive", "data: " + LoPayload, "data: [DONE]";
    MarkerLineEffect(loads);
    assert [hel, keep, lo, done, hel] == [hel, keep, lo] + [done] + [hel];
    EffectsAppend([hel, keep, lo], [done], loads);
    EffectsAppend([hel, keep, lo] + [done], [hel], loads);
    GatherStop(Effects([hel, keep, lo], loads), Effects([hel], loads));
  }

  /** Two content chunks, a comment line and the marker give the chunks' concatenation; what follows the marker is not read. */
  lemma StreamExample(loads: Parser)
    requires loads(HelPayload) == Ok(DeltaChunk("Hel")) && loads(LoPayload) == Ok(DeltaChunk("lo"))
    ensures Finish(Collect(["data: " + HelPayload, ": keep-alive", "data: " + LoPayload, "data: [DONE]", "data: " + HelPayload], loads))
      == Returned("Hello")
  {
    ExampleStops(loads);
    ExampleEffects(loads);
    ExampleGather();
    assert Concat([JStr("Hel"), JStr("lo")]) == "Hel" + "lo";
  }

  // ---------------------------------------------------------------------------
  // chat_completion payload
  // ---------------------------------------------------------------------------

  /**
   * The request body of `chat_completion`: `max_tokens` and
   * `response_format` are added only when they are truthy, so a limit of 0
   * or an empty format is never sent; streaming adds `"stream": true`.
   */
  function ChatPayload(model: string, messages: Json, temperature: real, maxTokens: Option<int>,
                       responseFormat: Option<Json>, stream: bool): (p: map<string, Json>)
    ensures p.Keys >= {"model", "messages", "temperature"}
    ensures p["model"] == JStr(model) && p["messages"] == messages && p["temperature"] == JReal(temperature)
    ensures "max_tokens" in p <==> maxTokens.Some? && maxTokens.value != 0
    ensures "max_tokens" in p ==> p["max_tokens"] == JInt(maxTokens.value)
    ensures "response_format" in p <==> responseFormat.Some? && Truthy(responseFormat.value)
    ensures "response_format" in p ==> p["response_format"] == responseFormat.value
    ensures "stream" in p <==> stream
    ensures stream ==> p["stream"] == JBool(true)
    ensures p.Keys <= {"model", "messages", "temperature", "max_tokens", "response_format", "stream"}
  {
    var base := map["model" := JStr(model), "messages" := messages, "temperature" := JReal(temperature)];
    var withMax := if maxTokens.Some? && maxTokens.value != 0 then base["max_tokens" := JInt(maxTokens.value)] else base;
    var withFormat := if responseFormat.Some? && Truthy(responseFormat.value)
      then withMax["response_format" := responseFormat.value] else withMax;
    if stream then withFormat["stream" := JBool(true)] else withFormat
  }

  // ---------------------------------------------------------------------------
  // verify_api_key
  // ---------------------------------------------------------------------------

  /** The outcome of `GET /models`: a status code, or the text of the exception raised. */
  datatype Probe = Status(code: int) | ConnectionFailed(reason: string)

  /** The `(is_valid, error_message)` pair. */
  datatype KeyCheck = KeyCheck(valid: bool, error: Option<string>)

  /** Whether the key passes the format checks that precede any request. */
  predicate WellFormedKey(apiKey: string) {
    apiKey != "" && StartsWith(apiKey, "sk-") && !StartsWith(apiKey, "sk-or-")
  }

  /** Every `sk-or-` key also passes the `sk-` check, so the third check is the one that catches it. */
  lemma OpenRouterPrefixIsOpenAIPrefix(apiKey: string)
    ensures StartsWith(apiKey, "sk-or-") ==> apiKey != "" && StartsWith(apiKey, "sk-")
  {
    if StartsWith(apiKey, "sk-or-") {
      assert StartsWith("sk-or-", "sk-");
      StartsWithPrefixOf(apiKey, "sk-or-", "sk-");
    }
  }

  const KeyRequired := "API key is required"
  const BadKeyFormat := "Invalid key format. OpenAI API keys start with 'sk-'. Get yours at platform.openai.com/api-keys"
  const OpenRouterKey := "This appears to be an OpenRouter key (sk-or-). Please use an OpenAI key (sk-...)."
  const KeyRejected := "Invalid or expired API key"
  const KeyForbidden := "API key access denied"

  /** `verify_api_key`: format checks first, then the status of the `/models` probe. */
  function VerifyApiKey(apiKey: string, probe: Probe): (r: KeyCheck)
    ensures r.valid <==> WellFormedKey(apiKey) && probe == Status(200)
    ensures r.valid <==> r.error.None?
    ensures apiKey == "" ==> r.error == Some(KeyRequired)
    ensures apiKey != "" && !StartsWith(apiKey, "sk-") ==> r.error == Some(BadKeyFormat)
    ensures StartsWith(apiKey, "sk-or-") ==> r.error == Some(OpenRouterKey)
    ensures WellFormedKey(apiKey) && probe == Status(401) ==> r.error == Some(KeyRejected)
    ensures WellFormedKey(apiKey) && probe == Status(403) ==> r.error == Some(KeyForbidden)
    ensures WellFormedKey(apiKey) && probe.Status? && probe.code !in {200, 401, 403} ==>
      r.error == Some("API error: " + IntToString(probe.code))
    ensures WellFormedKey(apiKey) && probe.ConnectionFailed? ==> r.error == Some("Connection error: " + probe.reason)
  {
    OpenRouterPrefixIsOpenAIPrefix(apiKey);
    if apiKey == "" then KeyCheck(false, Some(KeyRequired))
    else if !StartsWith(apiKey, "sk-") then KeyCheck(false, Some(BadKeyFormat))
    else if StartsWith(apiKey, "sk-or-") then KeyCheck(false, Some(OpenRouterKey))
    else match probe
      case ConnectionFailed(reason) => KeyCheck(false, Some("Connection error: " + reason))
      case Status(code) =>
        if code == 200 then KeyCheck(true, None)
        else if code == 401 then KeyCheck(false, Some(KeyRejected))
        else if code == 403 then KeyCheck(false, Some(KeyForbidden))
        else KeyCheck(false, Some("API error: " + IntToString(code)))
  }

  /** A malformed key is rejected before any request: the probe's outcome cannot matter. */
  lemma MalformedKeyNeedsNoProbe(apiKey: string, p: Probe, q: Probe)
    requires !WellFormedKey(apiKey)
    ensures VerifyApiKey(apiKey, p) == VerifyApiKey(apiKey, q)
  {
    if apiKey != "" && StartsWith(apiKey, "sk-") {
      assert StartsWith(apiKey, "sk-or-");
    }
  }

  /** An OpenRouter key passes the `sk-` check and is caught by the one after it. */
  lemma OpenRouterKeyRejected(p: Probe)
    ensures VerifyApiKey("sk-or-v1-abc", p).error == Some(OpenRouterKey)
  {
    assert StartsWith("sk-or-v1-abc", "sk-or-") by {
      assert "sk-or-v1-abc"[..6] == "sk-or-";
    }
  }

  // ---------------------------------------------------------------------------
  // OpenAIClient
  // ---------------------------------------------------------------------------

  /** The configuration of the lazily created `httpx.AsyncClient`. */
  datatype HttpSession = HttpSession(baseUrl: string, headers: map<string, string>)

  /** The headers every request of a client carries. */
  function DefaultHeaders(apiKey: string): (h: map<string, string>)
    ensures h.Keys == {"Authorization", "Content-Type"}
    ensures h["Authorization"] == "Bearer " + apiKey && h["Content-Type"] == "application/json"
  {
    map["Authorization" := "Bearer " + apiKey, "Content-Type" := "application/json"]
  }

  /** One user's client: its settings, and the HTTP session once one is opened. */
  class Client {
    const apiKey: string
    const baseUrl: string
    const llmModel: string
    const embeddingModel: string
    var session: Option<HttpSession>

    /** `OpenAIClient.__init__`: the base URL loses its trailing slashes; no session yet. */
    constructor (apiKey: string, baseUrl: string, llmModel: string, embeddingModel: string)
      ensures this.apiKey == apiKey && this.baseUrl == TrimTrailingSlashes(baseUrl)
      ensures this.llmModel == llmModel && this.embeddingModel == embeddingModel
      ensures session == None
    {
      this.apiKey := apiKey;
      this.baseUrl := TrimTrailingSlashes(baseUrl);
      this.llmModel := llmModel;
      this.embeddingModel := embeddingModel;
      session := None;
    }

    /** `_get_client`: the existing session, or a new one bound to this client's URL and key. */
    method GetSession() returns (s: HttpSession)
      modifies this
      ensures session == Some(s)
      ensures old(session).Some? ==> s == old(session).value
      ensures old(session).None? ==> s == HttpSession(baseUrl, DefaultHeaders(apiKey))
    {
      if session.None? {
        session := Some(HttpSession(baseUrl, DefaultHeaders(apiKey)));
      }
      s := session.value;
    }

    /** `close`: the session, if any, is dropped. */
    method Close()
      modifies this
      ensures session == None
    {
      if session.Some? {
        session := None;
      }
    }
  }

  // ---------------------------------------------------------------------------
  // OpenAIClientManager
  // ---------------------------------------------------------------------------

  /**
   * The per-key cache of clients. Clients are stored under `keyHash(api_key)`
   * (the first 16 hex digits of the key's SHA-256 digest), which is a
   * parameter here.
   */
  class ClientManager {
    const baseUrl: string
    const llmModel: string
    const embeddingModel: string
    const keyHash: string -> string
    var clients: map<string, Client>

    constructor (baseUrl: string, llmModel: string, embeddingModel: string, keyHash: string -> string)
      ensures this.baseUrl == baseUrl && this.llmModel == llmModel && this.embeddingModel == embeddingModel
      ensures this.keyHash == keyHash
      ensures clients == map[]
    {
      this.baseUrl := baseUrl;
      this.llmModel := llmModel;
      this.embeddingModel := embeddingModel;
      this.keyHash := keyHash;
      clients := map[];
    }

    /**
     * `get_client`: the cached client for the key's hash, or a new one added
     * under that hash; no other entry changes.
     */
    method GetClient(apiKey: string) returns (c: Client)
      modifies this
      ensures keyHash(apiKey) in clients && clients[keyHash(apiKey)] == c
      ensures keyHash(apiKey) in old(clients) ==> clients == old(clients) && c == old(clients)[keyHash(apiKey)]
      ensures keyHash(apiKey) !in old(clients) ==>
        fresh(c) && clients == old(clients)[keyHash(apiKey) := c]
        && c.apiKey == apiKey && c.baseUrl == TrimTrailingSlashes(baseUrl)
        && c.llmModel == llmModel && c.embeddingModel == embeddingModel && c.session == None
    {
      var h := keyHash(apiKey);
      if h !in clients {
        var created := new Client(apiKey, baseUrl, llmModel, embeddingModel);
        clients := clients[h := created];
      }
      c := clients[h];
    }

    /** `remove_client`: the key's entry, if any, is closed and deleted; the others stay. */
    method RemoveClient(apiKey: string)
      modifies this, clients.Values
      ensures clients == old(clients) - {keyHash(apiKey)}
      ensures keyHash(apiKey) in old(clients) ==> old(clients)[keyHash(apiKey)].session == None
      ensures forall c | c in old(clients).Values && Some(c) != Lookup(old(clients), keyHash(apiKey)) :: c.session == old(c.session)
    {
      var h := keyHash(apiKey);
      if h in clients {
        var c := clients[h];
        c.Close();
        clients := clients - {h};
      }
    }

    /** `close_all`: every cached client is closed, then the cache is emptied. */
    method CloseAll()
      modifies this, clients.Values
      ensures clients == map[]
      ensures forall c | c in old(clients).Values :: c.session == None
    {
      var open := clients.Values;
      while open != {}
        invariant open <= old(clients).Values
        invariant clients == old(clients)
        invariant forall c | c in old(clients).Values && c !in open :: c.session == None
        decreases open
      {
        var c :| c in open;
        c.Close();
        open := open - {c};
      }
      clients := map[];
    }
  }

  /** The client stored under `h`, if any. */
  function Lookup(clients: map<string, Client>, h: string): (r: Option<Client>)
    ensures r.Some? <==> h in clients
    ensures r.Some? ==> r.value == clients[h] && r.value in clients.Values
  {
    if h in clients then Some(clients[h]) else None
  }

  /** Two calls for one key share a client; a second key whose hash differs gets its own. */
  method CacheExample(keyHash: string -> string) returns (a1: Client, a2: Client, b: Client)
    requires keyHash("sk-a") != keyHash("sk-b")
    ensures a1 == a2 && b != a1
    ensures a1.apiKey == "sk-a" && b.apiKey == "sk-b"
    ensures a1.session == None && b.session == None
  {
    var manager := new ClientManager("https://api.openai.com/v1", "gpt-4.1-mini", "text-embedding-3-small", keyHash);
    a1 := manager.GetClient("sk-a");
    a2 := manager.GetClient("sk-a");
    assert a1 == a2;
    b := manager.GetClient("sk-b");
    assert b != a1 && |manager.clients| == 2;
    manager.RemoveClient("sk-a");
    assert manager.clients.Keys == {keyHash("sk-b")};
    manager.CloseAll();
    assert manager.clients == map[] && b.session == None;
  }
}

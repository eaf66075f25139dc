/**
 * The synchronous client of the skill package
 * (`OpenRouterClient` in SKILL/simplemem-skill/src/utils/openrouter.py):
 * its own copy of the balanced-delimiter scanner, the four-strategy
 * `extract_json`, the OpenRouter-only request headers and `verify_api_key`.
 *
 * The scanner is a method proved against a functional specification, and
 * the specification is proved to agree with the OpenAI client's scanner for
 * every pair of delimiters other than the double quote.
 */
module OpenRouter {
  import opened Json
  import opened Text
  import OpenAIExtract

  // ---------------------------------------------------------------------------
  // Balanced-delimiter scanner
  // ---------------------------------------------------------------------------

  /** The loop variables `depth`, `in_string` and `escape`. */
  datatype ScanState = ScanState(depth: int, inString: bool, escape: bool)

  const Initial := ScanState(0, false, false)

  /** `in_string` once the quote test of the iteration reading `c` has run. */
  function InStringAfter(st: ScanState, c: char): bool {
    if c == '"' then !st.inString else st.inString
  }

  /**
   * One iteration that does not return. Unlike the OpenAI copy, a quote does
   * not end the iteration: the delimiter tests still run when the quote has
   * just closed a string.
   */
  function Step(st: ScanState, c: char, openChar: char, closeChar: char): ScanState {
    if st.escape then st.(escape := false)
    else if c == '\\' then st.(escape := true)
    else
      var inString := InStringAfter(st, c);
      if inString then st.(inString := inString)
      else if c == openChar then ScanState(st.depth + 1, inString, false)
      else if c == closeChar then ScanState(st.depth - 1, inString, false)
      else st.(inString := inString)
  }

  /** Whether the iteration reading `c` returns: a closing character outside strings that brings the depth to zero. */
  predicate Returns(st: ScanState, c: char, openChar: char, closeChar: char) {
    && !st.escape && c != '\\' && !InStringAfter(st, c)
    && c != openChar && c == closeChar && st.depth - 1 == 0
  }

  /** The loop from index `i` on, in state `st`: the end of the returned prefix, if it returns. */
  function ScanFrom(text: string, openChar: char, closeChar: char, i: nat, st: ScanState): (r: Option<nat>)
    requires i <= |text|
    ensures r.Some? ==> i < r.value <= |text| && text[r.value - 1] == closeChar
    decreases |text| - i
  {
    if i == |text| then None
    else if Returns(st, text[i], openChar, closeChar) then Some(i + 1)
    else ScanFrom(text, openChar, closeChar, i + 1, Step(st, text[i], openChar, closeChar))
  }

  /** What `_extract_balanced_braces(text, open_char, close_char)` returns. */
  function BalancedPrefix(text: string, openChar: char, closeChar: char): (r: Option<string>)
    ensures |text| == 0 || text[0] != openChar ==> r == None
    ensures r.Some? ==> && 0 < |r.value| <= |text| && r.value == text[..|r.value|]
                        && r.value[0] == openChar && r.value[|r.value| - 1] == closeChar
  {
    if |text| == 0 || text[0] != openChar then None
    else match ScanFrom(text, openChar, closeChar, 0, Initial)
      case None => None
      case Some(n) => Some(text[..n])
  }

  /** `_extract_balanced_braces`: the character loop with `depth`, `in_string` and `escape`. */
  method ExtractBalancedBraces(text: string, openChar: char, closeChar: char) returns (r: Option<string>)
    ensures r == BalancedPrefix(text, openChar, closeChar)
  {
    if |text| == 0 || text[0] != openChar {
      return None;
    }
    var depth := 0;
    var inString := false;
    var escape := false;
    for i := 0 to |text|
      invariant ScanFrom(text, openChar, closeChar, i, ScanState(depth, inString, escape))
             == ScanFrom(text, openChar, closeChar, 0, Initial)
    {
      var c := text[i];
      if escape {
        escape := false;
        continue;
      }
      if c == '\\' {
        escape := true;
        continue;
      }
      if c == '"' && !inString {
        inString := true;
      } else if c == '"' && inString {
        inString := false;
      }
      if !inString {
        if c == openChar {
          depth := depth + 1;
        } else if c == closeChar {
          depth := depth - 1;
          if depth == 0 {
            return Some(text[..i + 1]);
          }
        }
      }
    }
    return None;
  }

  /** The same three flags under the OpenAI copy's names. */
  function AsOpenAI(st: ScanState): OpenAIExtract.ScanState {
    OpenAIExtract.ScanState(st.depth, st.inString, st.escape)
  }

  /** With no quote among the delimiters, one iteration of either copy does the same thing. */
  lemma StepAgrees(st: ScanState, c: char, openChar: char, closeChar: char)
    requires openChar != '"' && closeChar != '"'
    ensures Returns(st, c, openChar, closeChar) == OpenAIExtract.Returns(AsOpenAI(st), c, openChar, closeChar)
    ensures AsOpenAI(Step(st, c, openChar, closeChar)) == OpenAIExtract.Advance(AsOpenAI(st), c, openChar, closeChar)
  {
  }

  lemma {:induction false} ScanFromAgrees(text: string, openChar: char, closeChar: char, i: nat, st: ScanState)
    requires openChar != '"' && closeChar != '"'
    requires i <= |text|
    ensures ScanFrom(text, openChar, closeChar, i, st) == OpenAIExtract.ScanFrom(text, openChar, closeChar, i, AsOpenAI(st))
    decreases |text| - i
  {
    if i < |text| {
      StepAgrees(st, text[i], openChar, closeChar);
      ScanFromAgrees(text, openChar, closeChar, i + 1, Step(st, text[i], openChar, closeChar));
    }
  }

  /**
   * The two copies of `_extract_balanced_braces` return the same result on
   * every text, for every pair of delimiters other than the double quote.
   */
  lemma BalancedPrefixAgrees(text: string, openChar: char, closeChar: char)
    requires openChar != '"' && closeChar != '"'
    ensures BalancedPrefix(text, openChar, closeChar) == OpenAIExtract.BalancedPrefix(text, openChar, closeChar)
  {
    if |text| > 0 && text[0] == openChar {
      ScanFromAgrees(text, openChar, closeChar, 0, Initial);
    }
  }

  const QuoteQuoteX := "\"\"x"

  /**
   * The quote condition is needed: with `"` as the opening and `x` as the
   * closing character, this copy counts the quote that closes the empty
   * string `""` as an opener and returns the whole of `""x`, while the OpenAI
   * copy skips both quotes and finds nothing.
   */
  lemma QuoteDelimiterDisagrees()
    ensures BalancedPrefix(QuoteQuoteX, '"', 'x') == Some(QuoteQuoteX)
    ensures OpenAIExtract.BalancedPrefix(QuoteQuoteX, '"', 'x') == None
  {
    var t := QuoteQuoteX;
    assert t[0] == '"' && t[1] == '"' && t[2] == 'x' && |t| == 3;
    assert ScanFrom(t, '"', 'x', 0, Initial) == Some(3) by {
      assert ScanFrom(t, '"', 'x', 0, Initial) == ScanFrom(t, '"', 'x', 1, ScanState(0, true, false));
      assert ScanFrom(t, '"', 'x', 1, ScanState(0, true, false)) == ScanFrom(t, '"', 'x', 2, ScanState(1, false, false));
    }
    assert t[..3] == t;
    assert OpenAIExtract.ScanFrom(t, '"', 'x', 0, OpenAIExtract.Initial) == None by {
      var s1 := OpenAIExtract.ScanState(0, true, false);
      var s2 := OpenAIExtract.ScanState(0, false, false);
      var s3 := OpenAIExtract.ScanState(-1, false, false);
      assert OpenAIExtract.ScanFrom(t, '"', 'x', 0, OpenAIExtract.Initial) == OpenAIExtract.ScanFrom(t, '"', 'x', 1, s1);
      assert OpenAIExtract.ScanFrom(t, '"', 'x', 1, s1) == OpenAIExtract.ScanFrom(t, '"', 'x', 2, s2);
      assert OpenAIExtract.ScanFrom(t, '"', 'x', 2, s2) == OpenAIExtract.ScanFrom(t, '"', 'x', 3, s3);
    }
  }

  // ---------------------------------------------------------------------------
  // extract_json: four strategies, no cleanup pass
  // ---------------------------------------------------------------------------

  /** Strategy 4's scan: from the earlier of the first `{` and the first `[`, with the matching closer. */
  function ScanFromFirstDelimiter(text: string): (r: Option<string>)
    requires '{' in text || '[' in text
    ensures r.Some? ==> r.value != [] && (r.value[0] == '{' || r.value[0] == '[')
  {
    var startObj := Find(text, '{');
    var startArr := Find(text, '[');
    if startArr == -1 || (startObj != -1 && startObj < startArr) then
      BalancedPrefix(text[startObj..], '{', '}')
    else
      BalancedPrefix(text[startArr..], '[', ']')
  }

  /** `extract_json`: direct parse, ```` ```json ```` block, generic blocks, balanced scan. */
  function ExtractJson(text: string, lib: OpenAIExtract.Library): (r: Option<Json>)
    ensures text == "" ==> r == None
    ensures text != "" && lib.loads(Strip(text)).Ok? ==> r == Some(lib.loads(Strip(text)).value)
  {
    if text == "" then None
    else if lib.loads(Strip(text)).Ok? then Some(lib.loads(Strip(text)).value)
    else
      var fenced := lib.jsonBlocks(text);
      if fenced != [] && lib.loads(Strip(fenced[0])).Ok? then Some(lib.loads(Strip(fenced[0])).value)
      else
        var generic := FirstParsed(OpenAIExtract.StripEach(lib.genericBlocks(text)), lib.loads);
        if generic.Some? then generic
        else if '{' !in text && '[' !in text then None
        else
          var jsonStr := ScanFromFirstDelimiter(text);
          if jsonStr.Some? && jsonStr.value != "" && lib.loads(jsonStr.value).Ok? then
            Some(lib.loads(jsonStr.value).value)
          else None
  }

  /** The text strategy 4 parses; none when the text holds neither `{` nor `[` or the scan finds nothing. */
  function ScanCandidate(text: string): seq<string> {
    if '{' !in text && '[' !in text then []
    else
      var jsonStr := ScanFromFirstDelimiter(text);
      if jsonStr.Some? && jsonStr.value != "" then [jsonStr.value] else []
  }

  /**
   * `extract_json` is an ordered fallback over the same first three
   * candidate lists as the OpenAI client, then the balanced scan, and
   * nothing after it: when every candidate fails the result is None.
   */
  lemma ExtractJsonIsFirstSuccess(text: string, lib: OpenAIExtract.Library)
    requires text != ""
    ensures ExtractJson(text, lib) == FirstParsed(OpenAIExtract.EarlyCandidates(text, lib) + ScanCandidate(text), lib.loads)
  {
    var fenced := lib.jsonBlocks(text);
    var one := [Strip(text)];
    var two := if fenced != [] then [Strip(fenced[0])] else [];
    var three := OpenAIExtract.StripEach(lib.genericBlocks(text));
    var four := ScanCandidate(text);
    assert OpenAIExtract.EarlyCandidates(text, lib) == one + two + three;
    OpenAIExtract.SeqAssoc(one, two, three, four);
    FirstParsedAppend(one, two + (three + four), lib.loads);
    if lib.loads(Strip(text)).Err? {
      FirstParsedAppend(two, three + four, lib.loads);
      if !(fenced != [] && lib.loads(Strip(fenced[0])).Ok?) {
        assert FirstParsed(two, lib.loads) == None;
        AfterFencedBlock(text, lib);
      }
    }
  }

  /** Once the first two strategies fail, the result is the first success among the generic blocks and the scan. */
  lemma AfterFencedBlock(text: string, lib: OpenAIExtract.Library)
    requires text != "" && lib.loads(Strip(text)).Err?
    requires lib.jsonBlocks(text) == [] || lib.loads(Strip(lib.jsonBlocks(text)[0])).Err?
    ensures ExtractJson(text, lib) == FirstParsed(OpenAIExtract.StripEach(lib.genericBlocks(text)) + ScanCandidate(text), lib.loads)
  {
    FirstParsedAppend(OpenAIExtract.StripEach(lib.genericBlocks(text)), ScanCandidate(text), lib.loads);
  }

  /** Both clients take the same balanced-scan candidate. */
  lemma ScanCandidateAgrees(text: string)
    requires '{' in text || '[' in text
    ensures ScanCandidate(text) == OpenAIExtract.ScanCandidate(text)
  {
    var startObj := Find(text, '{');
    var startArr := Find(text, '[');
    if startArr == -1 || (startObj != -1 && startObj < startArr) {
      BalancedPrefixAgrees(text[startObj..], '{', '}');
    } else {
      BalancedPrefixAgrees(text[startArr..], '[', ']');
    }
  }

  /**
   * The two `extract_json` copies differ only by the OpenAI client's cleanup
   * pass: wherever this one finds a value the other finds the same value,
   * and otherwise the other returns the parse of the cleaned text, provided
   * the text holds a `{` or a `[`.
   */
  lemma ExtractorsDifferOnlyByCleanup(text: string, lib: OpenAIExtract.Library)
    ensures ExtractJson(text, lib).Some? ==> OpenAIExtract.ExtractJson(text, lib) == ExtractJson(text, lib)
    ensures ExtractJson(text, lib).None? ==>
      OpenAIExtract.ExtractJson(text, lib) ==
        (if text != "" && ('{' in text || '[' in text) then lib.loads(OpenAIExtract.Clean(text)).ToOption() else None)
  {
    if text != "" {
      ExtractJsonIsFirstSuccess(text, lib);
      OpenAIExtract.ExtractJsonIsFirstSuccess(text, lib);
      var withScan := OpenAIExtract.EarlyCandidates(text, lib) + ScanCandidate(text);
      if '{' in text || '[' in text {
        var clean := OpenAIExtract.Clean(text);
        CleanupComesLast(text, lib);
        FirstParsedAppend(withScan, [clean], lib.loads);
        FirstParsedSingle(clean, lib.loads);
      } else {
        assert OpenAIExtract.LateCandidates(text) == ScanCandidate(text);
      }
    }
  }

  /** The OpenAI client's candidates are this client's, followed by the cleaned text. */
  lemma CleanupComesLast(text: string, lib: OpenAIExtract.Library)
    requires '{' in text || '[' in text
    ensures OpenAIExtract.EarlyCandidates(text, lib) + OpenAIExtract.LateCandidates(text)
         == (OpenAIExtract.EarlyCandidates(text, lib) + ScanCandidate(text)) + [OpenAIExtract.Clean(text)]
  {
    ScanCandidateAgrees(text);
    var cleaned := [OpenAIExtract.Clean(text)];
    assert OpenAIExtract.LateCandidates(text) == ScanCandidate(text) + cleaned;
    CandidatesAssoc(OpenAIExtract.EarlyCandidates(text, lib), ScanCandidate(text), cleaned);
  }

  lemma CandidatesAssoc(x: seq<string>, y: seq<string>, z: seq<string>)
    ensures x + (y + z) == (x + y) + z
  {
  }

  lemma FirstParsedSingle(s: string, loads: Parser)
    ensures FirstParsed([s], loads) == loads(s).ToOption()
  {
    assert [s][1..] == [];
  }

  // ---------------------------------------------------------------------------
  // Request headers and the client object
  // ---------------------------------------------------------------------------

  const OpenRouterPrefix := "sk-or-"
  const Referer := "http://simplemem.cloud"

  /** Whether the key is an OpenRouter key: non-empty and starting with `sk-or-`. */
  predicate IsOpenRouterKey(apiKey: string) {
    apiKey != "" && StartsWith(apiKey, OpenRouterPrefix)
  }

  /**
   * The headers `__init__` adds to the session: bearer authorisation and the
   * JSON content type always; the referer and the application title only
   * for OpenRouter keys.
   */
  function ClientHeaders(apiKey: string, appName: string): (h: map<string, string>)
    ensures "Authorization" in h && h["Authorization"] == "Bearer " + apiKey
    ensures "Content-Type" in h && h["Content-Type"] == "application/json"
    ensures "HTTP-Referer" in h <==> IsOpenRouterKey(apiKey)
    ensures "X-Title" in h <==> IsOpenRouterKey(apiKey)
    ensures IsOpenRouterKey(apiKey) ==> h["HTTP-Referer"] == Referer && h["X-Title"] == appName
    ensures h.Keys <= {"Authorization", "Content-Type", "HTTP-Referer", "X-Title"}
  {
    var base := map["Authorization" := "Bearer " + apiKey, "Content-Type" := "application/json"];
    if IsOpenRouterKey(apiKey) then base["HTTP-Referer" := Referer]["X-Title" := appName] else base
  }

  /** `OpenRouterClient`: configuration fixed at construction, and a session that `close` ends. */
  class Client {
    const apiKey: string
    const baseUrl: string
    const llmModel: string
    const embeddingModel: string
    const appName: string
    /** The headers this client adds to its session. */
    const headers: map<string, string>
    var open: bool

    /** `__init__`: trailing slashes leave the base URL, the session gets the client headers. */
    constructor (apiKey: string, baseUrl: string, llmModel: string, embeddingModel: string, appName: string)
      ensures this.apiKey == apiKey && this.baseUrl == TrimTrailingSlashes(baseUrl)
      ensures this.llmModel == llmModel && this.embeddingModel == embeddingModel && this.appName == appName
      ensures headers == ClientHeaders(apiKey, appName)
      ensures open
    {
      this.apiKey := apiKey;
      this.baseUrl := TrimTrailingSlashes(baseUrl);
      this.llmModel := llmModel;
      this.embeddingModel := embeddingModel;
      this.appName := appName;
      var h := map["Authorization" := "Bearer " + apiKey, "Content-Type" := "application/json"];
      if apiKey != "" && StartsWith(apiKey, OpenRouterPrefix) {
        h := h["HTTP-Referer" := Referer];
        h := h["X-Title" := appName];
      }
      headers := h;
      open := true;
    }

    /** `close`: ends the session; the configuration is unchanged. */
    method Close()
      modifies this
      ensures !open
    {
      open := false;
    }
  }

  // ---------------------------------------------------------------------------
  // verify_api_key
  // ---------------------------------------------------------------------------

  /**
   * The outcome of the probe request: the status and what `response.json()`
   * gives (a value or the decoding error's message), or the message of the
   * exception the request raised.
   */
  datatype Probe = Answer(status: int, body: Result<Json>) | ConnectionFailed(reason: string)

  /** The `(is_valid, error_message)` pair. */
  datatype KeyCheck = KeyCheck(valid: bool, error: Option<string>)

  const KeyRequired := "API key is required"
  const InvalidKey := "Invalid API key"
  const KeyRejected := "Invalid or expired API key"
  const OpenAIKeyRejected := "Invalid OpenAI API key. Get yours at platform.openai.com/api-keys"
  const KeyForbidden := "API key access denied"
  const NoModels := "API key valid but no models accessible"

  /** The endpoint probed: `/auth/key` for OpenRouter keys, `/models` for all others. */
  function ProbePath(apiKey: string): (p: string)
    ensures p == (if StartsWith(apiKey, OpenRouterPrefix) then "/auth/key" else "/models")
    ensures p != "/auth/key" <==> p == "/models"
  {
    if StartsWith(apiKey, OpenRouterPrefix) then "/auth/key" else "/models"
  }

  /** Python's `len(v) > 0` for a value that has a length; None when `len` raises. */
  function HasItems(v: Json): Option<bool> {
    match v
    case JStr(s) => Some(|s| > 0)
    case JArr(items) => Some(|items| > 0)
    case JObj(fields) => Some(|fields| > 0)
    case _ => None
  }

  function Failure(message: string): (r: KeyCheck)
    ensures !r.valid && r.error == Some(message)
  {
    KeyCheck(false, Some(message))
  }

  /** The `except Exception` handler: any failure becomes a connection error. */
  function ConnectionError(message: string): string {
    "Connection error: " + message
  }

  /** `str(e)` of the AttributeError raised by `data.get` on a decoded body that is not an object. */
  function NoGet(v: Json): string {
    "'" + TypeName(v) + "' object has no attribute 'get'"
  }

  /** `str(e)` of the TypeError raised by `len` on a value without a length, e.g. `object of type 'int' has no len()`. */
  function NoLen(v: Json): string {
    "object of type '" + TypeName(v) + "' has no len()"
  }

  /** The status mapping of the `/auth/key` branch. */
  function AuthKeyVerdict(p: Probe): (r: KeyCheck)
    ensures r.valid <==> exists fields :: p == Answer(200, Ok(JObj(fields))) && Truthy(Get(fields, "data"))
    ensures p.Answer? && p.status == 200 && p.body.Ok? && p.body.value.JObj? && !Truthy(Get(p.body.value.fields, "data")) ==>
      r.error == Some(InvalidKey)
    ensures r.valid <==> r.error.None?
    ensures p.Answer? && p.status == 200 && p.body.Err? ==> r.error == Some(ConnectionError(p.body.msg))
    ensures p.Answer? && p.status == 200 && p.body.Ok? && !p.body.value.JObj? ==> r.error == Some(ConnectionError(NoGet(p.body.value)))
    ensures p.Answer? && p.status == 401 ==> r.error == Some(KeyRejected)
    ensures p.Answer? && p.status == 403 ==> r.error == Some(KeyForbidden)
    ensures p.Answer? && p.status !in {200, 401, 403} ==> r.error == Some("API error: " + IntToString(p.status))
    ensures p.ConnectionFailed? ==> r.error == Some(ConnectionError(p.reason))
  {
    match p
    case ConnectionFailed(reason) => Failure(ConnectionError(reason))
    case Answer(status, body) =>
      if status == 200 then
        match body
        case Err(msg) => Failure(ConnectionError(msg))
        case Ok(data) =>
          if !data.JObj? then Failure(ConnectionError(NoGet(data)))
          else if Truthy(Get(data.fields, "data")) then KeyCheck(true, None)
          else Failure(InvalidKey)
      else if status == 401 then Failure(KeyRejected)
      else if status == 403 then Failure(KeyForbidden)
      else Failure("API error: " + IntToString(status))
  }

  /** The status mapping of the `/models` branch. */
  function ModelsVerdict(p: Probe): (r: KeyCheck)
    ensures r.valid <==> exists fields :: p == Answer(200, Ok(JObj(fields))) && HasItems(Get(fields, "data")) == Some(true)
    ensures p.Answer? && p.status == 200 && p.body.Ok? && p.body.value.JObj? ==>
      var models := Get(p.body.value.fields, "data");
      (!Truthy(models) || HasItems(models) == Some(false) ==> r.error == Some(NoModels))
      && (Truthy(models) && HasItems(models).None? ==> r.error == Some(ConnectionError(NoLen(models))))
    ensures r.valid <==> r.error.None?
    ensures p.Answer? && p.status == 200 && p.body.Err? ==> r.error == Some(ConnectionError(p.body.msg))
    ensures p.Answer? && p.status == 200 && p.body.Ok? && !p.body.value.JObj? ==> r.error == Some(ConnectionError(NoGet(p.body.value)))
    ensures p.Answer? && p.status == 401 ==> r.error == Some(OpenAIKeyRejected)
    ensures p.Answer? && p.status == 403 ==> r.error == Some(KeyForbidden)
    ensures p.Answer? && p.status !in {200, 401, 403} ==> r.error == Some("API error: " + IntToString(p.status))
    ensures p.ConnectionFailed? ==> r.error == Some(ConnectionError(p.reason))
  {
    match p
    case ConnectionFailed(reason) => Failure(ConnectionError(reason))
    case Answer(status, body) =>
      if status == 200 then
        match body
        case Err(msg) => Failure(ConnectionError(msg))
        case Ok(data) =>
          if !data.JObj? then Failure(ConnectionError(NoGet(data)))
          else
            var models := Get(data.fields, "data");
            if !Truthy(models) then Failure(NoModels)
            else if HasItems(models).None? then Failure(ConnectionError(NoLen(models)))
            else if HasItems(models).value then KeyCheck(true, None)
            else Failure(NoModels)
      else if status == 401 then Failure(OpenAIKeyRejected)
      else if status == 403 then Failure(KeyForbidden)
      else Failure("API error: " + IntToString(status))
  }

  /**
   * `verify_api_key`. `get` is the session's GET: the outcome of requesting
   * a URL. An empty key is refused before any request; otherwise one URL is
   * requested and its outcome mapped to the pair.
   */
  function VerifyApiKey(apiKey: string, baseUrl: string, get: string -> Probe): (r: KeyCheck)
    ensures r.valid <==> r.error.None?
    ensures apiKey == "" ==> r == KeyCheck(false, Some(KeyRequired))
    ensures IsOpenRouterKey(apiKey) ==>
      (r.valid <==> exists fields :: get(baseUrl + "/auth/key") == Answer(200, Ok(JObj(fields))) && Truthy(Get(fields, "data")))
    ensures apiKey != "" && !IsOpenRouterKey(apiKey) ==>
      (r.valid <==> exists fields :: get(baseUrl + "/models") == Answer(200, Ok(JObj(fields))) && HasItems(Get(fields, "data")) == Some(true))
    ensures apiKey != "" && get(baseUrl + ProbePath(apiKey)).Answer? && get(baseUrl + ProbePath(apiKey)).status == 401 ==>
      r.error == Some(if IsOpenRouterKey(apiKey) then KeyRejected else OpenAIKeyRejected)
    ensures apiKey != "" && get(baseUrl + ProbePath(apiKey)).Answer? && get(baseUrl + ProbePath(apiKey)).status == 403 ==>
      r.error == Some(KeyForbidden)
    ensures apiKey != "" && get(baseUrl + ProbePath(apiKey)).Answer? && get(baseUrl + ProbePath(apiKey)).status !in {200, 401, 403} ==>
      r.error == Some("API error: " + IntToString(get(baseUrl + ProbePath(apiKey)).status))
    ensures apiKey != "" && get(baseUrl + ProbePath(apiKey)).ConnectionFailed? ==>
      r.error == Some(ConnectionError(get(baseUrl + ProbePath(apiKey)).reason))
  {
    if apiKey == "" then Failure(KeyRequired)
    else if StartsWith(apiKey, OpenRouterPrefix) then AuthKeyVerdict(get(baseUrl + "/auth/key"))
    else ModelsVerdict(get(baseUrl + "/models"))
  }

  /** The verdict depends on the outcome of the one probed URL and on nothing else `get` does. */
  lemma OnlyTheProbedUrlMatters(apiKey: string, baseUrl: string, get1: string -> Probe, get2: string -> Probe)
    requires apiKey != "" ==> get1(baseUrl + ProbePath(apiKey)) == get2(baseUrl + ProbePath(apiKey))
    ensures VerifyApiKey(apiKey, baseUrl, get1) == VerifyApiKey(apiKey, baseUrl, get2)
  {
  }

  /** An OpenRouter account answering `{"data": null}` is refused as an invalid key, not as a connection error. */
  lemma EmptyAccountIsInvalidKey(apiKey: string, baseUrl: string, get: string -> Probe)
    requires IsOpenRouterKey(apiKey)
    requires get(baseUrl + "/auth/key") == Answer(200, Ok(JObj(map["data" := JNull])))
    ensures VerifyApiKey(apiKey, baseUrl, get) == KeyCheck(false, Some(InvalidKey))
  {
  }

  /** A `/models` answer whose `data` is a bare number makes `len` raise, reported as a connection error. */
  lemma NumericModelListIsConnectionError(apiKey: string, baseUrl: string, get: string -> Probe, n: int)
    requires apiKey != "" && !IsOpenRouterKey(apiKey) && n != 0
    requires get(baseUrl + "/models") == Answer(200, Ok(JObj(map["data" := JInt(n)])))
    ensures VerifyApiKey(apiKey, baseUrl, get) == KeyCheck(false, Some(ConnectionError(NoLen(JInt(n)))))
  {
    var data := map["data" := JInt(n)];
    assert Get(data, "data") == JInt(n);
    assert ModelsVerdict(Answer(200, Ok(JObj(data)))) == Failure(ConnectionError(NoLen(JInt(n))));
  }

}

# SimpleMem API clients and stdio bridge, in Dafny

This project models three sequential pieces of SimpleMem and proves properties about them:

- **The two API clients.** `OpenAIClient` is in `MCP/server/integrations/openai.py`. `OpenRouterClient` is in `SKILL/simplemem-skill/src/utils/openrouter.py`. The model covers:
  - the balanced-delimiter scanner each client carries;
  - the multi-strategy `extract_json` that recovers JSON from language-model text;
  - the cleanup pass of the OpenAI client;
  - the server-sent-event accumulation of a streamed chat completion;
  - the chat payload;
  - `verify_api_key`;
  - the request headers;
  - the index reordering of embeddings;
  - the per-key client cache of `OpenAIClientManager`.
- **The stdio-to-HTTP JSON-RPC bridge** (`MCP/stdio_bridge.py`). It forwards each line read from standard input to the HTTP MCP server and writes back the server's answer, or a synthesised JSON-RPC error. Along the way it keeps the `Mcp-Session-Id` the server hands out.

Everything network-facing is an input to the model:

| source behaviour | model |
|---|---|
| `json.loads` | a `Parser` value: a total function from text to a value or an error message |
| the two `re.findall` block searches | the `Library` fields `jsonBlocks` and `genericBlocks` |
| the `/models` and `/auth/key` probes | a `Probe` value, or a `get` function from URL to outcome |
| the HTTP round trip of the bridge | `Server` (the outcome of the n-th request) and `Exchange` |
| the SHA-256 key hash of the manager | the `keyHash` function |

Every property proved holds for every choice of these inputs.

Modules, one per file:

| file | module | models |
|---|---|---|
| `json.dfy` | `Json` | JSON values, Python truthiness, `dict.get`, the JSON-RPC error object, first-success-wins parsing |
| `text.dfy` | `Text` | the `str` operations used: `strip`, `rstrip("/")`, `startswith`, `find`, `split("\n")`, ASCII `lower`, `str(int)` |
| `openai_extract.dfy` | `OpenAIExtract` | `_extract_balanced_braces`, `_clean_json_string` and `extract_json` of the OpenAI client |
| `openai_client.dfy` | `OpenAIClient` | `_stream_completion`, the chat payload, `verify_api_key`, `_get_client`/`close` and `OpenAIClientManager` |
| `openrouter.dfy` | `OpenRouter` | the OpenRouter client: its scanner (proved equal to the OpenAI one), its four-strategy `extract_json`, its headers and its `verify_api_key` |
| `embeddings.dfy` | `Embeddings` | `sorted(data["data"], key=lambda x: x["index"])` and the embedding list (shared by both clients) |
| `stdio_bridge.dfy` | `StdioBridge` | `send_to_server` and the per-line loop of `main`, as a `Bridge` class holding the session id and the requests sent |

Several loops are methods whose `ensures` ties them to a functional specification:
- the two scanners;
- the prefix loop of the cleanup pass;
- the SSE loop of `_stream_completion`;
- the SSE loop of the bridge;
- the bridge's main loop.

The properties are then proved about those specifications.

## Model

| member | source | states |
|---|---|---|
| Json.Get | MCP/stdio_bridge.py:79 | `message.get("id")`: the stored value, or null when the key is missing |
| Json.ErrorResponse | MCP/stdio_bridge.py:77-84 | the synthesised error is a truthy object with `jsonrpc` "2.0", the given `id`, and an `error` object holding the given code and message, with no `result` |
| Json.FirstParsed | MCP/server/integrations/openai.py:232-236 | trying candidates in order gives None exactly when every candidate fails to parse; otherwise it gives the value of a candidate that parses, with every earlier candidate failing |
| Json.FirstParsedAppend | MCP/server/integrations/openai.py:213-236 | trying two candidate lists one after the other is the same as trying their concatenation |
| Text.Strip | MCP/server/integrations/openai.py:215 | `strip()` gives the empty string exactly when the text is all whitespace; otherwise the result neither starts nor ends with whitespace |
| Text.TrimTrailingSlashes | MCP/server/integrations/openai.py:35 | `rstrip("/")` removes only slashes, all of them at the end, and leaves no slash last |
| Text.Find | MCP/server/integrations/openai.py:240-241 | `find(c)` is -1 exactly when `c` is absent; otherwise it is the first index holding `c` |
| Text.Split | MCP/stdio_bridge.py:53 | `split("\n")` gives at least one piece, no piece holds the separator, and joining the pieces gives back the text |
| Text.SplitJoin | MCP/stdio_bridge.py:53 | splitting pieces joined by a separator they do not contain gives back the pieces |
| Text.IntToString | MCP/server/integrations/openai.py:196 | `str(code)` is a minus sign exactly for negatives, followed by decimal digits whose value is the magnitude |
| Text.DigitsRoundTrip | MCP/server/integrations/openai.py:196 | reading back the decimal digits of a natural number gives the number |
| OpenAIExtract.ScanFrom | MCP/server/integrations/openai.py:277-300 | when the loop returns from index `i`, it returns at a later position whose character is the closing one |
| OpenAIExtract.BalancedPrefix | MCP/server/integrations/openai.py:268-300 | None for empty text and for text not opening with `open_char`; a returned string is a non-empty prefix of the text that starts with `open_char` and ends with `close_char` |
| OpenAIExtract.ExtractBalancedBraces | MCP/server/integrations/openai.py:268-300 | the character loop with `count`, `in_string` and `escape_next` returns exactly `BalancedPrefix` |
| OpenAIExtract.ScanFromFindsFirstReturn | MCP/server/integrations/openai.py:277-300 | from any index, the loop returns nothing exactly when no later iteration would return; otherwise it returns at the first iteration that would |
| OpenAIExtract.BalancedPrefixIsFirstReturn | MCP/server/integrations/openai.py:270-300 | the result is None exactly when the text is empty, does not open with `open_char`, or never reaches a returning closer; otherwise the result ends at the first returning closer |
| OpenAIExtract.DepthPositiveUntilReturn | MCP/server/integrations/openai.py:293-298 | before the first returning iteration, the out-of-string depth is at least one |
| OpenAIExtract.BalancedPrefixDepth | MCP/server/integrations/openai.py:273-298 | for a returned prefix of length n, the depth is at least one after each of its first n - 1 characters and zero after the last |
| OpenAIExtract.EscapedCharacterIsInert | MCP/server/integrations/openai.py:278-284 | a backslash and the character after it leave the scanner state unchanged, and neither iteration returns |
| OpenAIExtract.InsideQuotes | MCP/server/integrations/openai.py:286-291 | inside an opened string without quotes or backslashes, only the in-string flag has changed and no iteration returns |
| OpenAIExtract.QuotedRunIsInert | MCP/server/integrations/openai.py:286-291 | a quoted run without inner quotes or backslashes leaves the state as it was, whatever delimiters it holds, and never returns |
| OpenAIExtract.ScanInsideQuotes | MCP/server/integrations/openai.py:286-291 | inside a string, the loop runs to the closing quote and leaves the string there |
| OpenAIExtract.QuotedRunSkipped | MCP/server/integrations/openai.py:286-291 | the loop passes over a quoted run and resumes after it in the state it had before |
| OpenAIExtract.PlainRunSkipped | MCP/server/integrations/openai.py:293-296 | characters that are not quotes, backslashes or delimiters leave the loop's state unchanged |
| OpenAIExtract.BraceInsideStringScanHead | MCP/server/integrations/openai.py:286-294 | on `{"a": "}", "b": 1}`, the loop reaches index 9 at depth one, having skipped the quoted `}` |
| OpenAIExtract.BraceInsideStringScanTail | MCP/server/integrations/openai.py:293-298 | from index 9 at depth one, the loop returns at the final `}` |
| OpenAIExtract.BraceInsideStringExample | MCP/server/integrations/openai.py:286-298 | a `}` inside a string value does not close `{"a": "}", "b": 1}`: the whole text is returned |
| OpenAIExtract.StripPrefix | MCP/server/integrations/openai.py:314-315 | a changed text is never longer and has no outer whitespace; that a matching prefix, in any letter case, is cut and the rest stripped is stated by `PrefixCut` |
| OpenAIExtract.StripPrefixes | MCP/server/integrations/openai.py:313-315 | the prefix loop never lengthens the text, and when it changed anything the result has no outer whitespace; which prefix it cuts is stated by `OnePrefixCut` |
| OpenAIExtract.PrefixCut | MCP/server/integrations/openai.py:314-315 | text opening with a listed prefix, in any letter case, loses exactly that prefix and is then stripped |
| OpenAIExtract.StripPrefixesAppend | MCP/server/integrations/openai.py:313-315 | the loop over two lists of prefixes is the loop over the first, then over the second |
| OpenAIExtract.OnePrefixCut | MCP/server/integrations/openai.py:313-315 | when one listed prefix opens the text and no earlier one does, the loop cuts it and strips the rest; later prefixes that do not open that rest leave it alone |
| OpenAIExtract.NoneBeforeKept | MCP/server/integrations/openai.py:313-315 | prefixes that do not open the text, tried before the matching one, change nothing |
| OpenAIExtract.NoneAfterKept | MCP/server/integrations/openai.py:313-315 | prefixes that do not open the text, tried after the matching one, change nothing |
| OpenAIExtract.StrippedIsFixed | MCP/server/integrations/openai.py:312-315 | stripping twice is stripping once |
| OpenAIExtract.StripPrefixesStep | MCP/server/integrations/openai.py:313-315 | the prefix loop over a list is one iteration on its head followed by the loop over its tail |
| OpenAIExtract.NoPrefixNoChange | MCP/server/integrations/openai.py:312-315 | text opening with none of the prefixes (ignoring case) leaves the prefix loop unchanged |
| OpenAIExtract.SpaceRunEnd | MCP/server/integrations/openai.py:318 | the `\s*` run from an index ends at the first non-whitespace character or at the end |
| OpenAIExtract.RemoveTrailingCommas | MCP/server/integrations/openai.py:318 | the substitution never lengthens the text; what it deletes is stated by `RemoveTrailingCommasDropsRuns` |
| OpenAIExtract.RemoveTrailingCommasDropsRuns | MCP/server/integrations/openai.py:318 | the substitution keeps, in order, exactly the characters that do not lie in a run made of a comma and whitespace ending just before `}` or `]`, and deletes exactly those that do |
| OpenAIExtract.RemoveTrailingCommasFrom | MCP/server/integrations/openai.py:318 | from any position that is not inside such a run, the substitution over the rest of the text agrees with that filter |
| OpenAIExtract.TrailingCommaFilter | MCP/server/integrations/openai.py:318 | at a comma followed by whitespace and a closer, the filter drops the comma and the whitespace and keeps the closer |
| OpenAIExtract.DroppedRun | MCP/server/integrations/openai.py:318 | every character of a comma-and-whitespace run before a closer is dropped |
| OpenAIExtract.NoCommaNoChange | MCP/server/integrations/openai.py:318 | text without a comma is left unchanged by the substitution |
| OpenAIExtract.CommaFreePrefixKept | MCP/server/integrations/openai.py:318 | a stretch without commas passes through the trailing-comma substitution untouched |
| OpenAIExtract.LineEnd | MCP/server/integrations/openai.py:321 | `.*$` with MULTILINE ends at the next newline or at the end of the text |
| OpenAIExtract.StripLineComments | MCP/server/integrations/openai.py:321 | after the substitution no `//` is left, and a comment at the start gives way to the newline that ended it; what each line keeps is stated by `CommentLineStripped`, `CommentFreeLineKept` and `CommentAtEndStripped` |
| OpenAIExtract.NoCommentNoChange | MCP/server/integrations/openai.py:321 | text without `//` is unchanged |
| OpenAIExtract.CommentFreeTextKept | MCP/server/integrations/openai.py:321 | text without `//` passes through unchanged in front of whatever follows, provided the join forms no `//` |
| OpenAIExtract.CommentFreeLineKept | MCP/server/integrations/openai.py:321 | a line without `//` is kept with its newline, and the rest of the text is processed on its own |
| OpenAIExtract.CommentOnlyLine | MCP/server/integrations/openai.py:321 | a line that starts with `//` is removed up to, and not including, its newline |
| OpenAIExtract.CommentLineStripped | MCP/server/integrations/openai.py:321 | a line made of comment-free text and a `//` comment keeps the text and its newline and loses the comment; the lines after it are processed on their own |
| OpenAIExtract.CommentOnlyEnd | MCP/server/integrations/openai.py:321 | a last line that starts with `//` is removed entirely |
| OpenAIExtract.CommentAtEndStripped | MCP/server/integrations/openai.py:321 | a `//` comment on the last line is removed and the comment-free text before it is kept |
| OpenAIExtract.LineBreaksSkip | MCP/server/integrations/openai.py:321 | a stretch without newlines holds no line break |
| OpenAIExtract.LineBreaksKept | MCP/server/integrations/openai.py:321 | comment removal keeps every line break, so the text keeps its lines |
| OpenAIExtract.Clean | MCP/server/integrations/openai.py:302-323 | the cleaned text contains no `//`, and text that is all whitespace cleans to the empty string; what each pass keeps is stated by `OnePrefixCut`, `RemoveTrailingCommasDropsRuns` and the comment lemmas, with `PrefixExampleClean` as an instance |
| OpenAIExtract.CleanJsonString | MCP/server/integrations/openai.py:302-323 | the prefix loop and the two substitutions compute `Clean(text)`, which holds no `//` |
| OpenAIExtract.TrailingCommaStripSteps | MCP/server/integrations/openai.py:312-315 | `{"x": 1,}` has no surrounding whitespace and opens with none of the prefixes |
| OpenAIExtract.TrailingCommaRemoveSteps | MCP/server/integrations/openai.py:318 | the substitution turns `{"x": 1,}` into `{"x": 1}` |
| OpenAIExtract.CommaBeforeClose | MCP/server/integrations/openai.py:318 | `,}` becomes `}` |
| OpenAIExtract.TrailingCommaCommentSteps | MCP/server/integrations/openai.py:321 | `{"x": 1}` has no comment to remove |
| OpenAIExtract.TrailingCommaExampleClean | MCP/server/integrations/openai.py:302-323 | the cleanup of `{"x": 1,}` is `{"x": 1}` |
| OpenAIExtract.PrefixExampleClean | MCP/server/integrations/openai.py:302-323 | the cleanup of `OUTPUT: {"x": 1}` is `{"x": 1}`: the prefix `Output:` matches regardless of case |
| OpenAIExtract.PrefixExampleUnprefixed | MCP/server/integrations/openai.py:312-315 | the prefix loop turns `OUTPUT: {"x": 1}` into `{"x": 1}` |
| OpenAIExtract.PrefixExampleStrips | MCP/server/integrations/openai.py:312-315 | the example text is its own strip, and its rest after `OUTPUT:` strips to the object |
| OpenAIExtract.PrefixExampleMatch | MCP/server/integrations/openai.py:313-314 | `OUTPUT:` matches `Output:` case-insensitively, and none of the three earlier prefixes opens the example |
| OpenAIExtract.PrefixExampleLater | MCP/server/integrations/openai.py:313-314 | `Result:` does not open `{"x": 1}` |
| OpenAIExtract.PrefixExampleRest | MCP/server/integrations/openai.py:318-321 | `{"x": 1}` passes the comma and comment passes unchanged |
| OpenAIExtract.StripEach | MCP/server/integrations/openai.py:232-234 | every block found is stripped before it is parsed, in order |
| OpenAIExtract.ScanFromFirstDelimiter | MCP/server/integrations/openai.py:240-251 | strategy 4's candidate, when there is one, is non-empty and opens with `{` or `[` |
| OpenAIExtract.ExtractJson | MCP/server/integrations/openai.py:210-217 | empty text gives None, and a successful direct parse of the stripped text wins over every other strategy |
| OpenAIExtract.ExtractJsonIsFirstSuccess | MCP/server/integrations/openai.py:210-266 | the result is the first success, in order, among: the stripped text, the first json block, each generic block, the balanced scan, and the cleaned text; the last two are tried only when a `{` or `[` occurs |
| OpenAIExtract.LateStrategiesIsFirstSuccess | MCP/server/integrations/openai.py:253-264 | strategies 4 and 5 give the first success among the scan's candidate and the cleaned text |
| OpenAIExtract.NoDelimiterSkipsCleanup | MCP/server/integrations/openai.py:240-244 | without `{` and `[`, the result is decided by strategies 1 to 3 alone and the cleanup pass is never tried |
| OpenAIExtract.TrailingCommaExampleScan | MCP/server/integrations/openai.py:240-251 | the scan of `{"x": 1,}` takes the whole text |
| OpenAIExtract.TrailingCommaRecovered | MCP/server/integrations/openai.py:259-264 | when `{"x": 1,}` does not parse and no fenced blocks are found, the cleanup pass recovers the value of `{"x": 1}` |
| OpenAIExtract.CleanupRecovers | MCP/server/integrations/openai.py:213-264 | text holding a delimiter on which strategies 1 to 4 all fail (the direct parse, the first json block if any, every generic block, the scan) yields exactly the parse of its cleaned form: a value when that parses, None otherwise |
| OpenAIExtract.EarlyFailuresFallThrough | MCP/server/integrations/openai.py:213-264 | when the direct parse, the first json block if any and every generic block fail on text holding a delimiter, strategies 4 and 5 decide |
| OpenAIExtract.NoBlocksFail | MCP/server/integrations/openai.py:228-236 | with no generic blocks, strategy 3 finds nothing |
| OpenAIClient.ChunkEffect | MCP/server/integrations/openai.py:123-125 | a chunk appends exactly when `choices[0].delta` is an object holding `content`, and then appends that value. It raises exactly when the chunk is not an object, lacks `choices`, has a `choices` that is not a non-empty array or a first choice that is not an object, or has a `delta` that is a scalar, a string containing "content" or an array holding "content". Every other chunk is ignored, and a chunk never stops the stream |
| OpenAIClient.MapLines | MCP/server/integrations/openai.py:116 | one effect per line, in order |
| OpenAIClient.Finish | MCP/server/integrations/openai.py:129 | `"".join` returns exactly when nothing raised and every part is a string, and then returns their concatenation |
| OpenAIClient.StreamCompletion | MCP/server/integrations/openai.py:107-129 | the loop appending to `content_parts` and breaking at `[DONE]` returns `Finish(Collect(lines))` |
| OpenAIClient.GatherStep | MCP/server/integrations/openai.py:116-127 | one iteration of the stream loop, stated on the remaining effects |
| OpenAIClient.ThenEmpty | MCP/server/integrations/openai.py:112 | with nothing collected yet, the outcome is that of the remaining lines |
| OpenAIClient.ThenAppend | MCP/server/integrations/openai.py:125 | appending one part before the rest is the same as appending it to the parts |
| OpenAIClient.EffectsSplit | MCP/server/integrations/openai.py:116 | the effects of concatenated lines are the concatenated effects |
| OpenAIClient.EffectsSingle | MCP/server/integrations/openai.py:116 | a single line has a single effect |
| OpenAIClient.EffectsAppend | MCP/server/integrations/openai.py:116 | effects distribute over concatenation |
| OpenAIClient.MapLinesAppend | MCP/server/integrations/openai.py:116 | mapping distributes over concatenation |
| OpenAIClient.GatherStop | MCP/server/integrations/openai.py:119-120 | a `Stop` effect discards everything after it |
| OpenAIClient.GatherIgnore | MCP/server/integrations/openai.py:126-127 | an `Ignore` effect can be removed without changing the outcome |
| OpenAIClient.DoneEndsStream | MCP/server/integrations/openai.py:119-120 | lines after the `[DONE]` marker are never read |
| OpenAIClient.IgnoredLineIsInert | MCP/server/integrations/openai.py:117-127 | a line that is not `data: `, or whose payload does not decode, can be removed without effect |
| OpenAIClient.GatherRaise | MCP/server/integrations/openai.py:116-127 | an exception escaping the loop before any stop discards everything gathered |
| OpenAIClient.RaisingLineAborts | MCP/server/integrations/openai.py:116-129 | a raising line read before any `[DONE]` makes the whole completion raise, whatever came before or after it |
| OpenAIClient.ChunkShapes | MCP/server/integrations/openai.py:123-124 | `{"choices": []}` and a string `delta` containing "content" raise, and `{"choices": [{}]}` is ignored |
| OpenAIClient.EmptyChoicesAborts | MCP/server/integrations/openai.py:116-129 | a `data: ` chunk with an empty `choices`, read before any `[DONE]`, makes the completion raise |
| OpenAIClient.DataLineEffect | MCP/server/integrations/openai.py:117-122 | a `data: ` line other than the marker does what its decoded payload says, and nothing when the payload does not decode |
| OpenAIClient.ChunkLineEffect | MCP/server/integrations/openai.py:117-125 | a `data: ` line whose payload is not the marker and carries a delta chunk appends its text |
| OpenAIClient.MarkerLineEffect | MCP/server/integrations/openai.py:119-120 | `data: [DONE]` stops the stream |
| OpenAIClient.CommentLineEffect | MCP/server/integrations/openai.py:117 | a `: keep-alive` line is ignored |
| OpenAIClient.ExampleGather | MCP/server/integrations/openai.py:116-129 | appended parts are collected in order around an ignored line |
| OpenAIClient.ExamplePayloads | MCP/server/integrations/openai.py:119 | neither example payload is the `[DONE]` marker once stripped |
| OpenAIClient.ExampleChunkLines | MCP/server/integrations/openai.py:117-125 | each example chunk line appends its text |
| OpenAIClient.ExampleEffects | MCP/server/integrations/openai.py:116-127 | two chunk lines around a comment line give Append, Ignore, Append |
| OpenAIClient.ExampleStops | MCP/server/integrations/openai.py:119-120 | a chunk after `[DONE]` is not collected |
| OpenAIClient.StreamExample | MCP/server/integrations/openai.py:107-129 | chunks "Hel" and "lo", a comment and the marker give "Hello"; the chunk after the marker is not read |
| OpenAIClient.ChatPayload | MCP/server/integrations/openai.py:86-96 | the payload always holds model, messages and temperature; `max_tokens` is present exactly when it is given and non-zero, and `response_format` exactly when it is given and truthy; `stream` is present exactly for streaming, and then holds `true`; there are no other keys |
| OpenAIClient.OpenRouterPrefixIsOpenAIPrefix | MCP/server/integrations/openai.py:178-183 | every `sk-or-` key passes the `sk-` check, so the third check is the one that catches it |
| OpenAIClient.VerifyApiKey | MCP/server/integrations/openai.py:174-198 | valid exactly for a non-empty `sk-` key that is not `sk-or-` and a 200 probe; each failure gets its fixed message (empty key, format, OpenRouter key, 401, 403, other status, connection error); an error is present exactly when the key is not valid |
| OpenAIClient.MalformedKeyNeedsNoProbe | MCP/server/integrations/openai.py:174-184 | a key failing the format checks is rejected whatever the probe would have said |
| OpenAIClient.OpenRouterKeyRejected | MCP/server/integrations/openai.py:181-183 | `sk-or-v1-abc` is refused as an OpenRouter key |
| OpenAIClient.DefaultHeaders | MCP/server/integrations/openai.py:48-51 | the client's headers are exactly the bearer token and the JSON content type |
| OpenAIClient.Client.constructor | MCP/server/integrations/openai.py:34-40 | the settings are stored with the base URL's trailing slashes removed, and there is no session yet |
| OpenAIClient.Client.GetSession | MCP/server/integrations/openai.py:42-55 | returns the existing session, or creates one bound to the base URL and the default headers and keeps it |
| OpenAIClient.Client.Close | MCP/server/integrations/openai.py:57-61 | afterwards there is no session |
| OpenAIClient.ClientManager.constructor | MCP/server/integrations/openai.py:334-343 | stores the settings and starts with an empty cache |
| OpenAIClient.ClientManager.GetClient | MCP/server/integrations/openai.py:345-366 | returns the client cached under the key's hash, or creates one with the manager's settings and adds exactly that entry; an existing entry leaves the cache unchanged |
| OpenAIClient.ClientManager.RemoveClient | MCP/server/integrations/openai.py:374-380 | only the key's entry is removed, after its client is closed; other clients' sessions are untouched |
| OpenAIClient.ClientManager.CloseAll | MCP/server/integrations/openai.py:368-372 | every cached client is closed and the cache ends empty |
| OpenAIClient.Lookup | MCP/server/integrations/openai.py:358-366 | the cache gives a client exactly when the hash is a key of it, and that client is the one stored under the hash |
| OpenAIClient.CacheExample | MCP/server/integrations/openai.py:345-380 | two requests for one key return the same client; a key with a different hash gets a different client; each client holds its own key and has no session yet |
| Embeddings.Indices | MCP/server/integrations/openai.py:156 | the `index` of every item, in order |
| Embeddings.Insert | MCP/server/integrations/openai.py:156 | inserting one item adds exactly one position |
| Embeddings.InsertMultiset | MCP/server/integrations/openai.py:156 | insertion adds the item and loses none |
| Embeddings.InsertIndices | MCP/server/integrations/openai.py:156 | insertion adds the item's index to the indices |
| Embeddings.IndicesCons | MCP/server/integrations/openai.py:156 | the indices of a list led by an item are that item's index followed by the rest |
| Embeddings.InsertSorted | MCP/server/integrations/openai.py:156 | insertion into a list sorted by index keeps it sorted |
| Embeddings.InsertWithIndex | MCP/server/integrations/openai.py:156 | insertion places the item before every item sharing its index that was already in the list |
| Embeddings.OrderByIndex | MCP/server/integrations/openai.py:156 | sorting keeps the number of items |
| Embeddings.OrderByIndexSorted | SKILL/simplemem-skill/src/utils/openrouter.py:130 | `sorted(..., key=index)` is ordered by ascending index |
| Embeddings.OrderByIndexPermutes | SKILL/simplemem-skill/src/utils/openrouter.py:130 | the sorted list is a permutation of the returned items |
| Embeddings.OrderByIndexPermutesIndices | SKILL/simplemem-skill/src/utils/openrouter.py:130 | the sorted list carries the same indices, with the same multiplicities |
| Embeddings.SortedIndicesAscend | SKILL/simplemem-skill/src/utils/openrouter.py:130 | the indices of a list sorted by index ascend |
| Embeddings.OrderByIndexStable | SKILL/simplemem-skill/src/utils/openrouter.py:130 | the sort is stable: items sharing an index keep their relative order |
| Embeddings.Embeddings | SKILL/simplemem-skill/src/utils/openrouter.py:131 | one embedding per returned item, the k-th being that of the k-th item in index order |
| Embeddings.Range | MCP/server/integrations/openai.py:148 | the positions `0 .. n - 1` of the input texts |
| Embeddings.AscendingHeads | MCP/server/integrations/openai.py:156-157 | two ascending lists with the same elements start with the same element |
| Embeddings.TailMultiset | MCP/server/integrations/openai.py:156-157 | removing equal heads leaves equal multisets |
| Embeddings.AscendingUnique | MCP/server/integrations/openai.py:156-157 | two ascending lists with the same elements are equal |
| Embeddings.PositionIsIndex | MCP/server/integrations/openai.py:156-157 | when the indices are `0 .. n - 1` in some order, the item at sorted position k has index k |
| Embeddings.EmbeddingPlacement | MCP/server/integrations/openai.py:156-157 | under that condition, the embedding of input text i is the vector the API tagged with index i |
| Embeddings.FoundInOrder | MCP/server/integrations/openai.py:156 | every returned item appears somewhere in the sorted list |
| OpenRouter.ScanFrom | SKILL/simplemem-skill/src/utils/openrouter.py:254-276 | when the loop returns from index `i`, it returns at a later position whose character is the closing one |
| OpenRouter.BalancedPrefix | SKILL/simplemem-skill/src/utils/openrouter.py:245-276 | None for empty text and for text not opening with `open_char`; a returned string is a non-empty prefix that starts with `open_char` and ends with `close_char` |
| OpenRouter.ExtractBalancedBraces | SKILL/simplemem-skill/src/utils/openrouter.py:245-276 | the loop with `depth`, `in_string` and `escape` returns exactly `BalancedPrefix` |
| OpenRouter.StepAgrees | SKILL/simplemem-skill/src/utils/openrouter.py:255-274 | with no quote among the delimiters, one iteration of this copy and of the OpenAI copy change the state alike and return alike |
| OpenRouter.ScanFromAgrees | SKILL/simplemem-skill/src/utils/openrouter.py:254-276 | with no quote among the delimiters, the two loops agree from any index and state |
| OpenRouter.BalancedPrefixAgrees | SKILL/simplemem-skill/src/utils/openrouter.py:245-276 | the two `_extract_balanced_braces` copies return the same result on every text, for every pair of delimiters other than the double quote |
| OpenRouter.QuoteDelimiterDisagrees | SKILL/simplemem-skill/src/utils/openrouter.py:263-274 | the condition is needed: with `"` as opener and `x` as closer, this copy returns `""x` and the OpenAI copy returns None |
| OpenRouter.ScanFromFirstDelimiter | SKILL/simplemem-skill/src/utils/openrouter.py:226-235 | strategy 4's candidate, when there is one, is non-empty and opens with `{` or `[` |
| OpenRouter.ExtractJson | SKILL/simplemem-skill/src/utils/openrouter.py:197-204 | empty text gives None, and a successful direct parse of the stripped text wins |
| OpenRouter.ExtractJsonIsFirstSuccess | SKILL/simplemem-skill/src/utils/openrouter.py:197-243 | the result is the first success among the stripped text, the first json block, each generic block and the balanced scan; when all fail it is None, because there is no cleanup pass |
| OpenRouter.AfterFencedBlock | SKILL/simplemem-skill/src/utils/openrouter.py:215-243 | once strategies 1 and 2 fail, the generic blocks and then the scan decide |
| OpenRouter.ScanCandidateAgrees | SKILL/simplemem-skill/src/utils/openrouter.py:225-235 | both clients take the same balanced-scan candidate |
| OpenRouter.CleanupComesLast | SKILL/simplemem-skill/src/utils/openrouter.py:225-243 | the OpenAI client's candidates are this client's, followed by the cleaned text |
| OpenRouter.FirstParsedSingle | SKILL/simplemem-skill/src/utils/openrouter.py:237-241 | trying one candidate is parsing it |
| OpenRouter.ExtractorsDifferOnlyByCleanup | SKILL/simplemem-skill/src/utils/openrouter.py:197-243 | wherever this `extract_json` finds a value the OpenAI one finds the same value; where it finds none, the OpenAI one returns the parse of the cleaned text if a `{` or `[` occurs, and None otherwise |
| OpenRouter.ClientHeaders | SKILL/simplemem-skill/src/utils/openrouter.py:55-66 | bearer authorisation and the JSON content type always; `HTTP-Referer` (the SimpleMem site) and `X-Title` (the app name) exactly for non-empty `sk-or-` keys; no other header |
| OpenRouter.Client.constructor | SKILL/simplemem-skill/src/utils/openrouter.py:27-66 | the settings are stored with the base URL's trailing slashes removed, and the open session gets exactly `ClientHeaders` |
| OpenRouter.Client.Close | SKILL/simplemem-skill/src/utils/openrouter.py:278-280 | the session is closed |
| OpenRouter.ProbePath | SKILL/simplemem-skill/src/utils/openrouter.py:151-169 | `/auth/key` for `sk-or-` keys and `/models` for every other key |
| OpenRouter.Failure | SKILL/simplemem-skill/src/utils/openrouter.py:159 | a failure is never valid and carries its message |
| OpenRouter.AuthKeyVerdict | SKILL/simplemem-skill/src/utils/openrouter.py:151-165 | for the `/auth/key` probe: valid exactly for a 200 answer whose body is an object with a truthy `data`; such an object with a falsy `data` gives "Invalid API key"; 401, 403 and other statuses get their fixed messages; an unreadable or non-object body and a failed connection become connection errors; the error is absent exactly when valid |
| OpenRouter.ModelsVerdict | SKILL/simplemem-skill/src/utils/openrouter.py:168-182 | for the `/models` probe: valid exactly for a 200 answer whose body is an object whose `data` is truthy and has items; a falsy or empty `data` gives the no-models message; a truthy `data` without a length becomes a connection error; 401 gets the OpenAI-specific message; 403 and other statuses get their fixed messages; the error is absent exactly when valid |
| OpenRouter.VerifyApiKey | SKILL/simplemem-skill/src/utils/openrouter.py:138-185 | an empty key fails with "API key is required"; an `sk-or-` key is valid exactly when `/auth/key` answers 200 with an object whose `data` is truthy; any other key is valid exactly when `/models` answers 200 with an object whose `data` is non-empty; 401, 403, other statuses and connection failures get their fixed messages; an error is present exactly when the key is not valid |
| OpenRouter.OnlyTheProbedUrlMatters | SKILL/simplemem-skill/src/utils/openrouter.py:149-185 | the verdict depends only on the outcome of the one URL requested |
| OpenRouter.EmptyAccountIsInvalidKey | SKILL/simplemem-skill/src/utils/openrouter.py:155-159 | `{"data": null}` from `/auth/key` is "Invalid API key" |
| OpenRouter.NumericModelListIsConnectionError | SKILL/simplemem-skill/src/utils/openrouter.py:172-185 | a `/models` answer whose `data` is a non-zero number makes `len` raise, which is reported as a connection error |
| StdioBridge.Headers | MCP/stdio_bridge.py:26-34 | every request carries the JSON content type, the bearer token and both accepted types; `Mcp-Session-Id` is present exactly when a non-empty session id is held, and then carries it; there is no other header |
| StdioBridge.SessionAfter | MCP/stdio_bridge.py:42-44 | the session id changes only to a non-empty `Mcp-Session-Id` of a received response, always does so then, and is never cleared |
| StdioBridge.Payload | MCP/stdio_bridge.py:54-56 | a line has a payload exactly when, once stripped, it starts with `data:`; the payload is the stripped text after those five characters |
| StdioBridge.LineValue | MCP/stdio_bridge.py:54-61 | a line adds at most one value, and adds one exactly when its payload is non-empty and parses; the value added is the decoded payload |
| StdioBridge.Last | MCP/stdio_bridge.py:63 | None exactly for no results; otherwise the last result |
| StdioBridge.StreamValueSource | MCP/stdio_bridge.py:52-61 | every collected value is the decoded payload of one of the body's lines |
| StdioBridge.LastStreamValue | MCP/stdio_bridge.py:50-63 | the value an event-stream body yields, when there is one, is the decoded payload of one of its lines |
| StdioBridge.DecodeEventStream | MCP/stdio_bridge.py:50-63 | the SSE branch returns the last value among the body's lines |
| StdioBridge.CollectPayloads | MCP/stdio_bridge.py:52-61 | the loop collects the parsed payloads of the lines, in order |
| StdioBridge.StreamValuesStep | MCP/stdio_bridge.py:53-61 | one more line adds its own value at the end |
| StdioBridge.StreamValuesAppend | MCP/stdio_bridge.py:53-61 | the values of concatenated lines are the concatenated values |
| StdioBridge.StreamValuesSingle | MCP/stdio_bridge.py:53-61 | a single line gives its own value |
| StdioBridge.DataLinePayload | MCP/stdio_bridge.py:54-56 | `data: p` carries `p` when `p` has no outer whitespace |
| StdioBridge.DoneLineIsSkipped | MCP/stdio_bridge.py:55-61 | `data: [DONE]` adds nothing when the marker does not parse |
| StdioBridge.LastLineWins | MCP/stdio_bridge.py:62-63 | a line that yields a value hides every earlier one |
| StdioBridge.SkippedLineAddsNothing | MCP/stdio_bridge.py:57-61 | a line yielding nothing leaves the values of the lines around it as they were |
| StdioBridge.DoneLineAddsNothing | MCP/stdio_bridge.py:55-63 | `[DONE]` is not a terminator: the lines after it still count |
| StdioBridge.NothingParsedNothingReturned | MCP/stdio_bridge.py:52-63 | without a `data:` line that parses, an event stream yields nothing |
| StdioBridge.ServerError | MCP/stdio_bridge.py:77-93 | the error returned for a failed request is a truthy object with `jsonrpc` "2.0", the request's `id`, no `result`, and an `error` object whose `code` is -32000 and whose `message` is the given text |
| StdioBridge.ResponseFor | MCP/stdio_bridge.py:39-93 | an HTTP error gives a -32000 error with "HTTP code: body" (or `str(e)` when the body cannot be read); other exceptions and unreadable bodies give one with their message; an SSE body gives its last value; a plain body gives None exactly when blank, otherwise its parse or a -32000 error with the decoding message; every error carries the message's id |
| StdioBridge.Respond | MCP/stdio_bridge.py:46-93 | the body decoding and error synthesis of `send_to_server` compute `ResponseFor` |
| StdioBridge.ErrorsReuseTheId | MCP/stdio_bridge.py:70-93 | every error the bridge synthesises for a forwarded message is an object carrying that message's id and code -32000 |
| StdioBridge.Step | MCP/stdio_bridge.py:103-127 | one input line writes at most one line and sends at most one request, carrying the headers for the session held before it; earlier requests are untouched |
| StdioBridge.Relay | MCP/stdio_bridge.py:103-127 | running the loop over lines only appends requests: at most one per line, with the requests sent before kept as they were |
| StdioBridge.RelayAppend | MCP/stdio_bridge.py:103-127 | running the loop over two batches of lines one after the other is running it over their concatenation: the outputs are concatenated and the final state is the one the second batch reaches |
| StdioBridge.RelayAppendState | MCP/stdio_bridge.py:103-127 | the state reached over two batches is the state the second batch reaches from where the first left off |
| StdioBridge.RelayAppendOutput | MCP/stdio_bridge.py:103-127 | the lines written over two batches are those written over the first, then those written over the second |
| StdioBridge.BlankLineIsInert | MCP/stdio_bridge.py:104-106 | a blank line writes nothing and sends nothing |
| StdioBridge.UndecodableLineGetsParseError | MCP/stdio_bridge.py:108-120 | a line that does not decode writes exactly one -32700 error with a null id, and sends nothing |
| StdioBridge.ReplyOnlyToRequests | MCP/stdio_bridge.py:122-127 | a decoded message is sent exactly once; a line is written exactly when the response is present and truthy and the id is not null, and that line is the response; notifications never get one |
| StdioBridge.SessionNeverCleared | MCP/stdio_bridge.py:42-44 | once held, a session id is never lost over any number of lines |
| StdioBridge.SessionSentOnLaterRequests | MCP/stdio_bridge.py:32-34 | once a session id is held, every request sent afterwards carries a non-empty `Mcp-Session-Id` header |
| StdioBridge.RequestCarriesHeldSession | MCP/stdio_bridge.py:26-37 | the request sent for a decodable line is built from the URL, the token and the session held when that line is read, with that session's value in `Mcp-Session-Id`, and later lines do not change it |
| StdioBridge.SessionLearnedMidRun | MCP/stdio_bridge.py:42-44 | a session id learned part-way through a run is followed by a non-empty `Mcp-Session-Id` header on every later request |
| StdioBridge.AtMostOneReplyPerLine | MCP/stdio_bridge.py:103-127 | no more lines are written than were read |
| StdioBridge.Bridge.constructor | MCP/stdio_bridge.py:19 | the bridge starts without a session id and without requests |
| StdioBridge.Bridge.SendToServer | MCP/stdio_bridge.py:22-93 | one request with the current headers is appended to those sent, the session is updated as `SessionAfter` says, and the response is `ResponseFor` |
| StdioBridge.Bridge.Run | MCP/stdio_bridge.py:103-127 | the loop over the input lines writes exactly `Relay`'s output and reaches its state |

## Left out

- `json.loads`, `json.dumps` and the two `re.findall` searches are inputs, not verified behaviour. A decoding failure is its error message, and written output is the `Json` value itself.
- The HTTP transport is an input: `httpx.AsyncClient`, `requests.Session`, `urllib.request.urlopen`, timeouts and `async`/`await`. So is `raise_for_status`: the stream model starts from a response already accepted.
- Floating-point data is kept opaque. Temperature is a `real` copied into the payload, and embedding vectors are a type parameter.
- `OpenAIClient.ClientManager`: the SHA-256 key hash is the `keyHash` parameter. Distinct keys may collide exactly as far as that function says.
- `Text.Lower`: `lower()` is modelled on ASCII letters only. Non-ASCII case mappings play no part in the five English prefixes.
- `OpenAIClient.VerifyApiKey`: it is a function of the probe outcome. The `_get_client()` call that precedes the probe (openai.py line 186) creates and stores the client's HTTP session as a side effect, and the model leaves the `Client` untouched.
- `OpenAIClient.StreamCompletion`: any exception other than a decoding error inside the loop is the single outcome `Raised`, without its message.
- The non-streaming path of `chat_completion` (`data["choices"][0]["message"]["content"]`) and `create_single_embedding` are not modelled. They are plain indexing into the response.
- The OpenRouter `chat_completion` payload (openrouter.py lines 87-97) builds the same map as `OpenAIClient.ChatPayload` with streaming off. It is not modelled separately.
- `Embeddings.Embeddings`: malformed embedding responses are outside the model, namely missing `data`, `index` or `embedding` keys and non-integer indices. The model takes well-formed items.
- `OpenRouter.Client.constructor`: the default headers of a `requests.Session` are not modelled; the model records only the headers the client adds.
- `OpenRouter.VerifyApiKey`: the text of a `response.json()` decoding failure is the parser's error message, not the exact wording `requests` would produce.
- `StdioBridge.Bridge.Run`, `StdioBridge.Step`, `StdioBridge.Relay`: they require every decodable line to be a JSON object, so lines that decode to anything else are not modelled. In the code such a message is still sent, and a session id in the answer is still captured. After that, `message.get` raises and ends the process when the exchange fails or the response is truthy. When the response is falsy the loop goes on without a reply.
- In the bridge, a `data: [DONE]` line is not a terminator. The code treats it as an unparseable payload and skips it, and later lines still count (see `StdioBridge.DoneLineAddsNothing`).
- `argparse`, `print`/`flush` and the iteration over standard input are not modelled: the input is a sequence of lines and the output a sequence of values.
- The settings module, the tests, the quickstart script and the integrations package initialiser hold no logic of the modelled core and are not part of this model.

# apc-copilot detection core in Dafny

This project models the privacy-detection core of the apc-copilot
dashboard. It covers:

- **Code detection.** A code file is classified by its extension. A
  detection prompt is built for the chat model. The model's answer is
  parsed into findings. When that answer does not parse, a line-by-line
  keyword scanner takes over.
- **Image detection mapping.** The vision endpoint's boxes become findings
  with a display name, a severity and a position in percent.
- **Dashboard statistics.** The detection result is extracted from a
  trace. Records are processed in batches of five. Risk and block counts
  are computed.
- **Prompt detection, server side.** The request body is validated. The
  streaming completion is relayed as `data:` frames, closed by `[DONE]`.
  The model's JSON verdict is parsed, with defaults filled in.
- **Prompt detection, client side.** The streaming component reads those
  frames, accumulates the response and the reasoning, and completes at
  `[DONE]`.
- **Prompt firewall page.** Four keyword rules give ordered warnings, and
  the prompt is blocked when a high warning stands.
- **API router.** The `type` query parameter selects a handler, and the
  CORS preflight answer is fixed.

JavaScript semantics the code relies on are written out explicitly:

- truthiness and the `a || b` default;
- property reads, where reading a property of `null` throws;
- `String()` coercion, except that an object's own `toString` key is not
  consulted (see "## Left out"), and `JSON.stringify` string quoting;
- the greedy `/\[[\s\S]*\]/` span;
- `split`, `trim` and `toLowerCase`;
- `length` counted in UTF-16 code units.

Everything outside the core is a function-typed parameter: `JSON.parse`,
the chat-completion endpoint, the upstream stream, `fetch` and the
per-trace processing.

Modules:

- `Strings`, `Common`, `JsonModel`: shared vocabulary.
- `CodeDetection`: lib/code-detection.ts, whose helpers server/lib/openai.ts
  repeats.
- `ServerApi`: the rest of server/lib/openai.ts.
- `ImageDetection`: request/image.ts.
- `DashboardData`: lib/dashboard-data.ts.
- `PromptDetection`: server/api/handlers/prompt-detection.ts.
- `StreamingClient`: components/streaming-detection.tsx.
- `PromptShield`: app/dashboard/prompt-shield/page.tsx.
- `ApiRouter`: app/api/ai/route.ts.

The imperative parts keep their form:

- the manual line scanner, the batch loop, the statistics loop and the
  required-parameter loop are methods with loops;
- the server's event stream controller, the streaming component and the
  firewall page are classes whose methods update their fields.

Each of these is proved against a specification function, and the
properties are proved about those functions.

The streaming completion in server/lib/openai.ts:118-150 catches its own
failures and always resolves to a result. An upstream failure is therefore
a `Finished` run with a failed result. The handler then writes an error
frame and `[DONE]` (server/api/handlers/prompt-detection.ts:65-75). The
catch of `start` (lines 76-83) is modelled as written, as the `Threw` case.
It runs only when the controller itself throws. `Threw` is explained under
"## Left out".

## Model

| member | source | states |
|---|---|---|
| CodeDetection.IsCodeFileIffNotText | lib/code-detection.ts:179-229 | a file is a code file exactly when its detected type is not 'text' (lookup over the table's own keys) |
| CodeDetection.ExtensionAfterLastDot | lib/code-detection.ts:180 | the extension is the lower-cased text after the last dot, whatever dots the stem holds |
| CodeDetection.NameWithoutDot | lib/code-detection.ts:180-215 | a name without a dot is its own extension, so a file named `env` is 'environment' |
| CodeDetection.DetectFileTypeIgnoresCase | lib/code-detection.ts:180-215 | upper or lower case in the extension gives the same type |
| CodeDetection.UpperCaseExtension | lib/code-detection.ts:180-215 | `A.PY` is detected as 'python' |
| CodeDetection.AsWrittenConstructorDisagrees | lib/code-detection.ts:182-215 | as written, an extension `constructor` yields an inherited member instead of 'text' while the file is not a code file |
| CodeDetection.AsWrittenAgreesOffInheritedKeys | lib/code-detection.ts:182-215 | off the two inherited lower-case keys the as-written lookup and the corrected one agree |
| CodeDetection.PromptFencesContent | lib/code-detection.ts:55-96 | the detection prompt holds the file content inside a fenced block tagged with the file type |
| CodeDetection.PromptNamesFile | lib/code-detection.ts:55-96 | the detection prompt names the file and its type |
| CodeDetection.ParseDetectionResponse | lib/code-detection.ts:101-108 | an answer without a `[` before a `]` gives no findings and never reaches the fallback |
| CodeDetection.ParsedArrayNormalized | lib/code-detection.ts:110-125 | a parsed array keeps its length and order; each truthy field is kept, each falsy one replaced by its default, `lineNumber` and `codeSnippet` pass through |
| CodeDetection.DefaultIdsDistinct | lib/code-detection.ts:119 | the defaulted ids `detection-{i}` are pairwise distinct |
| CodeDetection.ParseFailureFallsBack | lib/code-detection.ts:111-130 | a span that does not parse, or an array holding null (whose field read throws), gives exactly the line scanner's findings |
| CodeDetection.NonArrayGivesNothing | lib/code-detection.ts:113-116 | a span that parses to a non-array gives no findings |
| CodeDetection.FindingsAlwaysFilled | lib/code-detection.ts:101-174 | on every path each finding has a truthy id, type, content and severity |
| CodeDetection.ManualItemsAreNumberedRecognisedLines | lib/code-detection.ts:136-174 | the k-th fallback finding is the k-th recognised trimmed line, with id `manual-{k+1}` and its category's type and severity; at most one finding per line |
| CodeDetection.ClassifyPriority | lib/code-detection.ts:141-171 | an API-key line is an API key whatever else it holds, then passwords, then internal addresses; only internal addresses are medium |
| CodeDetection.ManualItemsFilled | lib/code-detection.ts:141-171 | every fallback finding has non-empty id, type, content and severity |
| CodeDetection.ExtractManualDetection | lib/code-detection.ts:136-174 | the loop with its running counter computes exactly the scanner's specification |
| CodeDetection.ScanLine | lib/code-detection.ts:141-171 | the keyword chain for one trimmed line gives the finding of the line's category with the current id, or none |
| JsonModel.GreedySpan | lib/code-detection.ts:104 | the span exists exactly when an opening character precedes a closing one, and runs from the first opening to the last closing character |
| ServerApi.HandleApiError | server/lib/openai.ts:420-434 | always a failure without data; an Error's message, '未知错误' for anything else thrown |
| ServerApi.FirstMissing | server/lib/openai.ts:439-449 | no position exactly when every field is truthy; otherwise the first falsy field |
| ServerApi.ValidateRequiredParams | server/lib/openai.ts:439-449 | no message exactly when all fields are truthy; otherwise the message names the first falsy field |
| ServerApi.MissingMessageNamesField | server/lib/openai.ts:444-446 | the message includes the missing field's name |
| ServerApi.CreateTextMessageDefaultsToUser | server/lib/openai.ts:180-188 | the text is kept and the role defaults to user |
| ServerApi.DetectCodeSensitiveInfo | server/lib/openai.ts:195-232 | success exactly when the chat call succeeded with data; a failure always carries a non-empty error text |
| ServerApi.DetectFailureSkipsParsing | server/lib/openai.ts:211-216 | a failed call never consults the parser and reports the upstream error or '代码检测失败' |
| ServerApi.DetectSuccessParsesReply | server/lib/openai.ts:219-224 | on success the data is the parse of the reply content |
| ServerApi.CodeDetectionRequestCarriesFile | server/lib/openai.ts:199-210 | one user message holding the file content and name, the fixed model, high reasoning effort |
| ImageDetection.MapDetectionResults | request/image.ts:119-150 | one finding per box of the first prediction entry |
| ImageDetection.NoFindingsWithoutPrediction | request/image.ts:124-126 | a failed call or a missing or empty prediction gives no findings |
| ImageDetection.OnlyFirstEntryUsed | request/image.ts:128 | entries after the first never influence the findings |
| ImageDetection.MappedFinding | request/image.ts:130-149 | the i-th finding carries id `detection-{i}`, the class and score, the display name or raw class, the class's severity and description, and the box in percent of the image sides |
| ImageDetection.FindingIdsDistinct | request/image.ts:136 | finding ids are pairwise distinct |
| ImageDetection.DisplayName | request/image.ts:133 | a known class shows its table name, an unknown one its raw name |
| ImageDetection.GenerateContent | request/image.ts:76-88 | the face description exactly when the class contains FACE; the sensitive description exactly when it contains EXPOSED but not FACE; the confidence is the score times one hundred |
| ImageDetection.SeverityRules | request/image.ts:53-71 | faces high; exposure without feet or armpits high; exposed feet or armpits medium; no face and no exposure low |
| ImageDetection.DescriptionMatchesSeverity | request/image.ts:53-88 | a face description comes with high severity, a generic one with low |
| ImageDetection.FaceClassesAreHigh | request/image.ts:53-57 | the two face classes are high with a face description |
| ImageDetection.ExposedClassesAreHigh | request/image.ts:59-62 | the exposed classes other than feet and armpits are high |
| ImageDetection.FeetAndArmpitsAreMedium | request/image.ts:64-67 | exposed feet and armpits are medium |
| ImageDetection.CoveredClassesAreLow | request/image.ts:69-70 | the covered classes are low |
| DashboardData.FirstGeneration | lib/dashboard-data.ts:50-55 | the position of the first GENERATION observation, none exactly when there is none |
| DashboardData.ExtractAIResult | lib/dashboard-data.ts:45-73 | a result always has `overallRisk` and `blocked`; a non-array gives none |
| DashboardData.OnlyFirstGenerationCounts | lib/dashboard-data.ts:50-72 | the first generation observation decides; later observations never matter |
| DashboardData.NoGenerationNoResult | lib/dashboard-data.ts:50-59 | without a generation observation there is no result |
| DashboardData.ProcessAllAppend | lib/dashboard-data.ts:121-141 | processing two parts in turn is processing the whole list |
| DashboardData.ProcessAllTotal | lib/dashboard-data.ts:121-141 | when no record is dropped, the i-th processed record is the i-th record processed |
| DashboardData.FetchAndProcessRecords | lib/dashboard-data.ts:121-141 | the batches of five give the kept records in record order |
| DashboardData.CalculateStats | lib/dashboard-data.ts:146-176 | the total is the number of records; each counter counts the records with that risk level or blocked |
| DashboardData.CountsBounded | lib/dashboard-data.ts:146-176 | the three risk counters together, and the blocked counter, never exceed the total |
| DashboardData.ResultlessRecordsNotCounted | lib/dashboard-data.ts:155-156 | a record without a result adds to no counter |
| PromptDetection.UserPromptQuotesPrompt | server/api/handlers/prompt-detection.ts:158-171 | the user prompt holds the prompt between double quotes |
| PromptDetection.UserPromptEmbedsPrompt | server/api/handlers/prompt-detection.ts:158-171 | the prompt sits verbatim right after the fixed introduction and its quote |
| PromptDetection.UserPromptInjective | server/api/handlers/prompt-detection.ts:158-171 | different prompts give different user prompts |
| PromptDetection.HandlePromptDetection | server/api/handlers/prompt-detection.ts:17-101 | a malformed or null body is a 500 error envelope; a falsy prompt is a 400 naming `prompt`; otherwise an event stream with the fixed headers for the stringified prompt |
| PromptDetection.Start | server/api/handlers/prompt-detection.ts:39-84 | the controller ends closed holding exactly the frames of the upstream run |
| PromptDetection.DoneExactlyOnceAtEnd | server/api/handlers/prompt-detection.ts:53-75 | a finished run writes `[DONE]` exactly once, as its last frame, after an error frame when the call failed |
| PromptDetection.NoDoneAfterThrow | server/api/handlers/prompt-detection.ts:76-83 | the catch path writes no `[DONE]`; its last frame is the error frame |
| PromptDetection.ChunkFramesFirst | server/api/handlers/prompt-detection.ts:53-62 | the frames begin with one frame per chunk, in order |
| PromptDetection.PayloadsAreSingleLines | server/api/handlers/prompt-detection.ts:55-70 | the JSON payloads never contain a raw line feed |
| PromptDetection.FillResultDefaults | server/api/handlers/prompt-detection.ts:194-199 | null throws; otherwise each falsy field becomes `[]`, 'low', false or the response text |
| PromptDetection.ParseDetectionResult | server/api/handlers/prompt-detection.ts:176-188 | no `{`...`}` span gives the low-risk, unblocked fallback |
| PromptDetection.ParseFailureGivesFallback | server/api/handlers/prompt-detection.ts:200-208 | a span that does not parse, or parses to null, gives the fallback |
| PromptDetection.ParsedValueFilled | server/api/handlers/prompt-detection.ts:190-199 | a parsed value keeps its truthy fields and defaults the others |
| StreamingClient.StreamingDetection.StartDetection | components/streaming-detection.tsx:37-121 | the component's new state is the run specification applied to its old state |
| StreamingClient.StreamingDetection.Reset | components/streaming-detection.tsx:124-128 | reasoning cleared, not analysing, no result |
| StreamingClient.NonDataLineSkipped | components/streaming-detection.tsx:76 | a line without the `data: ` prefix changes nothing |
| StreamingClient.NonChunkPayloadIgnored | components/streaming-detection.tsx:99-112 | a payload that does not parse, is null, or is not a chunk (an error in particular) changes nothing |
| StreamingClient.ChunkPayloadAppends | components/streaming-detection.tsx:101-106 | a chunk appends its content and its reasoning |
| StreamingClient.ConsumeAppend | components/streaming-detection.tsx:68-115 | lines after a `[DONE]` are never looked at |
| StreamingClient.ChunkFramesConsumed | components/streaming-detection.tsx:68-115 | the handler's chunk frames accumulate the concatenated contents and reasonings |
| StreamingClient.RoundTripFinished | components/streaming-detection.tsx:68-97 | the frames of a finished handler run stop the client at `[DONE]` with the concatenated contents and reasonings |
| StreamingClient.RoundTripThrew | components/streaming-detection.tsx:68-115 | the catch-path frames leave the client at the end of the body without `[DONE]` |
| StreamingClient.ShortPromptSendsNothing | components/streaming-detection.tsx:38-41 | a prompt under ten code units only clears the result, whatever the network would answer |
| StreamingClient.CompletedExchange | components/streaming-detection.tsx:78-97 | a complete exchange ends the analysis with the defaults-filled verdict, reported once to the completion callback |
| StreamingClient.StalledAfterHandlerException | components/streaming-detection.tsx:68-115 | given the catch-path frames, the component stays analysing and calls neither callback |
| StreamingClient.StillAnalyzingIff | components/streaming-detection.tsx:37-121 | the analysis stays marked running exactly when the body ended normally without `[DONE]` (or a short prompt arrived while running) |
| PromptShield.ShieldPage.AnalyzePrompt | app/dashboard/prompt-shield/page.tsx:55-119 | a short text clears warnings and block; otherwise the warnings are the firing rules' in rule order and the block is their high test |
| PromptShield.DetectWarnings | app/dashboard/prompt-shield/page.tsx:68-112 | the four keyword checks give exactly the firing rules' warnings, in rule order |
| PromptShield.ShieldPage.HandleSubmit | app/dashboard/prompt-shield/page.tsx:121-127 | the prompt goes out exactly when it is not blocked |
| PromptShield.SelectInRuleOrder | app/dashboard/prompt-shield/page.tsx:68-112 | the warnings are those of the firing rules, one per rule, at ascending rule positions |
| PromptShield.BlockedIffHighRuleFires | app/dashboard/prompt-shield/page.tsx:115 | blocked exactly when the customer-privacy or the sensitive-access rule fires |
| PromptShield.NoWarningsIffNoKeyword | app/dashboard/prompt-shield/page.tsx:68-114 | no warnings exactly when none of the twelve keywords occurs |
| PromptShield.WarningIdsDistinct | app/dashboard/prompt-shield/page.tsx:68-112 | no warning id repeats |
| ApiRouter.RouteOf | app/api/ai/route.ts:13-31 | a route is selected exactly when the type is one of the three keys, and it is that key's route |
| ApiRouter.RouteKeyRoundTrip | app/api/ai/route.ts:13-17 | each key selects its own route and no other key does |
| ApiRouter.Operation | app/api/ai/route.ts:28 | a non-empty operation is passed through, otherwise 'default' |
| ApiRouter.KnownTypeDelegates | app/api/ai/route.ts:26-33 | a known type runs exactly that handler and answers what it answers; a rejection becomes a 500 error envelope |
| ApiRouter.UnknownTypeNotFound | app/api/ai/route.ts:31-38 | a missing or unknown type answers 404 without consulting any handler |
| ApiRouter.ServerErrorsAreFailures | app/api/ai/route.ts:39-42 | every 500 carries a failure envelope with an error text |
| ApiRouter.UnparseableUrlIsServerError | app/api/ai/route.ts:26 | an unparseable URL answers 500 whatever the handlers |
| ApiRouter.Options | app/api/ai/route.ts:48-57 | the preflight is 200 with any origin, `POST, OPTIONS` and `Content-Type` |

## Left out

- Network and model calls are parameters, not models: `createChatCompletion`,
  `createStreamingChatCompletion`, the vision `fetch`, the Langfuse trace
  list and trace detail, and `processRecord`.
- `createImageTextMessage` and the OpenAI client set-up are left out. They
  only assemble SDK objects.
- `detectCodeSensitiveInfo` in lib/code-detection.ts is left out. It differs
  from the server version only in logging and in rethrowing a fixed Error.
- The document and code handlers are left out. They are not shown, so the
  router takes every handler as a parameter.
- ApiRouter.RouteOf: models `apiType in API_ROUTES` over the three own
  keys. As written, `in` also accepts inherited keys such as `toString`.
  The member found that way is not a handler, so the outcome depends on
  Next.js internals.
- ImageDetection.DisplayName: same gap for `CLASS_NAME_MAP[className]`,
  which also finds inherited members such as `constructor`.
- ImageDetection.GenerateContent: `toFixed(1)` formatting is not modelled.
  The description carries the exact percentage.
- Floating point is not modelled. Scores, boxes and percentages are reals,
  and a division by a zero image side is the single value `NotFinite`.
  JSON numbers are integers only.
- `getImageSize` and the browser `Image`/`URL` objects are left out, and so
  is `extractTaskTypeFromUrl`.
- Concurrency and timers are left out:
  - `Promise.all` over a batch is sequential in the model, which the result
    cannot observe;
  - PromptShield.ShieldPage.AnalyzePrompt: the 800 ms timer is run to
    completion inside the call, so the interleaving of overlapping timers
    is not modelled.
- Byte-level decoding is left out. `TextDecoder` is not modelled, so each
  read arrives as a string. StartDetection splits each read on `\n` by
  itself, as the component does, so a frame split across reads is
  misparsed in the model as it is in the component. Only
  StreamingClient.RoundTripFinished, StreamingClient.RoundTripThrew and
  StreamingClient.CompletedExchange assume one frame per read.
- Callbacks (`onDetectionComplete`, `onError`, the chunk callback) are
  assumed not to throw. Their calls are recorded as state.
- The catch path of `detectCodeSensitiveInfo` in server/lib/openai.ts is
  left out. It is reachable only if the prompt building or the chat call
  throws, and both are total in the model.
- PromptDetection.HandlePromptDetection: the event stream is represented by
  the prompt text it was opened for. The chat request its `start` sends is
  `PromptDetection.PromptChatRequest` of that text, given by definition;
  no separate property is stated about the fixed system instruction.
  String conversion of the prompt is also not exact. A prompt object with
  its own `toString` key that is not callable makes the template literal
  throw a TypeError. The handler then answers 500. The model opens a stream
  for "[object Object]" instead, because `JsonModel.ToJsString` renders
  every object, and every array holding such an object, without looking
  at its keys.
- StreamingClient.LineEffect: same conversion gap. For a chunk whose
  `content` is such an object, `fullResponse += parsed.content` throws and
  the inner catch skips the line. The model appends "[object Object]".
- ServerApi.FirstMissing and ServerApi.ValidateRequiredParams: `params[field]`
  is looked up over the body's own keys. As written, an inherited member
  such as `constructor` would count as present. The handlers ask only for
  `prompt`, `fileContent` and `fileName`, which are not inherited names.
- `Threw`: PromptDetection.Upstream.Threw is an unconstrained oracle case
  that the chat call cannot produce. The streaming completion catches its
  own failures, including a throwing `onChunk`, and always resolves. The
  catch of `start` is therefore reached only when `enqueue` or `close`
  throws, and then its own `enqueue` throws as well. So the frames that
  NoDoneAfterThrow, RoundTripThrew and StalledAfterHandlerException
  describe reach no client.
- DashboardData.FetchAndProcessRecords: `processRecord` awaits the trace
  detail, which can reject. A rejection makes `Promise.all` reject, and
  with it the whole call, discarding the batches already collected. The
  model's `process` never rejects, so this error path is not modelled.
- JSON.parse is a parameter. The round-trip lemmas state the assumption
  that it reads back what `JSON.stringify` wrote.
- Object key order, `console` logging and the React rendering are left out.

## Findings

| source | as written | input that shows it | evidently intended | confidence | as-written member | corrected member |
|---|---|---|---|---|---|---|
| lib/code-detection.ts:215 | `typeMap[extension]` on an object literal also finds inherited members, so the default to 'text' does not apply to them | a file named `x.constructor`: the lookup returns the inherited `Object` constructor instead of 'text', while `isCodeFile` is false | any extension outside the table is 'text', so `isCodeFile(f)` holds exactly when `detectFileType(f) != 'text'` | not executed | CodeDetection.AsWrittenConstructorDisagrees | CodeDetection.IsCodeFileIffNotText |

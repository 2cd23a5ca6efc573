/** The prompt-detection handler (server/api/handlers/prompt-detection.ts):
    the validation gate, the chat request it builds, the event-stream
    frames it writes while the streaming completion runs, and the
    (unused) result parser. The streaming completion itself is not
    modelled: what it delivered is the input `Upstream`. */
module PromptDetection {
  import opened Common
  import opened Strings
  import opened JsonModel
  import opened ServerApi

  // ------------------------------------------------------------ prompts

  const SystemPrompt: string :=
    "你是一个专业的隐私风险检测助手。你的任务是分析用户输入的Prompt，检测其中可能存在的隐私和安全风险。\n" +
    "\n" +
    "请重点关注以下风险类型：\n" +
    "\n" +
    "1. **客户隐私泄露风险**\n" +
    "   - 客户个人信息（姓名、电话、邮箱、身份证号等）\n" +
    "   - 客户名单、联系方式\n" +
    "   - 客户购买记录、消费习惯\n" +
    "   - 客户地址、位置信息\n" +
    "\n" +
    "2. **商业机密风险**\n" +
    "   - 销售数据、财务数据\n" +
    "   - 商业计划、战略信息\n" +
    "   - 内部流程、运营数据\n" +
    "   - 合作伙伴信息\n" +
    "\n" +
    "3. **敏感数据访问风险**\n" +
    "   - 数据库访问请求\n" +
    "   - 系统管理权限\n" +
    "   - 批量数据导出\n" +
    "   - 用户账号信息\n" +
    "\n" +
    "4. **合规性风险**\n" +
    "   - 违反数据保护法规\n" +
    "   - 未经授权的数据使用\n" +
    "   - 数据跨境传输\n" +
    "   - 数据保留期限\n" +
    "\n" +
    "请按照以下JSON格式返回检测结果：\n" +
    "{\n" +
    "  \"risks\": [\n" +
    "    {\n" +
    "      \"id\": \"唯一标识符\",\n" +
    "      \"type\": \"风险类型\",\n" +
    "      \"description\": \"风险描述\",\n" +
    "      \"severity\": \"high|medium|low\",\n" +
    "      \"suggestion\": \"建议措施\",\n" +
    "      \"confidence\": 0.0-1.0\n" +
    "    }\n" +
    "  ],\n" +
    "  \"overallRisk\": \"high|medium|low\",\n" +
    "  \"blocked\": true|false,\n" +
    "  \"reasoning\": \"检测推理过程\"\n" +
    "}\n" +
    "\n" +
    "如果没有检测到风险，返回空的risks数组，overallRisk为\"low\"，blocked为false。"

  const UserPromptIntro: string :=
    "请分析以下用户输入的Prompt，检测其中的隐私和安全风险：\n\n用户Prompt：\n"

  const UserPromptOutro: string :=
    "\n\n请仔细分析这个Prompt是否涉及：\n1. 客户隐私信息\n2. 商业机密数据\n3. 敏感系统访问\n4. 合规性问题\n\n请提供详细的风险评估和建议。"

  /** `buildUserPrompt`: the user's prompt between double quotes inside a
      fixed instruction. */
  function BuildUserPrompt(prompt: string): string {
    UserPromptIntro + "\"" + prompt + "\"" + UserPromptOutro
  }

  /** The prompt is embedded verbatim between double quotes. */
  lemma UserPromptQuotesPrompt(prompt: string)
    ensures Includes(BuildUserPrompt(prompt), "\"" + prompt + "\"")
  {
    IncludesAround(BuildUserPrompt(prompt), UserPromptIntro, "\"" + prompt + "\"", UserPromptOutro);
  }

  /** The prompt sits at a fixed place, so it can be read back from the
      instruction. */
  lemma UserPromptEmbedsPrompt(prompt: string)
    ensures BuildUserPrompt(prompt)[|UserPromptIntro| + 1..|UserPromptIntro| + 1 + |prompt|] == prompt
  {
    SliceAround(BuildUserPrompt(prompt), UserPromptIntro + "\"", prompt, "\"" + UserPromptOutro);
  }

  /** Different prompts give different instructions. */
  lemma UserPromptInjective(a: string, b: string)
    requires BuildUserPrompt(a) == BuildUserPrompt(b)
    ensures a == b
  {
    UserPromptEmbedsPrompt(a);
    UserPromptEmbedsPrompt(b);
    assert |a| == |b|;
  }

  /** The streaming request: the system instruction, then the user's, with
      the fixed model and high reasoning effort. */
  function PromptChatRequest(prompt: string): ChatRequest {
    ChatRequest([CreateTextMessage(SystemPrompt, System), CreateTextMessage(BuildUserPrompt(prompt), User)],
      Model, EffortHigh)
  }

  // --------------------------------------------------- the request gate

  /** What `await request.json()` gives: a parse error, or a value. */
  datatype RequestBody = MalformedBody(error: Thrown) | Body(value: Json)

  /** The TypeError V8 raises for `const { prompt } = body` on null. */
  const NullBodyMessage: string := "Cannot destructure property 'prompt' of 'body' as it is null."

  const StreamHeaders: map<string, string> := map[
    "Content-Type" := "text/event-stream",
    "Cache-Control" := "no-cache",
    "Connection" := "keep-alive",
    "Access-Control-Allow-Origin" := "*",
    "Access-Control-Allow-Headers" := "Content-Type"]

  /** The handler's answer: a JSON envelope with a status, or the event
      stream whose `start` will send `PromptChatRequest(prompt)` for the
      given prompt text. */
  datatype HandlerResponse =
    | JsonResponse(status: nat, envelope: ApiResponse<Json>)
    | EventStreamResponse(prompt: string, headers: map<string, string>)

  /** The fields `validateRequiredParams` can see on the body: an object's
      own fields; any other non-null value has no `prompt`. */
  function BodyFields(body: Json): map<string, Json> {
    if body.JObj? then body.fields else map[]
  }

  /** `handlePromptDetection`: a body that does not parse, or a null body,
      ends in a 500 error envelope; a falsy `prompt` in a 400 naming it,
      without any chat call; a truthy one opens the event stream for the
      stringified prompt. */
  method HandlePromptDetection(body: RequestBody) returns (r: HandlerResponse)
    ensures body.MalformedBody? ==> r == JsonResponse(500, HandleApiError(body.error))
    ensures body == Body(JNull) ==> r == JsonResponse(500, HandleApiError(ErrorValue(NullBodyMessage)))
    ensures body.Body? && body.value != JNull && !Truthy(Get(body.value, "prompt")) ==>
      r == JsonResponse(400, ApiResponse(false, None, Some("缺少必需参数: prompt")))
    ensures body.Body? && Truthy(Get(body.value, "prompt")) ==>
      r == EventStreamResponse(Coerce(Get(body.value, "prompt")), StreamHeaders)
  {
    if body.MalformedBody? {
      return JsonResponse(500, HandleApiError(body.error));
    }
    if body.value == JNull {
      return JsonResponse(500, HandleApiError(ErrorValue(NullBodyMessage)));
    }
    var prompt := Get(body.value, "prompt");
    var validationError := ValidateRequiredParams(BodyFields(body.value), ["prompt"]);
    assert Param(BodyFields(body.value), "prompt") == prompt;
    if !Truthy(prompt) {
      assert FirstMissing(BodyFields(body.value), ["prompt"]) == Some(0);
      assert MissingParamMessage("prompt") == "缺少必需参数: prompt";
    }
    if validationError.Some? && validationError.value != "" {
      return JsonResponse(400, ApiResponse(false, None, validationError));
    }
    return EventStreamResponse(Coerce(prompt), StreamHeaders);
  }

  // ------------------------------------------------------- the frames

  /** One chunk the streaming completion hands to `onChunk`. */
  datatype StreamChunk = StreamChunk(content: string, reasoning: string, done: bool)

  /** How `start` ran. The streaming completion catches its own failures,
      so it delivers chunks and then returns its result (`Finished`, with a
      failed result when the upstream call failed). `Threw` is the catch
      of `start` as written. That catch runs only when the controller
      itself throws. */
  datatype Upstream =
    | Finished(chunks: seq<StreamChunk>, result: ApiResponse<()>)
    | Threw(delivered: seq<StreamChunk>, error: Thrown)

  /** `JSON.stringify({type: 'chunk', content, reasoning, done})` */
  function ChunkPayload(c: StreamChunk): string {
    "{\"type\":\"chunk\",\"content\":" + QuoteJsonString(c.content) +
    ",\"reasoning\":" + QuoteJsonString(c.reasoning) +
    ",\"done\":" + (if c.done then "true" else "false") + "}"
  }

  /** `JSON.stringify({type: 'error', error})`; an `undefined` error is
      left out of the object. */
  function ErrorPayload(error: Option<string>): string {
    match error
    case None => "{\"type\":\"error\"}"
    case Some(e) => "{\"type\":\"error\",\"error\":" + QuoteJsonString(e) + "}"
  }

  /** A Server-Sent Events data line followed by the blank line that ends
      the event. */
  function Frame(payload: string): string {
    "data: " + payload + "\n\n"
  }

  const DoneFrame: string := "data: [DONE]\n\n"

  function ChunkFrames(chunks: seq<StreamChunk>): (r: seq<string>)
    ensures |r| == |chunks|
    ensures forall i :: 0 <= i < |chunks| ==> r[i] == Frame(ChunkPayload(chunks[i]))
  {
    seq(|chunks|, i requires 0 <= i < |chunks| => Frame(ChunkPayload(chunks[i])))
  }

  /** The error text of the catch in `start`. */
  function ThrownText(error: Thrown): string {
    match error
    case ErrorValue(m) => m
    case NonErrorValue => "检测失败"
  }

  /** What follows the chunks on the normal path. */
  function ClosingFrames(result: ApiResponse<()>): seq<string> {
    (if result.success then [] else [Frame(ErrorPayload(result.error))]) + [DoneFrame]
  }

  /** Everything the stream carries, in order. */
  function Frames(upstream: Upstream): seq<string> {
    match upstream
    case Finished(chunks, result) => ChunkFrames(chunks) + ClosingFrames(result)
    case Threw(delivered, error) =>
      ChunkFrames(delivered) + [Frame(ErrorPayload(Some(ThrownText(error))))]
  }

  /** The stream controller: the frames enqueued so far, and whether it is
      closed. */
  class EventStream {
    var frames: seq<string>
    var closed: bool

    constructor ()
      ensures frames == [] && !closed
    {
      frames := [];
      closed := false;
    }

    method Enqueue(frame: string)
      requires !closed
      modifies this
      ensures frames == old(frames) + [frame] && !closed
    {
      frames := frames + [frame];
    }

    method Close()
      requires !closed
      modifies this
      ensures frames == old(frames) && closed
    {
      closed := true;
    }
  }

  lemma ChunkFramesStep(chunks: seq<StreamChunk>, i: nat)
    requires i < |chunks|
    ensures ChunkFrames(chunks[..i + 1]) == ChunkFrames(chunks[..i]) + [Frame(ChunkPayload(chunks[i]))]
  {
    var longer, shorter := ChunkFrames(chunks[..i + 1]), ChunkFrames(chunks[..i]);
    forall k | 0 <= k < i ensures longer[k] == shorter[k] {
      assert chunks[..i + 1][k] == chunks[..i][k];
    }
    SnocOf(longer, shorter, Frame(ChunkPayload(chunks[i])));
  }

  /** A sequence that agrees with `shorter` and then holds `x` is
      `shorter + [x]`. */
  lemma SnocOf<T>(longer: seq<T>, shorter: seq<T>, x: T)
    requires |longer| == |shorter| + 1 && longer[|shorter|] == x
    requires forall k :: 0 <= k < |shorter| ==> longer[k] == shorter[k]
    ensures longer == shorter + [x]
  {
  }

  /** The `onChunk` callback, once per delivered chunk: each chunk's frame
      is enqueued as it arrives. */
  method EnqueueChunks(controller: EventStream, chunks: seq<StreamChunk>)
    requires !controller.closed
    modifies controller
    ensures controller.frames == old(controller.frames) + ChunkFrames(chunks) && !controller.closed
  {
    for i := 0 to |chunks|
      invariant controller.frames == old(controller.frames) + ChunkFrames(chunks[..i]) && !controller.closed
    {
      var chunk := chunks[i];
      var data := ChunkPayload(chunk);
      controller.Enqueue("data: " + data + "\n\n");
      ChunkFramesStep(chunks, i);
    }
    assert chunks[..|chunks|] == chunks;
  }

  /** The end of the normal path: an error frame when the call failed,
      then `[DONE]`, then close. */
  method FinishStream(controller: EventStream, result: ApiResponse<()>)
    requires !controller.closed
    modifies controller
    ensures controller.frames == old(controller.frames) + ClosingFrames(result) && controller.closed
  {
    if !result.success {
      var errorData := ErrorPayload(result.error);
      controller.Enqueue("data: " + errorData + "\n\n");
    }
    controller.Enqueue(DoneFrame);
    controller.Close();
  }

  /** The catch in `start`: one error frame, then close. */
  method FailStream(controller: EventStream, error: Thrown)
    requires !controller.closed
    modifies controller
    ensures controller.frames == old(controller.frames) + [Frame(ErrorPayload(Some(ThrownText(error))))]
    ensures controller.closed
  {
    var errorData := ErrorPayload(Some(ThrownText(error)));
    controller.Enqueue("data: " + errorData + "\n\n");
    controller.Close();
  }

  /** `start`: one frame per chunk as it arrives, then on the normal path an
      error frame if the call failed and the `[DONE]` frame; on an
      exception one error frame. Either way the stream is then closed. */
  method Start(controller: EventStream, upstream: Upstream)
    requires controller.frames == [] && !controller.closed
    modifies controller
    ensures controller.frames == Frames(upstream) && controller.closed
  {
    if upstream.Finished? {
      EnqueueChunks(controller, upstream.chunks);
      FinishStream(controller, upstream.result);
      assert controller.frames == ChunkFrames(upstream.chunks) + ClosingFrames(upstream.result);
    } else {
      EnqueueChunks(controller, upstream.delivered);
      FailStream(controller, upstream.error);
      assert controller.frames == ChunkFrames(upstream.delivered) + [Frame(ErrorPayload(Some(ThrownText(upstream.error))))];
    }
  }

  // --------------------------------------------------- frame properties

  /** A JSON payload is not the `[DONE]` marker: it starts with a brace. */
  lemma PayloadFrameIsNotDone(payload: string)
    requires |payload| > 0 && payload[0] == '{'
    ensures Frame(payload) != DoneFrame
  {
    assert Frame(payload)[6] == '{';
    assert DoneFrame[6] == '[';
  }

  function CountDone(frames: seq<string>): nat
    decreases |frames|
  {
    if |frames| == 0 then 0
    else CountDone(frames[..|frames| - 1]) + (if frames[|frames| - 1] == DoneFrame then 1 else 0)
  }

  lemma {:induction false} NoDoneAmongChunks(chunks: seq<StreamChunk>)
    ensures CountDone(ChunkFrames(chunks)) == 0
    decreases |chunks|
  {
    if |chunks| > 0 {
      var init := chunks[..|chunks| - 1];
      NoDoneAmongChunks(init);
      assert ChunkFrames(chunks)[..|chunks| - 1] == ChunkFrames(init);
      PayloadFrameIsNotDone(ChunkPayload(chunks[|chunks| - 1]));
    }
  }

  lemma {:induction false} CountDoneAppend(a: seq<string>, b: seq<string>)
    ensures CountDone(a + b) == CountDone(a) + CountDone(b)
    decreases |b|
  {
    if |b| == 0 {
      assert a + b == a;
    } else {
      assert (a + b)[..|a + b| - 1] == a + b[..|b| - 1];
      CountDoneAppend(a, b[..|b| - 1]);
    }
  }

  /** On the normal path there is exactly one `[DONE]` frame, and it is the
      last one. */
  lemma DoneExactlyOnceAtEnd(chunks: seq<StreamChunk>, result: ApiResponse<()>)
    ensures var fs := Frames(Finished(chunks, result));
      CountDone(fs) == 1 && fs[|fs| - 1] == DoneFrame
  {
    NoDoneAmongChunks(chunks);
    var err: seq<string> := if result.success then [] else [Frame(ErrorPayload(result.error))];
    if !result.success {
      PayloadFrameIsNotDone(ErrorPayload(result.error));
    }
    assert CountDone(err) == 0;
    assert CountDone([DoneFrame]) == 1;
    CountDoneAppend(err, [DoneFrame]);
    CountDoneAppend(ChunkFrames(chunks), ClosingFrames(result));
  }

  /** The catch path writes no `[DONE]` frame; its last frame is the
      error frame. */
  lemma NoDoneAfterThrow(delivered: seq<StreamChunk>, error: Thrown)
    ensures var fs := Frames(Threw(delivered, error));
      CountDone(fs) == 0 && fs[|fs| - 1] == Frame(ErrorPayload(Some(ThrownText(error))))
  {
    NoDoneAmongChunks(delivered);
    PayloadFrameIsNotDone(ErrorPayload(Some(ThrownText(error))));
    var last := [Frame(ErrorPayload(Some(ThrownText(error))))];
    assert CountDone(last) == 0;
    CountDoneAppend(ChunkFrames(delivered), last);
  }

  /** The first frames are the chunk frames, one per chunk, in arrival
      order; at most one error frame follows them. */
  lemma ChunkFramesFirst(upstream: Upstream)
    ensures var chunks := if upstream.Finished? then upstream.chunks else upstream.delivered;
      |chunks| < |Frames(upstream)| <= |chunks| + 2 &&
      forall i :: 0 <= i < |chunks| ==> Frames(upstream)[i] == Frame(ChunkPayload(chunks[i]))
  {
  }

  /** No payload contains a line feed: each payload is a single line of
      the event stream. */
  lemma PayloadsAreSingleLines(c: StreamChunk, e: Option<string>)
    ensures '\n' !in ChunkPayload(c)
    ensures '\n' !in ErrorPayload(e)
  {
    ChunkPayloadPrintable(c);
    PrintableHasNoLineFeed(ChunkPayload(c));
    ErrorPayloadPrintable(e);
    PrintableHasNoLineFeed(ErrorPayload(e));
  }

  lemma ChunkPayloadPrintable(c: StreamChunk)
    ensures Printable(ChunkPayload(c))
  {
    var a, b := QuoteJsonString(c.content), QuoteJsonString(c.reasoning);
    var done := if c.done then "true" else "false";
    var p1, p2, p3 := "{\"type\":\"chunk\",\"content\":", ",\"reasoning\":", ",\"done\":";
    ChunkPiecesPrintable();
    var s1 := p1 + a;
    PrintableConcat(p1, a);
    var s2 := s1 + p2;
    PrintableConcat(s1, p2);
    var s3 := s2 + b;
    PrintableConcat(s2, b);
    var s4 := s3 + p3;
    PrintableConcat(s3, p3);
    var s5 := s4 + done;
    PrintableConcat(s4, done);
    PrintableConcat(s5, "}");
    assert ChunkPayload(c) == s5 + "}";
  }

  /** The fixed pieces of the payloads are printable. */
  lemma ChunkPiecesPrintable()
    ensures Printable("{\"type\":\"chunk\",\"content\":")
    ensures Printable(",\"reasoning\":") && Printable(",\"done\":")
    ensures Printable("true") && Printable("false") && Printable("}")
  {
  }

  lemma ErrorPiecesPrintable()
    ensures Printable("{\"type\":\"error\"}") && Printable("{\"type\":\"error\",\"error\":") && Printable("}")
  {
  }

  lemma ErrorPayloadPrintable(e: Option<string>)
    ensures Printable(ErrorPayload(e))
  {
    match e
    case None =>
      ErrorPiecesPrintable();
    case Some(m) =>
      var t, q := "{\"type\":\"error\",\"error\":", QuoteJsonString(m);
      ErrorPiecesPrintable();
      PrintableConcat(t, q);
      PrintableConcat(t + q, "}");
  }

  /** No character below the space: in particular no line feed. */
  predicate Printable(s: string) {
    forall i :: 0 <= i < |s| ==> s[i] >= ' '
  }

  lemma PrintableConcat(a: string, b: string)
    requires Printable(a) && Printable(b)
    ensures Printable(a + b)
  {
    forall i | 0 <= i < |a + b| ensures (a + b)[i] >= ' ' {
      if i >= |a| {
        assert (a + b)[i] == b[i - |a|];
      }
    }
  }

  lemma PrintableHasNoLineFeed(s: string)
    requires Printable(s)
    ensures '\n' !in s
  {
  }

  // ------------------------------------------------ parseDetectionResult

  /** The result object the client and the (unused) server parser build. */
  datatype DetectionResult = DetectionResult(risks: Json, overallRisk: Json, blocked: Json, reasoning: Json)

  /** The `|| default` filling of a parsed value; None when the value is
      null, where reading `.risks` throws. */
  function FillResultDefaults(v: Json, fullText: string): (r: Option<DetectionResult>)
    ensures r.None? <==> v == JNull
    ensures r.Some? ==>
      r.value.risks == Or(Get(v, "risks"), JArr([])) &&
      r.value.overallRisk == Or(Get(v, "overallRisk"), JStr("low")) &&
      r.value.blocked == Or(Get(v, "blocked"), JBool(false)) &&
      r.value.reasoning == Or(Get(v, "reasoning"), JStr(fullText))
  {
    if v == JNull then None
    else Some(DetectionResult(
      Or(Get(v, "risks"), JArr([])),
      Or(Get(v, "overallRisk"), JStr("low")),
      Or(Get(v, "blocked"), JBool(false)),
      Or(Get(v, "reasoning"), JStr(fullText))))
  }

  function FallbackResult(response: string): DetectionResult {
    DetectionResult(JArr([]), JStr("low"), JBool(false), JStr(response))
  }

  /** `parseDetectionResult`: the greedy `{`...`}` span parsed and filled
      with defaults; with no span, or when parsing or reading throws, the
      low-risk unblocked result whose reasoning is the whole response. */
  function ParseDetectionResult(response: string, parse: string -> Option<Json>): (r: DetectionResult)
    ensures GreedySpan(response, '{', '}').None? ==> r == FallbackResult(response)
  {
    match GreedySpan(response, '{', '}')
    case None => FallbackResult(response)
    case Some(span) =>
      match parse(span)
      case None => FallbackResult(response)
      case Some(v) =>
        match FillResultDefaults(v, response)
        case None => FallbackResult(response)
        case Some(res) => res
  }

  /** A parse failure, or a parsed null, gives the fallback. */
  lemma ParseFailureGivesFallback(response: string, parse: string -> Option<Json>, span: string)
    requires GreedySpan(response, '{', '}') == Some(span)
    requires parse(span).None? || parse(span) == Some(JNull)
    ensures ParseDetectionResult(response, parse) == FallbackResult(response)
  {
  }

  /** A parsed value keeps its truthy fields and has the falsy ones
      replaced by `[]`, 'low', false and the whole response. */
  lemma ParsedValueFilled(response: string, parse: string -> Option<Json>, span: string, v: Json)
    requires GreedySpan(response, '{', '}') == Some(span) && parse(span) == Some(v) && v != JNull
    ensures var r := ParseDetectionResult(response, parse);
      (Truthy(Get(v, "risks")) ==> Some(r.risks) == Get(v, "risks")) &&
      (!Truthy(Get(v, "risks")) ==> r.risks == JArr([])) &&
      (Truthy(Get(v, "overallRisk")) ==> Some(r.overallRisk) == Get(v, "overallRisk")) &&
      (!Truthy(Get(v, "overallRisk")) ==> r.overallRisk == JStr("low")) &&
      (Truthy(Get(v, "blocked")) ==> Some(r.blocked) == Get(v, "blocked")) &&
      (!Truthy(Get(v, "blocked")) ==> r.blocked == JBool(false)) &&
      (Truthy(Get(v, "reasoning")) ==> Some(r.reasoning) == Get(v, "reasoning")) &&
      (!Truthy(Get(v, "reasoning")) ==> r.reasoning == JStr(response))
  {
  }
}

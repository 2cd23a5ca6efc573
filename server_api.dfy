/** The shared server helpers of server/lib/openai.ts: the response
    envelope, the error envelope, the required-parameter check, chat
    messages, and the error path of the code-detection service. The chat
    completion endpoint itself is a parameter (`chat`), and so is
    `JSON.parse`. */
module ServerApi {
  import opened Common
  import opened Strings
  import opened JsonModel
  import opened CodeDetection

  /** `ApiResponse<T>`: a success flag with optional data and error text. */
  datatype ApiResponse<T> = ApiResponse(success: bool, data: Option<T>, error: Option<string>)

  /** `handleApiError`: always a failure; the message of an Error, and
      '未知错误' for anything else that was thrown. */
  function HandleApiError<T>(error: Thrown): (r: ApiResponse<T>)
    ensures !r.success && r.data.None? && r.error.Some?
    ensures error.ErrorValue? ==> r.error == Some(error.message)
    ensures error.NonErrorValue? ==> r.error == Some("未知错误")
  {
    match error
    case ErrorValue(message) => ApiResponse(false, None, Some(message))
    case NonErrorValue => ApiResponse(false, None, Some("未知错误"))
  }

  // ---------------------------------------------------- required params

  /** `params[field]` on a plain record: the own value, or `undefined`. */
  function Param(params: map<string, Json>, field: string): Option<Json> {
    Get(JObj(params), field)
  }

  /** The position of the first listed field whose value is falsy. */
  function FirstMissing(params: map<string, Json>, fields: seq<string>): (r: Option<nat>)
    ensures r.None? <==> forall i :: 0 <= i < |fields| ==> Truthy(Param(params, fields[i]))
    ensures r.Some? ==>
      r.value < |fields| && !Truthy(Param(params, fields[r.value])) &&
      (forall j :: 0 <= j < r.value ==> Truthy(Param(params, fields[j])))
    decreases |fields|
  {
    if |fields| == 0 then None
    else if !Truthy(Param(params, fields[0])) then Some(0)
    else match FirstMissing(params, fields[1..])
      case None => None
      case Some(i) => Some(i + 1)
  }

  function MissingParamMessage(field: string): string {
    "缺少必需参数: " + field
  }

  /** `validateRequiredParams`: walks the list in order and stops at the
      first falsy field. No message exactly when every field is truthy;
      otherwise the message names the first falsy one. */
  method ValidateRequiredParams(params: map<string, Json>, requiredFields: seq<string>) returns (r: Option<string>)
    ensures r.None? <==> FirstMissing(params, requiredFields).None?
    ensures r.Some? ==> r == Some(MissingParamMessage(requiredFields[FirstMissing(params, requiredFields).value]))
  {
    for i := 0 to |requiredFields|
      invariant forall j :: 0 <= j < i ==> Truthy(Param(params, requiredFields[j]))
    {
      var field := requiredFields[i];
      if !Truthy(Param(params, field)) {
        FirstMissingIsFirstFalsy(params, requiredFields, i);
        return Some(MissingParamMessage(field));
      }
    }
    return None;
  }

  /** The first falsy field is the one `FirstMissing` reports. */
  lemma FirstMissingIsFirstFalsy(params: map<string, Json>, fields: seq<string>, i: nat)
    requires i < |fields| && !Truthy(Param(params, fields[i]))
    requires forall j :: 0 <= j < i ==> Truthy(Param(params, fields[j]))
    ensures FirstMissing(params, fields) == Some(i)
  {
    var r := FirstMissing(params, fields);
    if r.value < i {
    } else if r.value > i {
    }
  }

  /** The message names one of the listed fields. */
  lemma MissingMessageNamesField(params: map<string, Json>, fields: seq<string>)
    requires FirstMissing(params, fields).Some?
    ensures var i := FirstMissing(params, fields).value;
      Includes(MissingParamMessage(fields[i]), fields[i]) && !Truthy(Param(params, fields[i]))
  {
    var i := FirstMissing(params, fields).value;
    IncludesAround(MissingParamMessage(fields[i]), "缺少必需参数: ", fields[i], "");
  }

  // ------------------------------------------------------- chat messages

  datatype Role = User | Assistant | System

  datatype Message = Message(role: Role, content: string)

  /** `createTextMessage`: the text unchanged, with the user role unless
      another role is given. */
  function CreateTextMessage(text: string, role: Role := User): (m: Message)
    ensures m.content == text && m.role == role
  {
    Message(role, text)
  }

  /** Called with the text alone, the message is a user message. */
  lemma CreateTextMessageDefaultsToUser(text: string)
    ensures CreateTextMessage(text).role == User
    ensures CreateTextMessage(text).content == text
  {
  }

  datatype ReasoningEffort = EffortLow | EffortMedium | EffortHigh

  /** The options every chat call of the core passes. */
  datatype ChatRequest = ChatRequest(messages: seq<Message>, model: string, effort: ReasoningEffort)

  const Model: string := "doubao-seed-1-6-251015"

  /** What a non-streaming completion yields. */
  datatype ChatReply = ChatReply(reasoning: string, content: string)

  // ------------------------------------------------ code detection call

  datatype CodeDetectionOptions = CodeDetectionOptions(fileContent: string, fileName: string, fileType: string)

  /** The request `detectCodeSensitiveInfo` sends: one user message with the
      detection prompt, the fixed model, high reasoning effort. */
  function CodeDetectionRequest(options: CodeDetectionOptions): ChatRequest {
    ChatRequest([CreateTextMessage(BuildDetectionPrompt(options.fileContent, options.fileName, options.fileType))],
      Model, EffortHigh)
  }

  /** `detectCodeSensitiveInfo` given the completion endpoint `chat` and
      `JSON.parse`: a failed call, or one without data, is reported with
      its own error text (or '代码检测失败' when that is falsy) and nothing
      is parsed; otherwise the findings are the parse of the reply. */
  function DetectCodeSensitiveInfo(
    options: CodeDetectionOptions,
    chat: ChatRequest -> ApiResponse<ChatReply>,
    parse: string -> Option<Json>): (r: ApiResponse<seq<DetectionItem>>)
    ensures r.success <==> chat(CodeDetectionRequest(options)).success && chat(CodeDetectionRequest(options)).data.Some?
    ensures r.success ==> r.data.Some? && r.error.None?
    ensures !r.success ==> r.data.None? && r.error.Some? && r.error.value != ""
  {
    var reply := chat(CodeDetectionRequest(options));
    if !reply.success || reply.data.None? then
      ApiResponse(false, None, Some(if reply.error.Some? && reply.error.value != "" then reply.error.value else "代码检测失败"))
    else
      ApiResponse(true, Some(ParseDetectionResponse(reply.data.value.content, parse)), None)
  }

  /** On a failed call the response does not depend on the parser, which
      is therefore never consulted, and carries the upstream error when it
      has one. */
  lemma DetectFailureSkipsParsing(
    options: CodeDetectionOptions,
    chat: ChatRequest -> ApiResponse<ChatReply>,
    parse1: string -> Option<Json>, parse2: string -> Option<Json>)
    requires !chat(CodeDetectionRequest(options)).success
    ensures DetectCodeSensitiveInfo(options, chat, parse1) == DetectCodeSensitiveInfo(options, chat, parse2)
    ensures var e := chat(CodeDetectionRequest(options)).error;
      DetectCodeSensitiveInfo(options, chat, parse1).error ==
        Some(if e.Some? && e.value != "" then e.value else "代码检测失败")
  {
  }

  /** On success the data is exactly the parsed reply content. */
  lemma DetectSuccessParsesReply(
    options: CodeDetectionOptions,
    chat: ChatRequest -> ApiResponse<ChatReply>,
    parse: string -> Option<Json>)
    requires chat(CodeDetectionRequest(options)).success && chat(CodeDetectionRequest(options)).data.Some?
    ensures DetectCodeSensitiveInfo(options, chat, parse).data ==
      Some(ParseDetectionResponse(chat(CodeDetectionRequest(options)).data.value.content, parse))
  {
  }

  /** The request carries the file content in a single user message. */
  lemma CodeDetectionRequestCarriesFile(options: CodeDetectionOptions)
    ensures var req := CodeDetectionRequest(options);
      |req.messages| == 1 && req.messages[0].role == User &&
      Includes(req.messages[0].content, options.fileContent) &&
      Includes(req.messages[0].content, options.fileName) &&
      req.model == "doubao-seed-1-6-251015" && req.effort == EffortHigh
  {
    PromptFencesContent(options.fileContent, options.fileName, options.fileType);
    PromptNamesFile(options.fileContent, options.fileName, options.fileType);
  }
}

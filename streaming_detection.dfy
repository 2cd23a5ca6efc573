/** The client side of the streaming prompt check
    (components/streaming-detection.tsx): the component state, the
    `startDetection` request and its line-driven frame consumer, and
    `reset`. `fetch` and `JSON.parse` are parameters. Each read of the
    response body arrives already decoded as a string and is split on
    `\n` by itself, as the component does, so a frame split across reads
    is misparsed here as it is there. */
module StreamingClient {
  import opened Common
  import opened Strings
  import opened JsonModel
  import opened ServerApi
  import opened PromptDetection

  /** How the request went: `fetch` rejected, the status was not OK, there
      was no body, or the body delivered these reads and then either ended
      or failed with `readError`. */
  datatype FetchOutcome =
    | FetchRejected(error: Thrown)
    | HttpNotOk
    | NoBody
    | BodyStream(received: seq<string>, readError: Option<Thrown>)

  /** The component state, together with what was passed to the two
      callbacks so far. */
  datatype ViewState = ViewState(
    isAnalyzing: bool,
    reasoningContent: string,
    detectionResult: Option<DetectionResult>,
    completions: seq<DetectionResult>,
    errors: seq<string>)

  // ------------------------------------------------- the frame consumer

  /** The lines of all reads: each read is split on line feeds. */
  function Lines(received: seq<string>): seq<string>
    decreases |received|
  {
    if |received| == 0 then [] else Split(received[0], '\n') + Lines(received[1..])
  }

  const DataPrefix: string := "data: "

  predicate IsDoneLine(line: string) {
    StartsWith(line, DataPrefix) && line[|DataPrefix|..] == "[DONE]"
  }

  /** What one line that is not `[DONE]` does to the accumulated response
      and reasoning: a chunk payload appends its `content` (stringified) and
      its truthy `reasoning`; anything else (no `data: ` prefix, a payload
      that does not parse, null, an error payload whose `throw` is caught,
      any other type) changes nothing. */
  function LineEffect(line: string, full: string, reasoning: string, parse: string -> Option<Json>): (string, string) {
    if !StartsWith(line, DataPrefix) then (full, reasoning)
    else match parse(line[|DataPrefix|..])
      case None => (full, reasoning)
      case Some(v) =>
        if v != JNull && Get(v, "type") == Some(JStr("chunk")) then
          (full + Coerce(Get(v, "content")),
           if Truthy(Get(v, "reasoning")) then reasoning + Coerce(Get(v, "reasoning")) else reasoning)
        else (full, reasoning)
  }

  /** Where the consumer stopped: at a `[DONE]` line, or at the end of the
      lines; with the response and reasoning accumulated until then. */
  datatype Consumed = Done(full: string, reasoning: string) | Exhausted(full: string, reasoning: string)

  function Consume(lines: seq<string>, full: string, reasoning: string, parse: string -> Option<Json>): Consumed
    decreases |lines|
  {
    if |lines| == 0 then Exhausted(full, reasoning)
    else if IsDoneLine(lines[0]) then Done(full, reasoning)
    else
      var (f, r) := LineEffect(lines[0], full, reasoning, parse);
      Consume(lines[1..], f, r, parse)
  }

  // ------------------------------------------------------ the state spec

  /** The `catch` of `startDetection`: the message is reported, the
      analysis stops. */
  function Failed(v: ViewState, message: string): ViewState {
    v.(errors := v.errors + [message], isAnalyzing := false)
  }

  function CaughtMessage(error: Thrown): string {
    match error
    case ErrorValue(m) => m
    case NonErrorValue => "检测失败"
  }

  /** The `[DONE]` branch: the whole response is parsed and filled with
      defaults; a parse failure (or a parsed null) is reported instead.
      Either way the analysis stops. */
  function Complete(v: ViewState, full: string, parse: string -> Option<Json>): ViewState {
    var outcome := match parse(full)
      case None => None
      case Some(j) => FillResultDefaults(j, full);
    match outcome
    case None => v.(errors := v.errors + ["解析检测结果失败"], isAnalyzing := false)
    case Some(result) =>
      v.(detectionResult := Some(result), completions := v.completions + [result], isAnalyzing := false)
  }

  predicate TooShort(prompt: string) {
    prompt == "" || Utf16Length(prompt) < 10
  }

  /** The state after `startDetection(prompt)`. */
  function RunDetection(v: ViewState, prompt: string, fetch: FetchOutcome, parse: string -> Option<Json>): ViewState {
    if TooShort(prompt) then v.(detectionResult := None)
    else
      var started := v.(isAnalyzing := true, reasoningContent := "", detectionResult := None);
      match fetch
      case FetchRejected(e) => Failed(started, CaughtMessage(e))
      case HttpNotOk => Failed(started, "检测失败")
      case NoBody => Failed(started, "无法读取响应流")
      case BodyStream(received, readError) =>
        match Consume(Lines(received), "", "", parse)
        case Done(full, reasoning) => Complete(started.(reasoningContent := reasoning), full, parse)
        case Exhausted(_, reasoning) =>
          var ended := started.(reasoningContent := reasoning);
          if readError.Some? then Failed(ended, CaughtMessage(readError.value)) else ended
  }

  // ------------------------------------------------------ the component

  class StreamingDetection {
    var isAnalyzing: bool
    var reasoningContent: string
    var detectionResult: Option<DetectionResult>
    /** The results passed to `onDetectionComplete`, in order. */
    var completions: seq<DetectionResult>
    /** The messages passed to `onError`, in order. */
    var errors: seq<string>

    function View(): ViewState
      reads this
    {
      ViewState(isAnalyzing, reasoningContent, detectionResult, completions, errors)
    }

    constructor ()
      ensures View() == ViewState(false, "", None, [], [])
    {
      isAnalyzing := false;
      reasoningContent := "";
      detectionResult := None;
      completions := [];
      errors := [];
    }

    /** `reset`: clears the reasoning text, the analysing flag and the
      result. */
    method Reset()
      modifies this
      ensures View() == old(View()).(reasoningContent := "", isAnalyzing := false, detectionResult := None)
    {
      reasoningContent := "";
      isAnalyzing := false;
      detectionResult := None;
    }

    /** The `[DONE]` branch: parse the whole response, report the
        defaults-filled result or the parse failure, stop analysing. */
    method FinishDetection(fullResponse: string, parse: string -> Option<Json>)
      modifies this
      ensures View() == Complete(old(View()), fullResponse, parse)
    {
      var parsed := parse(fullResponse);
      if parsed.Some? && parsed.value != JNull {
        var result := FillResultDefaults(parsed.value, fullResponse).value;
        detectionResult := Some(result);
        completions := completions + [result];
      } else {
        errors := errors + ["解析检测结果失败"];
      }
      isAnalyzing := false;
    }

    /** `startDetection`: the read loop over the body with the inner loop
      over each read's lines, returning at the first `[DONE]`. */
    method StartDetection(prompt: string, fetch: FetchOutcome, parse: string -> Option<Json>)
      modifies this
      ensures View() == RunDetection(old(View()), prompt, fetch, parse)
    {
      if prompt == "" || Utf16Length(prompt) < 10 {
        detectionResult := None;
        return;
      }
      isAnalyzing := true;
      reasoningContent := "";
      detectionResult := None;
      ghost var started := View();
      match fetch {
        case FetchRejected(e) =>
          errors := errors + [CaughtMessage(e)];
          isAnalyzing := false;
        case HttpNotOk =>
          errors := errors + ["检测失败"];
          isAnalyzing := false;
        case NoBody =>
          errors := errors + ["无法读取响应流"];
          isAnalyzing := false;
        case BodyStream(received, readError) =>
          var fullResponse := "";
          var r := 0;
          while r < |received|
            invariant 0 <= r <= |received|
            invariant Consume(Lines(received), "", "", parse) == Consume(Lines(received[r..]), fullResponse, reasoningContent, parse)
            invariant View() == started.(reasoningContent := reasoningContent)
          {
            var lines := Split(received[r], '\n');
            ghost var rest := Lines(received[r + 1..]);
            assert received[r..][1..] == received[r + 1..];
            assert lines[0..] == lines;
            for j := 0 to |lines|
              invariant Consume(Lines(received), "", "", parse) == Consume(lines[j..] + rest, fullResponse, reasoningContent, parse)
              invariant View() == started.(reasoningContent := reasoningContent)
            {
              var line := lines[j];
              assert (lines[j..] + rest)[0] == line && (lines[j..] + rest)[1..] == lines[j + 1..] + rest;
              if StartsWith(line, "data: ") {
                var data := line[6..];
                if data == "[DONE]" {
                  FinishDetection(fullResponse, parse);
                  return;
                }
                var parsed := parse(data);
                if parsed.Some? && parsed.value != JNull {
                  var message := parsed.value;
                  if Get(message, "type") == Some(JStr("chunk")) {
                    fullResponse := fullResponse + Coerce(Get(message, "content"));
                    if Truthy(Get(message, "reasoning")) {
                      reasoningContent := reasoningContent + Coerce(Get(message, "reasoning"));
                    }
                  }
                }
              }
            }
            assert lines[|lines|..] + rest == rest;
            r := r + 1;
          }
          if readError.Some? {
            errors := errors + [CaughtMessage(readError.value)];
            isAnalyzing := false;
          }
      }
    }
  }

  // ------------------------------------------------ single-line effects

  /** A line without the `data: ` prefix is skipped. */
  lemma NonDataLineSkipped(line: string, rest: seq<string>, full: string, reasoning: string, parse: string -> Option<Json>)
    requires !StartsWith(line, DataPrefix)
    ensures Consume([line] + rest, full, reasoning, parse) == Consume(rest, full, reasoning, parse)
  {
    assert ([line] + rest)[1..] == rest;
  }

  /** A data line whose payload does not parse, parses to null, or is not a
      chunk (an error payload in particular) leaves the response and the
      reasoning as they were. */
  lemma NonChunkPayloadIgnored(payload: string, full: string, reasoning: string, parse: string -> Option<Json>)
    requires parse(payload).None? || parse(payload) == Some(JNull) ||
             Get(parse(payload).value, "type") != Some(JStr("chunk"))
    ensures LineEffect(DataPrefix + payload, full, reasoning, parse) == (full, reasoning)
  {
    assert (DataPrefix + payload)[..|DataPrefix|] == DataPrefix;
    assert (DataPrefix + payload)[|DataPrefix|..] == payload;
  }

  /** A chunk payload appends its content, and its reasoning when that is
      not empty. */
  lemma ChunkPayloadAppends(payload: string, content: string, reasoning: string, done: bool,
                            full: string, acc: string, parse: string -> Option<Json>)
    requires parse(payload) == Some(ChunkObject(StreamChunk(content, reasoning, done)))
    ensures LineEffect(DataPrefix + payload, full, acc, parse) == (full + content, acc + reasoning)
  {
    assert (DataPrefix + payload)[..|DataPrefix|] == DataPrefix;
    assert (DataPrefix + payload)[|DataPrefix|..] == payload;
    if reasoning == "" {
      assert acc + reasoning == acc;
    }
  }

  // ---------------------------------------------- the framing round trip

  /** The object the payload of a chunk frame denotes. */
  function ChunkObject(c: StreamChunk): Json {
    JObj(map["type" := JStr("chunk"), "content" := JStr(c.content),
             "reasoning" := JStr(c.reasoning), "done" := JBool(c.done)])
  }

  /** The object the payload of an error frame denotes. */
  function ErrorObject(e: Option<string>): Json {
    match e
    case None => JObj(map["type" := JStr("error")])
    case Some(m) => JObj(map["type" := JStr("error"), "error" := JStr(m)])
  }

  /** `parse` reads back the chunk payloads of these chunks. */
  predicate ParsesChunks(parse: string -> Option<Json>, chunks: seq<StreamChunk>) {
    forall i :: 0 <= i < |chunks| ==> parse(ChunkPayload(chunks[i])) == Some(ChunkObject(chunks[i]))
  }

  /** The chunk contents, concatenated in order. */
  function Contents(chunks: seq<StreamChunk>): string
    decreases |chunks|
  {
    if |chunks| == 0 then "" else Contents(chunks[..|chunks| - 1]) + chunks[|chunks| - 1].content
  }

  /** The chunk reasonings, concatenated in order. */
  function Reasonings(chunks: seq<StreamChunk>): string
    decreases |chunks|
  {
    if |chunks| == 0 then "" else Reasonings(chunks[..|chunks| - 1]) + chunks[|chunks| - 1].reasoning
  }

  /** A frame whose payload has no line feed is read as three lines: the
      data line and two empty ones. */
  lemma FrameLines(payload: string)
    requires '\n' !in payload
    ensures Split(Frame(payload), '\n') == [DataPrefix + payload, "", ""]
  {
    var x := DataPrefix + payload;
    assert '\n' !in x by {
      assert forall i :: 0 <= i < |DataPrefix| ==> x[i] == DataPrefix[i];
      assert forall i :: |DataPrefix| <= i < |x| ==> x[i] == payload[i - |DataPrefix|];
    }
    assert Frame(payload) == x + ['\n'] + ("" + ['\n'] + "");
    SplitAtFirst(x, '\n', "" + ['\n'] + "");
    SplitAtFirst("", '\n', "");
    SplitNoSeparator("", '\n');
  }

  lemma {:induction false} LinesAppend(a: seq<string>, b: seq<string>)
    ensures Lines(a + b) == Lines(a) + Lines(b)
    decreases |a|
  {
    if |a| == 0 {
      assert a + b == b;
    } else {
      assert (a + b)[1..] == a[1..] + b;
      LinesAppend(a[1..], b);
    }
  }

  /** Consuming two runs of lines: the second run only counts when the
      first did not stop at `[DONE]`. */
  lemma {:induction false} ConsumeAppend(a: seq<string>, b: seq<string>, full: string, reasoning: string,
                                         parse: string -> Option<Json>)
    ensures Consume(a + b, full, reasoning, parse) ==
      match Consume(a, full, reasoning, parse)
      case Done(f, r) => Done(f, r)
      case Exhausted(f, r) => Consume(b, f, r, parse)
    decreases |a|
  {
    if |a| == 0 {
      assert a + b == b;
    } else {
      assert (a + b)[0] == a[0] && (a + b)[1..] == a[1..] + b;
      if !IsDoneLine(a[0]) {
        var (f, r) := LineEffect(a[0], full, reasoning, parse);
        ConsumeAppend(a[1..], b, f, r, parse);
      }
    }
  }

  /** The two empty lines after each data line change nothing. */
  lemma EmptyLinesInert(line: string, full: string, reasoning: string, parse: string -> Option<Json>)
    requires !IsDoneLine(line)
    ensures Consume([line, "", ""], full, reasoning, parse) ==
      var (f, r) := LineEffect(line, full, reasoning, parse); Exhausted(f, r)
  {
    var (f, r) := LineEffect(line, full, reasoning, parse);
    assert [line, "", ""][1..] == ["", ""];
    assert ["", ""][1..] == [""];
    assert [""][1..] == [];
  }

  /** One chunk frame appends the chunk's content and reasoning. */
  lemma ChunkFrameConsumed(c: StreamChunk, full: string, reasoning: string, parse: string -> Option<Json>)
    requires parse(ChunkPayload(c)) == Some(ChunkObject(c))
    ensures Consume(Split(Frame(ChunkPayload(c)), '\n'), full, reasoning, parse) ==
      Exhausted(full + c.content, reasoning + c.reasoning)
  {
    var payload := ChunkPayload(c);
    PayloadsAreSingleLines(c, None);
    FrameLines(payload);
    var line := DataPrefix + payload;
    assert line[|DataPrefix|..] == payload;
    assert payload[0] == '{';
    ChunkPayloadAppends(payload, c.content, c.reasoning, c.done, full, reasoning, parse);
    EmptyLinesInert(line, full, reasoning, parse);
  }

  /** One error frame changes nothing. */
  lemma ErrorFrameConsumed(e: Option<string>, full: string, reasoning: string, parse: string -> Option<Json>)
    requires parse(ErrorPayload(e)) == Some(ErrorObject(e))
    ensures Consume(Split(Frame(ErrorPayload(e)), '\n'), full, reasoning, parse) == Exhausted(full, reasoning)
  {
    var payload := ErrorPayload(e);
    PayloadsAreSingleLines(StreamChunk("", "", false), e);
    FrameLines(payload);
    var line := DataPrefix + payload;
    assert line[|DataPrefix|..] == payload;
    assert payload[0] == '{';
    NonChunkPayloadIgnored(payload, full, reasoning, parse);
    EmptyLinesInert(line, full, reasoning, parse);
  }

  /** The `[DONE]` frame stops the consumer. */
  lemma DoneFrameStops(full: string, reasoning: string, parse: string -> Option<Json>)
    ensures Consume(Split(DoneFrame, '\n'), full, reasoning, parse) == Done(full, reasoning)
  {
    assert DoneFrame == Frame("[DONE]");
    FrameLines("[DONE]");
    var line := DataPrefix + "[DONE]";
    assert line[..|DataPrefix|] == DataPrefix;
    assert line[|DataPrefix|..] == "[DONE]";
  }

  /** The chunk frames, read one frame per read, accumulate the contents
      and reasonings in order. */
  lemma {:induction false} ChunkFramesConsumed(chunks: seq<StreamChunk>, parse: string -> Option<Json>)
    requires ParsesChunks(parse, chunks)
    ensures Consume(Lines(ChunkFrames(chunks)), "", "", parse) == Exhausted(Contents(chunks), Reasonings(chunks))
    decreases |chunks|
  {
    if |chunks| == 0 {
      assert ChunkFrames(chunks) == [];
    } else {
      var init, c := chunks[..|chunks| - 1], chunks[|chunks| - 1];
      assert ParsesChunks(parse, init) by {
        forall i | 0 <= i < |init| ensures parse(ChunkPayload(init[i])) == Some(ChunkObject(init[i])) {
          assert init[i] == chunks[i];
        }
      }
      ChunkFramesConsumed(init, parse);
      var last := Frame(ChunkPayload(c));
      ChunkFramesSnoc(chunks);
      LinesAppend(ChunkFrames(init), [last]);
      LinesOfOne(last);
      ConsumeAppend(Lines(ChunkFrames(init)), Split(last, '\n'), "", "", parse);
      ChunkFrameConsumed(c, Contents(init), Reasonings(init), parse);
    }
  }

  lemma ChunkFramesSnoc(chunks: seq<StreamChunk>)
    requires |chunks| > 0
    ensures ChunkFrames(chunks) ==
      ChunkFrames(chunks[..|chunks| - 1]) + [Frame(ChunkPayload(chunks[|chunks| - 1]))]
  {
    var a := ChunkFrames(chunks);
    var b := ChunkFrames(chunks[..|chunks| - 1]) + [Frame(ChunkPayload(chunks[|chunks| - 1]))];
    forall i | 0 <= i < |a| ensures a[i] == b[i] {
      if i < |a| - 1 {
        assert chunks[..|chunks| - 1][i] == chunks[i];
      }
    }
  }

  lemma LinesOfOne(frame: string)
    ensures Lines([frame]) == Split(frame, '\n')
  {
    assert [frame][1..] == [];
  }

  /** Fed the frames the prompt handler writes on its normal path, one
      frame per read, the consumer stops at `[DONE]` with the concatenated
      chunk contents as the full response and the concatenated reasonings.
      The payloads hold no raw line feed, so no frame is cut apart. */
  lemma RoundTripFinished(chunks: seq<StreamChunk>, result: ApiResponse<()>, parse: string -> Option<Json>)
    requires ParsesChunks(parse, chunks)
    requires !result.success ==> parse(ErrorPayload(result.error)) == Some(ErrorObject(result.error))
    ensures Consume(Lines(Frames(Finished(chunks, result))), "", "", parse) == Done(Contents(chunks), Reasonings(chunks))
  {
    var full, reasoning := Contents(chunks), Reasonings(chunks);
    ChunkFramesConsumed(chunks, parse);
    var err: seq<string> := if result.success then [] else [Frame(ErrorPayload(result.error))];
    LinesAppend(ChunkFrames(chunks), ClosingFrames(result));
    LinesAppend(err, [DoneFrame]);
    LinesOfOne(DoneFrame);
    ConsumeAppend(Lines(ChunkFrames(chunks)), Lines(ClosingFrames(result)), "", "", parse);
    assert Consume(Lines(err), full, reasoning, parse) == Exhausted(full, reasoning) by {
      if !result.success {
        LinesOfOne(Frame(ErrorPayload(result.error)));
        ErrorFrameConsumed(result.error, full, reasoning, parse);
      }
    }
    ConsumeAppend(Lines(err), Lines([DoneFrame]), full, reasoning, parse);
    DoneFrameStops(full, reasoning, parse);
  }

  /** The frames of the handler's catch path end without `[DONE]`: the
      consumer runs out of lines instead of stopping. */
  lemma RoundTripThrew(delivered: seq<StreamChunk>, error: Thrown, parse: string -> Option<Json>)
    requires ParsesChunks(parse, delivered)
    requires parse(ErrorPayload(Some(ThrownText(error)))) == Some(ErrorObject(Some(ThrownText(error))))
    ensures Consume(Lines(Frames(Threw(delivered, error))), "", "", parse) ==
      Exhausted(Contents(delivered), Reasonings(delivered))
  {
    var e := Some(ThrownText(error));
    ChunkFramesConsumed(delivered, parse);
    LinesAppend(ChunkFrames(delivered), [Frame(ErrorPayload(e))]);
    LinesOfOne(Frame(ErrorPayload(e)));
    ConsumeAppend(Lines(ChunkFrames(delivered)), Lines([Frame(ErrorPayload(e))]), "", "", parse);
    ErrorFrameConsumed(e, Contents(delivered), Reasonings(delivered), parse);
  }

  // ------------------------------------------------- what the user sees

  /** A prompt shorter than ten code units only clears the result: no
      request is made, so neither the network nor the parser matters. */
  lemma ShortPromptSendsNothing(v: ViewState, prompt: string, fetch1: FetchOutcome, fetch2: FetchOutcome,
                                parse1: string -> Option<Json>, parse2: string -> Option<Json>)
    requires TooShort(prompt)
    ensures RunDetection(v, prompt, fetch1, parse1) == RunDetection(v, prompt, fetch2, parse2)
    ensures RunDetection(v, prompt, fetch1, parse1) == v.(detectionResult := None)
  {
  }

  /** A complete exchange with the prompt handler ends the analysis with the
      defaults-filled parse of the concatenated contents, reported to
      `onDetectionComplete`. */
  lemma CompletedExchange(v: ViewState, prompt: string, chunks: seq<StreamChunk>, result: ApiResponse<()>,
                          readError: Option<Thrown>, parse: string -> Option<Json>, answer: Json)
    requires !TooShort(prompt)
    requires ParsesChunks(parse, chunks)
    requires !result.success ==> parse(ErrorPayload(result.error)) == Some(ErrorObject(result.error))
    requires parse(Contents(chunks)) == Some(answer) && answer != JNull
    ensures var after := RunDetection(v, prompt, BodyStream(Frames(Finished(chunks, result)), readError), parse);
      var filled := FillResultDefaults(answer, Contents(chunks)).value;
      after == v.(isAnalyzing := false, reasoningContent := Reasonings(chunks),
                  detectionResult := Some(filled), completions := v.completions + [filled])
  {
    var received := Frames(Finished(chunks, result));
    RoundTripFinished(chunks, result, parse);
    RunUntilDone(v, prompt, received, readError, parse, Contents(chunks), Reasonings(chunks));
    var started := v.(isAnalyzing := true, reasoningContent := "", detectionResult := None);
    CompleteWithAnswer(started.(reasoningContent := Reasonings(chunks)), Contents(chunks), parse, answer);
  }

  /** A body that reaches `[DONE]` completes with what was accumulated. */
  lemma RunUntilDone(v: ViewState, prompt: string, received: seq<string>, readError: Option<Thrown>,
                     parse: string -> Option<Json>, full: string, reasoning: string)
    requires !TooShort(prompt)
    requires Consume(Lines(received), "", "", parse) == Done(full, reasoning)
    ensures RunDetection(v, prompt, BodyStream(received, readError), parse) ==
      Complete(v.(isAnalyzing := true, reasoningContent := reasoning, detectionResult := None), full, parse)
  {
  }

  /** A response that parses to a non-null value completes the analysis. */
  lemma CompleteWithAnswer(v: ViewState, full: string, parse: string -> Option<Json>, answer: Json)
    requires parse(full) == Some(answer) && answer != JNull
    ensures var filled := FillResultDefaults(answer, full).value;
      Complete(v, full, parse) ==
        v.(detectionResult := Some(filled), completions := v.completions + [filled], isAnalyzing := false)
  {
  }

  /** Given the frames of the handler's catch path, the client never
      leaves the analysing state: no `[DONE]` arrives, the body simply
      ends, and neither callback is called. */
  lemma StalledAfterHandlerException(v: ViewState, prompt: string, delivered: seq<StreamChunk>, error: Thrown,
                                     parse: string -> Option<Json>)
    requires !TooShort(prompt)
    requires ParsesChunks(parse, delivered)
    requires parse(ErrorPayload(Some(ThrownText(error)))) == Some(ErrorObject(Some(ThrownText(error))))
    ensures var after := RunDetection(v, prompt, BodyStream(Frames(Threw(delivered, error)), None), parse);
      after == v.(isAnalyzing := true, reasoningContent := Reasonings(delivered), detectionResult := None)
  {
    RoundTripThrew(delivered, error, parse);
    RunExhausted(v, prompt, Frames(Threw(delivered, error)), parse, Contents(delivered), Reasonings(delivered));
  }

  /** A body that ends normally without `[DONE]` leaves the analysis
      running with the reasoning accumulated so far. */
  lemma RunExhausted(v: ViewState, prompt: string, received: seq<string>,
                     parse: string -> Option<Json>, full: string, reasoning: string)
    requires !TooShort(prompt)
    requires Consume(Lines(received), "", "", parse) == Exhausted(full, reasoning)
    ensures RunDetection(v, prompt, BodyStream(received, None), parse) ==
      v.(isAnalyzing := true, reasoningContent := reasoning, detectionResult := None)
  {
  }

  /** The analysis is still marked running afterwards exactly when the
      prompt was long enough and the body ended normally without `[DONE]`
      (or the prompt was too short and it was running before). */
  lemma StillAnalyzingIff(v: ViewState, prompt: string, fetch: FetchOutcome, parse: string -> Option<Json>)
    ensures RunDetection(v, prompt, fetch, parse).isAnalyzing <==>
      (TooShort(prompt) && v.isAnalyzing) ||
      (!TooShort(prompt) && fetch.BodyStream? && fetch.readError.None? &&
       Consume(Lines(fetch.received), "", "", parse).Exhausted?)
  {
  }
}

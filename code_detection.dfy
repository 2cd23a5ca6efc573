/** The code-detection helpers: the file-extension classifier, the prompt
    sent to the language model, and the normaliser that turns the model's
    free-form answer into findings, with its line-scanning fallback. The same
    code appears twice in the repository, in lib/code-detection.ts and in
    server/lib/openai.ts; this module is the single model of both. */
module CodeDetection {
  import opened Common
  import opened Strings
  import opened JsonModel

  /** One finding. The first four fields are whatever the model answered
      when that was truthy (so not necessarily strings), otherwise a default;
      `lineNumber` and `codeSnippet` are copied as they were, possibly
      `undefined` (None). */
  datatype DetectionItem = DetectionItem(
    id: Json,
    kind: Json,
    content: Json,
    severity: Json,
    lineNumber: Option<Json>,
    codeSnippet: Option<Json>)

  // ---------------------------------------------------------- file types

  /** The 30 extensions `detectFileType` knows and the language each names. */
  const TypeMap: map<string, string> := map[
    "js" := "javascript", "ts" := "typescript", "jsx" := "javascript",
    "tsx" := "typescript", "py" := "python", "java" := "java", "cpp" := "cpp",
    "c" := "c", "cs" := "csharp", "php" := "php", "rb" := "ruby", "go" := "go",
    "rs" := "rust", "swift" := "swift", "kt" := "kotlin", "scala" := "scala",
    "sh" := "bash", "bash" := "bash", "ps1" := "powershell", "sql" := "sql",
    "json" := "json", "xml" := "xml", "yaml" := "yaml", "yml" := "yaml",
    "toml" := "toml", "ini" := "ini", "cfg" := "config", "conf" := "config",
    "env" := "environment", "properties" := "properties"]

  /** The list `isCodeFile` accepts. */
  const CodeExtensions: seq<string> := [
    "js", "ts", "jsx", "tsx", "py", "java", "cpp", "c", "cs", "php", "rb", "go", "rs",
    "swift", "kt", "scala", "sh", "bash", "ps1", "sql", "json", "xml", "yaml", "yml",
    "toml", "ini", "cfg", "conf", "env", "properties"]

  /** `fileName.split('.').pop().toLowerCase()`: the lower-cased text after
      the last dot, or the whole name when it has no dot. */
  function Extension(fileName: string): string {
    LowerCase(LastPiece(fileName, '.'))
  }

  /** The language of a file, looked up among the table's own keys;
      everything else is 'text'. */
  function DetectFileType(fileName: string): string {
    var ext := Extension(fileName);
    if ext in TypeMap then TypeMap[ext] else "text"
  }

  predicate IsCodeFile(fileName: string) {
    Extension(fileName) in CodeExtensions
  }

  /** The two tables agree: a file is a code file exactly when its type is
      not 'text'. */
  lemma IsCodeFileIffNotText(fileName: string)
    ensures IsCodeFile(fileName) <==> DetectFileType(fileName) != "text"
  {
    TablesAgree(Extension(fileName));
  }

  /** The list and the table hold the same extensions, and no language in
      the table is called 'text'. */
  lemma TablesAgree(ext: string)
    ensures ext in CodeExtensions <==> ext in TypeMap
    ensures ext in TypeMap ==> TypeMap[ext] != "text"
  {
    if ext in TypeMap {
      assert "text" !in TypeMap.Values;
      assert TypeMap[ext] in TypeMap.Values;
    }
  }

  /** The extension is what follows the last dot, lower-cased. */
  lemma ExtensionAfterLastDot(stem: string, ext: string)
    requires '.' !in ext
    ensures Extension(stem + "." + ext) == LowerCase(ext)
  {
    LastPieceAfterSeparator(stem, '.', ext);
  }

  /** A name without a dot is its own extension: a file called `env` is an
      environment file. */
  lemma NameWithoutDot(fileName: string)
    requires '.' !in fileName
    ensures Extension(fileName) == LowerCase(fileName)
    ensures DetectFileType("env") == "environment"
  {
    SplitNoSeparator(fileName, '.');
    SplitNoSeparator("env", '.');
    assert LowerCase("env") == "env";
  }

  /** Matching ignores the case of the extension. */
  lemma DetectFileTypeIgnoresCase(stem: string, ext: string)
    requires '.' !in ext
    ensures DetectFileType(stem + "." + ext) == DetectFileType(stem + "." + LowerCase(ext))
  {
    ExtensionAfterLastDot(stem, ext);
    assert '.' !in LowerCase(ext) by {
      forall i | 0 <= i < |ext| ensures LowerCase(ext)[i] != '.' {
        assert ext[i] != '.';
      }
    }
    ExtensionAfterLastDot(stem, LowerCase(ext));
    LowerCaseIdempotent(ext);
  }

  /** `A.PY` is a Python file. */
  lemma UpperCaseExtension()
    ensures DetectFileType("A.PY") == "python"
  {
    assert "A.PY" == "A" + "." + "PY";
    ExtensionAfterLastDot("A", "PY");
    assert LowerCase("PY") == "py";
  }

  // -------------------------------------------- detectFileType as written

  /** What `typeMap[ext]` can yield on a plain object literal: one of the
      table's strings, or a member every object inherits. */
  datatype LookupResult = TypeName(name: string) | InheritedMember(key: string)

  /** The keys of Object.prototype that are already lower case, and so can
      be produced by `toLowerCase()`: `constructor` and `__proto__`. */
  const InheritedLowerCaseKeys: set<string> := {"constructor", "__proto__"}

  /** `detectFileType` as written: the lookup also finds inherited members,
      which are truthy, so `|| 'text'` does not replace them. */
  function DetectFileTypeAsWritten(fileName: string): LookupResult {
    var ext := Extension(fileName);
    if ext in TypeMap then TypeName(TypeMap[ext])
    else if ext in InheritedLowerCaseKeys then InheritedMember(ext)
    else TypeName("text")
  }

  /** As written, a file whose extension is `constructor` is not 'text'
      yet is not a code file: the two tables disagree on it. */
  lemma AsWrittenConstructorDisagrees(stem: string)
    ensures DetectFileTypeAsWritten(stem + ".constructor") == InheritedMember("constructor")
    ensures !IsCodeFile(stem + ".constructor")
  {
    assert stem + ".constructor" == stem + "." + "constructor";
    ExtensionAfterLastDot(stem, "constructor");
    assert LowerCase("constructor") == "constructor";
    assert "constructor" !in TypeMap;
    assert "constructor" !in CodeExtensions;
  }

  /** Everywhere else the written lookup and the own-key lookup agree. */
  lemma AsWrittenAgreesOffInheritedKeys(fileName: string)
    requires Extension(fileName) !in InheritedLowerCaseKeys
    ensures DetectFileTypeAsWritten(fileName) == TypeName(DetectFileType(fileName))
  {
  }

  // -------------------------------------------------------------- prompt

  /** The instruction sent to the model for one file. */
  function BuildDetectionPrompt(fileContent: string, fileName: string, fileType: string): string {
    PromptTemplate(PromptFocus, PromptSchema, fileContent, fileName, fileType)
  }

  /** The prompt's layout, with the list of concerns and the answer schema
      as parameters. */
  function PromptTemplate(focus: string, schema: string, fileContent: string, fileName: string, fileType: string): string {
    "请分析以下" + fileType + focus + fileName + "\n文件类型：" + fileType +
    "\n\n代码内容：\n" + "```" + fileType + "\n" + fileContent + "\n```" + schema
  }

  const PromptFocus: string :=
    "代码文件，检测其中的敏感信息。请重点关注：\n\n" +
    "1. API密钥和访问令牌（如AWS、Google、Azure等云服务密钥）\n" +
    "2. 数据库连接字符串和密码\n" +
    "3. 内网IP地址和私有URL\n" +
    "4. 硬编码的用户名和密码\n" +
    "5. 加密密钥和证书\n" +
    "6. 第三方服务的API密钥\n" +
    "7. 个人身份信息（邮箱、手机号等）\n" +
    "8. 财务信息（银行卡号、支付信息等）\n\n" +
    "文件名称："

  const PromptSchema: string :=
    "\n\n请按照以下JSON格式返回检测结果，每个检测项包含：\n" +
    "- id: 唯一标识符\n" +
    "- type: 风险类型（如\"API密钥\"、\"数据库密码\"等）\n" +
    "- content: 具体描述\n" +
    "- severity: 风险等级（high/medium/low）\n" +
    "- lineNumber: 行号（如果可确定）\n" +
    "- codeSnippet: 相关代码片段\n\n" +
    "返回格式示例：\n[\n  {\n" +
    "    \"id\": \"1\",\n" +
    "    \"type\": \"API密钥\",\n" +
    "    \"content\": \"检测到AWS API Key: AKIA...\",\n" +
    "    \"severity\": \"high\",\n" +
    "    \"lineNumber\": 15,\n" +
    "    \"codeSnippet\": \"const awsKey = 'AKIA...'\"\n" +
    "  }\n]\n\n" +
    "如果没有检测到敏感信息，返回空数组 []。"

  /** The prompt carries the whole file content verbatim, fenced as a code
      block of the detected type. */
  lemma PromptFencesContent(fileContent: string, fileName: string, fileType: string)
    ensures Includes(BuildDetectionPrompt(fileContent, fileName, fileType),
      "```" + fileType + "\n" + fileContent + "\n```")
    ensures Includes(BuildDetectionPrompt(fileContent, fileName, fileType), fileContent)
  {
    TemplateFencesContent(PromptFocus, PromptSchema, fileContent, fileName, fileType);
  }

  lemma TemplateFencesContent(focus: string, schema: string, fileContent: string, fileName: string, fileType: string)
    ensures Includes(PromptTemplate(focus, schema, fileContent, fileName, fileType),
      "```" + fileType + "\n" + fileContent + "\n```")
    ensures Includes(PromptTemplate(focus, schema, fileContent, fileName, fileType), fileContent)
  {
    var p := PromptTemplate(focus, schema, fileContent, fileName, fileType);
    var head := "请分析以下" + fileType + focus + fileName + "\n文件类型：" + fileType + "\n\n代码内容：\n";
    var fence := "```" + fileType + "\n" + fileContent + "\n```";
    IncludesAround(p, head, fence, schema);
    IncludesAround(fence, "```" + fileType + "\n", fileContent, "\n```");
    IncludesTransitive(p, fence, fileContent);
  }

  /** The prompt names the file and its type. */
  lemma PromptNamesFile(fileContent: string, fileName: string, fileType: string)
    ensures Includes(BuildDetectionPrompt(fileContent, fileName, fileType), fileName)
    ensures Includes(BuildDetectionPrompt(fileContent, fileName, fileType), fileType)
  {
    TemplateNamesFile(PromptFocus, PromptSchema, fileContent, fileName, fileType);
  }

  lemma TemplateNamesFile(focus: string, schema: string, fileContent: string, fileName: string, fileType: string)
    ensures Includes(PromptTemplate(focus, schema, fileContent, fileName, fileType), fileName)
    ensures Includes(PromptTemplate(focus, schema, fileContent, fileName, fileType), fileType)
  {
    var p := PromptTemplate(focus, schema, fileContent, fileName, fileType);
    var tail := "\n文件类型：" + fileType + "\n\n代码内容：\n" + "```" + fileType + "\n" + fileContent + "\n```" + schema;
    IncludesAround(p, "请分析以下" + fileType + focus, fileName, tail);
    IncludesAround(p, "请分析以下", fileType, focus + fileName + tail);
  }

  // ------------------------------------------------- the response parser

  /** One element of the parsed array with its falsy fields defaulted;
      `index` is its position in the array. */
  function NormalizeItem(item: Json, index: nat): DetectionItem
    requires !item.JNull?
  {
    DetectionItem(
      Or(Get(item, "id"), JStr(DefaultId(index))),
      Or(Get(item, "type"), JStr("未知类型")),
      Or(Get(item, "content"), JStr("检测到敏感信息")),
      Or(Get(item, "severity"), JStr("medium")),
      Get(item, "lineNumber"),
      Get(item, "codeSnippet"))
  }

  function DefaultId(index: nat): string {
    "detection-" + NatToString(index)
  }

  /** `parseDetectionResponse`: the greedy `[`...`]` span of the answer is
      parsed with `parse` (None when `JSON.parse` throws). No span gives no
      findings; a failed parse, or a null element (reading its `id` throws),
      falls back to the line scanner; a value that is not an array gives no
      findings; an array gives one normalised finding per element. */
  function ParseDetectionResponse(response: string, parse: string -> Option<Json>): (r: seq<DetectionItem>)
    ensures !(exists i, j :: 0 <= i < j < |response| && response[i] == '[' && response[j] == ']') ==> r == []
  {
    match GreedySpan(response, '[', ']')
    case None => []
    case Some(span) =>
      match parse(span)
      case None => ManualDetection(response)
      case Some(JArr(items)) =>
        if JNull in items then ManualDetection(response)
        else seq(|items|, i requires 0 <= i < |items| => NormalizeItem(items[i], i))
      case Some(_) => []
  }

  /** An array answer keeps its length and order: each finding keeps the
      element's truthy `id`/`type`/`content`/`severity` and replaces falsy
      ones by `detection-{i}` / '未知类型' / '检测到敏感信息' / 'medium';
      `lineNumber` and `codeSnippet` pass through. */
  lemma ParsedArrayNormalized(response: string, parse: string -> Option<Json>, span: string, items: seq<Json>, i: nat)
    requires GreedySpan(response, '[', ']') == Some(span)
    requires parse(span) == Some(JArr(items)) && JNull !in items
    requires i < |items|
    ensures var r := ParseDetectionResponse(response, parse);
      |r| == |items| &&
      (Truthy(Get(items[i], "id")) ==> Some(r[i].id) == Get(items[i], "id")) &&
      (!Truthy(Get(items[i], "id")) ==> r[i].id == JStr("detection-" + NatToString(i))) &&
      (Truthy(Get(items[i], "type")) ==> Some(r[i].kind) == Get(items[i], "type")) &&
      (!Truthy(Get(items[i], "type")) ==> r[i].kind == JStr("未知类型")) &&
      (Truthy(Get(items[i], "content")) ==> Some(r[i].content) == Get(items[i], "content")) &&
      (!Truthy(Get(items[i], "content")) ==> r[i].content == JStr("检测到敏感信息")) &&
      (Truthy(Get(items[i], "severity")) ==> Some(r[i].severity) == Get(items[i], "severity")) &&
      (!Truthy(Get(items[i], "severity")) ==> r[i].severity == JStr("medium")) &&
      r[i].lineNumber == Get(items[i], "lineNumber") &&
      r[i].codeSnippet == Get(items[i], "codeSnippet")
  {
  }

  /** When the model supplies no ids, the defaulted ids are pairwise distinct. */
  lemma DefaultIdsDistinct(i: nat, j: nat)
    requires DefaultId(i) == DefaultId(j)
    ensures i == j
  {
    var p := "detection-";
    assert NatToString(i) == DefaultId(i)[|p|..];
    assert NatToString(j) == DefaultId(j)[|p|..];
    NatToStringInjective(i, j);
  }

  /** The fallback runs exactly when the span does not parse, or the array
      holds a null; then the result is the line scanner's. */
  lemma ParseFailureFallsBack(response: string, parse: string -> Option<Json>, span: string)
    requires GreedySpan(response, '[', ']') == Some(span)
    requires parse(span).None? || (parse(span).Some? && parse(span).value.JArr? && JNull in parse(span).value.items)
    ensures ParseDetectionResponse(response, parse) == ManualDetection(response)
  {
  }

  /** A span that parses to anything but an array gives no findings. */
  lemma NonArrayGivesNothing(response: string, parse: string -> Option<Json>, span: string)
    requires GreedySpan(response, '[', ']') == Some(span)
    requires parse(span).Some? && !parse(span).value.JArr?
    ensures ParseDetectionResponse(response, parse) == []
  {
  }

  /** Whichever path is taken, every finding has a truthy id, type, content
      and severity. */
  lemma {:induction false} FindingsAlwaysFilled(response: string, parse: string -> Option<Json>, k: nat)
    requires k < |ParseDetectionResponse(response, parse)|
    ensures var item := ParseDetectionResponse(response, parse)[k];
      Truthy(Some(item.id)) && Truthy(Some(item.kind)) &&
      Truthy(Some(item.content)) && Truthy(Some(item.severity))
  {
    var r := ParseDetectionResponse(response, parse);
    var span := GreedySpan(response, '[', ']').value;
    if parse(span).None? || (parse(span).value.JArr? && JNull in parse(span).value.items) {
      ManualItemsFilled(Split(response, '\n'), k);
    } else {
      var items := parse(span).value.items;
      OrTruthy(Get(items[k], "id"), JStr(DefaultId(k)));
    }
  }

  // ------------------------------------------------ the line-scan fallback

  /** The three things the fallback recognises, in priority order. */
  datatype ManualCategory = ApiKey | Password | InternalAddress {
    function TypeName(): string {
      match this
      case ApiKey => "API密钥"
      case Password => "密码"
      case InternalAddress => "内网地址"
    }
    function Level(): Severity {
      match this
      case ApiKey => High
      case Password => High
      case InternalAddress => Medium
    }
  }

  /** The keyword chain, first match wins: `API` and `密钥` together, then
      `密码` or `password`, then `IP` or `内网`. */
  function Classify(line: string): Option<ManualCategory> {
    if Includes(line, "API") && Includes(line, "密钥") then Some(ApiKey)
    else if Includes(line, "密码") || Includes(line, "password") then Some(Password)
    else if Includes(line, "IP") || Includes(line, "内网") then Some(InternalAddress)
    else None
  }

  function ManualItem(id: nat, line: string, c: ManualCategory): DetectionItem {
    DetectionItem(JStr("manual-" + NatToString(id)), JStr(c.TypeName()), JStr(line),
      JStr(c.Level().Name()), None, None)
  }

  /** The findings the scanner produces for a list of lines: one per
      trimmed line the keyword chain recognises, numbered from 1 by a
      running counter. */
  function ManualItems(lines: seq<string>): seq<DetectionItem>
    decreases |lines|
  {
    if |lines| == 0 then []
    else
      var prev := ManualItems(lines[..|lines| - 1]);
      var t := Trim(lines[|lines| - 1]);
      match Classify(t)
      case None => prev
      case Some(c) => prev + [ManualItem(|prev| + 1, t, c)]
  }

  function ManualDetection(response: string): seq<DetectionItem> {
    ManualItems(Split(response, '\n'))
  }

  /** The recognised lines, trimmed, with their category, in order. */
  function Recognised(lines: seq<string>): seq<(string, ManualCategory)>
    decreases |lines|
  {
    if |lines| == 0 then []
    else
      var t := Trim(lines[|lines| - 1]);
      match Classify(t)
      case None => Recognised(lines[..|lines| - 1])
      case Some(c) => Recognised(lines[..|lines| - 1]) + [(t, c)]
  }

  /** Independent description of the scanner: the k-th finding is the k-th
      recognised line, with id `manual-{k+1}`, the line's category type and
      severity, and the trimmed line as content. So there is at most one
      finding per line and the ids are consecutive. */
  lemma {:induction false} ManualItemsAreNumberedRecognisedLines(lines: seq<string>)
    ensures |ManualItems(lines)| == |Recognised(lines)| <= |lines|
    ensures forall k :: 0 <= k < |ManualItems(lines)| ==>
      ManualItems(lines)[k] == ManualItem(k + 1, Recognised(lines)[k].0, Recognised(lines)[k].1)
    decreases |lines|
  {
    if |lines| > 0 {
      var init := lines[..|lines| - 1];
      ManualItemsAreNumberedRecognisedLines(init);
      var t := Trim(lines[|lines| - 1]);
      NumberedSnoc(ManualItems(init), Recognised(init), t, Classify(t));
    }
  }

  /** Numbering survives appending one line, recognised or not. */
  lemma NumberedSnoc(prev: seq<DetectionItem>, rec: seq<(string, ManualCategory)>, t: string,
                     cls: Option<ManualCategory>)
    requires |prev| == |rec|
    requires forall k :: 0 <= k < |prev| ==> prev[k] == ManualItem(k + 1, rec[k].0, rec[k].1)
    ensures var items := match cls
              case None => prev
              case Some(c) => prev + [ManualItem(|prev| + 1, t, c)];
            var r := match cls
              case None => rec
              case Some(c) => rec + [(t, c)];
      |items| == |r| && forall k :: 0 <= k < |items| ==> items[k] == ManualItem(k + 1, r[k].0, r[k].1)
  {
    if cls.Some? {
      var c := cls.value;
      var items, r := prev + [ManualItem(|prev| + 1, t, c)], rec + [(t, c)];
      forall k | 0 <= k < |items| ensures items[k] == ManualItem(k + 1, r[k].0, r[k].1) {
        if k < |prev| {
          assert items[k] == prev[k] && r[k] == rec[k];
        }
      }
    }
  }

  /** A line that mentions an API key is filed as an API key, however many
      other keywords it holds; a password line that is not an API-key line is
      a password line. */
  lemma ClassifyPriority(line: string)
    ensures Includes(line, "API") && Includes(line, "密钥") ==> Classify(line) == Some(ApiKey)
    ensures !(Includes(line, "API") && Includes(line, "密钥")) && Includes(line, "password") ==>
      Classify(line) == Some(Password)
    ensures Classify(line).Some? ==> Classify(line).value.Level() == (if Classify(line) == Some(InternalAddress) then Medium else High)
  {
  }

  lemma {:induction false} ManualItemsFilled(lines: seq<string>, k: nat)
    requires k < |ManualItems(lines)|
    ensures var item := ManualItems(lines)[k];
      Truthy(Some(item.id)) && Truthy(Some(item.kind)) &&
      Truthy(Some(item.content)) && Truthy(Some(item.severity))
  {
    ManualItemsAreNumberedRecognisedLines(lines);
    RecognisedClassified(lines, k);
    var (t, c) := Recognised(lines)[k];
    ClassifiedNotEmpty(t);
    assert ManualItems(lines)[k] == ManualItem(k + 1, t, c);
  }

  /** A recognised line holds a keyword, so it is not empty. */
  lemma ClassifiedNotEmpty(line: string)
    requires Classify(line).Some?
    ensures |line| >= 2
  {
    if Includes(line, "API") {
      IncludesLength(line, "API");
    } else if Includes(line, "密码") {
      IncludesLength(line, "密码");
    } else if Includes(line, "password") {
      IncludesLength(line, "password");
    } else if Includes(line, "IP") {
      IncludesLength(line, "IP");
    } else {
      IncludesLength(line, "内网");
    }
  }

  lemma {:induction false} RecognisedClassified(lines: seq<string>, k: nat)
    requires k < |Recognised(lines)|
    ensures Classify(Recognised(lines)[k].0) == Some(Recognised(lines)[k].1)
    decreases |lines|
  {
    var init := lines[..|lines| - 1];
    if k < |Recognised(init)| {
      RecognisedClassified(init, k);
    }
  }

  /** One more line extends the findings by at most the finding for that
      line. */
  lemma ManualItemsStep(lines: seq<string>, i: nat)
    requires i < |lines|
    ensures var prev, t := ManualItems(lines[..i]), Trim(lines[i]);
      ManualItems(lines[..i + 1]) ==
        match Classify(t)
        case None => prev
        case Some(c) => prev + [ManualItem(|prev| + 1, t, c)]
  {
    assert lines[..i + 1][..i] == lines[..i];
  }

  /** `extractManualDetection`: the loop over the lines with its running
      `currentId`, pushing one finding per recognised line. */
  method ExtractManualDetection(response: string) returns (results: seq<DetectionItem>)
    ensures results == ManualDetection(response)
  {
    results := [];
    var lines := Split(response, '\n');
    var currentId := 1;
    for i := 0 to |lines|
      invariant results == ManualItems(lines[..i])
      invariant currentId == |results| + 1
    {
      ManualItemsStep(lines, i);
      var trimmedLine := Trim(lines[i]);
      var item := ScanLine(trimmedLine, currentId);
      if item.Some? {
        results := results + [item.value];
        currentId := currentId + 1;
      }
    }
    assert lines[..|lines|] == lines;
  }

  /** The keyword chain of the loop body for one trimmed line: the finding
      of the line's category with the given id, or none. */
  method ScanLine(trimmedLine: string, currentId: nat) returns (item: Option<DetectionItem>)
    ensures item == match Classify(trimmedLine)
      case None => None
      case Some(c) => Some(ManualItem(currentId, trimmedLine, c))
  {
    if Includes(trimmedLine, "API") && Includes(trimmedLine, "密钥") {
      item := Some(DetectionItem(JStr("manual-" + NatToString(currentId)),
        JStr("API密钥"), JStr(trimmedLine), JStr("high"), None, None));
    } else if Includes(trimmedLine, "密码") || Includes(trimmedLine, "password") {
      item := Some(DetectionItem(JStr("manual-" + NatToString(currentId)),
        JStr("密码"), JStr(trimmedLine), JStr("high"), None, None));
    } else if Includes(trimmedLine, "IP") || Includes(trimmedLine, "内网") {
      item := Some(DetectionItem(JStr("manual-" + NatToString(currentId)),
        JStr("内网地址"), JStr(trimmedLine), JStr("medium"), None, None));
    } else {
      item := None;
    }
  }
}

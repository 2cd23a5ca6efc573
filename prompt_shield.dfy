/** The prompt firewall page (app/dashboard/prompt-shield/page.tsx): four
    keyword rules turn the typed prompt into an ordered list of warnings,
    and the prompt is blocked while a high-severity warning stands. The
    800 ms timer between typing and the rule evaluation is not modelled:
    the rules run as part of the same call. */
module PromptShield {
  import opened Common
  import opened Strings

  datatype RiskWarning = RiskWarning(
    id: string,
    kind: string,
    description: string,
    severity: Severity,
    suggestion: string)

  /** A rule fires when the text includes any of its keywords, and then
      contributes its warning. */
  datatype Rule = Rule(keywords: seq<string>, warning: RiskWarning)

  const CustomerPrivacy: Rule := Rule(["客户", "名单", "联系方式"],
    RiskWarning("1", "客户隐私泄露", "检测到可能涉及客户个人信息的请求", High,
                "建议使用匿名化或脱敏后的数据进行分析"))

  const TradeSecrets: Rule := Rule(["销售数据", "财务", "商业计划"],
    RiskWarning("2", "商业机密风险", "检测到可能涉及公司商业机密的内容", Medium,
                "建议在安全环境中处理敏感商业数据"))

  const SensitiveAccess: Rule := Rule(["购买记录", "交易", "账号"],
    RiskWarning("3", "敏感数据访问", "检测到对敏感数据的访问请求", High,
                "需要额外的权限验证和审计日志"))

  const DataExport: Rule := Rule(["导出", "下载", "生成列表"],
    RiskWarning("4", "数据导出风险", "检测到批量数据导出意图", Medium,
                "建议限制导出数据量并记录操作日志"))

  /** The rules in the order the page evaluates them. */
  const Rules: seq<Rule> := [CustomerPrivacy, TradeSecrets, SensitiveAccess, DataExport]

  predicate Fires(rule: Rule, text: string) {
    exists k :: 0 <= k < |rule.keywords| && Includes(text, rule.keywords[k])
  }

  /** The warnings of the firing rules, in rule order. */
  function Select(rules: seq<Rule>, text: string): seq<RiskWarning>
    decreases |rules|
  {
    if |rules| == 0 then []
    else
      var last := rules[|rules| - 1];
      Select(rules[..|rules| - 1], text) + (if Fires(last, text) then [last.warning] else [])
  }

  /** The positions of the firing rules, ascending. */
  function Firing(rules: seq<Rule>, text: string): seq<nat>
    decreases |rules|
  {
    if |rules| == 0 then []
    else Firing(rules[..|rules| - 1], text) + (if Fires(rules[|rules| - 1], text) then [|rules| - 1] else [])
  }

  /** The warnings the page shows for a text of ten or more code units. */
  function FiredWarnings(text: string): seq<RiskWarning> {
    Select(Rules, text)
  }

  /** `detectedWarnings.some((w) => w.severity === "high")` */
  predicate AnyHigh(warnings: seq<RiskWarning>) {
    exists i :: 0 <= i < |warnings| && warnings[i].severity == High
  }

  /** Texts shorter than ten UTF-16 code units are not analysed. */
  predicate TooShort(text: string) {
    Utf16Length(text) < 10
  }

  /** The four checks of `analyzePrompt`, each adding its warning when one
      of its keywords occurs: the result is the firing rules' warnings in
      rule order. */
  method DetectWarnings(text: string) returns (detected: seq<RiskWarning>)
    ensures detected == FiredWarnings(text)
  {
    detected := [];
    var privacy := Includes(text, "客户") || Includes(text, "名单") || Includes(text, "联系方式");
    if privacy {
      detected := detected + [CustomerPrivacy.warning];
    }
    assert detected == Contribution(CustomerPrivacy, text) by {
      FiresThree(CustomerPrivacy, text);
    }
    var secrets := Includes(text, "销售数据") || Includes(text, "财务") || Includes(text, "商业计划");
    ghost var before := detected;
    if secrets {
      detected := detected + [TradeSecrets.warning];
    }
    assert detected == before + Contribution(TradeSecrets, text) by {
      FiresThree(TradeSecrets, text);
    }
    var access := Includes(text, "购买记录") || Includes(text, "交易") || Includes(text, "账号");
    before := detected;
    if access {
      detected := detected + [SensitiveAccess.warning];
    }
    assert detected == before + Contribution(SensitiveAccess, text) by {
      FiresThree(SensitiveAccess, text);
    }
    var exporting := Includes(text, "导出") || Includes(text, "下载") || Includes(text, "生成列表");
    before := detected;
    if exporting {
      detected := detected + [DataExport.warning];
    }
    assert detected == before + Contribution(DataExport, text) by {
      FiresThree(DataExport, text);
    }
    SelectFour(CustomerPrivacy, TradeSecrets, SensitiveAccess, DataExport, text);
  }

  // -------------------------------------------------------------- the page

  class ShieldPage {
    var prompt: string
    var isAnalyzing: bool
    var warnings: seq<RiskWarning>
    var isBlocked: bool
    var hasAnalyzed: bool

    /** The page's initial state: empty prompt, nothing analysed. */
    constructor ()
      ensures prompt == "" && !isAnalyzing && warnings == [] && !isBlocked && !hasAnalyzed
    {
      prompt := "";
      isAnalyzing := false;
      warnings := [];
      isBlocked := false;
      hasAnalyzed := false;
    }

    /** `analyzePrompt(text)` with its timer run to completion: a short text
        clears the warnings and the block and marks the prompt unanalysed;
        otherwise the warnings are those of the firing rules, in rule order,
        and the prompt is blocked exactly when one of them is high. */
    method AnalyzePrompt(text: string)
      modifies this
      ensures prompt == text
      ensures TooShort(text) ==>
        warnings == [] && !isBlocked && !hasAnalyzed && isAnalyzing == old(isAnalyzing)
      ensures !TooShort(text) ==>
        warnings == FiredWarnings(text) && isBlocked == AnyHigh(warnings) && !isAnalyzing && hasAnalyzed
    {
      prompt := text;
      if Utf16Length(text) < 10 {
        warnings := [];
        isBlocked := false;
        hasAnalyzed := false;
        return;
      }
      isAnalyzing := true;
      hasAnalyzed := false;

      var detected := DetectWarnings(text);
      warnings := detected;
      isBlocked := AnyHigh(detected);
      isAnalyzing := false;
      hasAnalyzed := true;
    }

    /** `handleSubmit`: the prompt goes out only when it is not blocked. */
    method HandleSubmit() returns (sent: bool)
      ensures sent <==> !isBlocked
    {
      if isBlocked {
        return false;
      }
      return true;
    }
  }

  // ---------------------------------------------------------------- lemmas

  /** `Select` over the four rules, spelled out rule by rule. */
  lemma SelectRules(text: string)
    ensures FiredWarnings(text) ==
      (if Includes(text, "客户") || Includes(text, "名单") || Includes(text, "联系方式") then [CustomerPrivacy.warning] else []) +
      (if Includes(text, "销售数据") || Includes(text, "财务") || Includes(text, "商业计划") then [TradeSecrets.warning] else []) +
      (if Includes(text, "购买记录") || Includes(text, "交易") || Includes(text, "账号") then [SensitiveAccess.warning] else []) +
      (if Includes(text, "导出") || Includes(text, "下载") || Includes(text, "生成列表") then [DataExport.warning] else [])
  {
    SelectFour(CustomerPrivacy, TradeSecrets, SensitiveAccess, DataExport, text);
    FiresThree(CustomerPrivacy, text);
    FiresThree(TradeSecrets, text);
    FiresThree(SensitiveAccess, text);
    FiresThree(DataExport, text);
  }

  /** The contribution of one rule: its warning when it fires. */
  function Contribution(rule: Rule, text: string): seq<RiskWarning> {
    if Fires(rule, text) then [rule.warning] else []
  }

  /** `Select` over any four rules is their contributions in order. */
  lemma SelectFour(a: Rule, b: Rule, c: Rule, d: Rule, text: string)
    ensures Select([a, b, c, d], text) ==
      Contribution(a, text) + Contribution(b, text) + Contribution(c, text) + Contribution(d, text)
  {
    var rules := [a, b, c, d];
    var r3, r2, r1 := rules[..3], rules[..2], rules[..1];
    assert r3[..2] == r2 && r2[..1] == r1 && r1[..0] == [];
    assert rules[3] == d && r3[2] == c && r2[1] == b && r1[0] == a;
    assert Select(r1, text) == Contribution(a, text);
    assert Select(r2, text) == Select(r1, text) + Contribution(b, text);
    assert Select(r3, text) == Select(r2, text) + Contribution(c, text);
    assert Select(rules, text) == Select(r3, text) + Contribution(d, text);
  }

  lemma FiresThree(rule: Rule, text: string)
    requires |rule.keywords| == 3
    ensures Fires(rule, text) <==>
      Includes(text, rule.keywords[0]) || Includes(text, rule.keywords[1]) || Includes(text, rule.keywords[2])
  {
  }

  /** The warnings are exactly those of the firing rules, one per rule, in
      rule order: the k-th warning belongs to the k-th firing position, the
      positions ascend, and a position is listed exactly when its rule
      fires. */
  lemma {:induction false} SelectInRuleOrder(rules: seq<Rule>, text: string)
    ensures var ws, idx := Select(rules, text), Firing(rules, text);
      |ws| == |idx| &&
      (forall k :: 0 <= k < |idx| ==> idx[k] < |rules| && ws[k] == rules[idx[k]].warning) &&
      (forall k, l :: 0 <= k < l < |idx| ==> idx[k] < idx[l]) &&
      (forall j :: 0 <= j < |rules| ==> (j in idx <==> Fires(rules[j], text)))
    decreases |rules|
  {
    if |rules| > 0 {
      var init := rules[..|rules| - 1];
      SelectInRuleOrder(init, text);
      forall j | 0 <= j < |init| ensures init[j] == rules[j] {
      }
    }
  }

  /** A prompt is blocked exactly when the customer-privacy rule or the
      sensitive-access rule fires: those are the two high rules. */
  lemma BlockedIffHighRuleFires(text: string)
    ensures AnyHigh(FiredWarnings(text)) <==> Fires(CustomerPrivacy, text) || Fires(SensitiveAccess, text)
  {
    SelectRules(text);
    FiresThree(CustomerPrivacy, text);
    FiresThree(TradeSecrets, text);
    FiresThree(SensitiveAccess, text);
    FiresThree(DataExport, text);
    var ws := FiredWarnings(text);
    if Fires(CustomerPrivacy, text) {
      assert ws[0].severity == High;
    } else if Fires(SensitiveAccess, text) {
      var k := if Fires(TradeSecrets, text) then 1 else 0;
      assert ws[k] == SensitiveAccess.warning;
    }
  }

  /** No warning at all exactly when none of the twelve keywords occurs. */
  lemma NoWarningsIffNoKeyword(text: string)
    ensures FiredWarnings(text) == [] <==>
      forall r, k :: 0 <= r < |Rules| && 0 <= k < |Rules[r].keywords| ==> !Includes(text, Rules[r].keywords[k])
  {
    SelectInRuleOrder(Rules, text);
    var idx := Firing(Rules, text);
    if FiredWarnings(text) == [] {
      forall r, k | 0 <= r < |Rules| && 0 <= k < |Rules[r].keywords|
        ensures !Includes(text, Rules[r].keywords[k])
      {
        assert r !in idx;
      }
    } else {
      assert idx[0] < |Rules| && Fires(Rules[idx[0]], text);
    }
  }

  /** Each rule adds at most one warning, so no id repeats. */
  lemma WarningIdsDistinct(text: string)
    ensures forall k, l :: 0 <= k < l < |FiredWarnings(text)| ==>
      FiredWarnings(text)[k].id != FiredWarnings(text)[l].id
  {
    SelectInRuleOrder(Rules, text);
    var idx := Firing(Rules, text);
    forall k, l | 0 <= k < l < |FiredWarnings(text)|
      ensures FiredWarnings(text)[k].id != FiredWarnings(text)[l].id
    {
      assert idx[k] < idx[l] < 4;
    }
  }
}

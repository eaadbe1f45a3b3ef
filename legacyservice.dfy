/**
 * The single-shot report generator AI_Service.php: prompt building, the choice of a provider by
 * analysis depth, the dispatch to a provider, and the parsing of the returned Markdown into the
 * structured report.
 */
module LegacyService {
  import opened Wrappers
  import opened Text
  import opened Json

  /**
   * The enabled providers' decoded config_data, in the order loadApiConfigs read them (a null
   * stands for config_data that did not decode), one entry per provider as in the array
   * loadApiConfigs keys by provider.
   */
  type Configs = seq<(string, Json)>

  /** isset($this->api_configs[$p]): a provider whose config decoded to null does not count. */
  predicate IsConfigured(configs: Configs, p: string) {
    NonNull(Get(configs, p)).Some?
  }

  /** `$this->api_configs[$p] ?? []`. */
  function ConfigOf(configs: Configs, p: string): Json {
    Coalesce(NonNull(Get(configs, p)), JList([]))
  }

  // ---------------------------------------------------------------- ordered string maps

  /** `$a[$k]` of a PHP array with string values, in insertion order. */
  function Find(kv: seq<(string, string)>, k: string): (r: Option<string>)
    ensures r.Some? <==> exists m :: 0 <= m < |kv| && kv[m].0 == k
    ensures r.Some? ==> exists m :: 0 <= m < |kv| && kv[m] == (k, r.value)
  {
    if kv == [] then None
    else if kv[0].0 == k then Some(kv[0].1)
    else
      var r := Find(kv[1..], k);
      assert r.Some? ==> exists m :: 0 <= m < |kv[1..]| && kv[1..][m] == (k, r.value);
      r
  }

  predicate DistinctKeys(kv: seq<(string, string)>) {
    forall i, j :: 0 <= i < j < |kv| ==> kv[i].0 != kv[j].0
  }

  /** `$a[$k] = $v`: an existing key keeps its place, a new one goes last. */
  function Put(kv: seq<(string, string)>, k: string, v: string): seq<(string, string)> {
    if kv == [] then [(k, v)]
    else if kv[0].0 == k then [(k, v)] + kv[1..]
    else [kv[0]] + Put(kv[1..], k, v)
  }

  /** After `$a[$k] = $v` the key reads v and every other key reads as before. */
  lemma {:induction false} PutFind(kv: seq<(string, string)>, k: string, v: string, k2: string)
    ensures Find(Put(kv, k, v), k2) == if k2 == k then Some(v) else Find(kv, k2)
  {
    if kv != [] && kv[0].0 != k {
      PutFind(kv[1..], k, v, k2);
      hide Put;
      assert ([kv[0]] + Put(kv[1..], k, v))[1..] == Put(kv[1..], k, v);
    }
  }

  /** Every entry after `$a[$k] = $v` was there before or is the new pair. */
  lemma {:induction false} PutMembers(kv: seq<(string, string)>, k: string, v: string)
    ensures forall m :: 0 <= m < |Put(kv, k, v)| ==> Put(kv, k, v)[m] in kv || Put(kv, k, v)[m] == (k, v)
  {
    if kv != [] && kv[0].0 != k {
      PutMembers(kv[1..], k, v);
      var t := Put(kv[1..], k, v);
      assert Put(kv, k, v) == [kv[0]] + t;
      hide Put;
      forall m | 0 <= m < |t| + 1
        ensures ([kv[0]] + t)[m] in kv || ([kv[0]] + t)[m] == (k, v)
      {
        if m > 0 {
          assert ([kv[0]] + t)[m] == t[m - 1];
        }
      }
    }
  }

  /** A new key is appended; an existing one keeps its place. */
  lemma {:induction false} PutShape(kv: seq<(string, string)>, k: string, v: string)
    ensures Find(kv, k).None? ==> Put(kv, k, v) == kv + [(k, v)]
    ensures Find(kv, k).Some? ==>
      |Put(kv, k, v)| == |kv| && forall m :: 0 <= m < |kv| ==> Put(kv, k, v)[m].0 == kv[m].0
  {
    if kv != [] && kv[0].0 != k {
      PutShape(kv[1..], k, v);
      var t := Put(kv[1..], k, v);
      assert Put(kv, k, v) == [kv[0]] + t;
      hide Put;
      if Find(kv, k).None? {
        assert Find(kv[1..], k).None?;
        assert [kv[0]] + (kv[1..] + [(k, v)]) == kv + [(k, v)];
      }
    }
  }

  /** Keys stay distinct. */
  lemma PutDistinct(kv: seq<(string, string)>, k: string, v: string)
    requires DistinctKeys(kv)
    ensures DistinctKeys(Put(kv, k, v))
  {
    PutShape(kv, k, v);
    var r := Put(kv, k, v);
    if Find(kv, k).None? {
      forall i, j | 0 <= i < j < |r|
        ensures r[i].0 != r[j].0
      {
        if j == |kv| {
          assert r[i] == kv[i];
        }
      }
    } else {
      forall i, j | 0 <= i < j < |r|
        ensures r[i].0 != r[j].0
      {
        assert r[i].0 == kv[i].0 && r[j].0 == kv[j].0;
      }
    }
  }

  // ---------------------------------------------------------------- buildSystemPrompt

  const BaseSentence: string :=
    "你是一位资深的商业策略分析师，具有超过20年的商业咨询经验。你的任务是为用户的商业想法提供专业、详细、可操作的商业策略分析报告。\n\n"
  const BasicSentence: string := "请提供一份基础但全面的商业分析，重点关注核心商业要素。分析应该简洁明了，适合初创企业家参考。\n\n"
  const StandardSentence: string :=
    "请提供一份标准深度的商业分析，包含详细的市场分析、竞争分析和财务预测。分析应该具有专业水准，适合有一定经验的创业者。\n\n"
  const DeepSentence: string :=
    "请提供一份深度商业分析，包含全面的市场研究、详细的竞争情报、复杂的财务模型和风险评估。分析应该达到专业咨询公司的标准。\n\n"
  const FocusHeader: string := "用户特别关注以下方面，请在分析中重点讨论：\n"
  const OutlineHeader: string := "请按照以下结构提供分析：\n"
  const ClosingSentence: string := "请用中文回答，并确保内容具有实用性和可操作性。"

  /** The ten parts every report is asked for, in order. */
  const Outline: seq<string> := ["执行摘要", "市场环境分析", "竞争对手研究", "目标用户画像", "商业模式设计",
                                 "风险评估分析", "财务预测建模", "营销策略制定", "实施计划规划", "结论与建议"]

  /** The sentence the switch adds for a depth: one for each known depth, none otherwise. */
  function DepthSentence(depth: string): string {
    if depth == "basic" then BasicSentence
    else if depth == "standard" then StandardSentence
    else if depth == "deep" then DeepSentence
    else ""
  }

  function FocusLine(area: string): string {
    "- " + Escape(area) + "\n"
  }

  /** One line per focus area, in order. */
  function FocusLines(areas: seq<string>): string {
    if areas == [] then "" else FocusLine(areas[0]) + FocusLines(areas[1..])
  }

  function FocusBlock(areas: seq<string>): string {
    if areas == [] then "" else FocusHeader + FocusLines(areas) + "\n"
  }

  /** "n. item" lines for the items, numbered from n. */
  function Numbered(items: seq<string>, n: nat): string {
    if items == [] then "" else NatToString(n) + ". " + items[0] + "\n" + Numbered(items[1..], n + 1)
  }

  function OutlineSection(): string {
    OutlineHeader + Numbered(Outline, 1) + "\n"
  }

  /** The system prompt for a depth and the focus areas. */
  function SystemPrompt(depth: string, areas: seq<string>): string {
    BaseSentence + DepthSentence(depth) + FocusBlock(areas) + OutlineSection() + ClosingSentence
  }

  lemma {:induction false} FocusLinesSnoc(areas: seq<string>, a: string)
    ensures FocusLines(areas + [a]) == FocusLines(areas) + FocusLine(a)
  {
    if areas != [] {
      assert (areas + [a])[1..] == areas[1..] + [a];
      FocusLinesSnoc(areas[1..], a);
    }
  }

  /** The `foreach` over the focus areas: one line per area, appended in order. */
  method AppendFocusLines(head: string, areas: seq<string>) returns (prompt: string)
    ensures prompt == head + FocusLines(areas)
  {
    hide FocusLine;
    prompt := head;
    var i := 0;
    while i < |areas|
      invariant 0 <= i <= |areas|
      invariant prompt == head + FocusLines(areas[..i])
    {
      FocusLinesSnoc(areas[..i], areas[i]);
      assert areas[..i + 1] == areas[..i] + [areas[i]];
      prompt := prompt + FocusLine(areas[i]);
      i := i + 1;
    }
    assert areas[..i] == areas;
  }

  /** buildSystemPrompt: the prompt is built by appending, one focus line per area. */
  method BuildSystemPrompt(depth: string, areas: seq<string>) returns (prompt: string)
    ensures prompt == SystemPrompt(depth, areas)
  {
    hide BaseSentence, BasicSentence, StandardSentence, DeepSentence, FocusHeader, OutlineSection, ClosingSentence, FocusLines;
    prompt := BaseSentence;
    if depth == "basic" {
      prompt := prompt + BasicSentence;
    } else if depth == "standard" {
      prompt := prompt + StandardSentence;
    } else if depth == "deep" {
      prompt := prompt + DeepSentence;
    }
    var head := prompt;
    assert head == BaseSentence + DepthSentence(depth);
    if areas != [] {
      prompt := AppendFocusLines(prompt + FocusHeader, areas);
      prompt := prompt + "\n";
    }
    assert prompt == head + FocusBlock(areas);
    prompt := prompt + OutlineSection();
    prompt := prompt + ClosingSentence;
  }

  /**
   * The depth changes only the one sentence after the opening: a known depth contributes its
   * own (non-empty) sentence, any other depth none, and the rest of the prompt is the same.
   */
  lemma DepthSentenceOnly(depth: string, areas: seq<string>)
    ensures SystemPrompt(depth, areas) == BaseSentence + DepthSentence(depth) + SystemPrompt("", areas)[|BaseSentence|..]
    ensures depth in ["basic", "standard", "deep"] ==> DepthSentence(depth) in [BasicSentence, StandardSentence, DeepSentence]
    ensures depth !in ["basic", "standard", "deep"] ==> DepthSentence(depth) == ""
  {
    hide BaseSentence, BasicSentence, StandardSentence, DeepSentence, FocusHeader, OutlineSection, ClosingSentence, FocusLines;
    var rest := FocusBlock(areas) + OutlineSection() + ClosingSentence;
    assert SystemPrompt("", areas) == BaseSentence + rest;
    assert SystemPrompt("", areas)[|BaseSentence|..] == rest;
  }

  /**
   * With no line break inside the areas, the focus lines split into exactly one "- " line per
   * area, in order, followed by the empty remainder after the last line break.
   */
  lemma {:induction false} FocusLinesSplit(areas: seq<string>)
    requires forall k :: 0 <= k < |areas| ==> '\n' !in areas[k]
    ensures Split(FocusLines(areas), '\n') == Bullets(areas) + [""]
  {
    if areas == [] {
      assert FocusLines(areas) == "";
      assert Split("", '\n') == [""] by {
        assert '\n' !in "";
      }
    } else {
      var a := "- " + Escape(areas[0]);
      EscapeKeepsLineBreaks(areas[0]);
      assert '\n' !in a by {
        assert a == ['-', ' '] + Escape(areas[0]);
      }
      FocusLinesSplit(areas[1..]);
      assert FocusLines(areas) == a + ['\n'] + FocusLines(areas[1..]);
      hide FocusLines, Escape, Split;
      SplitCons(a, FocusLines(areas[1..]));
    }
  }

  /** The text of each focus line, in order. */
  function Bullets(areas: seq<string>): (r: seq<string>)
    ensures |r| == |areas| && forall k :: 0 <= k < |areas| ==> r[k] == "- " + Escape(areas[k])
  {
    if areas == [] then [] else ["- " + Escape(areas[0])] + Bullets(areas[1..])
  }

  /** Splitting at a first separator gives the text before it, then the pieces of the rest. */
  lemma SplitCons(a: string, b: string)
    requires '\n' !in a
    ensures Split(a + ['\n'] + b, '\n') == [a] + Split(b, '\n')
  {
    var s := a + ['\n'] + b;
    IndexOfAfter(a, '\n', b);
    assert s[..|a|] == a;
    assert s[|a| + 1..] == b;
  }

  lemma {:induction false} EscapeKeepsLineBreaks(s: string)
    requires '\n' !in s
    ensures '\n' !in Escape(s)
  {
    if s != [] {
      EscapeKeepsLineBreaks(s[1..]);
      assert '\n' !in EscapeChar(s[0]);
    }
  }

  // ---------------------------------------------------------------- buildUserPrompt

  const IdeaLabel: string := "商业想法描述：\n"
  const IndustryLabel: string := "所属行业："
  const FocusLabel: string := "重点关注领域："
  const UserClosing: string := "请为这个商业想法提供详细的商业策略分析报告。"

  /**
   * The user prompt: the escaped idea, the escaped industry, the escaped focus areas joined by
   * ", " when there are any, then the request.
   */
  function UserPrompt(idea: string, industry: string, areas: seq<string>): (p: string)
    ensures var head := IdeaLabel + Escape(idea) + "\n\n" + IndustryLabel + Escape(industry) + "\n\n";
      (areas == [] ==> p == head + UserClosing) &&
      (areas != [] ==> p == head + FocusLabel + Join(EscapeAll(areas), ", ") + "\n\n" + UserClosing)
  {
    hide IdeaLabel, IndustryLabel, FocusLabel, UserClosing;
    var p := IdeaLabel + Escape(idea) + "\n\n";
    var p := p + IndustryLabel + Escape(industry) + "\n\n";
    var p := if areas != [] then p + FocusLabel + Join(EscapeAll(areas), ", ") + "\n\n" else p;
    p + UserClosing
  }

  /** Whatever the idea, industry and areas hold, the prompt carries none of the characters that
   *  would open a tag or close a quoted attribute. */
  lemma UserPromptHasNoMarkup(idea: string, industry: string, areas: seq<string>)
    ensures var p := UserPrompt(idea, industry, areas);
            '<' !in p && '>' !in p && '"' !in p && '\'' !in p
  {
    PromptKeepsOut(idea, industry, areas, '<');
    PromptKeepsOut(idea, industry, areas, '>');
    PromptKeepsOut(idea, industry, areas, '"');
    PromptKeepsOut(idea, industry, areas, '\'');
  }

  /** A character that escaping removes and that no fixed part of the prompt holds is not in it. */
  lemma PromptKeepsOut(idea: string, industry: string, areas: seq<string>, c: char)
    requires c in "<>\"'"
    ensures c !in UserPrompt(idea, industry, areas)
  {
    assert c !in IdeaLabel && c !in IndustryLabel && c !in FocusLabel && c !in UserClosing;
    assert c !in "\n\n" && c !in ", ";
    hide IdeaLabel, IndustryLabel, FocusLabel, UserClosing;
    var escaped := EscapeAll(areas);
    forall k | 0 <= k < |escaped|
      ensures c !in escaped[k]
    {
      assert escaped[k] == Escape(areas[k]);
    }
    JoinKeepsOut(escaped, ", ", c);
  }

  /** array_map('htmlspecialchars', $areas). */
  function EscapeAll(areas: seq<string>): (r: seq<string>)
    ensures |r| == |areas| && forall k :: 0 <= k < |areas| ==> r[k] == Escape(areas[k])
  {
    seq(|areas|, k requires 0 <= k < |areas| => Escape(areas[k]))
  }

  // ---------------------------------------------------------------- selectBestProvider

  /** The preference list for a depth; ['openai'] for any other depth. */
  function Preferred(depth: string): seq<string> {
    if depth == "deep" then ["claude", "openai", "gemini"]
    else if depth == "standard" then ["openai", "claude", "qianwen"]
    else if depth == "basic" then ["qianwen", "baichuan", "moonshot"]
    else ["openai"]
  }

  function FirstConfigured(candidates: seq<string>, configs: Configs): (r: Option<string>)
    ensures r.None? <==> forall k :: 0 <= k < |candidates| ==> !IsConfigured(configs, candidates[k])
    ensures r.Some? ==> exists k :: 0 <= k < |candidates| && candidates[k] == r.value &&
                                     IsConfigured(configs, r.value) &&
                                     forall j :: 0 <= j < k ==> !IsConfigured(configs, candidates[j])
  {
    if candidates == [] then None
    else if IsConfigured(configs, candidates[0]) then Some(candidates[0])
    else
      var r := FirstConfigured(candidates[1..], configs);
      assert r.Some? ==> exists k :: 0 <= k < |candidates[1..]| && candidates[1..][k] == r.value &&
                                       IsConfigured(configs, r.value) &&
                                       forall j :: 0 <= j < k ==> !IsConfigured(configs, candidates[1..][j]);
      r
  }

  /**
   * selectBestProvider: the first configured provider of the depth's preference list; failing
   * that the first provider loaded at all; failing that 'mock'.
   */
  function SelectBestProvider(configs: Configs, depth: string): (r: string)
    ensures (exists k :: 0 <= k < |Preferred(depth)| && IsConfigured(configs, Preferred(depth)[k])) ==>
      exists k :: 0 <= k < |Preferred(depth)| && Preferred(depth)[k] == r && IsConfigured(configs, r) &&
        forall j :: 0 <= j < k ==> !IsConfigured(configs, Preferred(depth)[j])
    ensures (forall k :: 0 <= k < |Preferred(depth)| ==> !IsConfigured(configs, Preferred(depth)[k])) ==>
      r == (if configs == [] then "mock" else configs[0].0)
  {
    match FirstConfigured(Preferred(depth), configs)
    case Some(p) => p
    case None => if configs == [] then "mock" else configs[0].0
  }

  // ---------------------------------------------------------------- callAI

  /** What the OpenAI endpoint gives back: a curl error, or a status and the decoded body. */
  datatype OpenAiReply = CurlFailed(error: string) | HttpReply(code: int, body: Json)

  /** `empty($config['api_key'])`. */
  predicate KeyMissing(config: Json) {
    !Truthy(Coalesce(Lookup(config, [Key("api_key")]), JNull))
  }

  /** The name each provider's "key not configured" message uses. */
  function KeyError(provider: string): string {
    (if provider == "openai" then "OpenAI" else if provider == "claude" then "Claude"
     else if provider == "qianwen" then "通义千问" else "Gemini") + " API key not configured"
  }

  predicate IsNamed(provider: string) {
    provider == "openai" || provider == "claude" || provider == "qianwen" || provider == "gemini"
  }

  /** The request body sent to OpenAI (apart from the temperature). */
  function OpenAiRequest(config: Json, system: string, user: string): (r: Json)
    ensures r.JObject? && |r.fields| == 3
    ensures Lookup(config, [Key("model")]).None? ==> r.fields[0] == ("model", JStr("gpt-3.5-turbo"))
    ensures Lookup(config, [Key("max_tokens")]).None? ==> r.fields[2] == ("max_tokens", JInt(4000))
    ensures forall v :: Lookup(config, [Key("model")]) == Some(v) ==> r.fields[0] == ("model", v)
    ensures forall v :: Lookup(config, [Key("max_tokens")]) == Some(v) ==> r.fields[2] == ("max_tokens", v)
    ensures r.fields[1] == ("messages", JList([JObject([("role", JStr("system")), ("content", JStr(system))]),
                                               JObject([("role", JStr("user")), ("content", JStr(user))])]))
  {
    JObject([
      ("model", Coalesce(Lookup(config, [Key("model")]), JStr("gpt-3.5-turbo"))),
      ("messages", JList([JObject([("role", JStr("system")), ("content", JStr(system))]),
                          JObject([("role", JStr("user")), ("content", JStr(user))])])),
      ("max_tokens", Coalesce(Lookup(config, [Key("max_tokens")]), JInt(4000)))])
  }

  /** callOpenAI after the key check: the curl error, the status, then the content path. */
  function OpenAiResult(reply: OpenAiReply): (r: Result<Json, string>)
    ensures reply.CurlFailed? ==> r == Err("OpenAI API request failed: " + reply.error)
    ensures reply.HttpReply? && reply.code != 200 ==> r == Err("OpenAI API returned error code: " + IntToString(reply.code))
    ensures reply.HttpReply? && reply.code == 200 ==>
      (r.Ok? <==> Lookup(reply.body, [Key("choices"), At(0), Key("message"), Key("content")]).Some?)
    ensures r.Ok? ==> !r.value.JNull?
  {
    match reply
    case CurlFailed(e) => Err("OpenAI API request failed: " + e)
    case HttpReply(code, body) =>
      if code != 200 then Err("OpenAI API returned error code: " + IntToString(code))
      else
        match Lookup(body, [Key("choices"), At(0), Key("message"), Key("content")])
        case None => Err("Invalid response from OpenAI API")
        case Some(c) => Ok(c)
  }

  /** The fixed Markdown report generateMockReport returns. */
  function MockReport(): string {
    "# 商业策略分析报告\n\n## 执行摘要\n这是一个基于您的商业想法生成的详细分析报告。本报告评估了您的商业想法的市场潜力、竞争环境、目标用户群体以及潜在的商业模式。\n\n" +
    "## 市场环境分析\n目标市场显示出良好的增长前景，市场规模预计在未来3-5年内保持稳定增长。行业发展趋势有利于新进入者，特别是那些能够提供创新解决方案的企业。\n\n" +
    "## 竞争对手研究\n当前市场存在几个主要竞争对手，但仍有差异化机会。通过分析竞争对手的优劣势，我们识别出了市场空白点和竞争优势的构建方向。\n\n" +
    "## 目标用户画像\n主要目标用户群体为25-45岁的专业人士，他们具有中高收入水平，重视品质和效率。这个群体对新技术和创新服务具有较高的接受度。\n\n" +
    "## 商业模式设计\n建议采用订阅制商业模式，结合一次性购买和增值服务。这种模式能够确保稳定的现金流，同时为用户提供灵活的选择。\n\n" +
    "## 风险评估分析\n主要风险包括市场竞争加剧、技术变革风险和资金需求。建议制定相应的风险缓解措施，包括技术储备和资金规划。\n\n" +
    "## 财务预测建模\n预计初期投资需求为50-100万元，预期在第18个月达到盈亏平衡点。第三年预计实现200万元营收，净利润率达到15-20%。\n\n" +
    "## 营销策略制定\n建议采用数字化营销策略，重点通过社交媒体、内容营销和合作伙伴推广。初期营销预算建议占营收的15-20%。\n\n" +
    "## 实施计划规划\n建议分三个阶段实施：\n- 第一阶段（0-6个月）：产品开发和团队建设\n- 第二阶段（6-18个月）：市场推广和用户获取\n- 第三阶段（18个月以后）：规模化发展和业务扩张\n\n" +
    "## 结论与建议\n该商业想法具有良好的市场前景和可行性。建议先进行小规模市场验证，然后逐步扩大规模。关键成功因素包括产品质量、用户体验和市场推广策略的执行。"
  }

  /**
   * callAI: the four named providers check their key first; only OpenAI goes to the network
   * (`net`), the other three and every unknown name answer with the mock report.
   */
  function CallAI(configs: Configs, provider: string, system: string, user: string, net: Json -> OpenAiReply): (r: Result<Json, string>)
    ensures !IsNamed(provider) ==> r == Ok(JStr(MockReport()))
    ensures IsNamed(provider) ==> (KeyMissing(ConfigOf(configs, provider)) <==> r == Err(KeyError(provider)))
    ensures IsNamed(provider) && provider != "openai" && !KeyMissing(ConfigOf(configs, provider)) ==>
      r == Ok(JStr(MockReport()))
    ensures provider == "openai" && !KeyMissing(ConfigOf(configs, provider)) ==>
      r == OpenAiResult(net(OpenAiRequest(ConfigOf(configs, provider), system, user)))
  {
    hide MockReport, KeyError, OpenAiResult, OpenAiRequest;
    if !IsNamed(provider) then Ok(JStr(MockReport()))
    else
      var config := ConfigOf(configs, provider);
      if KeyMissing(config) then Err(KeyError(provider))
      else if provider == "openai" then
        var r := OpenAiResult(net(OpenAiRequest(config, system, user)));
        OpenAiErrorsNamed(net(OpenAiRequest(config, system, user)));
        r
      else Ok(JStr(MockReport()))
  }

  /** No error of the OpenAI call reads like a missing key. */
  lemma OpenAiErrorsNamed(reply: OpenAiReply)
    ensures OpenAiResult(reply).Err? ==> OpenAiResult(reply).error != KeyError("openai")
  {
    var k := KeyError("openai");
    assert k[11] == 'k';
    match reply
    case CurlFailed(e) =>
      assert ("OpenAI API request failed: " + e)[11] == 'r';
    case HttpReply(code, body) =>
      if code != 200 {
        assert ("OpenAI API returned error code: " + IntToString(code))[11] == 'r';
      } else {
        assert "Invalid response from OpenAI API"[0] != k[0];
      }
  }

  /** Only OpenAI ever consults the network. */
  lemma OnlyOpenAiUsesNetwork(configs: Configs, provider: string, system: string, user: string,
                              net1: Json -> OpenAiReply, net2: Json -> OpenAiReply)
    requires provider != "openai"
    ensures CallAI(configs, provider, system, user, net1) == CallAI(configs, provider, system, user, net2)
  {
    hide CallAI, MockReport, KeyError;
  }

  // ---------------------------------------------------------------- parseReportSections

  /** PCRE's \s without the u flag: space, \t, \n, \v, \f, \r. */
  predicate IsPcreSpace(c: char) {
    c == ' ' || c == '\t' || c == '\n' || c == '\r' || c as int == 11 || c as int == 12
  }

  function DropPcreSpace(s: string): (r: string)
    ensures |r| <= |s| && r == s[|s| - |r|..]
    ensures r != [] ==> !IsPcreSpace(r[0])
  {
    if s != [] && IsPcreSpace(s[0]) then DropPcreSpace(s[1..]) else s
  }

  /**
   * preg_match('/^##\s*(.+)$/', $line): the captured title of a heading line. `\s*` takes all
   * the white space after "##" unless that leaves nothing for `.+`, in which case it gives the
   * last character back. A "###" line is a heading whose title starts with '#'.
   */
  function HeadingCapture(line: string): (r: Option<string>)
    ensures r.Some? ==> |line| > 2 && line[..2] == "##" && 0 < |r.value| <= |line| - 2 && r.value == line[|line| - |r.value|..]
    ensures |line| > 2 && line[..2] == "##" && !IsPcreSpace(line[2]) ==> r == Some(line[2..])
    ensures (|line| <= 2 || line[..2] != "##") ==> r.None?
  {
    if |line| < 2 || line[..2] != "##" then None
    else
      var rest := line[2..];
      var t := DropPcreSpace(rest);
      if t != [] then Some(t)
      else if rest != [] then Some(rest[|rest| - 1..])
      else None
  }

  /** The state of the walk: the sections so far, the open heading and its text. */
  datatype ParseState = ParseState(sections: seq<(string, string)>, current: string, buffer: string)

  const Start: ParseState := ParseState([], "", "")

  /** Save the open section, when both its heading and its text are non-empty in PHP's sense. */
  function Flush(st: ParseState): seq<(string, string)> {
    if !Falsy(st.current) && !Falsy(st.buffer) then Put(st.sections, st.current, Trim(st.buffer)) else st.sections
  }

  /** One line of the walk. */
  function ParseLine(st: ParseState, raw: string): ParseState {
    var line := Trim(raw);
    match HeadingCapture(line)
    case Some(title) => ParseState(Flush(st), Trim(title), "")
    case None => if !Falsy(st.current) then st.(buffer := st.buffer + line + "\n") else st
  }

  /** The walk over the lines so far. */
  function ParseLines(st: ParseState, lines: seq<string>): ParseState {
    if lines == [] then st else ParseLine(ParseLines(st, lines[..|lines| - 1]), lines[|lines| - 1])
  }

  /** parseReportSections as a function of the text. */
  function Sections(content: string): seq<(string, string)> {
    Flush(ParseLines(Start, Split(content, '\n')))
  }

  /** parseReportSections: the walk over the lines of the text, then the last section saved. */
  method ParseReportSections(content: string) returns (sections: seq<(string, string)>)
    ensures sections == Sections(content)
  {
    hide ParseLine, Put, Trim;
    var lines := Split(content, '\n');
    sections := [];
    var current := "";
    var buffer := "";
    var i := 0;
    while i < |lines|
      invariant 0 <= i <= |lines|
      invariant ParseState(sections, current, buffer) == ParseLines(Start, lines[..i])
    {
      assert lines[..i + 1][..i] == lines[..i];
      sections, current, buffer := ReadLine(sections, current, buffer, lines[i]);
      i := i + 1;
    }
    assert lines[..i] == lines;
    if !Falsy(current) && !Falsy(buffer) {
      sections := Put(sections, current, Trim(buffer));
    }
  }

  /** One turn of the foreach: a heading saves the open section and opens its own. */
  method ReadLine(sections: seq<(string, string)>, current: string, buffer: string, raw: string)
    returns (sections': seq<(string, string)>, current': string, buffer': string)
    ensures ParseState(sections', current', buffer') == ParseLine(ParseState(sections, current, buffer), raw)
  {
    sections', current', buffer' := sections, current, buffer;
    var line := Trim(raw);
    var title := HeadingCapture(line);
    if title.Some? {
      if !Falsy(current) && !Falsy(buffer) {
        sections' := Put(sections, current, Trim(buffer));
      }
      current' := Trim(title.value);
      buffer' := "";
    } else if !Falsy(current) {
      buffer' := buffer + line + "\n";
    }
  }

  /** The title a line opens, if it is a heading. */
  function TitleOf(raw: string): Option<string> {
    match HeadingCapture(Trim(raw))
    case Some(t) => Some(Trim(t))
    case None => None
  }

  /** Some line of the text opens a section with this title. */
  ghost predicate Titled(lines: seq<string>, title: string) {
    exists l :: 0 <= l < |lines| && TitleOf(lines[l]) == Some(title)
  }

  /** A stored section: a non-empty title that some line opens, and a trimmed text. */
  ghost predicate Stored(lines: seq<string>, e: (string, string)) {
    !Falsy(e.0) && Trim(e.1) == e.1 && Titled(lines, e.0)
  }

  /** What stays true along the walk. */
  ghost predicate Sound(st: ParseState, lines: seq<string>) {
    DistinctKeys(st.sections) &&
    (forall m :: 0 <= m < |st.sections| ==> Stored(lines, st.sections[m])) &&
    (st.current != "" ==> Titled(lines, st.current))
  }

  /** Storing a sound entry into sound sections keeps them sound. */
  lemma PutStored(kv: seq<(string, string)>, k: string, v: string, lines: seq<string>)
    requires forall m :: 0 <= m < |kv| ==> Stored(lines, kv[m])
    requires Stored(lines, (k, v))
    ensures forall m :: 0 <= m < |Put(kv, k, v)| ==> Stored(lines, Put(kv, k, v)[m])
  {
    PutMembers(kv, k, v);
    var f := Put(kv, k, v);
    hide Put, Stored;
    forall m | 0 <= m < |f|
      ensures Stored(lines, f[m])
    {
      if f[m] != (k, v) {
        var j :| 0 <= j < |kv| && kv[j] == f[m];
      }
    }
  }

  lemma FlushSound(st: ParseState, lines: seq<string>)
    requires Sound(st, lines)
    ensures DistinctKeys(Flush(st)) && forall m :: 0 <= m < |Flush(st)| ==> Stored(lines, Flush(st)[m])
  {
    if !Falsy(st.current) && !Falsy(st.buffer) {
      var v := Trim(st.buffer);
      TrimIdempotent(st.buffer);
      assert Stored(lines, (st.current, v));
      PutDistinct(st.sections, st.current, v);
      PutStored(st.sections, st.current, v, lines);
    }
  }

  /** A title some line opens is still opened once another line follows. */
  lemma TitledWiden(lines: seq<string>, t: string)
    requires lines != [] && Titled(lines[..|lines| - 1], t)
    ensures Titled(lines, t)
  {
    var l :| 0 <= l < |lines| - 1 && TitleOf(lines[..|lines| - 1][l]) == Some(t);
    assert lines[..|lines| - 1][l] == lines[l];
  }

  /** Sections sound for the lines so far stay sound once another line follows. */
  lemma StoredWiden(kv: seq<(string, string)>, lines: seq<string>)
    requires lines != [] && forall m :: 0 <= m < |kv| ==> Stored(lines[..|lines| - 1], kv[m])
    ensures forall m :: 0 <= m < |kv| ==> Stored(lines, kv[m])
  {
    forall m | 0 <= m < |kv|
      ensures Stored(lines, kv[m])
    {
      TitledWiden(lines, kv[m].0);
    }
  }

  /** A heading line saves the open section and opens its own title; any other line keeps both. */
  lemma ParseLineShape(st: ParseState, raw: string)
    ensures var st' := ParseLine(st, raw);
      (TitleOf(raw).Some? ==> st'.sections == Flush(st) && TitleOf(raw) == Some(st'.current)) &&
      (TitleOf(raw).None? ==> st'.sections == st.sections && st'.current == st.current)
  {
  }

  /** One more line keeps the walk sound. */
  lemma ParseLineSound(st: ParseState, lines: seq<string>)
    requires lines != [] && Sound(st, lines[..|lines| - 1])
    ensures Sound(ParseLine(st, lines[|lines| - 1]), lines)
  {
    var init := lines[..|lines| - 1];
    var raw := lines[|lines| - 1];
    var st' := ParseLine(st, raw);
    ParseLineShape(st, raw);
    FlushSound(st, init);
    hide ParseLine, Flush, TitleOf;
    StoredWiden(st'.sections, lines);
    if TitleOf(raw).Some? {
      assert Titled(lines, st'.current) by {
        assert TitleOf(lines[|lines| - 1]) == Some(st'.current);
      }
    } else if st.current != "" {
      TitledWiden(lines, st.current);
    }
  }

  lemma {:induction false} ParseLinesSound(lines: seq<string>)
    ensures Sound(ParseLines(Start, lines), lines)
  {
    if lines != [] {
      var init := lines[..|lines| - 1];
      assert ParseLines(Start, lines) == ParseLine(ParseLines(Start, init), lines[|lines| - 1]);
      hide ParseLine, ParseLines, Sound;
      ParseLinesSound(init);
      ParseLineSound(ParseLines(Start, init), lines);
    }
  }

  /**
   * Every key of the parsed sections is the trimmed title of a heading line of the text, and is
   * neither "" nor "0"; keys are distinct, so a repeated heading overwrote the earlier text; every
   * value is trimmed.
   */
  lemma SectionsSound(content: string)
    ensures DistinctKeys(Sections(content))
    ensures forall m :: 0 <= m < |Sections(content)| ==> Stored(Split(content, '\n'), Sections(content)[m])
  {
    var lines := Split(content, '\n');
    ParseLinesSound(lines);
    FlushSound(ParseLines(Start, lines), lines);
  }

  lemma {:induction false} ParseLinesAppend(st: ParseState, a: seq<string>, b: seq<string>)
    ensures ParseLines(st, a + b) == ParseLines(ParseLines(st, a), b)
    decreases |b|
  {
    hide ParseLine;
    if b == [] {
      assert a + b == a;
    } else {
      ParseLinesAppend(st, a, b[..|b| - 1]);
      assert (a + b)[..|a + b| - 1] == a + b[..|b| - 1];
    }
  }

  lemma {:induction false} PreambleSkipped(pre: seq<string>)
    requires forall l :: 0 <= l < |pre| ==> TitleOf(pre[l]).None?
    ensures ParseLines(Start, pre) == Start
  {
    if pre != [] {
      PreambleSkipped(pre[..|pre| - 1]);
      assert TitleOf(pre[|pre| - 1]).None?;
    }
  }

  /** Lines before the first heading are ignored. */
  lemma PreambleIgnored(pre: seq<string>, rest: seq<string>)
    requires forall l :: 0 <= l < |pre| ==> TitleOf(pre[l]).None?
    ensures ParseLines(Start, pre + rest) == ParseLines(Start, rest)
  {
    ParseLinesAppend(Start, pre, rest);
    PreambleSkipped(pre);
  }

  // ---------------------------------------------------------------- extractKeyInsights

  /** substr($content, 0, 100) . '...': the first 100 bytes, which may cut a character. */
  function Insight(content: string): (r: seq<byte>)
    ensures |r| <= 103
  {
    Take(Utf8Encode(content), 100) + [46, 46, 46]
  }

  /** The insight of every section longer than 50 bytes, in section order. */
  function InsightPool(sections: seq<(string, string)>): seq<seq<byte>> {
    if sections == [] then []
    else
      var last := sections[|sections| - 1].1;
      InsightPool(sections[..|sections| - 1]) + (if Utf8Length(last) > 50 then [Insight(last)] else [])
  }

  method ExtractKeyInsights(sections: seq<(string, string)>) returns (insights: seq<seq<byte>>)
    ensures insights == Take(InsightPool(sections), 3)
  {
    var all: seq<seq<byte>> := [];
    var i := 0;
    while i < |sections|
      invariant 0 <= i <= |sections|
      invariant all == InsightPool(sections[..i])
    {
      assert sections[..i + 1][..i] == sections[..i];
      if Utf8Length(sections[i].1) > 50 {
        all := all + [Insight(sections[i].1)];
      }
      i := i + 1;
    }
    assert sections[..i] == sections;
    insights := Take(all, 3);
  }

  /** The pool of a concatenation is the concatenation of the pools: insights keep section order. */
  lemma {:induction false} InsightPoolAppend(a: seq<(string, string)>, b: seq<(string, string)>)
    ensures InsightPool(a + b) == InsightPool(a) + InsightPool(b)
    decreases |b|
  {
    if b == [] {
      assert a + b == a;
    } else {
      InsightPoolAppend(a, b[..|b| - 1]);
      assert (a + b)[..|a + b| - 1] == a + b[..|b| - 1];
    }
  }

  /** At most three insights, each the cut text of a section longer than 50 bytes. */
  lemma {:induction false} InsightsBounded(sections: seq<(string, string)>)
    ensures var r := Take(InsightPool(sections), 3);
      |r| <= 3 && forall k :: 0 <= k < |r| ==> |r[k]| <= 103 && InsightFrom(sections, r[k])
  {
    PoolMembers(sections);
  }

  lemma {:induction false} PoolMembers(sections: seq<(string, string)>)
    ensures forall k :: 0 <= k < |InsightPool(sections)| ==> InsightFrom(sections, InsightPool(sections)[k])
  {
    if sections != [] {
      var n := |sections| - 1;
      var init := sections[..n];
      PoolMembers(init);
      forall k | 0 <= k < |InsightPool(sections)|
        ensures InsightFrom(sections, InsightPool(sections)[k])
      {
        if k < |InsightPool(init)| {
          var m :| 0 <= m < |init| && Utf8Length(init[m].1) > 50 && InsightPool(init)[k] == Insight(init[m].1);
          assert init[m] == sections[m];
        } else {
          assert Utf8Length(sections[n].1) > 50 && InsightPool(sections)[k] == Insight(sections[n].1);
        }
      }
    }
  }

  /** The insight is the cut text of a section longer than 50 bytes. */
  predicate InsightFrom(sections: seq<(string, string)>, insight: seq<byte>) {
    exists m :: 0 <= m < |sections| && Utf8Length(sections[m].1) > 50 && insight == Insight(sections[m].1)
  }

  // ---------------------------------------------------------------- formatReport and generateReport

  /** The nine content keys and the headings they are read from. */
  const ContentSections: seq<(string, string)> := [
    ("market_analysis", "市场环境分析"), ("competitor_research", "竞争对手研究"), ("user_persona", "目标用户画像"),
    ("business_model", "商业模式设计"), ("risk_assessment", "风险评估分析"), ("financial_forecast", "财务预测建模"),
    ("marketing_strategy", "营销策略制定"), ("implementation_plan", "实施计划规划"), ("conclusion", "结论与建议")]

  datatype Report = Report(
    businessIdea: string,
    industry: string,
    summary: string,
    keyInsights: seq<seq<byte>>,
    content: seq<(string, string)>)

  /** formatReport: the summary, the insights and the nine content keys, '' for a missing section. */
  function FormatReport(response: string, idea: string, industry: string): (r: Report)
    ensures var s := Sections(response);
      r.businessIdea == idea && r.industry == industry &&
      r.summary == Find(s, "执行摘要").GetOr("报告摘要生成中...") &&
      r.keyInsights == Take(InsightPool(s), 3) &&
      |r.content| == 9 &&
      forall k :: 0 <= k < 9 ==>
        r.content[k].0 == ContentSections[k].0 && r.content[k].1 == Find(s, ContentSections[k].1).GetOr("")
  {
    var s := Sections(response);
    Report(idea, industry, Find(s, "执行摘要").GetOr("报告摘要生成中..."), Take(InsightPool(s), 3),
           seq(9, k requires 0 <= k < 9 => (ContentSections[k].0, Find(s, ContentSections[k].1).GetOr(""))))
  }

  const ExplodeTypeError: string := "explode(): Argument #2 ($string) must be of type string, array given"

  /** What generateReport makes of what callAI returned: a thrown error, or the formatted text. */
  function ReportFrom(c: Result<Json, string>, idea: string, industry: string): (r: Result<Report, string>)
    ensures c.Err? ==> r == Err(c.error)
    ensures c.Ok? && IsArray(c.value) ==> r == Err(ExplodeTypeError)
    ensures c.Ok? && !IsArray(c.value) ==> r == Ok(FormatReport(Interpolate(c.value), idea, industry))
  {
    match c
    case Err(e) => Err(e)
    case Ok(content) =>
      match AsText(content)
      case None => Err(ExplodeTypeError)
      case Some(text) => Ok(FormatReport(text, idea, industry))
  }

  /** generateReport: prompts, provider, call, then the formatted report; a throw becomes Err. */
  function GenerateReport(configs: Configs, idea: string, industry: string, depth: string, areas: seq<string>,
                          net: Json -> OpenAiReply): Result<Report, string> {
    ReportFrom(CallAI(configs, SelectBestProvider(configs, depth), SystemPrompt(depth, areas),
                      UserPrompt(idea, industry, areas), net), idea, industry)
  }

  /** With no provider configured at all, the report is formatted from the mock text. */
  lemma UnconfiguredUsesMock(idea: string, industry: string, depth: string, areas: seq<string>, net: Json -> OpenAiReply)
    ensures GenerateReport([], idea, industry, depth, areas, net) == Ok(FormatReport(MockReport(), idea, industry))
  {
    hide MockReport, FormatReport, SystemPrompt, UserPrompt, CallAI;
    assert SelectBestProvider([], depth) == "mock";
  }

  // ---------------------------------------------------------------- testProvider

  datatype TestResult = TestResult(success: bool, provider: string, response: seq<byte>, error: string)

  /** The outcome of testProvider: the reported result, or an error its catch does not take. */
  datatype TestOutcome = Reported(result: TestResult) | Uncaught(error: string)

  const TestSystem: string := "你是一个测试助手。"
  const TestPrompt: string := "请回答：这是一个API连接测试。"
  const SubstrTypeError: string := "substr(): Argument #1 ($string) must be of type string, array given"

  /**
   * What testProvider makes of what callAI returned: `catch (Exception $e)` takes the Exceptions
   * callAI throws, but the TypeError substr() raises on array content is an Error and escapes.
   */
  function Outcome(provider: string, c: Result<Json, string>): (r: TestOutcome)
    ensures c.Err? ==> r == Reported(TestResult(false, provider, [], c.error))
    ensures c.Ok? && !IsArray(c.value) ==>
      r == Reported(TestResult(true, provider, Take(Utf8Encode(Interpolate(c.value)), 100), ""))
    ensures r.Uncaught? <==> c.Ok? && IsArray(c.value)
  {
    match c
    case Err(e) => Reported(TestResult(false, provider, [], e))
    case Ok(v) =>
      match AsText(v)
      case None => Uncaught(SubstrTypeError)
      case Some(text) => Reported(TestResult(true, provider, Take(Utf8Encode(text), 100), ""))
  }

  /** testProvider as written: callAI with a fixed test prompt, judged by Outcome. */
  function TestProvider(configs: Configs, provider: string, net: Json -> OpenAiReply): TestOutcome {
    Outcome(provider, CallAI(configs, provider, TestSystem, TestPrompt, net))
  }

  /** An OpenAI reply whose content is a list makes testProvider throw. */
  lemma TestProviderCanThrow()
    ensures var configs := [("openai", JObject([("api_key", JStr("k"))]))];
      var body := JObject([("choices", JList([JObject([("message", JObject([("content", JList([JInt(1)]))]))])]))]);
      TestProvider(configs, "openai", (req: Json) => HttpReply(200, body)).Uncaught?
  {
    hide MockReport, KeyError, TestSystem, TestPrompt, OpenAiRequest;
    var configs := [("openai", JObject([("api_key", JStr("k"))]))];
    var body := JObject([("choices", JList([JObject([("message", JObject([("content", JList([JInt(1)]))]))])]))]);
    var content := JList([JInt(1)]);
    var message := JObject([("content", content)]);
    var choice := JObject([("message", message)]);
    assert Lookup(content, []) == Some(content);
    LookupKey(message.fields, "content", content, []);
    LookupKey(choice.fields, "message", message, [Key("content")]);
    LookupAt([choice], 0, [Key("message"), Key("content")]);
    LookupKey(body.fields, "choices", JList([choice]), [At(0), Key("message"), Key("content")]);
    assert [Key("content")] + [] == [Key("content")];
    assert [Key("message")] + [Key("content")] == [Key("message"), Key("content")];
    assert [At(0)] + [Key("message"), Key("content")] == [At(0), Key("message"), Key("content")];
    assert [Key("choices")] + [At(0), Key("message"), Key("content")] == [Key("choices"), At(0), Key("message"), Key("content")];
    assert Get(configs, "openai") == Some(JObject([("api_key", JStr("k"))]));
    LookupKey([("api_key", JStr("k"))], "api_key", JStr("k"), []);
    assert [Key("api_key")] + [] == [Key("api_key")];
  }

  /** What testProvider with a catch that also takes errors makes of what callAI returned. */
  function CaughtResult(provider: string, c: Result<Json, string>): (r: TestResult)
    ensures r.provider == provider
    ensures r.success <==> c.Ok? && !IsArray(c.value)
    ensures c.Err? ==> r.error == c.error
    ensures c.Ok? && IsArray(c.value) ==> r.error == SubstrTypeError
  {
    match Outcome(provider, c)
    case Reported(t) => t
    case Uncaught(e) => TestResult(false, provider, [], e)
  }

  /** testProvider with a catch that also takes errors: it never throws. */
  function TestProviderCatchingAll(configs: Configs, provider: string, net: Json -> OpenAiReply): TestResult {
    CaughtResult(provider, CallAI(configs, provider, TestSystem, TestPrompt, net))
  }

  /** The corrected test reports exactly what the one as written reports, and a failure otherwise. */
  lemma CatchingAllAgrees(provider: string, c: Result<Json, string>)
    ensures Outcome(provider, c).Reported? ==> CaughtResult(provider, c) == Outcome(provider, c).result
    ensures Outcome(provider, c).Uncaught? ==>
      !CaughtResult(provider, c).success && CaughtResult(provider, c).error == Outcome(provider, c).error
  {
  }
}

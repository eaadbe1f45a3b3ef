/**
 * The enhanced AI service: an ordered chain of providers, each tried up to three times with
 * exponential back-off, classified retries, a rate-limit pause, and a mock provider that answers
 * without the network. The network, the clock and the random jitter are parameters.
 */
module Invoker {
  import opened Wrappers
  import opened Text
  import opened Json

  const MaxRetries: nat := 3
  const BaseDelayMs: int := 1000
  const MaxDelayMs: int := 32000
  const DefaultTimeoutSec: int := 45
  const ConnectTimeoutSec: int := 10
  const DefaultMaxTokens: int := 1500

  /** One entry of the provider configuration, in configuration order. */
  datatype Provider = Provider(
    id: string,
    kind: Option<string>,
    apiKey: Option<string>,
    endpoint: Option<string>,
    model: Option<string>,
    extraHeaders: seq<string>)

  datatype Message = Message(role: string, content: string)

  /** The option keys the service reads (temperature and top_p are floats and are not modelled). */
  datatype Options = Options(
    model: Option<string>,
    system: Option<string>,
    systemPrompt: Option<string>,
    messages: Option<seq<Message>>,
    maxTokens: Option<int>,
    timeout: Option<int>)

  /** The request body, by provider type. */
  datatype Body =
    | ClaudeBody(model: string, maxTokens: int, messages: seq<Message>)
    | QwenBody(model: string, messages: seq<Message>)
    | GenericBody(model: string, messages: seq<Message>, maxTokens: int)

  datatype HttpRequest = HttpRequest(
    url: Option<string>, headers: seq<string>, body: Body, timeoutSec: int, connectTimeoutSec: int)

  /**
   * What one curl transfer gave: a transport failure with curl's error text and the status code
   * seen (0 if none), or a reply with its status, body, the value json_decode gives for the body,
   * and the raw header lines curl handed to the header callback.
   */
  datatype Wire =
    | CurlFailure(error: string, httpCode: int)
    | HttpReply(status: int, body: string, json: Json, headerLines: seq<string>)

  /** An exception: its code, its message and the retry-after seconds attached to it (0 if none). */
  datatype ApiError = ApiError(code: int, message: string, retryAfter: int)

  datatype AiResponse = AiResponse(content: Json, provider: string, raw: Json)

  /** Type of rand(0, 1000). */
  type Jitter = x: int | 0 <= x <= 1000

  /** What the caller's world supplies: the prompt and options, md5 of the prompt in hex, and the
   *  curl result and random jitter for each (provider index, attempt). */
  datatype Env = Env(
    prompt: string,
    options: Options,
    md5Hex: string,
    net: (nat, nat) -> Wire,
    jitter: (nat, nat) -> Jitter)

  /** The observable effects of one run: sleeps and calls, in order. A call without a request is
   *  the mock path, which does not touch the network. */
  datatype Event =
    | Backoff(provider: nat, attempt: nat, ms: int)
    | Call(provider: nat, attempt: nat, request: Option<HttpRequest>)
    | RateLimitPause(provider: nat, seconds: int)

  // ---------------------------------------------------------------- configuration

  /** `getenv($name) ?: ''` as the key of a default provider. */
  function EnvKey(v: Option<string>): (k: Option<string>)
    ensures k.Some?
    ensures Falsy(k.value) <==> v.None? || Falsy(v.value)
  {
    if v.Some? && !Falsy(v.value) then v else Some("")
  }

  function DefaultProviders(claudeKey: Option<string>, qwenKey: Option<string>): seq<Provider> {
    [ Provider("primary", Some("claude"), EnvKey(claudeKey), Some("https://api.anthropic.com/v1/messages"),
               Some("claude-3-sonnet-20240229"), []),
      Provider("fallback", Some("qwen"), EnvKey(qwenKey),
               Some("https://dashscope.aliyuncs.com/api/v1/services/aigc/text-generation/generation"),
               Some("qwen-plus"), []),
      Provider("backup", Some("mock"), None, None, Some("mock-strategy-analyst"), []) ]
  }

  /** The constructor's choice: a non-empty configuration replaces the three defaults. */
  function Configure(given: seq<Provider>, claudeKey: Option<string>, qwenKey: Option<string>): (ps: seq<Provider>)
    ensures |ps| >= 1
    ensures given != [] ==> ps == given
    ensures given == [] ==> |ps| == 3 && ps[2].kind == Some("mock")
    ensures given == [] ==> ps[0].kind == Some("claude") && ps[1].kind == Some("qwen")
    ensures given == [] ==> ps[0].apiKey == EnvKey(claudeKey) && ps[1].apiKey == EnvKey(qwenKey)
  {
    if given != [] then given else DefaultProviders(claudeKey, qwenKey)
  }

  // ---------------------------------------------------------------- back-off and retry policy

  function Pow2(n: nat): (p: nat)
    ensures p >= 1
  {
    if n == 0 then 1 else 2 * Pow2(n - 1)
  }

  lemma {:induction false} Pow2Monotone(m: nat, n: nat)
    requires m <= n
    ensures Pow2(m) <= Pow2(n)
    decreases n
  {
    if m < n {
      Pow2Monotone(m, n - 1);
    }
  }

  /** calculateDelay: the back-off in milliseconds before retry number `attempt`. */
  function Delay(attempt: nat, jitter: Jitter): int
    requires attempt >= 1
  {
    var raw := BaseDelayMs * Pow2(attempt - 1) + jitter;
    var capped := if raw < MaxDelayMs then raw else MaxDelayMs;
    if capped < BaseDelayMs then BaseDelayMs else capped
  }

  /** Every back-off lies between one and thirty-two seconds and is the doubled base plus jitter,
   *  capped at the maximum. */
  lemma DelayBounds(attempt: nat, jitter: Jitter)
    requires attempt >= 1
    ensures BaseDelayMs <= Delay(attempt, jitter) <= MaxDelayMs
    ensures Delay(attempt, jitter) ==
            if BaseDelayMs * Pow2(attempt - 1) + jitter < MaxDelayMs
            then BaseDelayMs * Pow2(attempt - 1) + jitter else MaxDelayMs
  {
  }

  /** Back-offs never shrink from one retry to the next, whatever the two jitters were. */
  lemma DelayNonDecreasing(attempt: nat, j1: Jitter, j2: Jitter)
    requires attempt >= 1
    ensures Delay(attempt, j1) <= Delay(attempt + 1, j2)
  {
    assert Pow2(attempt) == 2 * Pow2(attempt - 1);
  }

  /** With three attempts the two back-offs are 1–2 s and 2–3 s: the cap never applies. */
  lemma DelaysWithinThreeAttempts(j: Jitter)
    ensures 1000 <= Delay(1, j) <= 2000
    ensures 2000 <= Delay(2, j) <= 3000
  {
    assert Pow2(1) == 2;
  }

  /** The rate-limit pause in seconds that handleSpecificError takes for a 429 carrying
   *  retry-after. */
  function PauseFor(e: ApiError): (p: Option<int>)
    ensures p.Some? <==> e.code == 429 && e.retryAfter > 0
    ensures p.Some? ==> p.value == e.retryAfter
  {
    if e.code == 429 && e.retryAfter > 0 then Some(e.retryAfter) else None
  }

  /** handleSpecificError: whether the same provider is tried again after a failed attempt. */
  function ShouldRetry(e: ApiError, attempt: nat): bool {
    if e.code == 429 && e.retryAfter > 0 then true
    else if e.code == 503 then attempt < MaxRetries - 1
    else if ContainsIgnoreCase(e.message, "timeout") then attempt < 2
    else if 400 <= e.code < 500 then false
    else attempt < MaxRetries - 1
  }

  /** The policy in one line: a rate limit with retry-after always retries; otherwise an error is
   *  retried before the last attempt unless it is a client error (4xx) whose message does not
   *  mention a timeout. */
  lemma ShouldRetryCharacterized(e: ApiError, attempt: nat)
    ensures ShouldRetry(e, attempt) <==>
            (e.code == 429 && e.retryAfter > 0) ||
            (attempt < 2 && (e.code == 503 || ContainsIgnoreCase(e.message, "timeout") || !(400 <= e.code < 500)))
  {
  }

  // ---------------------------------------------------------------- one call

  /** `empty($provider['api_key'])`. */
  predicate EmptyKey(k: Option<string>) {
    k.None? || Falsy(k.value)
  }

  /** The configuration takes the mock path: no network call is made for it. */
  predicate IsMockPath(p: Provider) {
    p.kind == Some("mock") || EmptyKey(p.apiKey)
  }

  function MockStrategy(): string {
    "### 市场洞察\n从目标区域和用户需求角度出发，建立差异化定位，并建议组合线上线下渠道以快速获得市场验证。"
    + "\n\n" + "### 竞争态势\n采用SWOT视角列举关键对手，针对其优势提出可落地的防御与突围方案。"
    + "\n\n" + "### 商业模式\n构建订阅制与增值服务双轮驱动的收益结构，并设计分阶段的成本控制要点。"
    + "\n\n" + "### 增长策略\n以MVP试点、合作生态与社区裂变三步走，形成低成本高效率的用户增长路径。"
  }

  const MockBanner: string := "【模拟AI响应】\n"

  /** generateMockResponse: a fixed strategy text tagged with the first eight hex digits of md5. */
  function MockResponse(md5Hex: string): (r: AiResponse)
    ensures r.provider == "mock"
    ensures r.content.JStr? && |r.content.s| >= |MockBanner| && r.content.s[..|MockBanner|] == MockBanner
    ensures r.raw == JObject([("mock", JBool(true))])
  {
    var text := MockBanner + "根据提供的商业构想（摘要ID: " + Take(md5Hex, 8) + "），系统生成了战略分析内容。"
                + "\n\n" + MockStrategy();
    assert text[..|MockBanner|] == MockBanner;
    AiResponse(JStr(text), "mock", JObject([("mock", JBool(true))]))
  }

  function BuildHeaders(p: Provider): (hs: seq<string>)
    ensures |hs| == (if p.kind == Some("claude") then 3 else 2) + |p.extraHeaders|
    ensures hs[0] == "Content-Type: application/json"
    ensures hs[|hs| - |p.extraHeaders|..] == p.extraHeaders
    ensures p.kind == Some("claude") ==> |hs| >= 3 && hs[1] == "x-api-key: " + p.apiKey.GetOr("") && hs[2] == "anthropic-version: 2023-06-01"
    ensures p.kind != Some("claude") ==> hs[1] == "Authorization: Bearer " + p.apiKey.GetOr("")
  {
    var kind := p.kind.GetOr("generic");
    var auth :=
      if kind == "claude" then ["x-api-key: " + p.apiKey.GetOr(""), "anthropic-version: 2023-06-01"]
      else ["Authorization: Bearer " + p.apiKey.GetOr("")];
    ["Content-Type: application/json"] + auth + p.extraHeaders
  }

  /** `$s ?: $default` on a string. */
  function OrDefault(s: string, default: string): (r: string)
    ensures Falsy(s) ==> r == default
    ensures !Falsy(s) ==> r == s
  {
    if Falsy(s) then default else s
  }

  /** The messages sent: the caller's or a single user message, behind a system message when the
   *  system prompt is truthy. */
  function RequestMessages(prompt: string, o: Options): (ms: seq<Message>)
    ensures var base := if o.messages.Some? then o.messages.value else [Message("user", prompt)];
            var sys := OrElse(o.system, o.systemPrompt).GetOr("");
            (Falsy(sys) ==> ms == base) && (!Falsy(sys) ==> ms == [Message("system", sys)] + base)
  {
    var base := if o.messages.Some? then o.messages.value else [Message("user", prompt)];
    var sys := OrElse(o.system, o.systemPrompt).GetOr("");
    if !Falsy(sys) then [Message("system", sys)] + base else base
  }

  /** The model a provider type falls back to when neither the options nor the provider name one. */
  function TypeDefaultModel(kind: Option<string>): string {
    if kind == Some("claude") then "claude-3-sonnet-20240229"
    else if kind == Some("qwen") then "qwen-plus"
    else "gpt-4o-mini"
  }

  /**
   * buildRequestBody: the body for the provider's type. The model is `$options['model'] ??
   * ($provider['model'] ?? '')` and then `?:` the type's default, so an options model that is
   * present but falsy skips the provider's model; the token limit defaults to 1500.
   */
  function BuildBody(p: Provider, prompt: string, o: Options): (b: Body)
    ensures p.kind == Some("claude") <==> b.ClaudeBody?
    ensures p.kind == Some("qwen") <==> b.QwenBody?
    ensures o.model.Some? && !Falsy(o.model.value) ==> b.model == o.model.value
    ensures o.model.Some? && Falsy(o.model.value) ==> b.model == TypeDefaultModel(p.kind)
    ensures o.model.None? && p.model.Some? && !Falsy(p.model.value) ==> b.model == p.model.value
    ensures o.model.None? && (p.model.None? || Falsy(p.model.value)) ==> b.model == TypeDefaultModel(p.kind)
    ensures b.model != "" && b.model != "0"
    ensures !b.QwenBody? ==> b.maxTokens == o.maxTokens.GetOr(DefaultMaxTokens)
    ensures b.messages == RequestMessages(prompt, o)
  {
    var model := OrElse(o.model, p.model).GetOr("");
    var ms := RequestMessages(prompt, o);
    var kind := p.kind.GetOr("generic");
    if kind == "claude" then ClaudeBody(OrDefault(model, "claude-3-sonnet-20240229"), o.maxTokens.GetOr(DefaultMaxTokens), ms)
    else if kind == "qwen" then QwenBody(OrDefault(model, "qwen-plus"), ms)
    else GenericBody(OrDefault(model, "gpt-4o-mini"), ms, o.maxTokens.GetOr(DefaultMaxTokens))
  }

  /** A truthy model in the options replaces the model and nothing else in the body. */
  lemma OptionModelOverrides(p: Provider, prompt: string, o: Options, m: string)
    requires !Falsy(m)
    ensures BuildBody(p, prompt, o.(model := Some(m))) == BuildBody(p, prompt, o).(model := m)
  {
    hide RequestMessages;
  }

  function BuildRequest(p: Provider, prompt: string, o: Options): HttpRequest {
    HttpRequest(p.endpoint, BuildHeaders(p), BuildBody(p, prompt, o), o.timeout.GetOr(DefaultTimeoutSec), ConnectTimeoutSec)
  }

  /** The header callback's effect on the header map, for one line: `Name: value` is stored under
   *  the lower-cased, trimmed name; a line without a colon is ignored. */
  function AddHeader(m: map<string, string>, line: string): (r: map<string, string>)
    ensures ':' !in line ==> r == m
  {
    match SplitFirst(line, ':')
    case NoPair => m
    case Pair(name, value) => m[Lower(Trim(name)) := Trim(value)]
  }

  /** The response headers collected over all lines; a repeated header keeps its last value. */
  function HeaderMap(lines: seq<string>): map<string, string> {
    if lines == [] then map[] else AddHeader(HeaderMap(lines[..|lines| - 1]), lines[|lines| - 1])
  }

  /** A header line keeps everything after its first colon, so a date's own colons survive. */
  lemma HeaderValueKeepsColons(m: map<string, string>, name: string, value: string)
    requires ':' !in name
    ensures AddHeader(m, name + ":" + value) == m[Lower(Trim(name)) := Trim(value)]
  {
    SplitFirstAt(name, ':', value);
    assert name + ":" + value == name + [':'] + value;
  }

  /** The retry-after attached to an HTTP error: `(int)` of the header when it is not empty. */
  function RetryAfter(headers: map<string, string>): int {
    if "retry-after" in headers && !Falsy(headers["retry-after"]) then IntCast(headers["retry-after"]) else 0
  }

  /** A delay-seconds retry-after is read as that number; the HTTP-date form reads as 0. */
  lemma RetryAfterForms(headers: map<string, string>, n: nat, date: string)
    ensures RetryAfter(headers["retry-after" := NatToString(n)]) == n
    ensures date != [] && IsAsciiLetter(date[0]) ==> RetryAfter(headers["retry-after" := date]) == 0
  {
    IntCastOfIntToString(n);
    if date != [] && IsAsciiLetter(date[0]) {
      IntCastOfWord(date);
    }
  }

  /** Where each provider type keeps its text: `content[0].text` for Claude, `output.text` and then
   *  `output.choices[0].message.content` for Qwen, `choices[0].message.content` and then `content`
   *  for any other type. */
  const ClaudeTextPath: seq<Step> := [Key("content"), At(0), Key("text")]
  const QwenTextPath: seq<Step> := [Key("output"), Key("text")]
  const QwenChoicePath: seq<Step> := [Key("output"), Key("choices"), At(0), Key("message"), Key("content")]
  const ChoicePath: seq<Step> := [Key("choices"), At(0), Key("message"), Key("content")]

  const InvalidJson: string := "Invalid JSON response from AI provider"

  /** parseResponse: the content at the provider type's paths, the first present one winning and
   *  empty text when none is, or an error when the body did not decode to an array. */
  function ParseResponse(p: Provider, data: Json): (r: Result<AiResponse, ApiError>)
    ensures r.Err? <==> !IsArray(data)
    ensures r.Err? ==> r.error == ApiError(0, InvalidJson, 0)
    ensures r.Ok? ==> r.value.raw == data && r.value.provider == p.kind.GetOr("generic")
    ensures r.Ok? && p.kind == Some("claude") ==>
      r.value.content == Coalesce(Lookup(data, ClaudeTextPath), JStr(""))
    ensures r.Ok? && p.kind == Some("qwen") ==>
      r.value.content == Coalesce(Lookup(data, QwenTextPath), Coalesce(Lookup(data, QwenChoicePath), JStr("")))
    ensures r.Ok? && p.kind != Some("claude") && p.kind != Some("qwen") ==>
      r.value.content == Coalesce(Lookup(data, ChoicePath), Coalesce(Lookup(data, [Key("content")]), JStr("")))
  {
    if !IsArray(data) then Err(ApiError(0, InvalidJson, 0))
    else
      var kind := p.kind.GetOr("generic");
      var content :=
        match kind
        case "claude" => Coalesce(Lookup(data, ClaudeTextPath), JStr(""))
        case "qwen" => Coalesce(Lookup(data, QwenTextPath), Coalesce(Lookup(data, QwenChoicePath), JStr("")))
        case _ => Coalesce(Lookup(data, ChoicePath), Coalesce(Lookup(data, [Key("content")]), JStr("")));
      Ok(AiResponse(content, kind, data))
  }

  /** A Claude reply's first text block is its content. */
  lemma ClaudeContent(p: Provider, text: string, rest: seq<Json>, others: seq<(string, Json)>)
    requires p.kind == Some("claude")
    ensures var data := JObject([("content", JList([JObject([("text", JStr(text))])] + rest))] + others);
            ParseResponse(p, data) == Ok(AiResponse(JStr(text), "claude", data))
  {
    var block := JObject([("text", JStr(text))]);
    var blocks := JList([block] + rest);
    var data := JObject([("content", blocks)] + others);
    LookupKey(data.fields, "content", blocks, [At(0), Key("text")]);
    LookupAt([block] + rest, 0, [Key("text")]);
    LookupKey(block.fields, "text", JStr(text), []);
  }

  /** A Claude reply without the content field parses to empty content rather than an error. */
  lemma MissingContentIsEmpty(p: Provider, data: Json)
    requires p.kind == Some("claude") && IsArray(data)
    requires Lookup(data, [Key("content")]).None?
    ensures ParseResponse(p, data) == Ok(AiResponse(JStr(""), "claude", data))
  {
    assert Lookup(data, ClaudeTextPath).None? by {
      LookupNone(data, "content", [At(0), Key("text")]);
    }
  }

  /** A missing field makes every path through it absent. */
  lemma LookupNone(data: Json, k: string, rest: seq<Step>)
    requires Lookup(data, [Key(k)]).None?
    ensures Lookup(data, [Key(k)] + rest).None?
  {
    assert ([Key(k)] + rest)[1..] == rest;
    assert [Key(k)][1..] == [];
  }

  /** A Qwen reply's `output.text` is its content, whatever else the output holds. */
  lemma QwenOutputText(p: Provider, text: string, more: seq<(string, Json)>, others: seq<(string, Json)>)
    requires p.kind == Some("qwen")
    ensures var data := JObject([("output", JObject([("text", JStr(text))] + more))] + others);
            ParseResponse(p, data) == Ok(AiResponse(JStr(text), "qwen", data))
  {
    var output := JObject([("text", JStr(text))] + more);
    var data := JObject([("output", output)] + others);
    LookupKey(data.fields, "output", output, [Key("text")]);
    LookupKey(output.fields, "text", JStr(text), []);
  }

  /** Without `output.text`, a Qwen reply falls back to its first choice's message content. */
  lemma QwenChoiceContent(p: Provider, text: string, rest: seq<Json>, others: seq<(string, Json)>)
    requires p.kind == Some("qwen")
    ensures var choice := JObject([("message", JObject([("content", JStr(text))]))]);
            var data := JObject([("output", JObject([("choices", JList([choice] + rest))]))] + others);
            ParseResponse(p, data) == Ok(AiResponse(JStr(text), "qwen", data))
  {
    var message := JObject([("content", JStr(text))]);
    var choice := JObject([("message", message)]);
    var choices := JList([choice] + rest);
    var output := JObject([("choices", choices)]);
    var data := JObject([("output", output)] + others);
    LookupKey(data.fields, "output", output, [Key("text")]);
    LookupNone(output, "text", []);
    LookupKey(data.fields, "output", output, QwenChoicePath[1..]);
    LookupKey(output.fields, "choices", choices, [At(0), Key("message"), Key("content")]);
    LookupAt([choice] + rest, 0, [Key("message"), Key("content")]);
    LookupKey(choice.fields, "message", message, [Key("content")]);
    LookupKey(message.fields, "content", JStr(text), []);
  }

  /** A Qwen reply without an output field parses to empty content. */
  lemma QwenMissingIsEmpty(p: Provider, data: Json)
    requires p.kind == Some("qwen") && IsArray(data)
    requires Lookup(data, [Key("output")]).None?
    ensures ParseResponse(p, data) == Ok(AiResponse(JStr(""), "qwen", data))
  {
    LookupNone(data, "output", QwenTextPath[1..]);
    LookupNone(data, "output", QwenChoicePath[1..]);
  }

  /** Any other type reads the first choice's message content. */
  lemma ChoiceContent(p: Provider, text: string, rest: seq<Json>, others: seq<(string, Json)>)
    requires p.kind != Some("claude") && p.kind != Some("qwen")
    ensures var choice := JObject([("message", JObject([("content", JStr(text))]))]);
            var data := JObject([("choices", JList([choice] + rest))] + others);
            ParseResponse(p, data) == Ok(AiResponse(JStr(text), p.kind.GetOr("generic"), data))
  {
    var message := JObject([("content", JStr(text))]);
    var choice := JObject([("message", message)]);
    var choices := JList([choice] + rest);
    var data := JObject([("choices", choices)] + others);
    LookupKey(data.fields, "choices", choices, [At(0), Key("message"), Key("content")]);
    LookupAt([choice] + rest, 0, [Key("message"), Key("content")]);
    LookupKey(choice.fields, "message", message, [Key("content")]);
    LookupKey(message.fields, "content", JStr(text), []);
  }

  /** Without choices, any other type falls back to a top-level `content` field. */
  lemma TopLevelContent(p: Provider, v: Json, others: seq<(string, Json)>)
    requires p.kind != Some("claude") && p.kind != Some("qwen") && !v.JNull?
    ensures var data := JObject([("content", v)] + others);
            Lookup(data, [Key("choices")]).None? ==> ParseResponse(p, data) == Ok(AiResponse(v, p.kind.GetOr("generic"), data))
  {
    var data := JObject([("content", v)] + others);
    LookupKey(data.fields, "content", v, []);
    assert [Key("content")] + [] == [Key("content")];
    if Lookup(data, [Key("choices")]).None? {
      LookupNone(data, "choices", ChoicePath[1..]);
    }
  }

  /** A reply of any other type with neither choices nor content parses to empty content. */
  lemma GenericMissingIsEmpty(p: Provider, data: Json)
    requires p.kind != Some("claude") && p.kind != Some("qwen") && IsArray(data)
    requires Lookup(data, [Key("choices")]).None? && Lookup(data, [Key("content")]).None?
    ensures ParseResponse(p, data) == Ok(AiResponse(JStr(""), p.kind.GetOr("generic"), data))
  {
    LookupNone(data, "choices", ChoicePath[1..]);
  }

  /** The outcome of one executeApiCall, with the request sent (None on the mock path). */
  datatype CallOutcome = CallOutcome(result: Result<AiResponse, ApiError>, request: Option<HttpRequest>)

  function ExecuteApiCall(p: Provider, pi: nat, attempt: nat, env: Env): (o: CallOutcome)
  {
    if IsMockPath(p) then CallOutcome(Ok(MockResponse(env.md5Hex)), None)
    else
      var req := Some(BuildRequest(p, env.prompt, env.options));
      match env.net(pi, attempt)
      case CurlFailure(err, code) => CallOutcome(Err(ApiError(code, "CURL error: " + err, 0)), req)
      case HttpReply(status, body, data, lines) =>
        if status != 200 then
          CallOutcome(Err(ApiError(status, "HTTP error: " + IntToString(status) + " - " + body,
                                   RetryAfter(HeaderMap(lines)))), req)
        else CallOutcome(ParseResponse(p, data), req)
  }

  // ---------------------------------------------------------------- the retry chain

  /** The attempts on one provider: the winning response if any, the last error, and the effects. */
  datatype Attempts = Attempts(success: Option<AiResponse>, lastError: Option<ApiError>, trace: seq<Event>)

  /** The outcome of each attempt on provider number pi. */
  function Outcomes(p: Provider, pi: nat, env: Env): nat -> CallOutcome {
    (a: nat) => ExecuteApiCall(p, pi, a, env)
  }

  /** The jitter drawn before each attempt on provider number pi. */
  function Jitters(pi: nat, env: Env): nat -> Jitter {
    (a: nat) => env.jitter(pi, a)
  }

  /** The events of one attempt before the call: a back-off unless it is the first attempt. */
  function PreCall(pi: nat, attempt: nat, jit: nat -> Jitter): seq<Event> {
    if attempt > 0 then [Backoff(pi, attempt, Delay(attempt, jit(attempt)))] else []
  }

  /** The error-handling effects after a failed call: the rate-limit pause, if any. */
  function PostError(pi: nat, e: ApiError): seq<Event> {
    var pause := PauseFor(e);
    if pause.Some? then [RateLimitPause(pi, pause.value)] else []
  }

  /**
   * The inner `while ($attempt < maxRetries)` loop for provider number pi, from `attempt` on,
   * given what each attempt's call returns.
   */
  function RunAttempts(pi: nat, attempt: nat, outs: nat -> CallOutcome, jit: nat -> Jitter, last: Option<ApiError>): (a: Attempts)
    decreases MaxRetries - attempt
  {
    if attempt >= MaxRetries then Attempts(None, last, [])
    else
      var out := outs(attempt);
      var ev := PreCall(pi, attempt, jit) + [Call(pi, attempt, out.request)];
      match out.result
      case Ok(r) => Attempts(Some(r), last, ev)
      case Err(e) =>
        if ShouldRetry(e, attempt) then
          var rest := RunAttempts(pi, attempt + 1, outs, jit, Some(e));
          Attempts(rest.success, rest.lastError, ev + PostError(pi, e) + rest.trace)
        else
          Attempts(None, Some(e), ev + PostError(pi, e))
  }

  /** All attempts on provider number pi. */
  function RunProvider(p: Provider, pi: nat, env: Env, last: Option<ApiError>): Attempts {
    RunAttempts(pi, 0, Outcomes(p, pi, env), Jitters(pi, env), last)
  }

  const FailurePrefix: string := "All AI providers failed. Last error: "

  /** The outcome of callWithRetry: the response, or the message of the exception it throws. */
  datatype Chain = Chain(result: Result<AiResponse, string>, trace: seq<Event>)

  /** The outer `foreach` over the providers from index i on, with the error carried so far. */
  function RunChain(ps: seq<Provider>, i: nat, env: Env, last: Option<ApiError>): (c: Chain)
    decreases |ps| - i
  {
    if i >= |ps| then
      Chain(Err(FailurePrefix + (if last.Some? then last.value.message else "Unknown error")), [])
    else
      var a := RunProvider(ps[i], i, env, last);
      if a.success.Some? then Chain(Ok(a.success.value), a.trace)
      else
        var rest := RunChain(ps, i + 1, env, a.lastError);
        Chain(rest.result, a.trace + rest.trace)
  }

  // ---------------------------------------------------------------- properties of the chain

  function CountCalls(t: seq<Event>): (n: nat)
    ensures n <= |t|
  {
    if t == [] then 0 else (if t[0].Call? then 1 else 0) + CountCalls(t[1..])
  }

  lemma {:induction false} CountCallsAppend(a: seq<Event>, b: seq<Event>)
    ensures CountCalls(a + b) == CountCalls(a) + CountCalls(b)
    decreases |a|
  {
    if a == [] {
      assert a + b == b;
    } else {
      CountCallsAppend(a[1..], b);
      assert (a + b)[1..] == a[1..] + b;
    }
  }

  /** Every event of a trace concerns providers at or after index lo. */
  predicate AllFrom(t: seq<Event>, lo: nat) {
    forall k :: 0 <= k < |t| ==> t[k].provider >= lo
  }

  /** The position of the last call in a trace, if there is one. */
  function LastCall(t: seq<Event>): (r: Option<nat>)
    ensures r.Some? ==> r.value < |t| && t[r.value].Call? && forall j :: r.value < j < |t| ==> !t[j].Call?
    ensures r.None? ==> forall j :: 0 <= j < |t| ==> !t[j].Call?
  {
    if t == [] then None else if t[|t| - 1].Call? then Some(|t| - 1) else LastCall(t[..|t| - 1])
  }

  /** The last call of a joined trace is the second part's, if it has one. */
  lemma {:induction false} LastCallAppend(a: seq<Event>, b: seq<Event>)
    ensures LastCall(b).Some? ==> LastCall(a + b) == Some(|a| + LastCall(b).value)
    ensures LastCall(b).None? ==> LastCall(a + b) == LastCall(a)
    decreases |b|
  {
    if b == [] {
      assert a + b == a;
    } else {
      assert (a + b)[..|a + b| - 1] == a + b[..|b| - 1];
      LastCallAppend(a, b[..|b| - 1]);
    }
  }

  /** The events of one attempt hold exactly one call, between events that are not calls. */
  lemma OneCall(pre: seq<Event>, c: Event, post: seq<Event>)
    requires c.Call?
    requires forall k :: 0 <= k < |pre| ==> !pre[k].Call?
    requires forall k :: 0 <= k < |post| ==> !post[k].Call?
    ensures var h := pre + [c] + post;
            LastCall(h) == Some(|pre|) && forall k :: 0 <= k < |h| && h[k].Call? ==> k == |pre|
  {
    var h := pre + [c] + post;
    forall k | 0 <= k < |h|
      ensures h[k].Call? ==> k == |pre|
    {
      if k < |pre| {
        assert h[k] == pre[k];
      } else if k > |pre| {
        assert h[k] == post[k - |pre| - 1];
      }
    }
    LastCallAppend(pre + [c], post);
  }

  /** One provider is called at most once per remaining attempt, so at most three times, and all
   *  its events name it. An error is always left behind when no attempt succeeded. */
  lemma {:induction false} RunAttemptsBounds(pi: nat, attempt: nat, outs: nat -> CallOutcome, jit: nat -> Jitter, last: Option<ApiError>)
    ensures var a := RunAttempts(pi, attempt, outs, jit, last);
            CountCalls(a.trace) <= if attempt < MaxRetries then MaxRetries - attempt else 0
    ensures var a := RunAttempts(pi, attempt, outs, jit, last);
            forall k :: 0 <= k < |a.trace| ==> a.trace[k].provider == pi
    ensures var a := RunAttempts(pi, attempt, outs, jit, last);
            attempt < MaxRetries && a.success.None? ==> a.lastError.Some?
    decreases MaxRetries - attempt
  {
    if attempt < MaxRetries {
      var out := outs(attempt);
      var ev := PreCall(pi, attempt, jit) + [Call(pi, attempt, out.request)];
      CountCallsAppend(PreCall(pi, attempt, jit), [Call(pi, attempt, out.request)]);
      assert CountCalls(ev) == 1;
      if out.result.Err? {
        var e := out.result.error;
        CountCallsAppend(ev, PostError(pi, e));
        if ShouldRetry(e, attempt) {
          var rest := RunAttempts(pi, attempt + 1, outs, jit, Some(e));
          RunAttemptsBounds(pi, attempt + 1, outs, jit, Some(e));
          CountCallsAppend(ev + PostError(pi, e), rest.trace);
        }
      }
    }
  }

  /** One provider makes at most three calls, and all its events name it. */
  lemma RunProviderBounds(p: Provider, pi: nat, env: Env, last: Option<ApiError>)
    ensures var a := RunProvider(p, pi, env, last);
            CountCalls(a.trace) <= MaxRetries && forall k :: 0 <= k < |a.trace| ==> a.trace[k].provider == pi
  {
    RunAttemptsBounds(pi, 0, Outcomes(p, pi, env), Jitters(pi, env), last);
  }

  /** The whole chain makes at most three calls per remaining provider and never returns to an
   *  earlier provider. */
  lemma {:induction false} RunChainBounds(ps: seq<Provider>, i: nat, env: Env, last: Option<ApiError>)
    requires i <= |ps|
    ensures CountCalls(RunChain(ps, i, env, last).trace) <= MaxRetries * (|ps| - i)
    ensures AllFrom(RunChain(ps, i, env, last).trace, i)
    decreases |ps| - i
  {
    hide RunProvider;
    if i < |ps| {
      var a := RunProvider(ps[i], i, env, last);
      RunProviderBounds(ps[i], i, env, last);
      if a.success.None? {
        var rest := RunChain(ps, i + 1, env, a.lastError);
        RunChainBounds(ps, i + 1, env, a.lastError);
        CountCallsAppend(a.trace, rest.trace);
        assert CountCalls(rest.trace) <= MaxRetries * (|ps| - i) - MaxRetries;
        assert forall k :: |a.trace| <= k < |a.trace + rest.trace| ==> (a.trace + rest.trace)[k] == rest.trace[k - |a.trace|];
      }
    } else {
      assert RunChain(ps, i, env, last).trace == [];
    }
  }

  /** A provider on the mock path answers at its first attempt, without a network call. */
  lemma MockAnswersAtOnce(p: Provider, pi: nat, env: Env, last: Option<ApiError>)
    requires IsMockPath(p)
    ensures RunProvider(p, pi, env, last) == Attempts(Some(MockResponse(env.md5Hex)), last, [Call(pi, 0, None)])
  {
    assert ExecuteApiCall(p, pi, 0, env) == CallOutcome(Ok(MockResponse(env.md5Hex)), None);
    assert Outcomes(p, pi, env)(0) == ExecuteApiCall(p, pi, 0, env);
  }

  /** Once some provider from index i on takes the mock path, the chain cannot fail. */
  lemma {:induction false} ChainWithMockSucceeds(ps: seq<Provider>, i: nat, j: nat, env: Env, last: Option<ApiError>)
    requires i <= j < |ps| && IsMockPath(ps[j])
    ensures RunChain(ps, i, env, last).result.Ok?
    decreases j - i
  {
    var a := RunProvider(ps[i], i, env, last);
    if i == j {
      MockAnswersAtOnce(ps[i], i, env, last);
    } else if a.success.None? {
      ChainWithMockSucceeds(ps, i + 1, j, env, a.lastError);
    }
  }

  /** With the default configuration the service never throws: the backup provider is a mock. */
  lemma DefaultChainNeverFails(claudeKey: Option<string>, qwenKey: Option<string>, env: Env)
    ensures RunChain(Configure([], claudeKey, qwenKey), 0, env, None).result.Ok?
  {
    var ps := Configure([], claudeKey, qwenKey);
    hide Configure, DefaultProviders, RunChain;
    ChainWithMockSucceeds(ps, 0, 2, env, None);
  }

  /** Without API keys the defaults answer from the mock at once, with no network traffic. */
  lemma DefaultWithoutKeysIsOffline(env: Env)
    ensures RunChain(Configure([], None, None), 0, env, None) == Chain(Ok(MockResponse(env.md5Hex)), [Call(0, 0, None)])
  {
    hide Configure, DefaultProviders, RunProvider, MockResponse;
    var ps := Configure([], None, None);
    assert EmptyKey(ps[0].apiKey);
    MockAnswersAtOnce(ps[0], 0, env, None);
  }

  /**
   * A failure names the error of the chain's last call, and every call of the chain failed;
   * "Unknown error" (or the error carried in) appears only when no provider was left to try.
   */
  lemma {:induction false} ChainFailureMessage(ps: seq<Provider>, i: nat, env: Env, last: Option<ApiError>)
    requires RunChain(ps, i, env, last).result.Err?
    ensures var msg := RunChain(ps, i, env, last).result.error;
            (i >= |ps| && last.None? ==> msg == FailurePrefix + "Unknown error") &&
            (i >= |ps| && last.Some? ==> msg == FailurePrefix + last.value.message)
    ensures ProvidersWithin(RunChain(ps, i, env, last).trace, i, |ps|)
    ensures var t := RunChain(ps, i, env, last).trace;
            CallsFailBefore(ps, env, t, |t|)
    ensures i < |ps| ==> LostWithLastCall(ps, env, RunChain(ps, i, env, last))
    decreases |ps| - i
  {
    hide RunProvider, ExecuteApiCall;
    if i < |ps| {
      var a := RunProvider(ps[i], i, env, last);
      ProviderCalls(ps, i, env, last);
      var rest := RunChain(ps, i + 1, env, a.lastError);
      ChainFailureMessage(ps, i + 1, env, a.lastError);
      var t := a.trace + rest.trace;
      assert RunChain(ps, i, env, last) == Chain(rest.result, t);
      LastCallAppend(a.trace, rest.trace);
      forall k | 0 <= k < |t|
        ensures i <= t[k].provider < |ps|
        ensures t[k].Call? ==> FailedCall(ps, env, t[k])
      {
        if k >= |a.trace| {
          assert t[k] == rest.trace[k - |a.trace|];
        } else {
          assert t[k] == a.trace[k];
        }
      }
      if i + 1 < |ps| {
        assert t[LastCall(t).value] == rest.trace[LastCall(rest.trace).value];
      } else {
        assert rest.trace == [];
        assert t[LastCall(t).value] == a.trace[LastCall(a.trace).value];
      }
    }
  }

  /** A client error (4xx other than a 429 with retry-after) whose message does not mention a
   *  timeout ends the provider after that one call. */
  lemma PermanentErrorStops(pi: nat, attempt: nat, outs: nat -> CallOutcome, jit: nat -> Jitter, last: Option<ApiError>)
    requires attempt < MaxRetries
    requires var o := outs(attempt);
             o.result.Err? && 400 <= o.result.error.code < 500 &&
             !(o.result.error.code == 429 && o.result.error.retryAfter > 0) &&
             !ContainsIgnoreCase(o.result.error.message, "timeout")
    ensures var o := outs(attempt);
            RunAttempts(pi, attempt, outs, jit, last) ==
            Attempts(None, Some(o.result.error), PreCall(pi, attempt, jit) + [Call(pi, attempt, o.request)])
  {
    assert PostError(pi, outs(attempt).result.error) == [];
  }

  /** A 429 carrying retry-after is retried on the same provider after the pause, and the retry
   *  uses up the next attempt. */
  lemma RateLimitRetries(pi: nat, attempt: nat, outs: nat -> CallOutcome, jit: nat -> Jitter, last: Option<ApiError>)
    requires attempt < MaxRetries
    requires var o := outs(attempt); o.result.Err? && o.result.error.code == 429 && o.result.error.retryAfter > 0
    ensures var o := outs(attempt);
            var rest := RunAttempts(pi, attempt + 1, outs, jit, Some(o.result.error));
            RunAttempts(pi, attempt, outs, jit, last) ==
            Attempts(rest.success, rest.lastError,
                     PreCall(pi, attempt, jit) + [Call(pi, attempt, o.request), RateLimitPause(pi, o.result.error.retryAfter)] + rest.trace)
  {
    var o := outs(attempt);
    var pre := PreCall(pi, attempt, jit);
    assert pre + [Call(pi, attempt, o.request)] + [RateLimitPause(pi, o.result.error.retryAfter)]
        == pre + [Call(pi, attempt, o.request), RateLimitPause(pi, o.result.error.retryAfter)];
  }

  /** A non-200 reply becomes an error carrying the status as its code. */
  lemma HttpErrorCode(p: Provider, pi: nat, attempt: nat, env: Env)
    requires !IsMockPath(p) && env.net(pi, attempt).HttpReply? && env.net(pi, attempt).status != 200
    ensures Outcomes(p, pi, env)(attempt).result.Err?
    ensures Outcomes(p, pi, env)(attempt).result.error.code == env.net(pi, attempt).status
  {
    assert Outcomes(p, pi, env)(attempt) == ExecuteApiCall(p, pi, attempt, env);
  }

  /** Attempts that all fail with a retryable error (a 503 here) make exactly three calls, with
   *  two back-offs between them. */
  lemma ServiceUnavailableAttempts(pi: nat, outs: nat -> CallOutcome, jit: nat -> Jitter, last: Option<ApiError>)
    requires forall a: nat :: outs(a).result.Err? && outs(a).result.error.code == 503
    ensures var t := RunAttempts(pi, 0, outs, jit, last).trace;
            CountCalls(t) == 3 && |t| == 5 && t[1].Backoff? && t[3].Backoff?
    ensures RunAttempts(pi, 0, outs, jit, last).success.None?
  {
    var e0, e1, e2 := outs(0).result.error, outs(1).result.error, outs(2).result.error;
    var c0 := Call(pi, 0, outs(0).request);
    var b1 := Backoff(pi, 1, Delay(1, jit(1)));
    var c1 := Call(pi, 1, outs(1).request);
    var b2 := Backoff(pi, 2, Delay(2, jit(2)));
    var c2 := Call(pi, 2, outs(2).request);
    assert PostError(pi, e0) == [] && PostError(pi, e1) == [] && PostError(pi, e2) == [];
    var r2 := RunAttempts(pi, 2, outs, jit, Some(e1));
    assert r2 == Attempts(None, Some(e2), [b2, c2]);
    var r1 := RunAttempts(pi, 1, outs, jit, Some(e0));
    assert r1.trace == [b1, c1] + [b2, c2];
    var t := RunAttempts(pi, 0, outs, jit, last).trace;
    assert t == [c0] + ([b1, c1] + [b2, c2]);
    CountCallsAppend([c0], [b1, c1] + [b2, c2]);
    CountCallsAppend([b1, c1], [b2, c2]);
    CountCallsAppend([b1], [c1]);
    CountCallsAppend([b2], [c2]);
    assert [b1, c1] == [b1] + [c1];
    assert [b2, c2] == [b2] + [c2];
  }

  /** A real provider whose every reply is a 503 is called exactly three times. */
  lemma ServiceUnavailableThreeCalls(p: Provider, pi: nat, env: Env, last: Option<ApiError>)
    requires !IsMockPath(p)
    requires forall a: nat :: env.net(pi, a).HttpReply? && env.net(pi, a).status == 503
    ensures CountCalls(RunProvider(p, pi, env, last).trace) == 3
    ensures RunProvider(p, pi, env, last).success.None?
  {
    forall a: nat
      ensures Outcomes(p, pi, env)(a).result.Err? && Outcomes(p, pi, env)(a).result.error.code == 503
    {
      HttpErrorCode(p, pi, a, env);
    }
    ServiceUnavailableAttempts(pi, Outcomes(p, pi, env), Jitters(pi, env), last);
  }

  /** On success the last event of one provider's attempts is the call that produced the response. */
  lemma {:induction false} AttemptsSuccessEndsWithCall(pi: nat, attempt: nat, outs: nat -> CallOutcome, jit: nat -> Jitter, last: Option<ApiError>)
    requires RunAttempts(pi, attempt, outs, jit, last).success.Some?
    ensures var a := RunAttempts(pi, attempt, outs, jit, last); var t := a.trace;
            t != [] && t[|t| - 1].Call? && t[|t| - 1].provider == pi &&
            outs(t[|t| - 1].attempt).result == Ok(a.success.value)
    decreases MaxRetries - attempt
  {
    var out := outs(attempt);
    if out.result.Err? {
      var e := out.result.error;
      var rest := RunAttempts(pi, attempt + 1, outs, jit, Some(e));
      AttemptsSuccessEndsWithCall(pi, attempt + 1, outs, jit, Some(e));
      var t := PreCall(pi, attempt, jit) + [Call(pi, attempt, out.request)] + PostError(pi, e) + rest.trace;
      assert t[|t| - 1] == rest.trace[|rest.trace| - 1];
    }
  }

  /** On success every call before the winning one failed. */
  lemma {:induction false} AttemptsEarlierCallsFail(pi: nat, attempt: nat, outs: nat -> CallOutcome, jit: nat -> Jitter, last: Option<ApiError>)
    requires RunAttempts(pi, attempt, outs, jit, last).success.Some?
    ensures var t := RunAttempts(pi, attempt, outs, jit, last).trace;
            forall k :: 0 <= k < |t| - 1 && t[k].Call? ==> outs(t[k].attempt).result.Err?
    decreases MaxRetries - attempt
  {
    var out := outs(attempt);
    var pre := PreCall(pi, attempt, jit);
    var c := Call(pi, attempt, out.request);
    var e := if out.result.Err? then out.result.error else ApiError(0, "", 0);
    NoCallsAround(pi, attempt, jit, e);
    hide PreCall, PostError, ShouldRetry;
    if out.result.Err? {
      var rest := RunAttempts(pi, attempt + 1, outs, jit, Some(e));
      AttemptsEarlierCallsFail(pi, attempt + 1, outs, jit, Some(e));
      var head := pre + [c] + PostError(pi, e);
      OneCall(pre, c, PostError(pi, e));
      assert head[|pre|] == c;
      var t := head + rest.trace;
      forall k | 0 <= k < |t| - 1
        ensures t[k].Call? ==> outs(t[k].attempt).result.Err?
      {
        if k >= |head| {
          assert t[k] == rest.trace[k - |head|];
        } else {
          assert t[k] == head[k];
        }
      }
    } else {
      OneCall(pre, c, []);
      assert pre + [c] + [] == pre + [c];
    }
  }

  /** The events around a call are back-offs and pauses, never calls. */
  lemma NoCallsAround(pi: nat, attempt: nat, jit: nat -> Jitter, e: ApiError)
    ensures forall k :: 0 <= k < |PreCall(pi, attempt, jit)| ==> !PreCall(pi, attempt, jit)[k].Call?
    ensures forall k :: 0 <= k < |PostError(pi, e)| ==> !PostError(pi, e)[k].Call?
  {
  }

  /** When no attempt succeeds, the error left behind is the one the last call returned. */
  lemma {:induction false} AttemptsFailureLastCall(pi: nat, attempt: nat, outs: nat -> CallOutcome, jit: nat -> Jitter, last: Option<ApiError>)
    requires attempt < MaxRetries
    requires RunAttempts(pi, attempt, outs, jit, last).success.None?
    ensures var a := RunAttempts(pi, attempt, outs, jit, last); var t := a.trace;
            a.lastError.Some? && LastCall(t).Some? && outs(t[LastCall(t).value].attempt).result == Err(a.lastError.value)
    decreases MaxRetries - attempt
  {
    var out := outs(attempt);
    var pre := PreCall(pi, attempt, jit);
    var c := Call(pi, attempt, out.request);
    var e := out.result.error;
    var head := pre + [c] + PostError(pi, e);
    NoCallsAround(pi, attempt, jit, e);
    hide PreCall, PostError, ShouldRetry;
    OneCall(pre, c, PostError(pi, e));
    assert head[|pre|] == c;
    if ShouldRetry(e, attempt) && attempt + 1 < MaxRetries {
      var rest := RunAttempts(pi, attempt + 1, outs, jit, Some(e));
      AttemptsFailureLastCall(pi, attempt + 1, outs, jit, Some(e));
      LastCallAppend(head, rest.trace);
      assert (head + rest.trace)[|head| + LastCall(rest.trace).value] == rest.trace[LastCall(rest.trace).value];
    } else if ShouldRetry(e, attempt) {
      assert RunAttempts(pi, attempt + 1, outs, jit, Some(e)).trace == [];
      assert head + [] == head;
    }
  }

  /** When no attempt succeeds, every call made failed. */
  lemma {:induction false} AttemptsAllCallsFail(pi: nat, attempt: nat, outs: nat -> CallOutcome, jit: nat -> Jitter, last: Option<ApiError>)
    requires RunAttempts(pi, attempt, outs, jit, last).success.None?
    ensures var t := RunAttempts(pi, attempt, outs, jit, last).trace;
            forall k :: 0 <= k < |t| && t[k].Call? ==> outs(t[k].attempt).result.Err?
    decreases MaxRetries - attempt
  {
    if attempt < MaxRetries {
      var out := outs(attempt);
      var pre := PreCall(pi, attempt, jit);
      var c := Call(pi, attempt, out.request);
      var e := out.result.error;
      var head := pre + [c] + PostError(pi, e);
      NoCallsAround(pi, attempt, jit, e);
      hide PreCall, PostError, ShouldRetry;
      OneCall(pre, c, PostError(pi, e));
      assert head[|pre|] == c;
      if ShouldRetry(e, attempt) {
        var rest := RunAttempts(pi, attempt + 1, outs, jit, Some(e));
        AttemptsAllCallsFail(pi, attempt + 1, outs, jit, Some(e));
        var t := head + rest.trace;
        forall k | 0 <= k < |t|
          ensures t[k].Call? ==> outs(t[k].attempt).result.Err?
        {
          if k >= |head| {
            assert t[k] == rest.trace[k - |head|];
          } else {
            assert t[k] == head[k];
          }
        }
      }
    }
  }

  /** Event e is a call on a provider of the list, and that call's outcome was an error. */
  predicate FailedCall(ps: seq<Provider>, env: Env, e: Event) {
    e.Call? && e.provider < |ps| && ExecuteApiCall(ps[e.provider], e.provider, e.attempt, env).result.Err?
  }

  /** Every call among the first n events of t failed. */
  predicate CallsFailBefore(ps: seq<Provider>, env: Env, t: seq<Event>, n: int) {
    forall k :: 0 <= k < n && k < |t| && t[k].Call? ==> FailedCall(ps, env, t[k])
  }

  /** Every event of t names a provider from lo up to, but not including, hi. */
  predicate ProvidersWithin(t: seq<Event>, lo: nat, hi: nat) {
    forall k :: 0 <= k < |t| ==> lo <= t[k].provider < hi
  }

  /** No event of t names a provider after the one its last event names. */
  predicate EndsOnLatestProvider(t: seq<Event>) {
    t != [] && forall k :: 0 <= k < |t| ==> t[k].provider <= t[|t| - 1].provider
  }

  /** The success of a provider's attempts is the outcome of their last event, a call. */
  predicate AnsweredByLastCall(ps: seq<Provider>, env: Env, a: Attempts) {
    a.success.Some? && a.trace != [] &&
    var c := a.trace[|a.trace| - 1];
    c.Call? && c.provider < |ps| && ExecuteApiCall(ps[c.provider], c.provider, c.attempt, env).result == Ok(a.success.value)
  }

  /** The error a provider's attempts leave behind is the outcome of their last call. */
  predicate LeftLastCallError(ps: seq<Provider>, env: Env, a: Attempts) {
    a.lastError.Some? && LastCall(a.trace).Some? &&
    var c := a.trace[LastCall(a.trace).value];
    c.provider < |ps| && ExecuteApiCall(ps[c.provider], c.provider, c.attempt, env).result == Err(a.lastError.value)
  }

  /** The chain's response is the outcome of its last event, a call. */
  predicate WonByLastCall(ps: seq<Provider>, env: Env, ch: Chain) {
    ch.trace != [] &&
    var c := ch.trace[|ch.trace| - 1];
    c.Call? && c.provider < |ps| &&
    var r := ExecuteApiCall(ps[c.provider], c.provider, c.attempt, env).result;
    r.Ok? && ch.result == Ok(r.value)
  }

  /** The chain's failure message carries the error of its last call. */
  predicate LostWithLastCall(ps: seq<Provider>, env: Env, ch: Chain) {
    LastCall(ch.trace).Some? &&
    var c := ch.trace[LastCall(ch.trace).value];
    FailedCall(ps, env, c) &&
    ch.result == Err(FailurePrefix + ExecuteApiCall(ps[c.provider], c.provider, c.attempt, env).result.error.message)
  }

  /** The attempts on provider number i, in terms of its calls: all events name it; on success the
   *  last event is the call that answered and every earlier call failed; otherwise every call
   *  failed and the error left behind is the last call's. */
  lemma ProviderCalls(ps: seq<Provider>, i: nat, env: Env, last: Option<ApiError>)
    requires i < |ps|
    ensures var t := RunProvider(ps[i], i, env, last).trace;
            forall k :: 0 <= k < |t| ==> t[k].provider == i
    ensures var a := RunProvider(ps[i], i, env, last);
            a.success.Some? ==> AnsweredByLastCall(ps, env, a) && CallsFailBefore(ps, env, a.trace, |a.trace| - 1)
    ensures var a := RunProvider(ps[i], i, env, last);
            a.success.None? ==> LeftLastCallError(ps, env, a) && CallsFailBefore(ps, env, a.trace, |a.trace|)
  {
    hide ExecuteApiCall;
    var outs := Outcomes(ps[i], i, env);
    var a := RunProvider(ps[i], i, env, last);
    RunAttemptsBounds(i, 0, outs, Jitters(i, env), last);
    if a.success.Some? {
      AttemptsSuccessEndsWithCall(i, 0, outs, Jitters(i, env), last);
      AttemptsEarlierCallsFail(i, 0, outs, Jitters(i, env), last);
    } else {
      AttemptsFailureLastCall(i, 0, outs, Jitters(i, env), last);
      AttemptsAllCallsFail(i, 0, outs, Jitters(i, env), last);
    }
  }

  /**
   * On success the chain's last event is the call that produced the response: no later provider was
   * touched, and every earlier call, on this provider or an earlier one, failed.
   */
  lemma {:induction false} SuccessEndsWithCall(ps: seq<Provider>, i: nat, env: Env, last: Option<ApiError>)
    requires RunChain(ps, i, env, last).result.Ok?
    ensures WonByLastCall(ps, env, RunChain(ps, i, env, last))
    ensures AllFrom(RunChain(ps, i, env, last).trace, i)
    ensures EndsOnLatestProvider(RunChain(ps, i, env, last).trace)
    ensures var t := RunChain(ps, i, env, last).trace;
            CallsFailBefore(ps, env, t, |t| - 1)
    decreases |ps| - i
  {
    hide RunProvider, ExecuteApiCall;
    var a := RunProvider(ps[i], i, env, last);
    ProviderCalls(ps, i, env, last);
    if a.success.None? {
      var rest := RunChain(ps, i + 1, env, a.lastError);
      SuccessEndsWithCall(ps, i + 1, env, a.lastError);
      var t := a.trace + rest.trace;
      assert RunChain(ps, i, env, last) == Chain(rest.result, t);
      assert t[|t| - 1] == rest.trace[|rest.trace| - 1];
      forall k | 0 <= k < |t|
        ensures i <= t[k].provider <= t[|t| - 1].provider
        ensures k < |t| - 1 && t[k].Call? ==> FailedCall(ps, env, t[k])
      {
        if k >= |a.trace| {
          assert t[k] == rest.trace[k - |a.trace|];
        } else {
          assert t[k] == a.trace[k];
        }
      }
    }
  }

  // ---------------------------------------------------------------- loop bookkeeping

  /** The loop invariant of the inner loop: the attempts made so far, followed by the remaining
   *  attempts, are all the attempts on the provider. */
  predicate AttemptsSoFar(pi: nat, outs: nat -> CallOutcome, jit: nat -> Jitter, last: Option<ApiError>,
                          attempt: nat, plast: Option<ApiError>, ptrace: seq<Event>) {
    var all := RunAttempts(pi, 0, outs, jit, last);
    var rest := RunAttempts(pi, attempt, outs, jit, plast);
    all == Attempts(rest.success, rest.lastError, ptrace + rest.trace)
  }

  lemma AttemptOk(pi: nat, outs: nat -> CallOutcome, jit: nat -> Jitter, last: Option<ApiError>,
                  attempt: nat, plast: Option<ApiError>, ptrace: seq<Event>)
    requires attempt < MaxRetries && AttemptsSoFar(pi, outs, jit, last, attempt, plast, ptrace)
    requires outs(attempt).result.Ok?
    ensures RunAttempts(pi, 0, outs, jit, last) ==
            Attempts(Some(outs(attempt).result.value), plast,
                     ptrace + (PreCall(pi, attempt, jit) + [Call(pi, attempt, outs(attempt).request)]))
  {
  }

  lemma AttemptRetry(pi: nat, outs: nat -> CallOutcome, jit: nat -> Jitter, last: Option<ApiError>,
                     attempt: nat, plast: Option<ApiError>, ptrace: seq<Event>)
    requires attempt < MaxRetries && AttemptsSoFar(pi, outs, jit, last, attempt, plast, ptrace)
    requires outs(attempt).result.Err? && ShouldRetry(outs(attempt).result.error, attempt)
    ensures var e := outs(attempt).result.error;
            AttemptsSoFar(pi, outs, jit, last, attempt + 1, Some(e),
                          ptrace + (PreCall(pi, attempt, jit) + [Call(pi, attempt, outs(attempt).request)] + PostError(pi, e)))
  {
    var e := outs(attempt).result.error;
    var ev := PreCall(pi, attempt, jit) + [Call(pi, attempt, outs(attempt).request)] + PostError(pi, e);
    var rest := RunAttempts(pi, attempt + 1, outs, jit, Some(e));
    assert ptrace + (ev + rest.trace) == (ptrace + ev) + rest.trace;
  }

  lemma AttemptStop(pi: nat, outs: nat -> CallOutcome, jit: nat -> Jitter, last: Option<ApiError>,
                    attempt: nat, plast: Option<ApiError>, ptrace: seq<Event>)
    requires attempt < MaxRetries && AttemptsSoFar(pi, outs, jit, last, attempt, plast, ptrace)
    requires outs(attempt).result.Err? && !ShouldRetry(outs(attempt).result.error, attempt)
    ensures var e := outs(attempt).result.error;
            RunAttempts(pi, 0, outs, jit, last) ==
            Attempts(None, Some(e), ptrace + (PreCall(pi, attempt, jit) + [Call(pi, attempt, outs(attempt).request)] + PostError(pi, e)))
  {
    var e := outs(attempt).result.error;
    var ev := PreCall(pi, attempt, jit) + [Call(pi, attempt, outs(attempt).request)] + PostError(pi, e);
    assert ptrace + (ev + []) == ptrace + ev;
  }

  /** The service object: its provider chain, fixed by the constructor. */
  class AiServiceEnhanced {
    var providers: seq<Provider>

    constructor(given: seq<Provider>, claudeKey: Option<string>, qwenKey: Option<string>)
      ensures providers == Configure(given, claudeKey, qwenKey)
    {
      providers := Configure(given, claudeKey, qwenKey);
    }

    /** The inner loop of callWithRetry: the attempts on provider number i. */
    method TryProvider(p: Provider, i: nat, env: Env, last: Option<ApiError>) returns (a: Attempts)
      ensures a == RunProvider(p, i, env, last)
    {
      // Each attempt needs the outcome it gets, not how the call computes it.
      hide ExecuteApiCall;
      ghost var outs := Outcomes(p, i, env);
      ghost var jit := Jitters(i, env);
      var attempt := 0;
      var ptrace: seq<Event> := [];
      var plast := last;
      assert ptrace + RunAttempts(i, 0, outs, jit, last).trace == RunAttempts(i, 0, outs, jit, last).trace;
      while attempt < MaxRetries
        invariant 0 <= attempt <= MaxRetries
        invariant AttemptsSoFar(i, outs, jit, last, attempt, plast, ptrace)
        decreases MaxRetries - attempt
      {
        var out := ExecuteApiCall(p, i, attempt, env);
        var pre := if attempt > 0 then [Backoff(i, attempt, Delay(attempt, env.jitter(i, attempt)))] else [];
        assert out == outs(attempt) && pre == PreCall(i, attempt, jit);
        if out.result.Ok? {
          AttemptOk(i, outs, jit, last, attempt, plast, ptrace);
          return Attempts(Some(out.result.value), plast, ptrace + (pre + [Call(i, attempt, out.request)]));
        }
        var e := out.result.error;
        var ev := pre + [Call(i, attempt, out.request)] + PostError(i, e);
        if !ShouldRetry(e, attempt) {
          AttemptStop(i, outs, jit, last, attempt, plast, ptrace);
          return Attempts(None, Some(e), ptrace + ev);
        }
        AttemptRetry(i, outs, jit, last, attempt, plast, ptrace);
        ptrace := ptrace + ev;
        plast := Some(e);
        attempt := attempt + 1;
      }
      return Attempts(None, plast, ptrace);
    }

    /** callWithRetry: the loop over the providers, proved to perform exactly the chain. */
    method CallWithRetry(env: Env) returns (result: Result<AiResponse, string>, trace: seq<Event>)
      ensures Chain(result, trace) == RunChain(providers, 0, env, None)
    {
      // The loop needs what TryProvider returns, not how a single call is executed.
      hide ExecuteApiCall;
      var ps := providers;
      var last: Option<ApiError> := None;
      trace := [];
      var i := 0;
      while i < |ps|
        invariant 0 <= i <= |ps|
        invariant RunChain(ps, 0, env, None).result == RunChain(ps, i, env, last).result
        invariant RunChain(ps, 0, env, None).trace == trace + RunChain(ps, i, env, last).trace
        decreases |ps| - i
      {
        var a := TryProvider(ps[i], i, env, last);
        if a.success.Some? {
          trace := trace + a.trace;
          result := Ok(a.success.value);
          return;
        }
        var rest := RunChain(ps, i + 1, env, a.lastError);
        assert trace + (a.trace + rest.trace) == (trace + a.trace) + rest.trace;
        trace := trace + a.trace;
        last := a.lastError;
        i := i + 1;
      }
      result := Err(FailurePrefix + (if last.Some? then last.value.message else "Unknown error"));
    }
  }
}

/**
 * The queue worker (worker/task_processor.php): it claims the best pending job, rebuilds the
 * report's step rows, runs the analysis steps in order through the retrying invoker, and
 * finishes the job as completed or failed. The pure functions below are the specification and
 * are stated for any plan of steps with distinct names; the source's plan `Plan` has eight. The
 * class `TaskProcessor` performs the same updates on a `Store` and is proved to agree.
 */
module Worker {
  import opened Wrappers
  import opened Text
  import opened Json
  import opened Sorting
  import opened Invoker
  import opened TaskStore

  // ---------------------------------------------------------------- the analysis plan

  datatype PlanStep = PlanStep(name: string, title: string, prompt: string)

  /** The eight steps of analyzeBusinessIdea, in pipeline order. */
  const Plan: seq<PlanStep> := [
    PlanStep("market_analysis", "市场环境分析", "请分析目标市场的规模、增长趋势、用户需求和机会点。"),
    PlanStep("competitor_research", "竞争对手研究", "识别主要竞争对手，比较其产品特性、价格策略和优势劣势。"),
    PlanStep("user_persona", "目标用户画像", "为该商业想法构建主要目标用户画像，包括动机、痛点与行为特征。"),
    PlanStep("business_model", "商业模式设计", "设计可持续的盈利模式，说明价值主张、收入来源和成本结构。"),
    PlanStep("risk_assessment", "风险评估", "分析潜在的市场、运营、技术、法律风险并提出缓解策略。"),
    PlanStep("financial_forecast", "财务预测", "提供三年期的关键财务指标预估，包括收入、成本与现金流建议。"),
    PlanStep("marketing_strategy", "营销策略", "制定获客与品牌推广策略，覆盖线上线下渠道组合。"),
    PlanStep("implementation_plan", "实施计划", "规划阶段性实施路线，包括里程碑、资源配置与评估指标。")
  ]

  /**
   * No two steps share a name. The rows of a step are found by name and `$results` is keyed by
   * name, so with distinct names each step touches only its own rows and appends one result.
   */
  predicate DistinctNames(plan: seq<PlanStep>) {
    forall i, j :: 0 <= i < j < |plan| ==> plan[i].name != plan[j].name
  }

  lemma PlanShape()
    ensures |Plan| == 8 && DistinctNames(Plan)
  {
  }

  /** The content a finished step contributes to `$results`, under its step name. */
  datatype StepResult = StepResult(title: string, content: string)

  type Results = seq<(string, StepResult)>

  /** The results of the first k steps, by name and title, in plan order. */
  predicate ResultsShape(rs: Results, plan: seq<PlanStep>, k: nat) {
    k <= |plan| && |rs| == k &&
    forall i :: 0 <= i < k ==> rs[i].0 == plan[i].name && rs[i].1.title == plan[i].title
  }

  // ---------------------------------------------------------------- the claim

  /** ORDER BY priority DESC, created_at ASC. */
  function ClaimKey(t: TaskRow): (int, int) {
    (t.priority, -t.createdAt)
  }

  /**
   * The row `SELECT ... WHERE status = 'pending' ORDER BY priority DESC, created_at ASC LIMIT 1`
   * yields. Among rows with equal keys, whose order SQL leaves open, the model takes the first in
   * table order.
   */
  function SelectNext(q: seq<TaskRow>): (r: Option<nat>)
    ensures r.None? <==> forall k :: 0 <= k < |q| ==> q[k].status != Pending
    ensures r.Some? ==> r.value < |q| && q[r.value].status == Pending
    ensures r.Some? ==> forall k :: 0 <= k < |q| && q[k].status == Pending ==>
      Before(ClaimKey(q[r.value]), ClaimKey(q[k]))
    ensures r.Some? ==> forall k :: 0 <= k < r.value && q[k].status == Pending ==>
      ClaimKey(q[k]) != ClaimKey(q[r.value])
  {
    if q == [] then None
    else
      var n := |q| - 1;
      var p := q[..n];
      var r := SelectNext(p);
      assert forall k :: 0 <= k < n ==> p[k] == q[k];
      if q[n].status != Pending then r
      else if r.None? then Some(n)
      else if Before(ClaimKey(q[r.value]), ClaimKey(q[n])) then r
      else Some(n)
  }

  datatype Claimed = Claimed(queue: seq<TaskRow>, task: Option<TaskRow>)

  /**
   * getNextTask without its failure path: the selected row as it was read, and the queue with
   * that row moved to 'processing' and stamped with the start time.
   */
  function Claim(q: seq<TaskRow>, now: int): (c: Claimed)
    ensures c.task.None? <==> forall k :: 0 <= k < |q| ==> q[k].status != Pending
    ensures c.task.None? ==> c.queue == q
    ensures c.task.Some? ==> c.task.value in q && c.task.value.status == Pending
    ensures c.task.Some? ==> forall k :: 0 <= k < |q| && q[k].status == Pending ==>
      Before(ClaimKey(c.task.value), ClaimKey(q[k]))
    ensures c.task.Some? ==> |c.queue| == |q| && forall k :: 0 <= k < |q| ==>
      c.queue[k] == if q[k].id == c.task.value.id then q[k].(status := Processing, startedAt := Some(now)) else q[k]
  {
    match SelectNext(q)
    case None => Claimed(q, None)
    case Some(k) => Claimed(UpdateTask(q, q[k].id, ClaimRow(now)), Some(q[k]))
  }

  /** A claimed job is no longer pending, so the next claim returns a different job. */
  lemma ClaimTwiceDistinct(q: seq<TaskRow>, now1: int, now2: int)
    requires Claim(q, now1).task.Some?
    ensures var first := Claim(q, now1);
            var second := Claim(first.queue, now2);
            second.task.Some? ==> second.task.value.id != first.task.value.id
  {
    var first := Claim(q, now1);
    var second := Claim(first.queue, now2);
    if second.task.Some? {
      var t := second.task.value;
      var k :| 0 <= k < |first.queue| && first.queue[k] == t;
      assert q[k].id != first.task.value.id;
    }
  }

  // ---------------------------------------------------------------- resetting the step rows

  /** The row resetReportSteps inserts for step k: number k + 1, pending, created now. */
  function FreshStep(reportId: string, taskId: string, now: int, suffix: nat -> string, plan: seq<PlanStep>, k: nat): StepRow
    requires k < |plan|
  {
    StepRow("step_" + plan[k].name + "_" + suffix(k), reportId, k + 1, plan[k].name, plan[k].title,
            taskId, StepPending, now, None, None, None, None, None, None, None)
  }

  function FreshSteps(reportId: string, taskId: string, now: int, suffix: nat -> string, plan: seq<PlanStep>): (r: seq<StepRow>)
    ensures |r| == |plan|
    ensures forall k :: 0 <= k < |plan| ==> r[k] == FreshStep(reportId, taskId, now, suffix, plan, k)
  {
    seq(|plan|, k requires 0 <= k < |plan| => FreshStep(reportId, taskId, now, suffix, plan, k))
  }

  /** The step table after resetReportSteps: the report's old rows deleted, one new row per step appended. */
  function ResetSteps(steps: seq<StepRow>, reportId: string, taskId: string, now: int, suffix: nat -> string, plan: seq<PlanStep>): seq<StepRow> {
    StepsNotOf(steps, reportId) + FreshSteps(reportId, taskId, now, suffix, plan)
  }

  /**
   * Whatever rows the report had, afterwards it has exactly one per step, numbered 1.. in plan
   * order and all pending (so a second reset leaves eight rows, not sixteen); other reports keep
   * their rows.
   */
  lemma ResetRebuildsSteps(steps: seq<StepRow>, reportId: string, taskId: string, now: int, suffix: nat -> string, plan: seq<PlanStep>)
    ensures var mine := StepsOf(ResetSteps(steps, reportId, taskId, now, suffix, plan), reportId);
            |mine| == |plan| &&
            forall k :: 0 <= k < |plan| ==>
              mine[k].stepNumber == k + 1 && mine[k].stepName == plan[k].name &&
              mine[k].stepTitle == plan[k].title && mine[k].status == StepPending &&
              mine[k].taskId == taskId
    ensures StepsNotOf(ResetSteps(steps, reportId, taskId, now, suffix, plan), reportId) == StepsNotOf(steps, reportId)
  {
    ResetKeepsMine(steps, reportId, FreshSteps(reportId, taskId, now, suffix, plan));
    ResetKeepsOthers(steps, reportId, FreshSteps(reportId, taskId, now, suffix, plan));
  }

  /** Selecting the report's rows after the reset gives exactly the appended rows. */
  lemma ResetKeepsMine(steps: seq<StepRow>, reportId: string, newRows: seq<StepRow>)
    requires forall k :: 0 <= k < |newRows| ==> newRows[k].reportId == reportId
    ensures StepsOf(StepsNotOf(steps, reportId) + newRows, reportId) == newRows
  {
    var others := StepsNotOf(steps, reportId);
    FilterConcat(others, newRows, OfReport(reportId));
    FilterNone(others, OfReport(reportId));
    FilterAll(newRows, OfReport(reportId));
  }

  /** Selecting every other report's rows after the reset gives the rows they had. */
  lemma ResetKeepsOthers(steps: seq<StepRow>, reportId: string, newRows: seq<StepRow>)
    requires forall k :: 0 <= k < |newRows| ==> newRows[k].reportId == reportId
    ensures StepsNotOf(StepsNotOf(steps, reportId) + newRows, reportId) == StepsNotOf(steps, reportId)
  {
    var others := StepsNotOf(steps, reportId);
    FilterConcat(others, newRows, NotOfReport(reportId));
    FilterAll(others, NotOfReport(reportId));
    FilterNone(newRows, NotOfReport(reportId));
  }

  /** For the source's plan: eight rows, whatever was there before. */
  lemma ResetLeavesEight(steps: seq<StepRow>, reportId: string, taskId: string, now: int, suffix: nat -> string)
    ensures |StepsOf(ResetSteps(steps, reportId, taskId, now, suffix, Plan), reportId)| == 8
  {
    ResetRebuildsSteps(steps, reportId, taskId, now, suffix, Plan);
    PlanShape();
  }

  // ---------------------------------------------------------------- the step prompt

  datatype Prompt = Prompt(system: string, content: string)

  /** The script file as PHP names it in a TypeError's call site. */
  const ScriptPath := "worker/task_processor.php"

  /**
   * The message of the TypeError PHP raises when a parameter declared `array` of a user function
   * gets another value: the function, the argument, the type given, then the call site.
   */
  function ArrayArgumentError(fn: string, position: nat, name: string, given: Json, calledAt: nat): (m: string)
    ensures var head := "TaskProcessor::" + fn + "(): Argument #";
      |head| <= |m| && m[..|head|] == head
    ensures var tail := "given, called in " + ScriptPath + " on line " + NatToString(calledAt);
      |tail| <= |m| && m[|m| - |tail|..] == tail
  {
    hide NatToString, TypeName;
    var head := "TaskProcessor::" + fn + "(): Argument #";
    var mid := NatToString(position) + " ($" + name + ") must be of type array, " + TypeName(given) + " ";
    var tail := "given, called in " + ScriptPath + " on line " + NatToString(calledAt);
    assert (head + mid + tail)[..|head|] == head;
    assert (head + mid + tail)[|head + mid|..] == tail;
    head + mid + tail
  }

  /** implode('、', array_map('strval', $values)). */
  function JoinStrval(vs: seq<Json>): string {
    if vs == [] then ""
    else if |vs| == 1 then Interpolate(vs[0])
    else Interpolate(vs[0]) + "、" + JoinStrval(vs[1..])
  }

  function ArrayValues(j: Json): seq<Json> {
    match j
    case JList(items) => items
    case JObject(fields) => seq(|fields|, k requires 0 <= k < |fields| => fields[k].1)
    case _ => []
  }

  const BaseSystem: string := "你是一位具备20年经验的商业策略顾问，需要为给定商业构想生成严谨的分析。"
  const DeepSentence: string := " 输出要包含定量指标、框架工具和实施建议。"
  const CompletedHeading: string := "\n\n已完成分析阶段：\n"

  /** The system prompt: one sentence more for a 'deep' analysis, one more for non-empty focus areas. */
  function StepSystem(input: Json): string {
    var depth := Coalesce(Lookup(input, [Key("analysis_depth")]), JStr("standard"));
    var focus := Coalesce(Lookup(input, [Key("focus_areas")]), JList([]));
    BaseSystem +
    (if depth == JStr("deep") then DeepSentence else "") +
    (if Truthy(focus) && IsArray(focus)
     then " 用户特别希望深入以下领域：" + JoinStrval(ArrayValues(focus)) + "。请在相关部分给予重点讨论。"
     else "")
  }

  /** The idea and the industry, each with its fallback. */
  function StepContext(input: Json): string {
    var idea := Coalesce(Lookup(input, [Key("business_idea")]),
                         Coalesce(Lookup(input, [Key("business_description")]), JStr("")));
    var industry := Coalesce(Lookup(input, [Key("industry")]), JStr("未知行业"));
    "商业想法：" + Interpolate(idea) + "\n行业：" + Interpolate(industry)
  }

  /** One earlier step inside a prompt: its title and the first 120 characters of its tag-free content. */
  function ExcerptLine(title: string, content: string): string {
    "- " + title + "：" + Take(StripTags(content), 120) + "...\n"
  }

  /** The lines of a string built by appending them in order. */
  function Concat(lines: seq<string>): string {
    if lines == [] then "" else Concat(lines[..|lines| - 1]) + lines[|lines| - 1]
  }

  lemma {:induction false} ConcatAppend(x: seq<string>, y: seq<string>)
    ensures Concat(x + y) == Concat(x) + Concat(y)
  {
    if y == [] {
      assert x + y == x;
    } else {
      var n := |y| - 1;
      assert (x + y)[..|x + y| - 1] == x + y[..n];
      ConcatAppend(x, y[..n]);
    }
  }

  /** The excerpt line of each finished step, in the order they finished. */
  function ExcerptLines(prev: Results): (ls: seq<string>)
    ensures |ls| == |prev|
    ensures forall i :: 0 <= i < |prev| ==> ls[i] == ExcerptLine(prev[i].1.title, prev[i].1.content)
  {
    seq(|prev|, i requires 0 <= i < |prev| => ExcerptLine(prev[i].1.title, prev[i].1.content))
  }

  function Excerpts(prev: Results): string {
    Concat(ExcerptLines(prev))
  }

  function TaskText(step: PlanStep): string {
    "\n\n任务：" + step.prompt + "\n请输出条理清晰、可执行的洞察。"
  }

  /** buildStepPrompt: a TypeError message when the input is not an array. */
  function StepPrompt(input: Json, step: PlanStep, prev: Results): Result<Prompt, string> {
    if !IsArray(input) then Err(ArrayArgumentError("buildStepPrompt", 1, "input", input, 116))
    else
      Ok(Prompt(StepSystem(input),
                StepContext(input) + (if prev == [] then "" else CompletedHeading + Excerpts(prev)) + TaskText(step)))
  }

  /** In a string built from lines, line i comes before every later line j. */
  lemma ConcatInOrder(ls: seq<string>, i: nat, j: nat)
    requires i < j < |ls|
    ensures exists u, v, w :: Concat(ls) == u + ls[i] + v + ls[j] + w
  {
    var a, b, c := ls[..i], ls[i + 1..j], ls[j + 1..];
    var x1, x2, x3 := ls[..i + 1], ls[..j], ls[..j + 1];
    Split(ls, j + 1, |ls|);
    Split(ls, j, j + 1);
    Split(ls, i + 1, j);
    Split(ls, i, i + 1);
    assert ls == x3 + c by { assert ls[..|ls|] == ls; }
    ConcatAppend(x3, c);
    ConcatAppend(x1, b);
    var u, v, w := Concat(a), Concat(b), Concat(c);
    assert x3[..|x3| - 1] == x2 && x3[|x3| - 1] == ls[j];
    assert x1[..|x1| - 1] == a && x1[|x1| - 1] == ls[i];
    assert Concat(ls) == Concat(x3) + w;
    assert Concat(x3) == Concat(x2) + ls[j];
    assert Concat(x2) == Concat(x1) + v;
    assert Concat(x1) == u + ls[i];
    assert Concat(ls) == u + ls[i] + v + ls[j] + w;
  }

  lemma Split<T>(s: seq<T>, i: nat, j: nat)
    requires i <= j <= |s|
    ensures s[..j] == s[..i] + s[i..j]
    ensures j == i + 1 ==> s[i..j] == [s[i]]
    ensures j == |s| ==> s[i..j] == s[i..]
  {
  }

  /** The excerpt of finished step i sits in the excerpt section before that of every later step j. */
  lemma ExcerptsInOrder(prev: Results, i: nat, j: nat)
    requires i < j < |prev|
    ensures exists u, v, w :: (Excerpts(prev) ==
      u + ExcerptLine(prev[i].1.title, prev[i].1.content) + v + ExcerptLine(prev[j].1.title, prev[j].1.content) + w)
  {
    ConcatInOrder(ExcerptLines(prev), i, j);
  }

  /** Appending the excerpt of one more finished step. */
  lemma ExcerptsSnoc(prev: Results, i: nat)
    requires i < |prev|
    ensures Excerpts(prev[..i + 1]) == Excerpts(prev[..i]) + ExcerptLine(prev[i].1.title, prev[i].1.content)
  {
    var ls := ExcerptLines(prev[..i + 1]);
    assert ls[..|ls| - 1] == ExcerptLines(prev[..i]);
  }

  /**
   * The prompt of step k (k > 0) after the first k steps: the context, then under the heading the
   * excerpts of exactly those k steps, excerpt i titled with step i's title, then step k's task.
   */
  lemma PromptOfStep(input: Json, plan: seq<PlanStep>, k: nat, prev: Results)
    requires IsArray(input) && 0 < k < |plan| && ResultsShape(prev, plan, k)
    ensures StepPrompt(input, plan[k], prev).Ok?
    ensures StepPrompt(input, plan[k], prev).value.content ==
      StepContext(input) + CompletedHeading + Concat(ExcerptLines(prev)) + TaskText(plan[k])
    ensures StepPrompt(input, plan[k], prev).value.system == StepSystem(input)
    ensures |ExcerptLines(prev)| == k
    ensures forall i :: 0 <= i < k ==>
      ExcerptLines(prev)[i] == ExcerptLine(plan[i].title, prev[i].1.content)
  {
  }

  /** The first step's prompt has no excerpt section at all. */
  lemma FirstPromptHasNoExcerpts(input: Json, step: PlanStep)
    requires IsArray(input)
    ensures StepPrompt(input, step, []).Ok?
    ensures StepPrompt(input, step, []).value.content == StepContext(input) + TaskText(step)
  {
  }

  // ---------------------------------------------------------------- one step of the pipeline

  /** What the invoker answers for step k's prompt: a response, or the message of its exception. */
  type Answer = (nat, Prompt) -> Result<AiResponse, string>

  /** The prompt of a step given the results so far: buildStepPrompt on the job's input. */
  type PromptFn = (PlanStep, Results) -> Result<Prompt, string>

  function Prompts(input: Json): PromptFn {
    (s: PlanStep, prev: Results) => StepPrompt(input, s, prev)
  }

  /**
   * The world a job runs in: the time stamps NOW() gives, the measured durations, the random
   * suffixes of the step ids, and the invoker's world for each step (md5 of the prompt, and the
   * curl results and jitter per step, provider and attempt).
   */
  datatype World = World(
    claimedAt: int,
    resetAt: int,
    stepStartedAt: nat -> int,
    stepFinishedAt: nat -> int,
    stepMs: nat -> int,
    finishedAt: int,
    durationMs: int,
    stepSuffix: nat -> string,
    md5: string -> string,
    net: (nat, nat, nat) -> Wire,
    jitter: (nat, nat, nat) -> Jitter)

  /** The options of the call: the step's system prompt (the float temperature is not modelled). */
  function StepEnv(w: World, k: nat, p: Prompt): Env {
    Env(p.content, Options(None, Some(p.system), None, None, None, None), w.md5(p.content),
        (pi: nat, a: nat) => w.net(k, pi, a), (pi: nat, a: nat) => w.jitter(k, pi, a))
  }

  /** The configured invoker's answer to each step: callWithRetry run to its result. */
  function Answers(ps: seq<Provider>, w: World): Answer {
    (k: nat, p: Prompt) => RunChain(ps, 0, StepEnv(w, k, p), None).result
  }

  /** One job in flight: the row, the plan, how prompts are built and answered, and its world. */
  datatype Job = Job(task: TaskRow, plan: seq<PlanStep>, prompt: PromptFn, answer: Answer, world: World)

  /** trim($response['content'] ?? ''): an array content makes trim() throw. */
  function ResponseText(resp: AiResponse): (r: Result<string, string>)
    ensures IsArray(resp.content) <==> r.Err?
    ensures r.Err? ==> r.error == TrimTypeError
    ensures resp.content.JStr? ==> r == Ok(Trim(resp.content.s))
    ensures resp.content.JNull? ==> r == Ok("")
  {
    TrimValue(resp.content)
  }

  /** markStepProcessing for step k. */
  function MarkSteps(steps: seq<StepRow>, reportId: string, plan: seq<PlanStep>, k: nat, now: int): seq<StepRow>
    requires k < |plan|
  {
    UpdateStep(steps, reportId, plan[k].name, MarkRow(now))
  }

  /** updateTaskProgress for step k: current_step k + 1 of count($steps). */
  function ProgressQueue(q: seq<TaskRow>, id: int, plan: seq<PlanStep>, k: nat): seq<TaskRow>
    requires k < |plan|
  {
    UpdateTask(q, id, ProgressRow(k + 1, |plan|, "正在执行：" + plan[k].title))
  }

  /** storeStepResult for step k, with the word count of the tag-free content. */
  function StoreSteps(steps: seq<StepRow>, reportId: string, plan: seq<PlanStep>, k: nat, resp: AiResponse, content: string, w: World): seq<StepRow>
    requires k < |plan|
  {
    UpdateStep(steps, reportId, plan[k].name,
               StoreRow(resp, content, WordCount(StripTags(content)), w.stepMs(k), w.stepFinishedAt(k)))
  }

  /** The tables once step k has started: its rows marked, the job's progress updated. */
  function Begin(j: Job, k: nat, db: Db): Db
    requires k < |j.plan|
  {
    Db(ProgressQueue(db.queue, j.task.id, j.plan, k),
       MarkSteps(db.steps, j.task.reportId, j.plan, k, j.world.stepStartedAt(k)), db.reports, db.nextTaskId)
  }

  datatype StepOutcome =
    | Advanced(db: Db, results: Results, response: AiResponse, content: string)
    | Stopped(db: Db, message: string)

  /** One iteration of the step loop; a thrown exception stops it with its message. */
  function StepOnce(j: Job, k: nat, db: Db, results: Results): (o: StepOutcome)
    requires k < |j.plan|
    ensures o.db.queue == ProgressQueue(db.queue, j.task.id, j.plan, k) && o.db.reports == db.reports
    ensures o.db.nextTaskId == db.nextTaskId
    ensures o.Stopped? ==> o.db.steps == MarkSteps(db.steps, j.task.reportId, j.plan, k, j.world.stepStartedAt(k))
    ensures o.Advanced? ==>
      o.db.steps == StoreSteps(MarkSteps(db.steps, j.task.reportId, j.plan, k, j.world.stepStartedAt(k)),
                               j.task.reportId, j.plan, k, o.response, o.content, j.world) &&
      o.results == results + [(j.plan[k].name, StepResult(j.plan[k].title, o.content))]
  {
    var d := Begin(j, k, db);
    match j.prompt(j.plan[k], results)
    case Err(m) => Stopped(d, m)
    case Ok(p) =>
      match j.answer(k, p)
      case Err(m) => Stopped(d, m)
      case Ok(resp) =>
        match ResponseText(resp)
        case Err(m) => Stopped(d, m)
        case Ok(content) =>
          Advanced(d.(steps := StoreSteps(d.steps, j.task.reportId, j.plan, k, resp, content, j.world)),
                   results + [(j.plan[k].name, StepResult(j.plan[k].title, content))], resp, content)
  }

  /** The outcome of steps k.. of the loop; `reached` is the step that threw, or the plan's length. */
  datatype Ran = Ran(db: Db, result: Result<Results, string>, reached: nat)

  /** One iteration of the step loop, given the step's index, the tables and the results so far. */
  type StepFn = (nat, Db, Results) -> StepOutcome

  /** The loop `foreach ($steps as $i => $step)` over steps k..n-1: each step runs until one throws. */
  function Loop(step: StepFn, n: nat, k: nat, db: Db, results: Results): (o: Ran)
    requires k <= n
    ensures o.result.Err? ==> k <= o.reached < n
    ensures o.result.Ok? ==> o.reached == n
    decreases n - k
  {
    if k == n then Ran(db, Ok(results), k)
    else
      match step(k, db, results)
      case Stopped(d, m) => Ran(d, Err(m), k)
      case Advanced(d, r, _, _) => Loop(step, n, k + 1, d, r)
  }

  /** The job's iteration; there is no step past the end of the plan. */
  function Stepper(j: Job): StepFn {
    (k: nat, d: Db, r: Results) => if k < |j.plan| then StepOnce(j, k, d, r) else Stopped(d, "")
  }

  /** The whole step loop of a job, from no results. */
  function RunSteps(j: Job, db: Db): Ran {
    Loop(Stepper(j), |j.plan|, 0, db, [])
  }

  /** `$payload['input'] ?? []`. */
  function InputOf(payload: Json): Json {
    Coalesce(Lookup(payload, [Key("input")]), JList([]))
  }

  /** The tables after resetReportSteps for a job. */
  function ResetDb(plan: seq<PlanStep>, db: Db, t: TaskRow, w: World): Db {
    db.(steps := ResetSteps(db.steps, t.reportId, t.taskId, w.resetAt, w.stepSuffix, plan))
  }

  /** analyzeBusinessIdea: reset the step rows, then the eight steps. */
  function Analyze(plan: seq<PlanStep>, t: TaskRow, payload: Json, db: Db, answer: Answer, w: World): Ran {
    RunSteps(Job(t, plan, Prompts(InputOf(payload)), answer, w), ResetDb(plan, db, t, w))
  }

  // ---------------------------------------------------------------- finishing a job

  /** The result column: {"steps": {name: {title, content}, ...}, "duration_ms": n}. */
  function ResultJson(results: Results, ms: int): Json {
    var steps := seq(|results|, k requires 0 <= k < |results| =>
      (results[k].0, JObject([("title", JStr(results[k].1.title)), ("content", JStr(results[k].1.content))])));
    JObject([("steps", if results == [] then JList([]) else JObject(steps)), ("duration_ms", JInt(ms))])
  }

  /** The result column of a finished run: one member per step, in plan order, under its name. */
  lemma ResultJsonOfRun(results: Results, plan: seq<PlanStep>, ms: int)
    requires 0 < |plan| && ResultsShape(results, plan, |plan|)
    ensures var r := ResultJson(results, ms);
      r.JObject? && Get(r.fields, "duration_ms") == Some(JInt(ms)) &&
      Get(r.fields, "steps").Some? && Get(r.fields, "steps").value.JObject? &&
      var fs := Get(r.fields, "steps").value.fields;
      |fs| == |plan| &&
      forall i :: 0 <= i < |plan| ==>
        fs[i] == (plan[i].name, JObject([("title", JStr(plan[i].title)), ("content", JStr(results[i].1.content))]))
  {
  }

  /** completeTask: the job row completed with the result document; the report completed. */
  function CompleteJob(db: Db, t: TaskRow, results: Results, ms: int, now: int): (d: Db)
    ensures d.steps == db.steps && |d.queue| == |db.queue| && |d.reports| == |db.reports|
    ensures forall k :: 0 <= k < |db.queue| && db.queue[k].id == t.id ==>
      d.queue[k] == db.queue[k].(status := Completed, result := ResultJson(results, ms), completedAt := Some(now))
    ensures forall k :: 0 <= k < |db.queue| && db.queue[k].id != t.id ==> d.queue[k] == db.queue[k]
    ensures forall k :: 0 <= k < |db.reports| ==>
      d.reports[k] == if db.reports[k].reportId == t.reportId
                      then db.reports[k].(status := ReportCompleted, updatedAt := Some(now), completedAt := Some(now))
                      else db.reports[k]
  {
    db.(queue := UpdateTask(db.queue, t.id, CompleteRow(ResultJson(results, ms), now)),
        reports := UpdateReport(db.reports, t.reportId, ReportDone(now)))
  }

  /**
   * failTask: the job row failed with the message cut to its first 1000 characters and one more
   * retry counted; the report failed; nothing else changes.
   */
  function FailJob(db: Db, t: TaskRow, message: string, now: int): (d: Db)
    ensures d.steps == db.steps && |d.queue| == |db.queue| && |d.reports| == |db.reports|
    ensures forall k :: 0 <= k < |db.queue| && db.queue[k].id == t.id ==>
      d.queue[k] == db.queue[k].(status := Failed, errorMessage := Some(Take(message, 1000)),
                                 completedAt := Some(now), retryCount := db.queue[k].retryCount + 1)
    ensures forall k :: 0 <= k < |db.queue| && db.queue[k].id != t.id ==> d.queue[k] == db.queue[k]
    ensures forall k :: 0 <= k < |db.reports| ==>
      d.reports[k] == if db.reports[k].reportId == t.reportId then db.reports[k].(status := ReportFailed, updatedAt := Some(now)) else db.reports[k]
  {
    db.(queue := UpdateTask(db.queue, t.id, FailRow(message, now)),
        reports := UpdateReport(db.reports, t.reportId, ReportFail(now)))
  }

  const AnalyzeType: string := "analyze_business_idea"

  /** processTask: dispatch on the type; any exception fails the job with its message. */
  function Process(plan: seq<PlanStep>, t: TaskRow, db: Db, answer: Answer, w: World): Db {
    var payload := DecodePayload(t.payload);
    if t.taskType != AnalyzeType then FailJob(db, t, "Unknown task type: " + t.taskType, w.finishedAt)
    else if !IsArray(payload) then
      FailJob(db, t, ArrayArgumentError("analyzeBusinessIdea", 2, "payload", payload, 77), w.finishedAt)
    else
      var ran := Analyze(plan, t, payload, db, answer, w);
      match ran.result
      case Ok(res) => CompleteJob(ran.db, t, res, w.durationMs, w.finishedAt)
      case Err(m) => FailJob(ran.db, t, m, w.finishedAt)
  }

  // ---------------------------------------------------------------- properties of the pipeline

  /** The report's step rows are numbered by plan position and carry that step's name. */
  predicate WellNamed(steps: seq<StepRow>, reportId: string, plan: seq<PlanStep>) {
    forall i :: 0 <= i < |steps| && steps[i].reportId == reportId ==>
      1 <= steps[i].stepNumber <= |plan| && steps[i].stepName == plan[steps[i].stepNumber - 1].name
  }

  /** The report's rows for the first k steps are completed. */
  predicate CompletedUpTo(steps: seq<StepRow>, reportId: string, k: nat) {
    forall i :: 0 <= i < |steps| && steps[i].reportId == reportId && steps[i].stepNumber <= k ==>
      steps[i].status == StepCompleted
  }

  /** Right after the reset the report's rows are well named and all pending. */
  lemma ResetWellNamed(steps: seq<StepRow>, reportId: string, taskId: string, now: int, suffix: nat -> string, plan: seq<PlanStep>)
    ensures var all := ResetSteps(steps, reportId, taskId, now, suffix, plan);
      WellNamed(all, reportId, plan) && CompletedUpTo(all, reportId, 0) &&
      forall i :: 0 <= i < |all| && all[i].reportId == reportId ==> all[i].status == StepPending
  {
    var others := StepsNotOf(steps, reportId);
    var newRows := FreshSteps(reportId, taskId, now, suffix, plan);
    var all := ResetSteps(steps, reportId, taskId, now, suffix, plan);
    assert forall i :: 0 <= i < |others| ==> all[i] == others[i] && NotOfReport(reportId)(others[i]);
    forall i | |others| <= i < |all|
      ensures all[i] == newRows[i - |others|]
    {
    }
  }

  /** On the report's well-named rows, step k's name picks out exactly the rows numbered k + 1. */
  lemma NameIsNumber(steps: seq<StepRow>, reportId: string, plan: seq<PlanStep>, k: nat, i: nat)
    requires DistinctNames(plan) && k < |plan| && i < |steps| && WellNamed(steps, reportId, plan)
    requires steps[i].reportId == reportId
    ensures steps[i].stepName == plan[k].name <==> steps[i].stepNumber == k + 1
  {
  }

  /**
   * When step k starts, the rows of step k are processing with their start time and no other
   * step row changes.
   */
  lemma MarkStepRows(steps: seq<StepRow>, reportId: string, plan: seq<PlanStep>, k: nat, now: int)
    requires DistinctNames(plan) && k < |plan| && WellNamed(steps, reportId, plan)
    ensures var s := MarkSteps(steps, reportId, plan, k, now);
      |s| == |steps| && WellNamed(s, reportId, plan) &&
      forall i :: 0 <= i < |steps| ==>
        if steps[i].reportId == reportId && steps[i].stepNumber == k + 1
        then s[i] == steps[i].(status := StepProcessing, startedAt := Some(now))
        else s[i] == steps[i]
  {
    forall i | 0 <= i < |steps| && steps[i].reportId == reportId {
      NameIsNumber(steps, reportId, plan, k, i);
    }
  }

  /** When step k ends, its rows are completed with the response; no other step row changes. */
  lemma StoreStepRows(steps: seq<StepRow>, reportId: string, plan: seq<PlanStep>, k: nat, resp: AiResponse, content: string, w: World)
    requires DistinctNames(plan) && k < |plan| && WellNamed(steps, reportId, plan)
    ensures var s := StoreSteps(steps, reportId, plan, k, resp, content, w);
      |s| == |steps| && WellNamed(s, reportId, plan) &&
      forall i :: 0 <= i < |steps| ==>
        if steps[i].reportId == reportId && steps[i].stepNumber == k + 1
        then s[i].status == StepCompleted && s[i].formattedContent == Some(content) &&
             s[i].aiModel == Some(resp.provider) && s[i].stepNumber == k + 1 && s[i].reportId == reportId
        else s[i] == steps[i]
  {
    forall i | 0 <= i < |steps| && steps[i].reportId == reportId {
      NameIsNumber(steps, reportId, plan, k, i);
    }
  }

  /**
   * When step k starts, the job's payload (an object, or NULL) reads current_step = k + 1,
   * total_steps = the number of steps and current_message = '正在执行：' + the step's title; only
   * the payload of that job changes.
   */
  lemma ProgressOfStep(q: seq<TaskRow>, id: int, plan: seq<PlanStep>, k: nat)
    requires k < |plan|
    ensures var q2 := ProgressQueue(q, id, plan, k);
      |q2| == |q| &&
      (forall i :: (0 <= i < |q| && q[i].id == id && (q[i].payload.JObject? || q[i].payload.JNull?)) ==>
        q2[i].payload.JObject? &&
        Get(q2[i].payload.fields, "current_step") == Some(JInt(k + 1)) &&
        Get(q2[i].payload.fields, "total_steps") == Some(JInt(|plan|)) &&
        Get(q2[i].payload.fields, "current_message") == Some(JStr("正在执行：" + plan[k].title))) &&
      (forall i :: 0 <= i < |q| ==>
        q2[i] == q[i].(payload := q2[i].payload) && (q[i].id != id ==> q2[i] == q[i]))
  {
  }

  /** A successful step k keeps the rows well named and completes the rows of step k. */
  lemma StepOnceCompletes(j: Job, k: nat, db: Db, results: Results)
    requires DistinctNames(j.plan) && k < |j.plan|
    requires WellNamed(db.steps, j.task.reportId, j.plan) && CompletedUpTo(db.steps, j.task.reportId, k)
    requires ResultsShape(results, j.plan, k)
    ensures var o := StepOnce(j, k, db, results);
      o.Advanced? ==>
        WellNamed(o.db.steps, j.task.reportId, j.plan) && CompletedUpTo(o.db.steps, j.task.reportId, k + 1) &&
        ResultsShape(o.results, j.plan, k + 1) && o.results[..k] == results
  {
    var o := StepOnce(j, k, db, results);
    hide StepOnce, Begin, ResponseText;
    if o.Advanced? {
      var rid := j.task.reportId;
      var s1 := MarkSteps(db.steps, rid, j.plan, k, j.world.stepStartedAt(k));
      MarkStepRows(db.steps, rid, j.plan, k, j.world.stepStartedAt(k));
      StoreStepRows(s1, rid, j.plan, k, o.response, o.content, j.world);
      var s2 := o.db.steps;
      hide MarkSteps, StoreSteps;
      forall i | 0 <= i < |s2| && s2[i].reportId == rid && s2[i].stepNumber <= k + 1
        ensures s2[i].status == StepCompleted
      {
        assert s1[i].reportId == rid;
      }
      assert o.results[..k] == results;
    }
  }

  /** Only the report's rows numbered k + 1 may change, and no row changes its report or number. */
  predicate OnlyStepChanged(s0: seq<StepRow>, s1: seq<StepRow>, reportId: string, k: nat) {
    |s1| == |s0| &&
    (forall i :: (0 <= i < |s0| && (s0[i].reportId != reportId || s0[i].stepNumber != k + 1)) ==> s1[i] == s0[i]) &&
    (forall i :: 0 <= i < |s0| ==> s1[i].reportId == s0[i].reportId && s1[i].stepNumber == s0[i].stepNumber)
  }

  /**
   * The step table of a run that threw at step `reached`: rows of later steps and of other
   * reports as they were, the rows of the failing step left processing.
   */
  predicate StoppedAt(s0: seq<StepRow>, s1: seq<StepRow>, reportId: string, reached: nat) {
    |s1| == |s0| &&
    (forall i :: (0 <= i < |s0| && s0[i].reportId == reportId && s0[i].stepNumber > reached + 1) ==> s1[i] == s0[i]) &&
    (forall i :: (0 <= i < |s0| && s0[i].reportId != reportId) ==> s1[i] == s0[i]) &&
    (forall i :: (0 <= i < |s0| && s0[i].reportId == reportId && s0[i].stepNumber == reached + 1) ==>
      s1[i].status == StepProcessing)
  }

  /** A step that changed only its own rows, followed by a run that threw at a later step. */
  lemma StoppedLater(s0: seq<StepRow>, s1: seq<StepRow>, reportId: string, k: nat, r: Ran)
    requires OnlyStepChanged(s0, s1, reportId, k)
    requires r.result.Err? ==> k + 1 <= r.reached && StoppedAt(s1, r.db.steps, reportId, r.reached)
    ensures r.result.Err? ==> StoppedAt(s0, r.db.steps, reportId, r.reached)
  {
    if r.result.Err? {
      forall i | 0 <= i < |s0| && s0[i].reportId == reportId && s0[i].stepNumber >= r.reached + 1
        ensures s1[i] == s0[i]
      {
      }
    }
  }

  /**
   * Step k changes only its own rows, and when it throws they stay processing: the rows of
   * every later step and of every other report are untouched.
   */
  lemma StepOnceRows(j: Job, k: nat, db: Db, results: Results)
    requires DistinctNames(j.plan) && k < |j.plan| && WellNamed(db.steps, j.task.reportId, j.plan)
    ensures var o := StepOnce(j, k, db, results);
      OnlyStepChanged(db.steps, o.db.steps, j.task.reportId, k) && WellNamed(o.db.steps, j.task.reportId, j.plan) &&
      (o.Stopped? ==> StoppedAt(db.steps, o.db.steps, j.task.reportId, k))
  {
    var o := StepOnce(j, k, db, results);
    var rid := j.task.reportId;
    var s1 := MarkSteps(db.steps, rid, j.plan, k, j.world.stepStartedAt(k));
    MarkStepRows(db.steps, rid, j.plan, k, j.world.stepStartedAt(k));
    if o.Advanced? {
      StoreStepRows(s1, rid, j.plan, k, o.response, o.content, j.world);
    }
  }

  /** The queue facts a step keeps: no job changes status or retry count, other jobs stay as they were. */
  predicate JobsKept(d0: Db, d1: Db, id: int) {
    d1.reports == d0.reports && d1.nextTaskId == d0.nextTaskId && |d1.queue| == |d0.queue| &&
    forall i :: 0 <= i < |d0.queue| ==>
      d1.queue[i].id == d0.queue[i].id && d1.queue[i].status == d0.queue[i].status &&
      d1.queue[i].retryCount == d0.queue[i].retryCount && d1.queue[i].taskType == d0.queue[i].taskType &&
      (d0.queue[i].id != id ==> d1.queue[i] == d0.queue[i])
  }

  lemma StepOnceJobs(j: Job, k: nat, db: Db, results: Results)
    requires k < |j.plan|
    ensures JobsKept(db, StepOnce(j, k, db, results).db, j.task.id)
  {
    ProgressOfStep(db.queue, j.task.id, j.plan, k);
  }

  // -------------------------------------------------------- the step loop, for any iteration

  /** Every iteration keeps the report's rows well named and touches only its own step's rows. */
  ghost predicate KeepsRows(step: StepFn, plan: seq<PlanStep>, reportId: string) {
    forall k: nat, d: Db, r: Results :: k < |plan| && WellNamed(d.steps, reportId, plan) ==>
      OnlyStepChanged(d.steps, step(k, d, r).db.steps, reportId, k) &&
      WellNamed(step(k, d, r).db.steps, reportId, plan) &&
      (step(k, d, r).Stopped? ==> StoppedAt(d.steps, step(k, d, r).db.steps, reportId, k))
  }

  /** Every successful iteration completes its step's rows and appends its step's result. */
  ghost predicate Completes(step: StepFn, plan: seq<PlanStep>, reportId: string) {
    forall k: nat, d: Db, r: Results ::
      (k < |plan| && WellNamed(d.steps, reportId, plan) && CompletedUpTo(d.steps, reportId, k) &&
       ResultsShape(r, plan, k) && step(k, d, r).Advanced?) ==>
        WellNamed(step(k, d, r).db.steps, reportId, plan) &&
        CompletedUpTo(step(k, d, r).db.steps, reportId, k + 1) &&
        ResultsShape(step(k, d, r).results, plan, k + 1)
  }

  /** Every iteration keeps the queue facts of JobsKept. */
  ghost predicate KeepsJobs(step: StepFn, n: nat, id: int) {
    forall k: nat, d: Db, r: Results :: k < n ==> JobsKept(d, step(k, d, r).db, id)
  }

  /** A loop that throws leaves untouched the rows of every step after the failing one. */
  lemma {:induction false} LoopStops(step: StepFn, plan: seq<PlanStep>, reportId: string, k: nat, db: Db, results: Results)
    requires KeepsRows(step, plan, reportId)
    requires k <= |plan| && WellNamed(db.steps, reportId, plan)
    ensures var o := Loop(step, |plan|, k, db, results);
      o.result.Err? ==> StoppedAt(db.steps, o.db.steps, reportId, o.reached)
    decreases |plan| - k
  {
    if k < |plan| {
      var o := step(k, db, results);
      if o.Advanced? {
        LoopStops(step, plan, reportId, k + 1, o.db, o.results);
        StoppedLater(db.steps, o.db.steps, reportId, k, Loop(step, |plan|, k + 1, o.db, o.results));
      }
    }
  }

  /** A loop that finishes has completed every row of the report and holds one result per step. */
  lemma {:induction false} LoopCompletes(step: StepFn, plan: seq<PlanStep>, reportId: string, k: nat, db: Db, results: Results)
    requires Completes(step, plan, reportId)
    requires k <= |plan| && WellNamed(db.steps, reportId, plan) && CompletedUpTo(db.steps, reportId, k)
    requires ResultsShape(results, plan, k)
    ensures var o := Loop(step, |plan|, k, db, results);
      o.result.Ok? ==>
        WellNamed(o.db.steps, reportId, plan) && CompletedUpTo(o.db.steps, reportId, |plan|) &&
        ResultsShape(o.result.value, plan, |plan|)
    decreases |plan| - k
  {
    if k < |plan| {
      var o := step(k, db, results);
      if o.Advanced? {
        LoopCompletes(step, plan, reportId, k + 1, o.db, o.results);
      }
    }
  }

  /** The loop keeps the queue facts of JobsKept. */
  lemma {:induction false} LoopKeepsJobs(step: StepFn, n: nat, id: int, k: nat, db: Db, results: Results)
    requires KeepsJobs(step, n, id) && k <= n
    ensures JobsKept(db, Loop(step, n, k, db, results).db, id)
    decreases n - k
  {
    if k < n {
      var o := step(k, db, results);
      if o.Advanced? {
        LoopKeepsJobs(step, n, id, k + 1, o.db, o.results);
      }
    }
  }

  // -------------------------------------------------------- the job's step loop

  lemma StepperKeepsRows(j: Job)
    requires DistinctNames(j.plan)
    ensures KeepsRows(Stepper(j), j.plan, j.task.reportId)
  {
    forall k: nat, d: Db, r: Results | k < |j.plan| && WellNamed(d.steps, j.task.reportId, j.plan)
      ensures OnlyStepChanged(d.steps, Stepper(j)(k, d, r).db.steps, j.task.reportId, k) &&
        WellNamed(Stepper(j)(k, d, r).db.steps, j.task.reportId, j.plan) &&
        (Stepper(j)(k, d, r).Stopped? ==> StoppedAt(d.steps, Stepper(j)(k, d, r).db.steps, j.task.reportId, k))
    {
      StepOnceRows(j, k, d, r);
    }
  }

  lemma StepperCompletes(j: Job)
    requires DistinctNames(j.plan)
    ensures Completes(Stepper(j), j.plan, j.task.reportId)
  {
    var rid := j.task.reportId;
    forall k: nat, d: Db, r: Results |
      k < |j.plan| && WellNamed(d.steps, rid, j.plan) && CompletedUpTo(d.steps, rid, k) &&
      ResultsShape(r, j.plan, k) && Stepper(j)(k, d, r).Advanced?
      ensures WellNamed(Stepper(j)(k, d, r).db.steps, rid, j.plan) &&
        CompletedUpTo(Stepper(j)(k, d, r).db.steps, rid, k + 1) &&
        ResultsShape(Stepper(j)(k, d, r).results, j.plan, k + 1)
    {
      StepOnceCompletes(j, k, d, r);
    }
  }

  lemma StepperKeepsJobs(j: Job)
    ensures KeepsJobs(Stepper(j), |j.plan|, j.task.id)
  {
    forall k: nat, d: Db, r: Results | k < |j.plan|
      ensures JobsKept(d, Stepper(j)(k, d, r).db, j.task.id)
    {
      StepOnceJobs(j, k, d, r);
    }
  }

  /**
   * The job's step loop from well-named rows: when it finishes, every row of the report is
   * completed and there is one result per step, under its name, in plan order; when step
   * `reached` throws, the rows of that step are left processing and the rows of every later
   * step and of every other report are untouched; either way no job changes status or retry
   * count and no other job changes at all.
   */
  lemma RunStepsOutcome(j: Job, db: Db)
    requires DistinctNames(j.plan) && WellNamed(db.steps, j.task.reportId, j.plan)
    requires CompletedUpTo(db.steps, j.task.reportId, 0)
    ensures var o := RunSteps(j, db);
      JobsKept(db, o.db, j.task.id) &&
      (o.result.Ok? ==>
        (forall i :: 0 <= i < |o.db.steps| && o.db.steps[i].reportId == j.task.reportId ==>
          o.db.steps[i].status == StepCompleted) &&
        ResultsShape(o.result.value, j.plan, |j.plan|)) &&
      (o.result.Err? ==> o.reached < |j.plan| && StoppedAt(db.steps, o.db.steps, j.task.reportId, o.reached))
  {
    StepperKeepsRows(j);
    StepperCompletes(j);
    StepperKeepsJobs(j);
    LoopStops(Stepper(j), j.plan, j.task.reportId, 0, db, []);
    LoopCompletes(Stepper(j), j.plan, j.task.reportId, 0, db, []);
    LoopKeepsJobs(Stepper(j), |j.plan|, j.task.id, 0, db, []);
  }

  // -------------------------------------------------------- processTask

  /** A job of any type but analyze_business_idea fails with 'Unknown task type: ' + its type. */
  lemma ProcessUnknownType(plan: seq<PlanStep>, t: TaskRow, db: Db, answer: Answer, w: World)
    requires t.taskType != AnalyzeType
    ensures var d := Process(plan, t, db, answer, w);
      d.steps == db.steps && |d.queue| == |db.queue| &&
      (forall i :: 0 <= i < |db.queue| && db.queue[i].id == t.id ==>
        d.queue[i].status == Failed && d.queue[i].retryCount == db.queue[i].retryCount + 1 &&
        d.queue[i].errorMessage == Some(Take("Unknown task type: " + t.taskType, 1000))) &&
      (forall i :: 0 <= i < |db.queue| && db.queue[i].id != t.id ==> d.queue[i] == db.queue[i])
  {
  }

  /** The tables right after the reset: the report's rows well named, none completed. */
  lemma ResetDbReady(plan: seq<PlanStep>, db: Db, t: TaskRow, w: World)
    ensures var s := ResetDb(plan, db, t, w).steps;
      WellNamed(s, t.reportId, plan) && CompletedUpTo(s, t.reportId, 0) &&
      forall i :: 0 <= i < |s| && s[i].reportId == t.reportId ==> s[i].status == StepPending
  {
    ResetWellNamed(db.steps, t.reportId, t.taskId, w.resetAt, w.stepSuffix, plan);
  }

  /** completeTask after a step loop that finished. */
  lemma CompletedRun(j: Job, db: Db, ms: int, now: int)
    requires DistinctNames(j.plan) && WellNamed(db.steps, j.task.reportId, j.plan)
    requires CompletedUpTo(db.steps, j.task.reportId, 0) && RunSteps(j, db).result.Ok?
    ensures var o := RunSteps(j, db);
      var d := CompleteJob(o.db, j.task, o.result.value, ms, now);
      ResultsShape(o.result.value, j.plan, |j.plan|) &&
      (forall i :: 0 <= i < |d.steps| && d.steps[i].reportId == j.task.reportId ==> d.steps[i].status == StepCompleted) &&
      |d.queue| == |db.queue| &&
      (forall i :: 0 <= i < |db.queue| && db.queue[i].id == j.task.id ==>
        d.queue[i].status == Completed && d.queue[i].result == ResultJson(o.result.value, ms) &&
        d.queue[i].retryCount == db.queue[i].retryCount) &&
      (forall i :: 0 <= i < |db.queue| && db.queue[i].id != j.task.id ==> d.queue[i] == db.queue[i]) &&
      (forall i :: 0 <= i < |d.reports| && d.reports[i].reportId == j.task.reportId ==> d.reports[i].status == ReportCompleted)
  {
    RunStepsOutcome(j, db);
  }

  /** failTask after a step loop that threw. */
  lemma FailedRun(j: Job, db: Db, now: int)
    requires DistinctNames(j.plan) && WellNamed(db.steps, j.task.reportId, j.plan)
    requires CompletedUpTo(db.steps, j.task.reportId, 0) && RunSteps(j, db).result.Err?
    ensures var o := RunSteps(j, db);
      var d := FailJob(o.db, j.task, o.result.error, now);
      o.reached < |j.plan| && StoppedAt(db.steps, d.steps, j.task.reportId, o.reached) &&
      |d.queue| == |db.queue| &&
      (forall i :: 0 <= i < |db.queue| && db.queue[i].id == j.task.id ==>
        d.queue[i].status == Failed && d.queue[i].retryCount == db.queue[i].retryCount + 1 &&
        d.queue[i].errorMessage == Some(Take(o.result.error, 1000))) &&
      (forall i :: 0 <= i < |db.queue| && db.queue[i].id != j.task.id ==> d.queue[i] == db.queue[i]) &&
      (forall i :: 0 <= i < |d.reports| && d.reports[i].reportId == j.task.reportId ==> d.reports[i].status == ReportFailed)
  {
    RunStepsOutcome(j, db);
  }

  /**
   * An analysis job whose eight steps all return: every step row of the report completed, the
   * job completed with one result per step, in plan order, under the step's name and title, and
   * the report completed; no other job changes.
   */
  lemma ProcessSucceeds(plan: seq<PlanStep>, t: TaskRow, db: Db, answer: Answer, w: World)
    requires DistinctNames(plan) && t.taskType == AnalyzeType && IsArray(DecodePayload(t.payload))
    requires Analyze(plan, t, DecodePayload(t.payload), db, answer, w).result.Ok?
    ensures var res := Analyze(plan, t, DecodePayload(t.payload), db, answer, w).result.value;
      var d := Process(plan, t, db, answer, w);
      ResultsShape(res, plan, |plan|) &&
      (forall i :: 0 <= i < |d.steps| && d.steps[i].reportId == t.reportId ==> d.steps[i].status == StepCompleted) &&
      |d.queue| == |db.queue| &&
      (forall i :: 0 <= i < |db.queue| && db.queue[i].id == t.id ==>
        d.queue[i].status == Completed && d.queue[i].result == ResultJson(res, w.durationMs) &&
        d.queue[i].retryCount == db.queue[i].retryCount) &&
      (forall i :: 0 <= i < |db.queue| && db.queue[i].id != t.id ==> d.queue[i] == db.queue[i]) &&
      (forall i :: 0 <= i < |d.reports| && d.reports[i].reportId == t.reportId ==> d.reports[i].status == ReportCompleted)
  {
    var j := Job(t, plan, Prompts(InputOf(DecodePayload(t.payload))), answer, w);
    var ran := RunSteps(j, ResetDb(plan, db, t, w));
    ResetDbReady(plan, db, t, w);
    assert Process(plan, t, db, answer, w) == CompleteJob(ran.db, t, ran.result.value, w.durationMs, w.finishedAt);
    CompletedRun(j, ResetDb(plan, db, t, w), w.durationMs, w.finishedAt);
  }

  /**
   * An analysis job whose step `reached` throws: the job failed with the message cut to 1000
   * characters and exactly one more retry, the report failed; of the rebuilt step rows the
   * failing step's are left processing and every later step's are still pending and untouched,
   * as are the rows of other reports; no other job changes.
   */
  lemma ProcessFails(plan: seq<PlanStep>, t: TaskRow, db: Db, answer: Answer, w: World)
    requires DistinctNames(plan) && t.taskType == AnalyzeType && IsArray(DecodePayload(t.payload))
    requires Analyze(plan, t, DecodePayload(t.payload), db, answer, w).result.Err?
    ensures var ran := Analyze(plan, t, DecodePayload(t.payload), db, answer, w);
      var d := Process(plan, t, db, answer, w);
      var s0 := ResetDb(plan, db, t, w).steps;
      ran.reached < |plan| && StoppedAt(s0, d.steps, t.reportId, ran.reached) &&
      (forall i :: 0 <= i < |s0| && s0[i].reportId == t.reportId && s0[i].stepNumber > ran.reached + 1 ==>
        d.steps[i].status == StepPending) &&
      |d.queue| == |db.queue| &&
      (forall i :: 0 <= i < |db.queue| && db.queue[i].id == t.id ==>
        d.queue[i].status == Failed && d.queue[i].retryCount == db.queue[i].retryCount + 1 &&
        d.queue[i].errorMessage == Some(Take(ran.result.error, 1000))) &&
      (forall i :: 0 <= i < |db.queue| && db.queue[i].id != t.id ==> d.queue[i] == db.queue[i]) &&
      (forall i :: 0 <= i < |d.reports| && d.reports[i].reportId == t.reportId ==> d.reports[i].status == ReportFailed)
  {
    var j := Job(t, plan, Prompts(InputOf(DecodePayload(t.payload))), answer, w);
    var ran := RunSteps(j, ResetDb(plan, db, t, w));
    ResetDbReady(plan, db, t, w);
    assert Process(plan, t, db, answer, w) == FailJob(ran.db, t, ran.result.error, w.finishedAt);
    FailedRun(j, ResetDb(plan, db, t, w), w.finishedAt);
  }
}

/**
 * The three tables the job pipeline shares: planwise_task_queue (one row per job),
 * planwise_report_steps (one row per pipeline step of a report) and planwise_reports_v2 (one row
 * per report). Rows are values; every UPDATE of the core is a function from the old table to the
 * new one, and a `Store` object holds the current database for the scripts and the worker that
 * change it.
 */
module TaskStore {
  import opened Wrappers
  import opened Text
  import opened Json
  import opened Invoker

  datatype TaskStatus = Pending | Processing | Completed | Failed
  datatype StepStatus = StepPending | StepProcessing | StepCompleted
  datatype ReportStatus = Analyzing | ReportCompleted | ReportFailed

  /** String forms stored in the status columns. */
  function TaskStatusName(s: TaskStatus): string {
    match s
    case Pending => "pending"
    case Processing => "processing"
    case Completed => "completed"
    case Failed => "failed"
  }

  function StepStatusName(s: StepStatus): string {
    match s
    case StepPending => "pending"
    case StepProcessing => "processing"
    case StepCompleted => "completed"
  }

  /**
   * A queue row. `payload` and `result` are JSON columns held decoded, with JNull standing for
   * SQL NULL; times are abstract timestamps.
   */
  datatype TaskRow = TaskRow(
    id: int,
    taskId: string,
    userId: Option<int>,
    reportId: string,
    taskType: string,
    status: TaskStatus,
    priority: int,
    payload: Json,
    result: Json,
    errorMessage: Option<string>,
    createdAt: int,
    startedAt: Option<int>,
    completedAt: Option<int>,
    retryCount: int)

  datatype StepRow = StepRow(
    stepId: string,
    reportId: string,
    stepNumber: int,
    stepName: string,
    stepTitle: string,
    taskId: string,
    status: StepStatus,
    createdAt: int,
    startedAt: Option<int>,
    completedAt: Option<int>,
    aiModel: Option<string>,
    aiResponse: Option<AiResponse>,
    formattedContent: Option<string>,
    wordCount: Option<int>,
    processingTime: Option<int>)

  datatype ReportRow = ReportRow(
    reportId: string,
    userId: Option<int>,
    taskId: string,
    title: string,
    businessIdea: string,
    industry: string,
    analysisDepth: string,
    status: ReportStatus,
    updatedAt: Option<int>,
    completedAt: Option<int>)

  /** The database: the three tables and the next AUTO_INCREMENT id of the queue. */
  datatype Db = Db(queue: seq<TaskRow>, steps: seq<StepRow>, reports: seq<ReportRow>, nextTaskId: int)

  /** Every queue id is below the AUTO_INCREMENT counter, so ids are distinct and fresh ones new. */
  predicate QueueIdsValid(db: Db) {
    (forall i, j :: 0 <= i < j < |db.queue| ==> db.queue[i].id != db.queue[j].id) &&
    (forall i :: 0 <= i < |db.queue| ==> db.queue[i].id < db.nextTaskId)
  }

  // ---------------------------------------------------------------- SELECT ... WHERE / UPDATE ... WHERE

  /** The rows a WHERE clause selects, in table order. */
  function Filter<T>(s: seq<T>, p: T -> bool): (r: seq<T>)
    ensures |r| <= |s|
    ensures forall k :: 0 <= k < |r| ==> r[k] in s && p(r[k])
    ensures forall k :: 0 <= k < |s| && p(s[k]) ==> s[k] in r
  {
    if s == [] then []
    else if p(s[0]) then [s[0]] + Filter(s[1..], p)
    else Filter(s[1..], p)
  }

  lemma {:induction false} FilterConcat<T>(a: seq<T>, b: seq<T>, p: T -> bool)
    ensures Filter(a + b, p) == Filter(a, p) + Filter(b, p)
  {
    if a == [] {
      assert a + b == b;
    } else {
      assert (a + b)[0] == a[0];
      assert (a + b)[1..] == a[1..] + b;
      FilterConcat(a[1..], b, p);
    }
  }

  /** A WHERE clause that every row satisfies selects the whole table. */
  lemma {:induction false} FilterAll<T>(s: seq<T>, p: T -> bool)
    requires forall k :: 0 <= k < |s| ==> p(s[k])
    ensures Filter(s, p) == s
  {
    if s != [] {
      FilterAll(s[1..], p);
    }
  }

  /** A WHERE clause that no row satisfies selects nothing. */
  lemma {:induction false} FilterNone<T>(s: seq<T>, p: T -> bool)
    requires forall k :: 0 <= k < |s| ==> !p(s[k])
    ensures Filter(s, p) == []
  {
    if s != [] {
      FilterNone(s[1..], p);
    }
  }

  /** `UPDATE t SET ... WHERE p`: f applied to exactly the rows p selects, in place. */
  function MapWhere<T>(s: seq<T>, p: T -> bool, f: T -> T): (r: seq<T>)
    ensures |r| == |s|
    ensures forall k :: 0 <= k < |s| ==> r[k] == if p(s[k]) then f(s[k]) else s[k]
  {
    seq(|s|, k requires 0 <= k < |s| => if p(s[k]) then f(s[k]) else s[k])
  }

  // ---------------------------------------------------------------- queue updates

  /** The claim's UPDATE: status 'processing', started_at = NOW(). */
  function ClaimRow(now: int): TaskRow -> TaskRow {
    (t: TaskRow) => t.(status := Processing, startedAt := Some(now))
  }

  /**
   * JSON_SET(COALESCE(payload, JSON_OBJECT()), '$.current_step', s, '$.total_steps', n,
   * '$.current_message', m). A member path into a document that is not an object sets nothing.
   */
  function ProgressPayload(p: Json, step: int, total: int, message: string): (r: Json)
    ensures p.JObject? || p.JNull? ==>
      r.JObject? &&
      Get(r.fields, "current_step") == Some(JInt(step)) &&
      Get(r.fields, "total_steps") == Some(JInt(total)) &&
      Get(r.fields, "current_message") == Some(JStr(message))
    ensures !(p.JObject? || p.JNull?) ==> r == p
  {
    var base := if p.JNull? then [] else if p.JObject? then p.fields else [];
    if p.JObject? || p.JNull? then
      var f1 := Set(base, "current_step", JInt(step));
      var f2 := Set(f1, "total_steps", JInt(total));
      var f3 := Set(f2, "current_message", JStr(message));
      SetOther(f1, "total_steps", JInt(total), "current_step");
      SetOther(f2, "current_message", JStr(message), "current_step");
      SetOther(f2, "current_message", JStr(message), "total_steps");
      JObject(f3)
    else p
  }

  /** Every other member of the payload (the job's input among them) survives a progress update. */
  lemma ProgressKeepsOtherKeys(fields: seq<(string, Json)>, step: int, total: int, message: string, k: string)
    requires k != "current_step" && k != "total_steps" && k != "current_message"
    ensures ProgressPayload(JObject(fields), step, total, message).JObject?
    ensures Get(ProgressPayload(JObject(fields), step, total, message).fields, k) == Get(fields, k)
  {
    var f1 := Set(fields, "current_step", JInt(step));
    var f2 := Set(f1, "total_steps", JInt(total));
    SetOther(fields, "current_step", JInt(step), k);
    SetOther(f1, "total_steps", JInt(total), k);
    SetOther(f2, "current_message", JStr(message), k);
  }

  function ProgressRow(step: int, total: int, message: string): TaskRow -> TaskRow {
    (t: TaskRow) => t.(payload := ProgressPayload(t.payload, step, total, message))
  }

  /** completeTask's queue UPDATE. */
  function CompleteRow(result: Json, now: int): TaskRow -> TaskRow {
    (t: TaskRow) => t.(status := Completed, result := result, completedAt := Some(now))
  }

  /** failTask's queue UPDATE: the message cut to 1000 characters, one more retry counted. */
  function FailRow(message: string, now: int): TaskRow -> TaskRow {
    (t: TaskRow) => t.(status := Failed, errorMessage := Some(Take(message, 1000)),
                       completedAt := Some(now), retryCount := t.retryCount + 1)
  }

  /** `... WHERE id = ?` on the queue. */
  function ById(id: int): TaskRow -> bool {
    (t: TaskRow) => t.id == id
  }

  function UpdateTask(q: seq<TaskRow>, id: int, f: TaskRow -> TaskRow): (r: seq<TaskRow>)
    ensures |r| == |q|
    ensures forall k :: 0 <= k < |q| ==> r[k] == if q[k].id == id then f(q[k]) else q[k]
  {
    MapWhere(q, ById(id), f)
  }

  // ---------------------------------------------------------------- step and report updates

  /** `... WHERE report_id = ? AND step_name = ?` on the step table. */
  function StepIs(reportId: string, name: string): StepRow -> bool {
    (r: StepRow) => r.reportId == reportId && r.stepName == name
  }

  /** markStepProcessing's UPDATE. */
  function MarkRow(now: int): StepRow -> StepRow {
    (r: StepRow) => r.(status := StepProcessing, startedAt := Some(now))
  }

  /** storeStepResult's UPDATE; ai_model is the response's provider. */
  function StoreRow(response: AiResponse, content: string, words: int, ms: int, now: int): StepRow -> StepRow {
    (r: StepRow) => r.(status := StepCompleted, aiModel := Some(response.provider),
                       aiResponse := Some(response), formattedContent := Some(content),
                       wordCount := Some(words), processingTime := Some(ms), completedAt := Some(now))
  }

  function UpdateStep(steps: seq<StepRow>, reportId: string, name: string, f: StepRow -> StepRow): (r: seq<StepRow>)
    ensures |r| == |steps|
    ensures forall k :: 0 <= k < |steps| ==>
      r[k] == if steps[k].reportId == reportId && steps[k].stepName == name then f(steps[k]) else steps[k]
  {
    MapWhere(steps, StepIs(reportId, name), f)
  }

  function UpdateReport(reports: seq<ReportRow>, reportId: string, f: ReportRow -> ReportRow): (r: seq<ReportRow>)
    ensures |r| == |reports|
    ensures forall k :: 0 <= k < |reports| ==>
      r[k] == if reports[k].reportId == reportId then f(reports[k]) else reports[k]
  {
    MapWhere(reports, (x: ReportRow) => x.reportId == reportId, f)
  }

  function ReportDone(now: int): ReportRow -> ReportRow {
    (x: ReportRow) => x.(status := ReportCompleted, updatedAt := Some(now), completedAt := Some(now))
  }

  function ReportFail(now: int): ReportRow -> ReportRow {
    (x: ReportRow) => x.(status := ReportFailed, updatedAt := Some(now))
  }

  function OfReport(reportId: string): StepRow -> bool {
    (x: StepRow) => x.reportId == reportId
  }

  function NotOfReport(reportId: string): StepRow -> bool {
    (x: StepRow) => x.reportId != reportId
  }

  /** The rows of one report (`WHERE report_id = ?`), in table order. */
  function StepsOf(steps: seq<StepRow>, reportId: string): (r: seq<StepRow>)
    ensures forall x :: x in r <==> x in steps && x.reportId == reportId
  {
    Filter(steps, OfReport(reportId))
  }

  /** The rows of every other report. */
  function StepsNotOf(steps: seq<StepRow>, reportId: string): (r: seq<StepRow>)
    ensures forall x :: x in r <==> x in steps && x.reportId != reportId
  {
    Filter(steps, NotOfReport(reportId))
  }

  /** A JSON column as read back: json_decode($column ?? '{}', true) ?: []. */
  function DecodePayload(p: Json): (r: Json)
    ensures Truthy(p) ==> r == p
    ensures !Truthy(p) ==> r == JList([])
  {
    if Truthy(p) then p else JList([])
  }

  /** The database the scripts and the worker share. */
  class Store {
    var db: Db

    constructor(initial: Db)
      ensures db == initial
    {
      db := initial;
    }
  }
}

/**
 * The submission endpoint api/task/create.php: early-exit validation of the request, the
 * defaults for a new report, and the transaction that inserts the report row and the queue row
 * together or not at all.
 */
module TaskCreate {
  import opened Wrappers
  import opened Text
  import opened Json
  import opened TaskStore
  import Worker
  import TaskStatus

  /** The request: its method, the X-CSRF-Token header, the decoded body (JNull when it does not
   *  decode) and the session's user id. */
  datatype Request = Request(httpMethod: string, csrfHeader: Option<string>, body: Json, sessionUser: Option<int>)

  /**
   * What the CSRF check can see: whether a `generate_csrf_token` function is defined at all, the
   * session's token, and the token that function would return.
   */
  datatype CsrfEnv = CsrfEnv(helperDefined: bool, sessionToken: Option<string>, generated: string)

  /** A JSON error reply, the success reply echoing the ids, or an uncaught error (HTTP 500). */
  datatype Reply = Failure(code: int, message: string) | Created(taskId: Json, reportId: Json) | Fatal(error: string)

  /** Where the transaction can throw. */
  datatype Fault = NoFault | ReportInsertFails | QueueInsertFails | CommitFails

  /** A request that passed validation, with every default applied. */
  datatype Submission = Submission(
    taskId: Json,
    taskType: Json,
    data: Json,
    userId: Option<int>,
    idea: string,
    depth: Json,
    industry: Json,
    title: Json,
    reportId: Json,
    priority: Json)

  /** The CSRF rule: rejected only when the helper exists and both tokens are present and differ. */
  predicate CsrfRejects(env: CsrfEnv, header: Option<string>) {
    var expected := env.sessionToken.GetOr(env.generated);
    env.helperDefined && !Falsy(expected) && header.Some? && !Falsy(header.value) && expected != header.value
  }

  /** `$data[k] ?? default`. */
  function Field(data: Json, k: string, default: Json): Json {
    Coalesce(Lookup(data, [Key(k)]), default)
  }

  /** The business idea before trimming: business_idea, else business_description, else ''. */
  function IdeaValue(data: Json): Json {
    Field(data, "business_idea", Field(data, "business_description", JStr("")))
  }

  /** The request checks in their order, then the defaults; `hex` is the random report suffix. */
  function Validate(req: Request, env: CsrfEnv, hex: string): (r: Result<Submission, Reply>)
    ensures req.httpMethod != "POST" <==> r == Err(Failure(405, "Method not allowed"))
    ensures req.httpMethod == "POST" ==>
      (r == Err(Failure(403, "CSRF token mismatch")) <==> CsrfRejects(env, req.csrfHeader))
    ensures req.httpMethod == "POST" && !CsrfRejects(env, req.csrfHeader) ==>
      (r == Err(Failure(400, "Invalid request body")) <==> !Truthy(req.body))
    ensures r == Err(Failure(400, "Missing task metadata")) <==>
      req.httpMethod == "POST" && !CsrfRejects(env, req.csrfHeader) && Truthy(req.body) &&
      (!Truthy(Field(req.body, "task_id", JStr(""))) || !Truthy(Field(req.body, "type", JStr(""))))
    ensures r.Ok? ==>
      req.httpMethod == "POST" && !CsrfRejects(env, req.csrfHeader) && Truthy(req.body) &&
      Truthy(r.value.taskId) && Truthy(r.value.taskType) && Utf8Length(r.value.idea) >= 10 &&
      r.value.data == Field(req.body, "data", JList([])) &&
      TrimValue(IdeaValue(r.value.data)) == Ok(r.value.idea) && r.value.userId == req.sessionUser
    ensures (req.httpMethod == "POST" && !CsrfRejects(env, req.csrfHeader) && Truthy(req.body) &&
             Truthy(Field(req.body, "task_id", JStr(""))) && Truthy(Field(req.body, "type", JStr("")))) ==>
      (TrimValue(IdeaValue(Field(req.body, "data", JList([])))).Err? ==>
         r == Err(Fatal(TrimValue(IdeaValue(Field(req.body, "data", JList([])))).error))) &&
      (forall i :: TrimValue(IdeaValue(Field(req.body, "data", JList([])))) == Ok(i) ==>
         (Utf8Length(i) < 10 <==> r == Err(Failure(400, "商业想法描述太短"))) &&
         (Utf8Length(i) >= 10 ==>
            r == Ok(WithDefaults(Field(req.body, "task_id", JStr("")), Field(req.body, "type", JStr("")),
                                 Field(req.body, "data", JList([])), req.sessionUser, i, hex))))
  {
    if req.httpMethod != "POST" then Err(Failure(405, "Method not allowed"))
    else if CsrfRejects(env, req.csrfHeader) then Err(Failure(403, "CSRF token mismatch"))
    else if !Truthy(req.body) then Err(Failure(400, "Invalid request body"))
    else
      var taskId := Field(req.body, "task_id", JStr(""));
      var taskType := Field(req.body, "type", JStr(""));
      var data := Field(req.body, "data", JList([]));
      if !Truthy(taskId) || !Truthy(taskType) then Err(Failure(400, "Missing task metadata"))
      else
        match TrimValue(IdeaValue(data))
        case Err(e) => Err(Fatal(e))
        case Ok(idea) =>
          if Utf8Length(idea) < 10 then Err(Failure(400, "商业想法描述太短"))
          else
            Ok(WithDefaults(taskId, taskType, data, req.sessionUser, idea, hex))
  }

  /**
   * The accepted submission: analysis_depth defaults to 'standard', industry to '', the title to
   * business_name and then '未命名商业策略', the report id to 'rpt_' + hex, the priority to 5.
   */
  function WithDefaults(taskId: Json, taskType: Json, data: Json, userId: Option<int>, idea: string, hex: string): (s: Submission)
    ensures s.taskId == taskId && s.taskType == taskType && s.data == data && s.userId == userId && s.idea == idea
    ensures Lookup(data, [Key("analysis_depth")]).None? ==> s.depth == JStr("standard")
    ensures Lookup(data, [Key("industry")]).None? ==> s.industry == JStr("")
    ensures Lookup(data, [Key("title")]).None? && Lookup(data, [Key("business_name")]).None? ==>
      s.title == JStr("未命名商业策略")
    ensures Lookup(data, [Key("title")]).None? && Lookup(data, [Key("business_name")]).Some? ==>
      s.title == Lookup(data, [Key("business_name")]).value
    ensures Lookup(data, [Key("report_id")]).None? ==> s.reportId == JStr("rpt_" + hex)
    ensures Lookup(data, [Key("priority")]).None? ==> IntCast(Interpolate(s.priority)) == 5
    ensures Lookup(data, [Key("analysis_depth")]).Some? ==> s.depth == Lookup(data, [Key("analysis_depth")]).value
    ensures Lookup(data, [Key("industry")]).Some? ==> s.industry == Lookup(data, [Key("industry")]).value
    ensures Lookup(data, [Key("title")]).Some? ==> s.title == Lookup(data, [Key("title")]).value
    ensures Lookup(data, [Key("report_id")]).Some? ==> s.reportId == Lookup(data, [Key("report_id")]).value
    ensures Lookup(data, [Key("priority")]).Some? ==> s.priority == Lookup(data, [Key("priority")]).value
  {
    IntCastOfIntToString(5);
    Submission(
      taskId, taskType, data, userId, idea,
      Field(data, "analysis_depth", JStr("standard")),
      Field(data, "industry", JStr("")),
      Field(data, "title", Field(data, "business_name", JStr("未命名商业策略"))),
      Field(data, "report_id", JStr("rpt_" + hex)),
      Field(data, "priority", JInt(5)))
  }

  /** The initial queue payload: the request data and the progress before any step. */
  function InitialPayload(data: Json): Json {
    JObject([("input", data), ("current_step", JInt(0)), ("total_steps", JInt(8)),
             ("current_message", JStr("等待执行"))])
  }

  /** The report row inserted, with status 'analyzing'. */
  function ReportOf(s: Submission): ReportRow {
    ReportRow(Interpolate(s.reportId), s.userId, Interpolate(s.taskId), Interpolate(s.title), s.idea,
              Interpolate(s.industry), Interpolate(s.depth), Analyzing, None, None)
  }

  /** The queue row inserted, with status 'pending'; the INT priority column reads the bound text. */
  function TaskOf(s: Submission, id: int, now: int): TaskRow {
    TaskRow(id, Interpolate(s.taskId), s.userId, Interpolate(s.reportId), Interpolate(s.taskType), Pending,
            IntCast(Interpolate(s.priority)), InitialPayload(s.data), JNull, None, now, None, None, 0)
  }

  /**
   * The tables after the transaction. A rollback restores every table, but the queue's
   * AUTO_INCREMENT counter, which InnoDB does not roll back, stays advanced once the queue
   * insert has run.
   */
  function EnqueueDb(db: Db, s: Submission, now: int, fault: Fault): Db {
    match fault
    case NoFault =>
      db.(reports := db.reports + [ReportOf(s)], queue := db.queue + [TaskOf(s, db.nextTaskId, now)],
          nextTaskId := db.nextTaskId + 1)
    case ReportInsertFails => db
    case QueueInsertFails => db
    case CommitFails => db.(nextTaskId := db.nextTaskId + 1)
  }

  function EnqueueReply(s: Submission, fault: Fault): Reply {
    if fault == NoFault then Created(s.taskId, s.reportId) else Failure(500, "任务创建失败")
  }

  /** The effect of the whole script on the tables. */
  function SubmitDb(db: Db, req: Request, env: CsrfEnv, hex: string, now: int, fault: Fault): Db {
    match Validate(req, env, hex)
    case Err(_) => db
    case Ok(s) => EnqueueDb(db, s, now, fault)
  }

  function SubmitReply(req: Request, env: CsrfEnv, hex: string, fault: Fault): Reply {
    match Validate(req, env, hex)
    case Err(r) => r
    case Ok(s) => EnqueueReply(s, fault)
  }

  /** The transaction: insert the report row, then the queue row, then commit; roll back on a throw. */
  method Enqueue(store: Store, s: Submission, now: int, fault: Fault) returns (reply: Reply)
    modifies store
    ensures store.db == EnqueueDb(old(store.db), s, now, fault)
    ensures reply == EnqueueReply(s, fault)
  {
    hide ReportOf, TaskOf;
    var before := store.db;
    if fault == ReportInsertFails {
      return Failure(500, "任务创建失败");
    }
    store.db := store.db.(reports := store.db.reports + [ReportOf(s)]);
    if fault == QueueInsertFails {
      store.db := before;
      return Failure(500, "任务创建失败");
    }
    var id := store.db.nextTaskId;
    store.db := store.db.(queue := store.db.queue + [TaskOf(s, id, now)], nextTaskId := id + 1);
    if fault == CommitFails {
      store.db := before.(nextTaskId := id + 1);
      return Failure(500, "任务创建失败");
    }
    reply := Created(s.taskId, s.reportId);
  }

  /** The script: validation, then the transaction. */
  method Submit(store: Store, req: Request, env: CsrfEnv, hex: string, now: int, fault: Fault) returns (reply: Reply)
    modifies store
    ensures store.db == SubmitDb(old(store.db), req, env, hex, now, fault)
    ensures reply == SubmitReply(req, env, hex, fault)
  {
    match Validate(req, env, hex)
    case Err(r) =>
      reply := r;
    case Ok(s) =>
      reply := Enqueue(store, s, now, fault);
  }

  // ---------------------------------------------------------------- properties of a submission

  /** A request refused by validation, an exception included, writes nothing. */
  lemma RejectedWritesNothing(db: Db, req: Request, env: CsrfEnv, hex: string, now: int, fault: Fault)
    requires Validate(req, env, hex).Err?
    ensures SubmitDb(db, req, env, hex, now, fault) == db
    ensures SubmitReply(req, env, hex, fault) == Validate(req, env, hex).error
  {
  }

  /** An idea shorter than 10 bytes after trimming is refused with 400, however the rest reads. */
  lemma ShortIdeaRefused(req: Request, env: CsrfEnv, hex: string)
    requires req.httpMethod == "POST" && !CsrfRejects(env, req.csrfHeader) && Truthy(req.body)
    requires Truthy(Field(req.body, "task_id", JStr(""))) && Truthy(Field(req.body, "type", JStr("")))
    requires var t := TrimValue(IdeaValue(Field(req.body, "data", JList([]))));
      t.Ok? && Utf8Length(t.value) < 10
    ensures Validate(req, env, hex) == Err(Failure(400, "商业想法描述太短"))
  {
  }

  /**
   * A committed submission adds exactly one report row and one queue row, which share the task
   * id and the report id; the step table is untouched.
   */
  lemma CommitAddsTwoRows(db: Db, s: Submission, now: int)
    ensures var db' := EnqueueDb(db, s, now, NoFault);
      |db'.reports| == |db.reports| + 1 && db'.reports[..|db.reports|] == db.reports &&
      |db'.queue| == |db.queue| + 1 && db'.queue[..|db.queue|] == db.queue &&
      db'.steps == db.steps &&
      var r := db'.reports[|db.reports|];
      var t := db'.queue[|db.queue|];
      r.status == Analyzing && t.status == Pending && t.taskId == r.taskId && t.reportId == r.reportId &&
      t.userId == r.userId && t.createdAt == now && t.retryCount == 0
  {
    var db' := EnqueueDb(db, s, now, NoFault);
    assert db'.reports[..|db.reports|] == db.reports;
    assert db'.queue[..|db.queue|] == db.queue;
  }

  /** A transaction that throws leaves every table as it was. */
  lemma FaultRollsBack(db: Db, s: Submission, now: int, fault: Fault)
    requires fault != NoFault
    ensures var db' := EnqueueDb(db, s, now, fault);
      db'.queue == db.queue && db'.steps == db.steps && db'.reports == db.reports &&
      db'.nextTaskId >= db.nextTaskId
    ensures EnqueueReply(s, fault) == Failure(500, "任务创建失败")
  {
  }

  /** Queue ids stay distinct and below the counter, committed or rolled back. */
  lemma EnqueueKeepsIds(db: Db, s: Submission, now: int, fault: Fault)
    requires QueueIdsValid(db)
    ensures QueueIdsValid(EnqueueDb(db, s, now, fault))
  {
    var db' := EnqueueDb(db, s, now, fault);
    if fault == NoFault {
      forall i, j | 0 <= i < j < |db'.queue|
        ensures db'.queue[i].id != db'.queue[j].id
      {
        if j < |db.queue| {
          assert db'.queue[i] == db.queue[i] && db'.queue[j] == db.queue[j];
        } else {
          assert db'.queue[i] == db.queue[i];
        }
      }
      forall i | 0 <= i < |db'.queue|
        ensures db'.queue[i].id < db'.nextTaskId
      {
        if i < |db.queue| {
          assert db'.queue[i] == db.queue[i];
        }
      }
    }
  }

  /** The worker reads back exactly the submitted data as the job's input. */
  lemma WorkerSeesInput(s: Submission, id: int, now: int)
    requires s.data != JNull
    ensures Worker.InputOf(TaskOf(s, id, now).payload) == s.data
  {
    LookupKey(InitialPayload(s.data).fields, "input", s.data, []);
    assert [Key("input")] + [] == [Key("input")];
  }

  /**
   * Polled right after it is committed, a new job whose task id was not yet queued shows to its
   * submitter (and to anyone when nobody was logged in) as pending at step 0 of 8, waiting.
   */
  lemma NewTaskVisible(db: Db, s: Submission, now: int, viewer: Option<int>)
    requires Truthy(s.taskId)
    requires forall k :: 0 <= k < |db.queue| ==> db.queue[k].taskId != Interpolate(s.taskId)
    requires viewer == s.userId || s.userId.None?
    ensures var db' := EnqueueDb(db, s, now, NoFault);
      var reply := TaskStatus.Status(Some(Interpolate(s.taskId)), viewer, db');
      reply.Success? && reply.snapshot.status == "pending" && reply.snapshot.reportId == Interpolate(s.reportId) &&
      reply.snapshot.currentStep == JInt(0) && reply.snapshot.totalSteps == JInt(8) &&
      reply.snapshot.currentMessage == JStr("等待执行") &&
      reply.snapshot.result.None? && reply.snapshot.error.None?
  {
    var db' := EnqueueDb(db, s, now, NoFault);
    var t := TaskOf(s, db.nextTaskId, now);
    TruthyText(s.taskId);
    FindNew(db.queue, t);
    InitialLookups(s.data);
    hide Worker.InputOf, InitialPayload;
  }

  /** The first queue row with a task id not queued before is the one appended. */
  lemma FindNew(q: seq<TaskRow>, t: TaskRow)
    requires forall k :: 0 <= k < |q| ==> q[k].taskId != t.taskId
    ensures TaskStatus.FindTask(q + [t], t.taskId) == Some(t)
  {
    if q != [] {
      assert (q + [t])[1..] == q[1..] + [t];
      FindNew(q[1..], t);
    }
  }

  /** A member of the initial payload, as read back. */
  lemma InitialMember(data: Json, k: string, v: Json)
    requires Get(InitialPayload(data).fields, k) == Some(v) && !v.JNull?
    ensures Lookup(DecodePayload(InitialPayload(data)), [Key(k)]) == Some(v)
  {
    var p := InitialPayload(data);
    assert DecodePayload(p) == p;
    hide Get, InitialPayload, DecodePayload;
    LookupKey(p.fields, k, v, []);
    assert [Key(k)] + [] == [Key(k)];
  }

  /** The initial payload's progress members, as read back. */
  lemma InitialLookups(data: Json)
    ensures var p := DecodePayload(InitialPayload(data));
      Lookup(p, [Key("current_step")]) == Some(JInt(0)) &&
      Lookup(p, [Key("total_steps")]) == Some(JInt(8)) &&
      Lookup(p, [Key("current_message")]) == Some(JStr("等待执行"))
  {
    var f := InitialPayload(data).fields;
    assert Get(f, "current_step") == Some(JInt(0)) by {
      assert f[0].0 != "current_step" && f[1..][0] == ("current_step", JInt(0));
    }
    assert Get(f, "total_steps") == Some(JInt(8)) by {
      assert f[0].0 != "total_steps" && f[1..][0].0 != "total_steps";
      assert f[1..][1..][0] == ("total_steps", JInt(8));
    }
    assert Get(f, "current_message") == Some(JStr("等待执行")) by {
      assert f[0].0 != "current_message" && f[1..][0].0 != "current_message";
      assert f[1..][1..][0].0 != "current_message";
      assert f[1..][1..][1..][0] == ("current_message", JStr("等待执行"));
    }
    hide Get, InitialPayload, DecodePayload, Lookup;
    InitialMember(data, "current_step", JInt(0));
    InitialMember(data, "total_steps", JInt(8));
    InitialMember(data, "current_message", JStr("等待执行"));
  }

  /**
   * db_connect.php defines csrf_token(), not generate_csrf_token(), so with it alone the header
   * is never checked.
   */
  lemma NoHelperNoCsrfCheck(sessionToken: Option<string>, generated: string, header: Option<string>)
    ensures !CsrfRejects(CsrfEnv(false, sessionToken, generated), header)
  {
  }

  /** With the helper, a request carrying the session's own token, or no header, is never refused. */
  lemma MatchingTokenAccepted(env: CsrfEnv, header: Option<string>)
    requires header.None? || Falsy(header.value) || header == Some(env.sessionToken.GetOr(env.generated))
    ensures !CsrfRejects(env, header)
  {
  }
}

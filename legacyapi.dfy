/**
 * api.php, the older JSON endpoint `PlanWiseAPI`: starting an analysis session against the quota,
 * and the simulated progress that advances by one step per poll, at most once every 30 seconds,
 * and has the single-shot service write the report when the eighth step is reached.
 */
module LegacyApi {
  import opened Wrappers
  import opened Text
  import opened Json
  import opened Quota
  import LegacyService

  /** analysis_steps, 1-based in the source: name and progress description (weights only display). */
  const AnalysisSteps: seq<(string, string)> := [
    ("市场环境分析", "正在分析目标市场环境和规模..."), ("竞争对手研究", "正在识别和分析主要竞争对手..."),
    ("目标用户画像", "正在构建详细用户画像..."), ("商业模式设计", "正在设计最优盈利模式..."),
    ("风险评估分析", "正在识别潜在风险因素..."), ("财务预测建模", "正在进行财务建模和预测..."),
    ("营销策略制定", "正在制定营销推广方案..."), ("实施计划规划", "正在制定详细实施路线图...")]

  /** getEstimatedTime, in seconds: basic 300, standard 900, deep 1800, anything else 300. */
  function EstimatedTime(depth: string): (t: int)
    ensures t == 300 || t == 900 || t == 1800
    ensures t == 900 <==> depth == "standard"
    ensures t == 1800 <==> depth == "deep"
  {
    if depth == "standard" then 900 else if depth == "deep" then 1800 else 300
  }

  /** A dearer analysis is never announced as quicker, and the other way round. */
  lemma EstimatedTimeFollowsCost(a: string, b: string)
    ensures AnalysisCost(a) <= AnalysisCost(b) <==> EstimatedTime(a) <= EstimatedTime(b)
  {
  }

  /** calculateRemainingTime: 45 seconds for each of the eight steps not yet reached. */
  function RemainingTime(step: int, status: string): (r: int)
    ensures r >= 0
    ensures status == "completed" || step >= 8 ==> r == 0
    ensures status != "completed" && step < 8 ==> r == (8 - step) * 45
  {
    var remaining := if status == "completed" then 0 else |AnalysisSteps| - step;
    if remaining * 45 > 0 then remaining * 45 else 0
  }

  // ---------------------------------------------------------------- tables

  /** A row of planwise_sessions; the idea and the industry are stored HTML-escaped. */
  datatype SessionRow = SessionRow(
    userId: Option<int>,
    idea: string,
    industry: string,
    depth: string,
    focusAreas: seq<string>,
    status: string,
    createdAt: int,
    completedAt: Option<int>)

  /** A row of planwise_analysis_queue (the progress percentage is left out). */
  datatype ProgressRow = ProgressRow(currentStep: int, status: string, description: Option<string>, updatedAt: int)

  /** A row of planwise_reports: the generated report and its time. */
  datatype ReportRecord = ReportRecord(sessionId: string, report: LegacyService.Report, generatedAt: int)

  /** The four tables the endpoint reads and writes; the first two are keyed by session_id. */
  datatype ApiDb = ApiDb(
    sessions: map<string, SessionRow>,
    progress: map<string, ProgressRow>,
    reports: seq<ReportRecord>,
    quotas: QuotaTable)

  /**
   * What one request works with besides the tables: the user authenticateUser found (None for a
   * guest), planwise_config, today's count of guest sessions, and the single-shot service's
   * generateReport on idea, industry, depth and focus areas.
   */
  datatype Env = Env(
    user: Option<int>,
    config: map<string, string>,
    guestToday: int,
    report: (string, string, string, seq<string>) -> Result<LegacyService.Report, string>)

  /** The environment's report generator is the service's generateReport over these providers. */
  ghost predicate ServiceIs(env: Env, providers: LegacyService.Configs, net: Json -> LegacyService.OpenAiReply) {
    forall idea, industry, depth, areas :: env.report(idea, industry, depth, areas)
      == LegacyService.GenerateReport(providers, idea, industry, depth, areas, net)
  }

  /** authenticateUser: a set, non-empty session user id, or a guest. */
  function Authenticate(sessionUser: Option<int>): (user: Option<int>)
    ensures user.None? <==> IsGuest(sessionUser)
    ensures user.Some? ==> user == sessionUser && user.value != 0
  {
    if IsGuest(sessionUser) then None else sessionUser
  }

  // ---------------------------------------------------------------- quota rules of the endpoint

  /** api.php creates a missing quota row with a fixed allowance of 10. */
  const DefaultAllowance: int := 10

  /**
   * checkUserQuota: a guest is refused once today's guest sessions reach the configured limit, a
   * user once the remaining allowance as read is not positive. The table after the check is the one
   * getUserQuota leaves.
   */
  function QuotaCheck(db: ApiDb, env: Env, now: int, monthStart: int): (r: (bool, string, QuotaTable))
    ensures IsGuest(env.user) ==>
      r.2 == db.quotas && (r.0 <==> env.guestToday < ConfigInt(env.config, "guest_daily_limit", 3))
    ensures !IsGuest(env.user) ==>
      var u := UserQuota(db.quotas, DefaultAllowance, env.user.value, now, monthStart);
      r.2 == u.1 && (r.0 <==> u.0.remaining > 0)
    ensures r.0 <==> r.1 == "OK"
    ensures !r.0 ==> r.1 == if IsGuest(env.user) then GuestRefusal else MemberRefusal
  {
    if IsGuest(env.user) then
      if env.guestToday >= ConfigInt(env.config, "guest_daily_limit", 3) then (false, GuestRefusal, db.quotas)
      else (true, "OK", db.quotas)
    else
      var u := UserQuota(db.quotas, DefaultAllowance, env.user.value, now, monthStart);
      if u.0.remaining <= 0 then (false, MemberRefusal, u.1) else (true, "OK", u.1)
  }

  // ---------------------------------------------------------------- startAnalysis

  /** The POST fields startAnalysis reads; a missing one is None. */
  datatype StartRequest = StartRequest(idea: Option<string>, industry: Option<string>, depth: Option<string>,
                                       focusAreas: Option<seq<string>>)

  datatype StartReply = StartReply(sessionId: string, estimatedTime: int)

  const ShortIdea: string := "商业想法描述太简短，请提供更详细的描述"

  /** `empty($business_idea) || strlen($business_idea) < 10`. */
  predicate IdeaRejected(idea: string) {
    Falsy(idea) || Utf8Length(idea) < 10
  }

  function DepthOf(req: StartRequest): string {
    req.depth.GetOr("basic")
  }

  /** createAnalysisSession's row. */
  function NewSession(env: Env, req: StartRequest, now: int): SessionRow {
    SessionRow(env.user, Escape(req.idea.GetOr("")), Escape(req.industry.GetOr("")), DepthOf(req),
               req.focusAreas.GetOr([]), "processing", now, None)
  }

  /** initializeAnalysisProgress's row: step 1, processing. */
  function FirstProgress(now: int): ProgressRow {
    ProgressRow(1, "processing", None, now)
  }

  /**
   * startAnalysis as written: the quota check, the idea check, the session row, the deduction,
   * then the progress row. The session row is written before the deduction can refuse.
   */
  function Start(db: ApiDb, env: Env, req: StartRequest, sid: string, now: int, monthStart: int)
    : (r: (Result<StartReply, string>, ApiDb))
    ensures var c := QuotaCheck(db, env, now, monthStart);
      !c.0 ==> r == (Err(c.1), db.(quotas := c.2))
    ensures var c := QuotaCheck(db, env, now, monthStart);
      c.0 && IdeaRejected(req.idea.GetOr("")) ==> r == (Err(ShortIdea), db.(quotas := c.2))
    ensures r.0.Ok? <==>
      var c := QuotaCheck(db, env, now, monthStart);
      c.0 && !IdeaRejected(req.idea.GetOr("")) && Deduction(c.2, env.user, DepthOf(req), now).Ok?
    ensures r.0.Ok? ==>
      r.0.value == StartReply(sid, EstimatedTime(DepthOf(req))) &&
      r.1.sessions == db.sessions[sid := NewSession(env, req, now)] &&
      r.1.progress == db.progress[sid := FirstProgress(now)]
    ensures r.0.Err? ==> r.1.progress == db.progress
    ensures r.1.reports == db.reports
  {
    var c := QuotaCheck(db, env, now, monthStart);
    if !c.0 then (Err(c.1), db.(quotas := c.2))
    else if IdeaRejected(req.idea.GetOr("")) then (Err(ShortIdea), db.(quotas := c.2))
    else
      var db1 := db.(sessions := db.sessions[sid := NewSession(env, req, now)], quotas := c.2);
      match Deduction(c.2, env.user, DepthOf(req), now)
      case Err(e) => (Err(e), db1)
      case Ok(t) =>
        (Ok(StartReply(sid, EstimatedTime(DepthOf(req)))), db1.(quotas := t, progress := db.progress[sid := FirstProgress(now)]))
  }

  /**
   * A user whose allowance, read this month, is positive but below the price of the depth asked
   * for passes the check and is refused by the deduction, and is left with a session row in status
   * processing and no progress row (for instance one analysis left and a deep one asked for).
   */
  lemma StartLeavesOrphanSession(db: ApiDb, env: Env, req: StartRequest, sid: string, now: int, monthStart: int)
    requires env.user.Some? && env.user.value != 0 && env.user.value in db.quotas
    requires db.quotas[env.user.value].lastReset >= monthStart
    requires 0 < db.quotas[env.user.value].remaining < AnalysisCost(DepthOf(req))
    requires !IdeaRejected(req.idea.GetOr("")) && sid !in db.progress
    ensures var r := Start(db, env, req, sid, now, monthStart);
      r.0 == Err(QuotaExhausted) && sid in r.1.sessions && r.1.sessions[sid].status == "processing" &&
      sid !in r.1.progress
  {
    var u := env.user.value;
    assert UserQuota(db.quotas, DefaultAllowance, u, now, monthStart) == (db.quotas[u], db.quotas);
  }

  /**
   * startAnalysis with the deduction moved before the session row: a refusal writes no session,
   * and a success is exactly the success of the code as written.
   */
  function StartDeductFirst(db: ApiDb, env: Env, req: StartRequest, sid: string, now: int, monthStart: int)
    : (r: (Result<StartReply, string>, ApiDb))
    ensures r.0.Err? ==> r.1.sessions == db.sessions && r.1.progress == db.progress && r.1.reports == db.reports
    ensures r.0.Ok? <==> Start(db, env, req, sid, now, monthStart).0.Ok?
    ensures r.0.Ok? ==> r == Start(db, env, req, sid, now, monthStart)
  {
    var c := QuotaCheck(db, env, now, monthStart);
    if !c.0 then (Err(c.1), db.(quotas := c.2))
    else if IdeaRejected(req.idea.GetOr("")) then (Err(ShortIdea), db.(quotas := c.2))
    else
      match Deduction(c.2, env.user, DepthOf(req), now)
      case Err(e) => (Err(e), db.(quotas := c.2))
      case Ok(t) =>
        (Ok(StartReply(sid, EstimatedTime(DepthOf(req)))),
         db.(sessions := db.sessions[sid := NewSession(env, req, now)], quotas := t,
             progress := db.progress[sid := FirstProgress(now)]))
  }

  // ---------------------------------------------------------------- simulated progress

  /** validateSessionAccess: an unknown session is refused, an unowned one is open to anyone. */
  function CanAccess(sessions: map<string, SessionRow>, sid: string, user: Option<int>): (ok: bool)
    ensures sid !in sessions ==> !ok
    ensures sid in sessions && sessions[sid].userId.None? ==> ok
    ensures sid in sessions && sessions[sid].userId.Some? ==> (ok <==> user == sessions[sid].userId)
  {
    sid in sessions && (sessions[sid].userId.None? || sessions[sid].userId == user)
  }

  /** Two different callers can both open a session only when it has no owner. */
  lemma SharedOnlyWhenUnowned(sessions: map<string, SessionRow>, sid: string, a: Option<int>, b: Option<int>)
    requires CanAccess(sessions, sid, a) && CanAccess(sessions, sid, b) && a != b
    ensures sessions[sid].userId.None?
  {
  }

  /** The guard of simulateProgressUpdate: more than 30 seconds since the last update, not completed. */
  predicate Advances(p: ProgressRow, now: int) {
    now - p.updatedAt > 30 && p.status != "completed"
  }

  /** The row after one advance: one step more but at most eight, completed exactly at eight. */
  function Advanced(p: ProgressRow, now: int): (q: ProgressRow)
    ensures q.currentStep == if p.currentStep + 1 < 8 then p.currentStep + 1 else 8
    ensures q.currentStep <= 8
    ensures q.status == "completed" <==> q.currentStep == 8
    ensures q.status != "completed" ==> q.status == "processing"
    ensures q.updatedAt == now
    ensures 1 <= q.currentStep <= 8 ==> q.description == Some(AnalysisSteps[q.currentStep - 1].1)
    ensures q.currentStep < 1 ==> q.description == Some("Analysis completed")
  {
    var n := |AnalysisSteps|;
    var step := if p.currentStep + 1 < n then p.currentStep + 1 else n;
    var status := if step >= n then "completed" else "processing";
    var description := if 1 <= step <= n then AnalysisSteps[step - 1].1 else "Analysis completed";
    ProgressRow(step, status, Some(description), now)
  }

  /** After an advance the next one needs another 30 seconds: at most one step per window. */
  lemma OneStepPerWindow(p: ProgressRow, now: int, later: int)
    requires Advances(Advanced(p, now), later)
    ensures later - now > 30
  {
  }

  /** Each advance short of the end takes 45 seconds off the estimate; the last one takes it to 0. */
  lemma AdvanceShortensEstimate(p: ProgressRow, now: int)
    requires Advances(p, now) && 0 <= p.currentStep
    ensures var q := Advanced(p, now);
      RemainingTime(q.currentStep, q.status) ==
        if q.status == "completed" then 0 else RemainingTime(p.currentStep, p.status) - 45
  {
  }

  /**
   * What completeAnalysis writes for the service's answer `generated`: a report is stored and the
   * session marked completed; an error is thrown and writes nothing.
   */
  function Stored(db: ApiDb, sid: string, now: int, generated: Result<LegacyService.Report, string>)
    : (r: (Option<string>, ApiDb))
    requires sid in db.sessions
    ensures r.1.progress == db.progress && r.1.quotas == db.quotas
    ensures r.0.Some? <==> generated.Err?
    ensures r.0.Some? ==> r == (Some(generated.error), db)
    ensures r.0.None? ==>
      |r.1.reports| == |db.reports| + 1 && r.1.reports[..|db.reports|] == db.reports &&
      r.1.reports[|db.reports|] == ReportRecord(sid, generated.value, now) &&
      r.1.sessions == db.sessions[sid := db.sessions[sid].(status := "completed", completedAt := Some(now))]
  {
    match generated
    case Err(e) => (Some(e), db)
    case Ok(report) =>
      (None, db.(reports := db.reports + [ReportRecord(sid, report, now)],
                 sessions := db.sessions[sid := db.sessions[sid].(status := "completed", completedAt := Some(now))]))
  }

  /**
   * completeAnalysis: the report of the session's own idea, industry, depth and focus areas,
   * stored as Stored says. An unknown session is left alone.
   */
  function Complete(db: ApiDb, env: Env, sid: string, now: int): (r: (Option<string>, ApiDb))
    ensures r.1.progress == db.progress && r.1.quotas == db.quotas
    ensures sid !in db.sessions ==> r == (None, db)
    ensures r.0.Some? ==> r.1 == db
    ensures sid in db.sessions && r.0.None? ==>
      |r.1.reports| == |db.reports| + 1 && r.1.reports[..|db.reports|] == db.reports &&
      r.1.reports[|db.reports|].sessionId == sid && r.1.reports[|db.reports|].generatedAt == now &&
      r.1.sessions == db.sessions[sid := db.sessions[sid].(status := "completed", completedAt := Some(now))]
  {
    if sid !in db.sessions then (None, db)
    else
      var s := db.sessions[sid];
      Stored(db, sid, now, env.report(s.idea, s.industry, s.depth, s.focusAreas))
  }

  /**
   * simulateProgressUpdate: nothing without a progress row or before the guard holds; otherwise
   * the advance, and completeAnalysis exactly on the transition to completed.
   */
  function Simulate(db: ApiDb, env: Env, sid: string, now: int): (r: (Option<string>, ApiDb))
    ensures sid !in db.progress || !Advances(db.progress[sid], now) ==> r == (None, db)
    ensures sid in db.progress && Advances(db.progress[sid], now) ==>
      r.1.progress == db.progress[sid := Advanced(db.progress[sid], now)]
    ensures r.1.quotas == db.quotas
    ensures r.1.reports != db.reports ==>
      sid in db.progress && Advances(db.progress[sid], now) && Advanced(db.progress[sid], now).status == "completed"
  {
    if sid !in db.progress || !Advances(db.progress[sid], now) then (None, db)
    else
      var q := Advanced(db.progress[sid], now);
      var db1 := db.(progress := db.progress[sid := q]);
      if q.status == "completed" then Complete(db1, env, sid, now) else (None, db1)
  }

  /** Once completed, polling changes nothing, so the report is generated at most once per run. */
  lemma CompletedIsFinal(db: ApiDb, env: Env, sid: string, now: int)
    requires sid in db.progress && db.progress[sid].status == "completed"
    ensures Simulate(db, env, sid, now) == (None, db)
  {
  }

  /** A completed advance, once stored, is never advanced again. */
  lemma CompletionSticks(db: ApiDb, env: Env, sid: string, now: int, later: int)
    requires sid in db.progress && Advances(db.progress[sid], now) &&
             Advanced(db.progress[sid], now).status == "completed"
    ensures var r := Simulate(db, env, sid, now);
      sid in r.1.progress && Simulate(r.1, env, sid, later) == (None, r.1)
  {
    var r := Simulate(db, env, sid, now);
    assert r.1.progress[sid] == Advanced(db.progress[sid], now);
    CompletedIsFinal(r.1, env, sid, later);
  }

  // ---------------------------------------------------------------- getProgress

  /** What getProgress answers: the progress row and the estimate of the time left. */
  datatype ProgressReply = ProgressReply(progress: ProgressRow, remaining: int)

  /**
   * getProgress: the session id is required and must be accessible; the simulation runs (an error
   * of it is thrown after its writes), then the row is read back.
   */
  function Progress(db: ApiDb, env: Env, sidParam: Option<string>, now: int): (r: (Result<ProgressReply, string>, ApiDb))
    ensures sidParam.None? || Falsy(sidParam.value) ==> r == (Err("Session ID required"), db)
    ensures sidParam.Some? && !Falsy(sidParam.value) && !CanAccess(db.sessions, sidParam.value, env.user) ==>
      r == (Err("Access denied"), db)
    ensures r.0.Ok? ==>
      sidParam.Some? && CanAccess(db.sessions, sidParam.value, env.user) &&
      r.1 == Simulate(db, env, sidParam.value, now).1 &&
      sidParam.value in r.1.progress && r.0.value.progress == r.1.progress[sidParam.value] &&
      r.0.value.remaining == RemainingTime(r.0.value.progress.currentStep, r.0.value.progress.status)
    ensures sidParam.Some? && !Falsy(sidParam.value) && CanAccess(db.sessions, sidParam.value, env.user) ==>
      var s := Simulate(db, env, sidParam.value, now);
      r.1 == s.1 &&
      (s.0.Some? ==> r.0 == Err(s.0.value)) &&
      (s.0.None? ==> (r.0.Ok? <==> sidParam.value in s.1.progress)) &&
      (s.0.None? && sidParam.value !in s.1.progress ==> r.0 == Err("Session not found"))
  {
    var sid := sidParam.GetOr("");
    if Falsy(sid) then (Err("Session ID required"), db)
    else if !CanAccess(db.sessions, sid, env.user) then (Err("Access denied"), db)
    else
      var s := Simulate(db, env, sid, now);
      if s.0.Some? then (Err(s.0.value), s.1)
      else if sid !in s.1.progress then (Err("Session not found"), s.1)
      else
        var p := s.1.progress[sid];
        (Ok(ProgressReply(p, RemainingTime(p.currentStep, p.status))), s.1)
  }

  // ---------------------------------------------------------------- the endpoint object

  class PlanWiseApi {
    var db: ApiDb
    const env: Env

    /** The constructor with authenticateUser. */
    constructor(db: ApiDb, sessionUser: Option<int>, config: map<string, string>, guestToday: int,
                providers: LegacyService.Configs, net: Json -> LegacyService.OpenAiReply)
      ensures this.db == db && env.user == Authenticate(sessionUser)
      ensures env.config == config && env.guestToday == guestToday && ServiceIs(env, providers, net)
    {
      hide LegacyService.GenerateReport;
      this.db := db;
      env := Env(Authenticate(sessionUser), config, guestToday,
                 (idea: string, industry: string, depth: string, areas: seq<string>) =>
                   LegacyService.GenerateReport(providers, idea, industry, depth, areas, net));
    }

    /** createDefaultQuota: ten analyses, free tier; called only for a user without a row. */
    method CreateDefaultQuota(u: int, now: int)
      requires u !in db.quotas
      modifies this
      ensures db == old(db).(quotas := old(db).quotas[u := DefaultRow(DefaultAllowance, now)])
    {
      db := db.(quotas := db.quotas[u := DefaultRow(DefaultAllowance, now)]);
    }

    /** checkQuotaReset for the row just read. */
    method CheckQuotaReset(u: int, row: QuotaRow, now: int, monthStart: int)
      modifies this
      ensures db == old(db).(quotas := ResetIfStale(old(db).quotas, u, row.lastReset, now, monthStart))
    {
      if row.lastReset < monthStart && u in db.quotas {
        db := db.(quotas := db.quotas[u := db.quotas[u].(remaining := db.quotas[u].total, lastReset := now)]);
      }
    }

    /** getUserQuota for the logged-in user. */
    method GetUserQuota(now: int, monthStart: int) returns (row: QuotaRow)
      requires env.user.Some?
      modifies this
      ensures (row, db.quotas) == UserQuota(old(db).quotas, DefaultAllowance, env.user.value, now, monthStart)
      ensures db == old(db).(quotas := db.quotas)
    {
      var u := env.user.value;
      if u !in db.quotas {
        CreateDefaultQuota(u, now);
      }
      row := db.quotas[u];
      CheckQuotaReset(u, row, now, monthStart);
    }

    method CheckUserQuota(now: int, monthStart: int) returns (allowed: bool, message: string)
      modifies this
      ensures (allowed, message, db.quotas) == QuotaCheck(old(db), env, now, monthStart)
      ensures db == old(db).(quotas := db.quotas)
    {
      if IsGuest(env.user) {
        if env.guestToday >= ConfigInt(env.config, "guest_daily_limit", 3) {
          return false, GuestRefusal;
        }
      } else {
        var row := GetUserQuota(now, monthStart);
        if row.remaining <= 0 {
          return false, MemberRefusal;
        }
      }
      allowed, message := true, "OK";
    }

    method DeductUserQuota(depth: string, now: int) returns (err: Option<string>)
      modifies this
      ensures match Deduction(old(db).quotas, env.user, depth, now)
        case Ok(t) => err.None? && db == old(db).(quotas := t)
        case Err(e) => err == Some(e) && db == old(db)
    {
      if IsGuest(env.user) {
        return None;
      }
      var u := env.user.value;
      var cost := AnalysisCost(depth);
      if u in db.quotas && db.quotas[u].remaining >= cost {
        db := db.(quotas := db.quotas[u := db.quotas[u].(remaining := db.quotas[u].remaining - cost, lastUsed := Some(now))]);
        err := None;
      } else {
        err := Some(QuotaExhausted);
      }
    }

    /** startAnalysis; `sid` is the fresh id uniqid would give. */
    method StartAnalysis(req: StartRequest, sid: string, now: int, monthStart: int) returns (r: Result<StartReply, string>)
      modifies this
      ensures (r, db) == Start(old(db), env, req, sid, now, monthStart)
    {
      var allowed, message := CheckUserQuota(now, monthStart);
      if !allowed {
        return Err(message);
      }
      var idea := req.idea.GetOr("");
      if IdeaRejected(idea) {
        return Err(ShortIdea);
      }
      var depth := DepthOf(req);
      db := db.(sessions := db.sessions[sid := NewSession(env, req, now)]);
      var err := DeductUserQuota(depth, now);
      if err.Some? {
        return Err(err.value);
      }
      db := db.(progress := db.progress[sid := FirstProgress(now)]);
      r := Ok(StartReply(sid, EstimatedTime(depth)));
    }

    method CompleteAnalysis(sid: string, now: int) returns (err: Option<string>)
      modifies this
      ensures (err, db) == Complete(old(db), env, sid, now)
    {
      if sid !in db.sessions {
        return None;
      }
      var s := db.sessions[sid];
      var report := env.report(s.idea, s.industry, s.depth, s.focusAreas);
      if report.Err? {
        return Some(report.error);
      }
      db := db.(reports := db.reports + [ReportRecord(sid, report.value, now)],
                sessions := db.sessions[sid := s.(status := "completed", completedAt := Some(now))]);
      err := None;
    }

    method SimulateProgressUpdate(sid: string, now: int) returns (err: Option<string>)
      modifies this
      ensures (err, db) == Simulate(old(db), env, sid, now)
    {
      if sid !in db.progress {
        return None;
      }
      var current := db.progress[sid];
      if now - current.updatedAt > 30 && current.status != "completed" {
        var q := Advanced(current, now);
        db := db.(progress := db.progress[sid := q]);
        if q.status == "completed" {
          err := CompleteAnalysis(sid, now);
          return;
        }
      }
      err := None;
    }

    method GetProgress(sidParam: Option<string>, now: int) returns (r: Result<ProgressReply, string>)
      modifies this
      ensures (r, db) == Progress(old(db), env, sidParam, now)
    {
      var sid := sidParam.GetOr("");
      if Falsy(sid) {
        return Err("Session ID required");
      }
      if !CanAccess(db.sessions, sid, env.user) {
        return Err("Access denied");
      }
      var err := SimulateProgressUpdate(sid, now);
      if err.Some? {
        return Err(err.value);
      }
      if sid !in db.progress {
        return Err("Session not found");
      }
      var p := db.progress[sid];
      r := Ok(ProgressReply(p, RemainingTime(p.currentStep, p.status)));
    }
  }
}

/**
 * The admin panel planwise_management.php: the CSRF gate in front of the POST actions, the quota
 * actions (one user's quota row, a batch update of every row of one membership type) and the
 * announcement actions (create, update, delete, enable/disable), and the outcome of the
 * configuration actions. Posted fields are Option<string>,
 * None for a field that was not sent.
 */
module Management {
  import opened Wrappers
  import opened Text
  import opened Quota
  import Announcements
  import TaskStore

  type Announcement = Announcements.Announcement

  const CsrfFailed := "安全验证失败，操作已被取消。"
  const UnknownAction := "未知操作"
  const BatchMissing := "请选择会员类型和操作类型"
  const InvalidUser := "无效的用户ID"
  const EmptyAnnouncement := "标题和内容不能为空"
  const InvalidUpdate := "无效的公告ID或内容不能为空"
  const InvalidAnnouncementId := "无效的公告ID"
  const CreatedMessage := "公告创建成功"
  const UpdatedMessage := "公告更新成功"
  const DeletedMessage := "公告删除成功"

  /** `(int)($_POST[...] ?? default)`. */
  function PostInt(field: Option<string>, default: int): int {
    if field.None? then default else IntCast(field.value)
  }

  // ---------------------------------------------------------------- updateUserQuota

  /**
   * INSERT ... ON DUPLICATE KEY UPDATE: the row of `u` gets exactly the three posted values; an
   * existing row keeps its reset and use times, a new row is reset now.
   */
  function Upserted(t: QuotaTable, u: int, remaining: int, total: int, membership: string, now: int)
    : (r: QuotaTable)
    ensures r.Keys == t.Keys + {u}
    ensures r[u].remaining == remaining && r[u].total == total && r[u].membership == membership
    ensures u in t ==> r[u].lastReset == t[u].lastReset && r[u].lastUsed == t[u].lastUsed
    ensures u !in t ==> r[u].lastReset == now && r[u].lastUsed.None?
    ensures forall v :: v in t && v != u ==> r[v] == t[v]
  {
    if u in t then t[u := t[u].(remaining := remaining, total := total, membership := membership)]
    else t[u := QuotaRow(remaining, total, membership, now, None)]
  }

  /** updateUserQuota: the new table and the success message, or the error it throws. */
  function UserQuotaUpdated(t: QuotaTable, userId: Option<string>, remaining: Option<string>,
                           total: Option<string>, membership: Option<string>, now: int)
    : (r: Result<(QuotaTable, string), string>)
    ensures r.Err? <==> PostInt(userId, 0) <= 0
    ensures r.Err? ==> r.error == InvalidUser
    ensures r.Ok? ==> r.value.0 == Upserted(t, PostInt(userId, 0), PostInt(remaining, 0), PostInt(total, 0),
                                           membership.GetOr("free"), now)
  {
    var u := PostInt(userId, 0);
    if u <= 0 then Err(InvalidUser)
    else Ok((Upserted(t, u, PostInt(remaining, 0), PostInt(total, 0), membership.GetOr("free"), now),
             "用户配额已更新 (用户ID: " + IntToString(u) + ")"))
  }

  /** Setting the same values twice leaves the table as setting them once. */
  lemma UpsertIdempotent(t: QuotaTable, u: int, remaining: int, total: int, membership: string, now: int, later: int)
    ensures Upserted(Upserted(t, u, remaining, total, membership, now), u, remaining, total, membership, later)
      == Upserted(t, u, remaining, total, membership, now)
  {
    var once := Upserted(t, u, remaining, total, membership, now);
    var twice := Upserted(once, u, remaining, total, membership, later);
    assert twice.Keys == once.Keys;
    assert twice[u] == once[u];
  }

  // ---------------------------------------------------------------- batchUpdateQuotas

  /** The SET clause of the chosen batch action for one row; an unknown action sets nothing. */
  function BatchRow(row: QuotaRow, action: string, now: int): QuotaRow {
    if action == "reset_quota" then row.(remaining := row.total, lastReset := now)
    else if action == "double_quota" then row.(total := row.total * 2, remaining := row.remaining * 2)
    else row
  }

  /** `UPDATE planwise_user_quotas SET ... WHERE membership_type = m`. */
  function BatchUpdated(t: QuotaTable, m: string, action: string, now: int): (r: QuotaTable)
    ensures r.Keys == t.Keys
    ensures forall u :: u in t && t[u].membership != m ==> r[u] == t[u]
    ensures forall u :: u in t && t[u].membership == m ==> r[u] == BatchRow(t[u], action, now)
  {
    map u | u in t :: if t[u].membership == m then BatchRow(t[u], action, now) else t[u]
  }

  /** rowCount() for MySQL: the rows whose values the statement changed. */
  function Changed(t: QuotaTable, r: QuotaTable): set<int> {
    set u | u in t && u in r && r[u] != t[u]
  }

  /** batchUpdateQuotas: the new table and the affected-row count, or the error it throws. */
  function BatchUpdate(t: QuotaTable, m: Option<string>, action: Option<string>, now: int)
    : (r: Result<(QuotaTable, nat), string>)
    ensures r.Err? <==> Falsy(m.GetOr("")) || Falsy(action.GetOr(""))
    ensures r.Err? ==> r.error == BatchMissing
    ensures r.Ok? ==> r.value.1 == |Changed(t, r.value.0)|
  {
    var mt := m.GetOr("");
    var act := action.GetOr("");
    if Falsy(mt) || Falsy(act) then Err(BatchMissing)
    else
      var r := BatchUpdated(t, mt, act, now);
      Ok((r, |Changed(t, r)|))
  }

  /** The message batchUpdateQuotas reports. */
  function BatchMessage(affected: nat): string {
    "批量操作完成，影响 " + IntToString(affected) + " 个用户"
  }

  /** 'reset_quota' refills exactly the rows of the chosen type and leaves the others alone. */
  lemma ResetRefillsType(t: QuotaTable, m: string, now: int)
    ensures var r := BatchUpdated(t, m, "reset_quota", now);
      (forall u :: u in t && t[u].membership == m ==>
         r[u].remaining == r[u].total == t[u].total && r[u].lastReset == now && r[u].membership == m)
      && (forall u :: u in t && t[u].membership != m ==> r[u] == t[u])
  {
  }

  /** 'double_quota' doubles both totals of exactly the rows of the chosen type. */
  lemma DoubleDoublesType(t: QuotaTable, m: string, now: int)
    ensures var r := BatchUpdated(t, m, "double_quota", now);
      (forall u :: u in t && t[u].membership == m ==>
         r[u].total == 2 * t[u].total && r[u].remaining == 2 * t[u].remaining
         && r[u].lastReset == t[u].lastReset)
      && (forall u :: u in t && t[u].membership != m ==> r[u] == t[u])
  {
  }

  /** An action the switch does not know changes no row and reports 0 affected rows. */
  lemma UnknownBatchChangesNothing(t: QuotaTable, m: string, action: string, now: int)
    requires !Falsy(m) && !Falsy(action)
    requires action != "reset_quota" && action != "double_quota"
    ensures BatchUpdate(t, Some(m), Some(action), now) == Ok((t, 0))
  {
    var r := BatchUpdated(t, m, action, now);
    assert r == t;
    assert Changed(t, r) == {};
  }

  /** Every affected row is of the chosen type: the count never exceeds that type's rows. */
  lemma AffectedAreOfType(t: QuotaTable, m: string, action: string, now: int)
    ensures Changed(t, BatchUpdated(t, m, action, now)) <= set u | u in t && t[u].membership == m
  {
  }

  /** A second reset in the same second changes nothing. */
  lemma ResetTwiceChangesNothing(t: QuotaTable, m: string, now: int)
    ensures var once := BatchUpdated(t, m, "reset_quota", now);
      BatchUpdated(once, m, "reset_quota", now) == once
      && Changed(once, BatchUpdated(once, m, "reset_quota", now)) == {}
  {
    var once := BatchUpdated(t, m, "reset_quota", now);
    var twice := BatchUpdated(once, m, "reset_quota", now);
    forall u | u in once
      ensures twice[u] == once[u]
    {
    }
    assert twice == once;
  }

  /** Rows with 0 <= remaining <= total keep that shape under either batch action. */
  predicate Consistent(t: QuotaTable) {
    forall u :: u in t ==> 0 <= t[u].remaining <= t[u].total
  }

  lemma BatchKeepsConsistent(t: QuotaTable, m: string, action: string, now: int)
    requires Consistent(t)
    ensures Consistent(BatchUpdated(t, m, action, now))
  {
  }

  // ---------------------------------------------------------------- the announcement actions

  /** The posted announcement fields. */
  datatype AnnouncementForm = AnnouncementForm(
    title: Option<string>,
    content: Option<string>,
    kind: Option<string>,
    showPopup: bool,
    priority: Option<string>,
    audience: Option<string>,
    endDate: Option<int>)

  /** The trimmed title and the raw content are both non-empty. */
  predicate HasText(f: AnnouncementForm) {
    !Falsy(Trim(f.title.GetOr(""))) && !Falsy(f.content.GetOr(""))
  }

  /** The columns the INSERT and the UPDATE write, applied to a row. */
  function Revised(a: Announcement, f: AnnouncementForm): Announcement {
    a.(title := Trim(f.title.GetOr("")), content := f.content.GetOr(""), kind := f.kind.GetOr("info"),
       showPopup := f.showPopup, priority := PostInt(f.priority, 0), audience := f.audience.GetOr("all"),
       endDate := f.endDate)
  }

  /** The row createAnnouncement inserts: the posted columns, active, created now. */
  function NewAnnouncement(f: AnnouncementForm, id: int, now: int): Announcement {
    Revised(Announcements.Announcement(id, "", "", "", false, 0, "", now, true, None), f)
  }

  /** createAnnouncement. */
  function Create(rows: seq<Announcement>, f: AnnouncementForm, newId: int, now: int)
    : (r: Result<(seq<Announcement>, string), string>)
    ensures r.Err? <==> !HasText(f)
    ensures r.Err? ==> r.error == EmptyAnnouncement
    ensures r.Ok? ==> r.value.0 == rows + [NewAnnouncement(f, newId, now)]
  {
    if !HasText(f) then Err(EmptyAnnouncement) else Ok((rows + [NewAnnouncement(f, newId, now)], CreatedMessage))
  }

  /** An active announcement for everyone with no end date is listed as visible to every visitor. */
  lemma CreatedForAllIsVisible(rows: seq<Announcement>, f: AnnouncementForm, newId: int, now: int,
                               membership: string, later: int)
    requires Create(rows, f, newId, now).Ok?
    requires f.audience.GetOr("all") == "all" && f.endDate.None?
    ensures var a := NewAnnouncement(f, newId, now);
      a in Create(rows, f, newId, now).value.0 && Announcements.Visible(a, membership, later)
  {
    var t := Create(rows, f, newId, now).value.0;
    assert t[|rows|] == NewAnnouncement(f, newId, now);
  }

  /** updateAnnouncement: the rows with the posted id get the posted columns. */
  function Update(rows: seq<Announcement>, idParam: Option<string>, f: AnnouncementForm)
    : (r: Result<(seq<Announcement>, string), string>)
    ensures r.Err? <==> PostInt(idParam, 0) <= 0 || !HasText(f)
    ensures r.Err? ==> r.error == InvalidUpdate
    ensures r.Ok? ==> |r.value.0| == |rows|
    ensures r.Ok? ==> forall k :: 0 <= k < |rows| ==>
      r.value.0[k] == (if rows[k].id == PostInt(idParam, 0) then Revised(rows[k], f) else rows[k])
  {
    var id := PostInt(idParam, 0);
    if id <= 0 || !HasText(f) then Err(InvalidUpdate)
    else Ok((seq(|rows|, k requires 0 <= k < |rows| => if rows[k].id == id then Revised(rows[k], f) else rows[k]),
             UpdatedMessage))
  }

  /** An update keeps each row's id, creation time and active flag. */
  lemma UpdateKeepsIdentity(rows: seq<Announcement>, idParam: Option<string>, f: AnnouncementForm)
    requires Update(rows, idParam, f).Ok?
    ensures var r := Update(rows, idParam, f).value.0;
      forall k :: 0 <= k < |rows| ==>
        r[k].id == rows[k].id && r[k].createdAt == rows[k].createdAt && r[k].isActive == rows[k].isActive
  {
  }

  /** deleteAnnouncement. */
  function Delete(rows: seq<Announcement>, idParam: Option<string>): (r: Result<(seq<Announcement>, string), string>)
    ensures r.Err? <==> PostInt(idParam, 0) <= 0
    ensures r.Err? ==> r.error == InvalidAnnouncementId
    ensures r.Ok? ==> forall k :: 0 <= k < |r.value.0| ==> r.value.0[k].id != PostInt(idParam, 0) && r.value.0[k] in rows
    ensures r.Ok? ==> forall k :: 0 <= k < |rows| && rows[k].id != PostInt(idParam, 0) ==> rows[k] in r.value.0
  {
    var id := PostInt(idParam, 0);
    if id <= 0 then Err(InvalidAnnouncementId)
    else Ok((TaskStore.Filter(rows, (a: Announcement) => a.id != id), DeletedMessage))
  }

  /** The message toggleAnnouncement reports. */
  function ToggleMessage(isActive: bool): string {
    "公告已" + (if isActive then "启用" else "禁用")
  }

  /** toggleAnnouncement: the rows with the posted id become active or inactive. */
  function Toggle(rows: seq<Announcement>, idParam: Option<string>, isActive: bool)
    : (r: Result<(seq<Announcement>, string), string>)
    ensures r.Err? <==> PostInt(idParam, 0) <= 0
    ensures r.Err? ==> r.error == InvalidAnnouncementId
    ensures r.Ok? ==> |r.value.0| == |rows|
    ensures r.Ok? ==> forall k :: 0 <= k < |rows| ==>
      r.value.0[k] == (if rows[k].id == PostInt(idParam, 0) then rows[k].(isActive := isActive) else rows[k])
  {
    var id := PostInt(idParam, 0);
    if id <= 0 then Err(InvalidAnnouncementId)
    else Ok((seq(|rows|, k requires 0 <= k < |rows| => if rows[k].id == id then rows[k].(isActive := isActive) else rows[k]),
             ToggleMessage(isActive)))
  }

  /** A disabled announcement is not listed to anyone. */
  lemma DisabledIsHidden(rows: seq<Announcement>, idParam: Option<string>, membership: string, now: int)
    requires Toggle(rows, idParam, false).Ok?
    ensures var r := Toggle(rows, idParam, false).value.0;
      forall k :: 0 <= k < |r| && r[k].id == PostInt(idParam, 0) ==> !Announcements.Visible(r[k], membership, now)
  {
  }

  // ---------------------------------------------------------------- the configuration actions

  const ProviderMissing := "AI提供商不能为空"
  const ProviderNotChosen := "请选择AI提供商"
  const ConfigNotStored := "配置更新失败"
  const ToggleNotStored := "操作失败"
  const SystemConfigUpdated := "系统配置已更新"

  /** What testProvider reported for the chosen provider: a working connection, a failure with its
   *  error text, or the Error (not an Exception) it let escape. */
  datatype Probe = Connected | ProbeFailed(error: string) | ProbeThrew(message: string)

  /**
   * The four actions on the AI and system configuration. The configuration tables are not part of
   * the panel's state here: what each action decides is whether the provider was named, whether its
   * statement succeeded (`stored`) and, for the test, what the probe reported.
   */
  datatype ConfigRequest =
    | UpdateAiConfig(provider: Option<string>, stored: bool)
    | UpdateSystemConfig
    | TestAiProvider(provider: Option<string>, probe: Probe)
    | ToggleAiProvider(provider: Option<string>, enabled: bool, stored: bool)

  /** What an action throws: an Exception, which the panel's `catch (Exception $e)` turns into the
   *  message, or an Error such as a TypeError, which that catch lets through and which ends the request. */
  datatype Thrown = Exception(message: string) | Error(message: string)

  /** An action of the switch that throws only Exceptions. */
  function AsException<T>(r: Result<T, string>): Result<T, Thrown> {
    match r
    case Ok(v) => Ok(v)
    case Err(e) => Err(Exception(e))
  }

  /** `$_POST['provider'] ?? ''` and its `empty()` check. */
  predicate ProviderGiven(provider: Option<string>) {
    !Falsy(provider.GetOr(""))
  }

  /**
   * updateAIConfig, updateSystemConfig, testAIProvider and toggleAIProvider: the message set, or the
   * exception thrown. Only the system configuration update succeeds unconditionally; the only
   * Error is the one the connection test lets escape.
   */
  function ConfigResult(c: ConfigRequest): (r: Result<string, Thrown>)
    ensures c.UpdateSystemConfig? ==> r == Ok(SystemConfigUpdated)
    ensures c.UpdateAiConfig? && !ProviderGiven(c.provider) ==> r == Err(Exception(ProviderMissing))
    ensures (c.TestAiProvider? || c.ToggleAiProvider?) && !ProviderGiven(c.provider) ==> r == Err(Exception(ProviderNotChosen))
    ensures c.UpdateAiConfig? && ProviderGiven(c.provider) ==>
      r == if c.stored then Ok("AI配置已更新: " + c.provider.value) else Err(Exception(ConfigNotStored))
    ensures c.ToggleAiProvider? && ProviderGiven(c.provider) ==>
      r == if c.stored then Ok("AI提供商 " + c.provider.value + " 已" + (if c.enabled then "启用" else "禁用"))
           else Err(Exception(ToggleNotStored))
    ensures c.TestAiProvider? && ProviderGiven(c.provider) ==>
      r == match c.probe
           case Connected => Ok("AI提供商 " + c.provider.value + " 连接测试成功")
           case ProbeFailed(err) => Ok("AI提供商 " + c.provider.value + " 连接测试失败: " + err)
           case ProbeThrew(m) => Err(Error(m))
  {
    match c
    case UpdateSystemConfig => Ok(SystemConfigUpdated)
    case UpdateAiConfig(provider, stored) =>
      if !ProviderGiven(provider) then Err(Exception(ProviderMissing))
      else if stored then Ok("AI配置已更新: " + provider.value)
      else Err(Exception(ConfigNotStored))
    case TestAiProvider(provider, probe) =>
      if !ProviderGiven(provider) then Err(Exception(ProviderNotChosen))
      else
        (match probe
         case Connected => Ok("AI提供商 " + provider.value + " 连接测试成功")
         case ProbeFailed(err) => Ok("AI提供商 " + provider.value + " 连接测试失败: " + err)
         case ProbeThrew(m) => Err(Error(m)))
    case ToggleAiProvider(provider, enabled, stored) =>
      if !ProviderGiven(provider) then Err(Exception(ProviderNotChosen))
      else if stored then Ok("AI提供商 " + provider.value + " 已" + (if enabled then "启用" else "禁用"))
      else Err(Exception(ToggleNotStored))
  }

  /** The message type a switch case that did not throw leaves: "error" only for a failed test. */
  function SuccessType(act: Action): (t: string)
    ensures t == "error" <==> act.ConfigAction? && act.config.TestAiProvider? && act.config.probe.ProbeFailed?
    ensures t != "error" ==> t == "success"
  {
    match act
    case ConfigAction(TestAiProvider(_, ProbeFailed(_))) => "error"
    case _ => "success"
  }

  // ---------------------------------------------------------------- the dispatcher and the CSRF gate

  /** The POST actions of the switch; OtherAction is a name outside it. */
  datatype Action =
    | UpdateUserQuotaAction(userId: Option<string>, remaining: Option<string>, total: Option<string>,
                            membership: Option<string>)
    | BatchUpdateQuotasAction(batchMembership: Option<string>, batchAction: Option<string>)
    | CreateAnnouncementAction(form: AnnouncementForm)
    | UpdateAnnouncementAction(id: Option<string>, form: AnnouncementForm)
    | DeleteAnnouncementAction(id: Option<string>)
    | ToggleAnnouncementAction(id: Option<string>, isActive: bool)
    | ConfigAction(config: ConfigRequest)
    | OtherAction(name: string)

  /** A request: no POST action at all, or an action with the posted token. */
  datatype Request = NoAction | Post(token: Option<string>, action: Action)

  /** What the request handler leaves behind; `fatal` is the Error that ended the request, if any. */
  datatype Panel = Panel(quotas: QuotaTable, announcements: seq<Announcement>, csrf: Option<string>,
                         message: string, messageType: string, fatal: Option<string>)

  /** hash_equals on two set tokens. */
  predicate CsrfValid(stored: Option<string>, posted: Option<string>) {
    stored.Some? && posted.Some? && stored.value == posted.value
  }

  /** The switch: the new tables and the success message, or what was thrown. */
  function Dispatch(q: QuotaTable, rows: seq<Announcement>, act: Action, now: int, newId: int)
    : Result<(QuotaTable, seq<Announcement>, string), Thrown>
  {
    match act
    case UpdateUserQuotaAction(u, rem, tot, m) =>
      (match UserQuotaUpdated(q, u, rem, tot, m, now)
       case Ok((q2, msg)) => Ok((q2, rows, msg))
       case Err(e) => Err(Exception(e)))
    case BatchUpdateQuotasAction(m, a) =>
      (match BatchUpdate(q, m, a, now)
       case Ok((q2, n)) => Ok((q2, rows, BatchMessage(n)))
       case Err(e) => Err(Exception(e)))
    case CreateAnnouncementAction(f) => Rows(q, Create(rows, f, newId, now))
    case UpdateAnnouncementAction(id, f) => Rows(q, Update(rows, id, f))
    case DeleteAnnouncementAction(id) => Rows(q, Delete(rows, id))
    case ToggleAnnouncementAction(id, on) => Rows(q, Toggle(rows, id, on))
    case ConfigAction(c) =>
      (match ConfigResult(c)
       case Ok(msg) => Ok((q, rows, msg))
       case Err(e) => Err(e))
    case OtherAction(_) => Err(Exception(UnknownAction))
  }

  function Rows(q: QuotaTable, r: Result<(seq<Announcement>, string), string>)
    : Result<(QuotaTable, seq<Announcement>, string), Thrown>
  {
    match r
    case Ok((rows, msg)) => Ok((q, rows, msg))
    case Err(e) => Err(Exception(e))
  }

  /** The panel as a request starts: the tables and the session's token, with no message yet. */
  function Begun(p: Panel): Panel {
    p.(message := "", messageType := "", fatal := None)
  }

  /**
   * One request to the panel, which starts with no message. Without an action nothing else
   * happens. A token mismatch dispatches nothing and stores `reissued`; a successful action
   * consumes the token and stores `next`; an action that throws an Exception reports its message
   * and keeps the token; an Error passes the catch and ends the request with no message set.
   */
  function Handle(p: Panel, req: Request, reissued: string, next: string, now: int, newId: int): (r: Panel)
    ensures req.NoAction? ==> r == p.(message := "", messageType := "", fatal := None)
    ensures req.Post? && !CsrfValid(p.csrf, req.token) ==>
      r == p.(csrf := Some(reissued), message := CsrfFailed, messageType := "error", fatal := None)
    ensures (req.Post? && CsrfValid(p.csrf, req.token)
             && Dispatch(p.quotas, p.announcements, req.action, now, newId).Err?
             && Dispatch(p.quotas, p.announcements, req.action, now, newId).error.Exception?) ==>
      r == p.(message := Dispatch(p.quotas, p.announcements, req.action, now, newId).error.message,
              messageType := "error", fatal := None)
    ensures (req.Post? && CsrfValid(p.csrf, req.token)
             && Dispatch(p.quotas, p.announcements, req.action, now, newId).Err?
             && Dispatch(p.quotas, p.announcements, req.action, now, newId).error.Error?) ==>
      r == p.(message := "", messageType := "",
              fatal := Some(Dispatch(p.quotas, p.announcements, req.action, now, newId).error.message))
    ensures (req.Post? && CsrfValid(p.csrf, req.token)
             && Dispatch(p.quotas, p.announcements, req.action, now, newId).Ok?) ==>
      var d := Dispatch(p.quotas, p.announcements, req.action, now, newId).value;
      r == Panel(d.0, d.1, Some(next), d.2, SuccessType(req.action), None)
    ensures r.fatal.Some? ==>
      r.quotas == p.quotas && r.announcements == p.announcements && r.csrf == p.csrf && r.message == ""
  {
    if req.NoAction? then Begun(p)
    else if !CsrfValid(p.csrf, req.token) then
      p.(csrf := Some(reissued), message := CsrfFailed, messageType := "error", fatal := None)
    else
      match Dispatch(p.quotas, p.announcements, req.action, now, newId)
      case Ok((q, rows, msg)) => Panel(q, rows, Some(next), msg, SuccessType(req.action), None)
      case Err(Exception(e)) => p.(message := e, messageType := "error", fatal := None)
      case Err(Error(e)) => Begun(p).(fatal := Some(e))
  }

  /** A token is good for one successful action: presented again it is refused. */
  lemma TokenConsumedBySuccess(p: Panel, token: string, act: Action, reissued: string, next: string,
                               now: int, newId: int)
    requires CsrfValid(p.csrf, Some(token)) && next != token
    requires Dispatch(p.quotas, p.announcements, act, now, newId).Ok?
    ensures var r := Handle(p, Post(Some(token), act), reissued, next, now, newId);
      !CsrfValid(r.csrf, Some(token))
      && Handle(r, Post(Some(token), act), reissued, next, now, newId).quotas == r.quotas
      && Handle(r, Post(Some(token), act), reissued, next, now, newId).announcements == r.announcements
  {
  }

  /** A configuration action changes neither the quotas nor the announcements; when it does not
   *  throw, the token is consumed and `next` stored. */
  lemma ConfigActionKeepsTables(p: Panel, token: Option<string>, c: ConfigRequest, reissued: string, next: string,
                                now: int, newId: int)
    ensures var r := Handle(p, Post(token, ConfigAction(c)), reissued, next, now, newId);
      r.quotas == p.quotas && r.announcements == p.announcements
    ensures var r := Handle(p, Post(token, ConfigAction(c)), reissued, next, now, newId);
      CsrfValid(p.csrf, token) && ConfigResult(c).Ok? ==>
        r.csrf == Some(next) && r.message == ConfigResult(c).value && r.fatal.None?
  {
  }

  /** Behind a valid token the system configuration update always succeeds and rotates the token. */
  lemma SystemConfigAlwaysSucceeds(p: Panel, token: string, reissued: string, next: string, now: int, newId: int)
    requires CsrfValid(p.csrf, Some(token))
    ensures Handle(p, Post(Some(token), ConfigAction(UpdateSystemConfig)), reissued, next, now, newId)
         == p.(csrf := Some(next), message := SystemConfigUpdated, messageType := "success", fatal := None)
  {
  }

  /** A failed connection test is reported as an error, yet it does not throw: the token rotates. */
  lemma FailedTestRotatesToken(p: Panel, token: string, provider: string, err: string, reissued: string,
                               next: string, now: int, newId: int)
    requires CsrfValid(p.csrf, Some(token)) && !Falsy(provider)
    ensures var r := Handle(p, Post(Some(token), ConfigAction(TestAiProvider(Some(provider), ProbeFailed(err)))),
                            reissued, next, now, newId);
      r.csrf == Some(next) && r.messageType == "error" && r.message == "AI提供商 " + provider + " 连接测试失败: " + err
  {
  }

  /**
   * A connection test whose probe throws an Error ends the request: no message is set, no table
   * changes and the token is not consumed, so the same token is still good afterwards.
   */
  lemma ThrowingTestIsFatal(p: Panel, token: string, provider: string, m: string, reissued: string,
                            next: string, now: int, newId: int)
    requires CsrfValid(p.csrf, Some(token)) && !Falsy(provider)
    ensures var r := Handle(p, Post(Some(token), ConfigAction(TestAiProvider(Some(provider), ProbeThrew(m)))),
                            reissued, next, now, newId);
      r == p.(message := "", messageType := "", fatal := Some(m)) && CsrfValid(r.csrf, Some(token))
  {
  }

  /** Only the Error a connection test lets escape ends the request; every other action is caught. */
  lemma OnlyProbeErrorIsFatal(p: Panel, req: Request, reissued: string, next: string, now: int, newId: int)
    ensures Handle(p, req, reissued, next, now, newId).fatal.Some? <==>
      (req.Post? && CsrfValid(p.csrf, req.token) && req.action.ConfigAction? && req.action.config.TestAiProvider?
       && ProviderGiven(req.action.config.provider) && req.action.config.probe.ProbeThrew?)
  {
  }

  /**
   * Nothing carries over from one request to the next but the tables and the token: after any
   * request, one without an action shows no message and renders normally.
   */
  lemma NextRequestStartsClean(p: Panel, req: Request, reissued: string, next: string, now: int, newId: int,
                               reissued2: string, next2: string)
    ensures var r := Handle(p, req, reissued, next, now, newId);
      Handle(r, NoAction, reissued2, next2, now, newId)
        == Panel(r.quotas, r.announcements, r.csrf, "", "", None)
  {
  }

  /** A name outside the switch changes no table. */
  lemma OtherActionChangesNothing(p: Panel, token: Option<string>, name: string, reissued: string, next: string,
                                  now: int, newId: int)
    ensures var r := Handle(p, Post(token, OtherAction(name)), reissued, next, now, newId);
      r.quotas == p.quotas && r.announcements == p.announcements
  {
  }

  /** The panel's tables and session. */
  class AdminPanel {
    var quotas: QuotaTable
    var announcements: seq<Announcement>
    var csrf: Option<string>
    var message: string
    var messageType: string
    var fatal: Option<string>

    constructor(quotas: QuotaTable, announcements: seq<Announcement>, csrf: Option<string>)
      ensures this.quotas == quotas && this.announcements == announcements && this.csrf == csrf
      ensures message == "" && messageType == "" && fatal.None?
    {
      this.quotas := quotas;
      this.announcements := announcements;
      this.csrf := csrf;
      message := "";
      messageType := "";
      fatal := None;
    }

    /** batchUpdateQuotas against the quota table; the result is the message or the error. */
    method BatchUpdateQuotas(m: Option<string>, action: Option<string>, now: int) returns (r: Result<string, string>)
      modifies this
      ensures match BatchUpdate(old(quotas), m, action, now)
        case Ok((t, n)) => quotas == t && r == Ok(BatchMessage(n))
        case Err(e) => quotas == old(quotas) && r == Err(e)
      ensures announcements == old(announcements) && csrf == old(csrf)
      ensures message == old(message) && messageType == old(messageType) && fatal == old(fatal)
    {
      var mt := m.GetOr("");
      var act := action.GetOr("");
      if Falsy(mt) || Falsy(act) {
        return Err(BatchMissing);
      }
      var before := quotas;
      quotas := BatchUpdated(quotas, mt, act, now);
      r := Ok(BatchMessage(|Changed(before, quotas)|));
    }

    /** updateUserQuota against the quota table. */
    method UpdateUserQuota(userId: Option<string>, remaining: Option<string>, total: Option<string>,
                           membership: Option<string>, now: int) returns (r: Result<string, string>)
      modifies this
      ensures match UserQuotaUpdated(old(quotas), userId, remaining, total, membership, now)
        case Ok((t, msg)) => quotas == t && r == Ok(msg)
        case Err(e) => quotas == old(quotas) && r == Err(e)
      ensures announcements == old(announcements) && csrf == old(csrf)
      ensures message == old(message) && messageType == old(messageType) && fatal == old(fatal)
    {
      match UserQuotaUpdated(quotas, userId, remaining, total, membership, now)
      case Ok((t, msg)) =>
        quotas := t;
        r := Ok(msg);
      case Err(e) =>
        r := Err(e);
    }

    /** One POST request: the CSRF gate, then the action. */
    method HandleRequest(req: Request, reissued: string, next: string, now: int, newId: int)
      modifies this
      ensures Panel(quotas, announcements, csrf, message, messageType, fatal)
        == Handle(Panel(old(quotas), old(announcements), old(csrf), old(message), old(messageType), old(fatal)),
                  req, reissued, next, now, newId)
    {
      message := "";
      messageType := "";
      fatal := None;
      if req.NoAction? {
        return;
      }
      if !CsrfValid(csrf, req.token) {
        csrf := Some(reissued);
        message := CsrfFailed;
        messageType := "error";
        return;
      }
      var r := DispatchAction(req.action, now, newId);
      match r {
        case Ok(msg) =>
          csrf := Some(next);
          message := msg;
          messageType := SuccessType(req.action);
        case Err(Exception(e)) =>
          message := e;
          messageType := "error";
        case Err(Error(e)) =>
          fatal := Some(e);
      }
    }

    /** The switch on the action, against the tables. */
    method DispatchAction(act: Action, now: int, newId: int) returns (r: Result<string, Thrown>)
      modifies this
      ensures match Dispatch(old(quotas), old(announcements), act, now, newId)
        case Ok((q, rows, msg)) => quotas == q && announcements == rows && r == Ok(msg)
        case Err(e) => quotas == old(quotas) && announcements == old(announcements) && r == Err(e)
      ensures csrf == old(csrf) && message == old(message) && messageType == old(messageType) && fatal == old(fatal)
    {
      match act {
        case UpdateUserQuotaAction(u, rem, tot, m) =>
          var s := UpdateUserQuota(u, rem, tot, m, now);
          r := AsException(s);
        case BatchUpdateQuotasAction(m, a) =>
          var s := BatchUpdateQuotas(m, a, now);
          r := AsException(s);
        case CreateAnnouncementAction(f) =>
          var s := ApplyRows(Create(announcements, f, newId, now));
          r := AsException(s);
        case UpdateAnnouncementAction(id, f) =>
          var s := ApplyRows(Update(announcements, id, f));
          r := AsException(s);
        case DeleteAnnouncementAction(id) =>
          var s := ApplyRows(Delete(announcements, id));
          r := AsException(s);
        case ToggleAnnouncementAction(id, on) =>
          var s := ApplyRows(Toggle(announcements, id, on));
          r := AsException(s);
        case ConfigAction(c) =>
          r := ConfigResult(c);
        case OtherAction(_) =>
          r := Err(Exception(UnknownAction));
      }
    }

    /** Stores the rows an announcement action produced, or leaves the table when it threw. */
    method ApplyRows(res: Result<(seq<Announcement>, string), string>) returns (r: Result<string, string>)
      modifies this
      ensures match res
        case Ok((rows, msg)) => announcements == rows && r == Ok(msg)
        case Err(e) => announcements == old(announcements) && r == Err(e)
      ensures quotas == old(quotas) && csrf == old(csrf)
      ensures message == old(message) && messageType == old(messageType) && fatal == old(fatal)
    {
      match res
      case Ok((rows, msg)) =>
        announcements := rows;
        r := Ok(msg);
      case Err(e) =>
        r := Err(e);
    }
  }
}

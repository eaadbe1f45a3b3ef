/**
 * The polling endpoint api/task/status.php: a read-only projection of one queue row, and of the
 * step rows of its report, into the snapshot the browser polls.
 */
module TaskStatus {
  import opened Wrappers
  import opened Text
  import opened Json
  import opened Sorting
  import opened TaskStore

  /** One entry of `partial_result`. */
  datatype PartialStep = PartialStep(stepNumber: int, stepName: string, title: string, status: string, content: Option<string>)

  /**
   * The snapshot. `result` is present only for a completed job and `error` only for a failed
   * one; the error itself may be NULL.
   */
  datatype Snapshot = Snapshot(
    status: string,
    taskId: string,
    reportId: string,
    currentStep: Json,
    totalSteps: Json,
    currentMessage: Json,
    partial: seq<PartialStep>,
    updatedAt: int,
    result: Option<Json>,
    error: Option<Option<string>>)

  /** The reply: an HTTP error status with its message, or the snapshot. */
  datatype Reply = Failure(code: int, message: string) | Success(snapshot: Snapshot)

  /** `SELECT * FROM planwise_task_queue WHERE task_id = ? LIMIT 1`: the first such row in table order. */
  function FindTask(q: seq<TaskRow>, taskId: string): (r: Option<TaskRow>)
    ensures r.None? <==> forall k :: 0 <= k < |q| ==> q[k].taskId != taskId
    ensures r.Some? ==> r.value in q && r.value.taskId == taskId
  {
    if q == [] then None
    else if q[0].taskId == taskId then Some(q[0])
    else FindTask(q[1..], taskId)
  }

  /** The access rule: refused only when the job has an owner, a user is logged in, and they differ. */
  predicate AccessDenied(owner: Option<int>, sessionUser: Option<int>) {
    owner.Some? && owner.value != 0 && sessionUser.Some? && sessionUser.value != 0 &&
    owner.value != sessionUser.value
  }

  /** ORDER BY step_number ASC. */
  function StepOrder(r: StepRow): (int, int) {
    (-r.stepNumber, 0)
  }

  function Project(r: StepRow): PartialStep {
    PartialStep(r.stepNumber, r.stepName, r.stepTitle, StepStatusName(r.status), r.formattedContent)
  }

  /** The entries of a sequence of step rows, one per row and in the same order. */
  function ProjectAll(rows: seq<StepRow>): (p: seq<PartialStep>)
    ensures |p| == |rows|
  {
    seq(|rows|, k requires 0 <= k < |rows| => Project(rows[k]))
  }

  lemma ProjectAllConcat(u: seq<StepRow>, v: seq<StepRow>)
    ensures ProjectAll(u + v) == ProjectAll(u) + ProjectAll(v)
  {
  }

  /** Taking element i out of a sequence takes one copy of it out of the multiset. */
  lemma RemoveAt<T>(b: seq<T>, i: nat)
    requires i < |b|
    ensures multiset(b[..i] + b[i + 1..]) == multiset(b) - multiset{b[i]}
  {
    assert b == b[..i] + [b[i]] + b[i + 1..];
  }

  lemma RemoveFirst<T>(a: seq<T>)
    requires a != []
    ensures a[0] in multiset(a) && multiset(a[1..]) == multiset(a) - multiset{a[0]}
  {
    assert a == [a[0]] + a[1..];
  }

  /** A position of an element of a sequence. */
  lemma IndexOf<T>(b: seq<T>, x: T) returns (i: nat)
    requires x in multiset(b)
    ensures i < |b| && b[i] == x
  {
    assert x in b;
    i :| i < |b| && b[i] == x;
  }

  /** The first element of `a` at some position i of its permutation `b`, and what is left of both. */
  lemma Match<T>(a: seq<T>, b: seq<T>) returns (i: nat)
    requires multiset(a) == multiset(b) && a != []
    ensures i < |b| && b[i] == a[0]
    ensures multiset(a[1..]) == multiset(b[..i] + b[i + 1..])
  {
    RemoveFirst(a);
    i := IndexOf(b, a[0]);
    RemoveAt(b, i);
  }

  /** Taking row i out takes one copy of its entry out of the projected multiset. */
  lemma ProjectAllRemoveAt(b: seq<StepRow>, i: nat)
    requires i < |b|
    ensures multiset(ProjectAll(b)) == multiset(ProjectAll(b[..i] + b[i + 1..])) + multiset{Project(b[i])}
  {
    assert b == b[..i] + [b[i]] + b[i + 1..];
    ProjectAllConcat(b[..i] + [b[i]], b[i + 1..]);
    ProjectAllConcat(b[..i], [b[i]]);
    ProjectAllConcat(b[..i], b[i + 1..]);
  }

  /** The inductive step: the first row of `a` sits at position i of `b`, and the rest match. */
  lemma PermuteStep(a: seq<StepRow>, b: seq<StepRow>, i: nat)
    requires 0 < |a| && i < |b| && b[i] == a[0]
    requires multiset(ProjectAll(a[1..])) == multiset(ProjectAll(b[..i] + b[i + 1..]))
    ensures multiset(ProjectAll(a)) == multiset(ProjectAll(b))
  {
    hide ProjectAll;
    ProjectAllRemoveAt(a, 0);
    ProjectAllRemoveAt(b, i);
    assert a[..0] + a[1..] == a[1..];
  }

  /** Rows that are a permutation of each other project to entries that are a permutation too. */
  lemma {:induction false} ProjectAllPermutes(a: seq<StepRow>, b: seq<StepRow>)
    requires multiset(a) == multiset(b)
    ensures multiset(ProjectAll(a)) == multiset(ProjectAll(b))
    decreases |a|
  {
    hide ProjectAll;
    if a == [] {
      assert |b| == |multiset(b)| == 0;
    } else {
      var i := Match(a, b);
      ProjectAllPermutes(a[1..], b[..i] + b[i + 1..]);
      PermuteStep(a, b, i);
    }
  }

  /** partial_result: the report's step rows in step order, one entry each. */
  function Partial(steps: seq<StepRow>, reportId: string): (p: seq<PartialStep>)
    ensures |p| == |StepsOf(steps, reportId)|
  {
    ProjectAll(SortDesc(StepsOf(steps, reportId), StepOrder))
  }

  /** `completed_at ?? started_at ?? created_at`. */
  function UpdatedAt(t: TaskRow): (u: int)
    ensures t.completedAt.Some? ==> u == t.completedAt.value
    ensures t.completedAt.None? && t.startedAt.Some? ==> u == t.startedAt.value
    ensures t.completedAt.None? && t.startedAt.None? ==> u == t.createdAt
  {
    if t.completedAt.Some? then t.completedAt.value
    else if t.startedAt.Some? then t.startedAt.value
    else t.createdAt
  }

  /** The snapshot of a found row the caller may see. */
  function SnapshotOf(taskId: string, t: TaskRow, steps: seq<StepRow>): Snapshot {
    var payload := DecodePayload(t.payload);
    var partial := Partial(steps, t.reportId);
    Snapshot(
      TaskStatusName(t.status), taskId, t.reportId,
      Coalesce(Lookup(payload, [Key("current_step")]), JInt(0)),
      Coalesce(Lookup(payload, [Key("total_steps")]), JInt(if |partial| < 8 then 8 else |partial|)),
      Coalesce(Lookup(payload, [Key("current_message")]), JStr("")),
      partial,
      UpdatedAt(t),
      if t.status == Completed then Some(DecodePayload(t.result)) else None,
      if t.status == Failed then Some(t.errorMessage) else None)
  }

  /**
   * The script: `$_GET['task_id'] ?? ''` (a falsy id is missing), the row lookup, the access
   * rule, then the snapshot.
   */
  function Status(taskIdParam: Option<string>, sessionUser: Option<int>, db: Db): (r: Reply)
    ensures (taskIdParam.None? || Falsy(taskIdParam.value)) <==> r == Failure(400, "Missing task_id")
    ensures taskIdParam.Some? && !Falsy(taskIdParam.value) ==>
      (r == Failure(404, "Task not found") <==> FindTask(db.queue, taskIdParam.value).None?)
    ensures taskIdParam.Some? && !Falsy(taskIdParam.value) && FindTask(db.queue, taskIdParam.value).Some? ==>
      var t := FindTask(db.queue, taskIdParam.value).value;
      (r == Failure(403, "Access denied") <==> AccessDenied(t.userId, sessionUser)) &&
      (r.Success? <==> !AccessDenied(t.userId, sessionUser))
    ensures r.Success? ==>
      taskIdParam.Some? && FindTask(db.queue, taskIdParam.value).Some? &&
      r.snapshot == SnapshotOf(taskIdParam.value, FindTask(db.queue, taskIdParam.value).value, db.steps)
  {
    var taskId := taskIdParam.GetOr("");
    if Falsy(taskId) then Failure(400, "Missing task_id")
    else
      match FindTask(db.queue, taskId)
      case None => Failure(404, "Task not found")
      case Some(t) =>
        if AccessDenied(t.userId, sessionUser) then Failure(403, "Access denied")
        else Success(SnapshotOf(taskId, t, db.steps))
  }

  // ---------------------------------------------------------------- properties of the snapshot

  /**
   * partial_result has exactly one entry per step row of the report, in ascending step order:
   * each entry is the projection of one of the report's rows and every such row is projected.
   */
  lemma PartialOfReport(steps: seq<StepRow>, reportId: string)
    ensures var p := Partial(steps, reportId);
      |p| == |StepsOf(steps, reportId)| &&
      (forall i, j :: 0 <= i < j < |p| ==> p[i].stepNumber <= p[j].stepNumber) &&
      (forall k :: 0 <= k < |p| ==> exists r :: r in steps && r.reportId == reportId && p[k] == Project(r)) &&
      (forall r :: r in steps && r.reportId == reportId ==> Project(r) in p)
    ensures multiset(Partial(steps, reportId)) == multiset(ProjectAll(StepsOf(steps, reportId)))
  {
    PartialOrdered(steps, reportId);
    PartialMembers(steps, reportId);
    var mine := StepsOf(steps, reportId);
    ProjectAllPermutes(SortDesc(mine, StepOrder), mine);
  }

  lemma PartialOrdered(steps: seq<StepRow>, reportId: string)
    ensures var p := Partial(steps, reportId);
      forall i, j :: 0 <= i < j < |p| ==> p[i].stepNumber <= p[j].stepNumber
  {
    var rows := SortDesc(StepsOf(steps, reportId), StepOrder);
    var p := Partial(steps, reportId);
    forall i, j | 0 <= i < j < |p|
      ensures p[i].stepNumber <= p[j].stepNumber
    {
      assert Before(StepOrder(rows[i]), StepOrder(rows[j]));
    }
  }

  lemma PartialMembers(steps: seq<StepRow>, reportId: string)
    ensures var p := Partial(steps, reportId);
      (forall k :: 0 <= k < |p| ==> exists r :: r in steps && r.reportId == reportId && p[k] == Project(r)) &&
      (forall r :: r in steps && r.reportId == reportId ==> Project(r) in p)
  {
    var mine := StepsOf(steps, reportId);
    var rows := SortDesc(mine, StepOrder);
    var p := Partial(steps, reportId);
    forall k | 0 <= k < |p|
      ensures exists r :: r in steps && r.reportId == reportId && p[k] == Project(r)
    {
      SortDescMembers(mine, StepOrder, rows[k]);
      assert rows[k] in mine;
    }
    forall r | r in steps && r.reportId == reportId
      ensures Project(r) in p
    {
      SortDescMembers(mine, StepOrder, r);
      var k :| 0 <= k < |rows| && rows[k] == r;
      assert p[k] == Project(r);
    }
  }

  /**
   * A payload without the progress members shows step 0, max(8, number of step rows) steps and
   * an empty message.
   */
  lemma ProgressDefaults(taskId: string, t: TaskRow, steps: seq<StepRow>)
    requires var p := DecodePayload(t.payload);
      Lookup(p, [Key("current_step")]).None? && Lookup(p, [Key("total_steps")]).None? &&
      Lookup(p, [Key("current_message")]).None?
    ensures var s := SnapshotOf(taskId, t, steps);
      var n := |StepsOf(steps, t.reportId)|;
      s.currentStep == JInt(0) && s.totalSteps == JInt(if n < 8 then 8 else n) && s.currentMessage == JStr("")
  {
  }

  /** The three progress members of a payload the worker has just written, as read back. */
  lemma ProgressLookups(payload: Json, step: int, total: int, message: string)
    requires payload.JObject? || payload.JNull?
    ensures var p := DecodePayload(ProgressPayload(payload, step, total, message));
      Lookup(p, [Key("current_step")]) == Some(JInt(step)) &&
      Lookup(p, [Key("total_steps")]) == Some(JInt(total)) &&
      Lookup(p, [Key("current_message")]) == Some(JStr(message))
  {
    var p := ProgressPayload(payload, step, total, message);
    assert p.fields != [] by {
      assert Get(p.fields, "current_step").Some?;
    }
    assert DecodePayload(p) == p;
    hide ProgressPayload, DecodePayload;
    LookupKey(p.fields, "current_step", JInt(step), []);
    LookupKey(p.fields, "total_steps", JInt(total), []);
    LookupKey(p.fields, "current_message", JStr(message), []);
    assert [Key("current_step")] + [] == [Key("current_step")];
    assert [Key("total_steps")] + [] == [Key("total_steps")];
    assert [Key("current_message")] + [] == [Key("current_message")];
  }

  /** The progress the worker writes before a step is what the snapshot shows. */
  lemma ProgressVisible(taskId: string, t: TaskRow, steps: seq<StepRow>, step: int, total: int, message: string)
    requires t.payload.JObject? || t.payload.JNull?
    ensures var s := SnapshotOf(taskId, t.(payload := ProgressPayload(t.payload, step, total, message)), steps);
      s.currentStep == JInt(step) && s.totalSteps == JInt(total) && s.currentMessage == JStr(message)
  {
    ProgressLookups(t.payload, step, total, message);
    hide ProgressPayload, DecodePayload, Lookup, Partial;
  }

  /** `result` is shown exactly for a completed job and `error` exactly for a failed one. */
  lemma ResultAndErrorShown(taskId: string, t: TaskRow, steps: seq<StepRow>)
    ensures var s := SnapshotOf(taskId, t, steps);
      (s.result.Some? <==> t.status == Completed) && (s.error.Some? <==> t.status == Failed) &&
      (s.result.Some? ==> s.result.value == DecodePayload(t.result)) &&
      (s.error.Some? ==> s.error.value == t.errorMessage) &&
      s.status == TaskStatusName(t.status)
  {
  }
}

/**
 * The worker process (worker/task_processor.php): class `TaskProcessor` performing the
 * pipeline's updates on a `Store`, proved to agree with the functions of module Worker, and its
 * `run` loop with the shutdown flag.
 *
 * A shutdown signal is seen only when `pcntl_signal_dispatch()` runs at the top of a turn of the
 * loop; `signalAt` is the turn whose dispatch delivers it. `Serve` is the loop as written, which
 * still claims and processes one more job in the turn that saw the signal; `ServeGraceful` is the
 * loop that stops claiming once the signal is seen.
 */
module Processor {
  import opened Wrappers
  import opened Text
  import opened Json
  import opened Invoker
  import opened TaskStore
  import opened Worker

  // ---------------------------------------------------------------- the run loop, as values

  datatype LoopEvent = Shutdown | Took(id: int) | Idle

  datatype Served = Served(db: Db, trace: seq<LoopEvent>)

  /** getNextTask: the claim, or, when the store fails inside the transaction, a rollback and no task. */
  function NextTask(db: Db, now: int, fault: bool): (c: Claimed)
    ensures fault ==> c == Claimed(db.queue, None)
    ensures !fault ==> c == Claim(db.queue, now)
  {
    if fault then Claimed(db.queue, None) else Claim(db.queue, now)
  }

  /** What processing a claimed job does to the tables, in the world of its turn. */
  type JobFn = (TaskRow, Db, World) -> Db

  /** processTask with the configured invoker. */
  function Jobs(ps: seq<Provider>): JobFn {
    (t: TaskRow, d: Db, w: World) => Process(Plan, t, d, Answers(ps, w), w)
  }

  /** What one turn after the dispatch did: the tables afterwards and the job it took, if any. */
  datatype Turned = Turned(db: Db, took: Option<int>)

  /** One turn after the dispatch: claim a job and process it, or find none and sleep. */
  function Turn(proc: JobFn, db: Db, w: World, fault: bool): (r: Turned)
    ensures r.took.None? <==> (fault || forall k :: 0 <= k < |db.queue| ==> db.queue[k].status != Pending)
    ensures r.took.None? ==> r.db == db
    ensures r.took.Some? ==> exists k :: 0 <= k < |db.queue| && db.queue[k].id == r.took.value && db.queue[k].status == Pending
  {
    var c := NextTask(db, w.claimedAt, fault);
    match c.task
    case None => Turned(db.(queue := c.queue), None)
    case Some(t) => Turned(proc(t, db.(queue := c.queue), w), Some(t.id))
  }

  /** The turns of a worker, by number: each has its own world and its own store failure. */
  type TurnFn = (nat, Db) -> Turned

  function Turns(proc: JobFn, worlds: nat -> World, faults: nat -> bool): TurnFn {
    (i: nat, d: Db) => Turn(proc, d, worlds(i), faults(i))
  }

  function EventOf(t: Turned): (e: LoopEvent)
    ensures e != Shutdown
  {
    if t.took.Some? then Took(t.took.value) else Idle
  }

  /**
   * run() from turn i as written: the turns before `signalAt` each claim or sleep; in turn
   * `signalAt` the signal is dispatched and the turn still claims, then the loop ends.
   */
  function Serve(turn: TurnFn, db: Db, i: nat, signalAt: nat): (s: Served)
    requires i <= signalAt
    ensures |s.trace| == signalAt - i + 2
    ensures s.trace[signalAt - i] == Shutdown && s.trace[signalAt - i + 1] != Shutdown
    ensures forall k :: 0 <= k < signalAt - i ==> s.trace[k] != Shutdown
    decreases signalAt - i
  {
    var t := turn(i, db);
    if i == signalAt then Served(t.db, [Shutdown, EventOf(t)])
    else
      var rest := Serve(turn, t.db, i + 1, signalAt);
      Served(rest.db, [EventOf(t)] + rest.trace)
  }

  /** The loop that stops claiming once the signal is seen: the turn of the signal claims nothing. */
  function ServeGraceful(turn: TurnFn, db: Db, i: nat, signalAt: nat): (s: Served)
    requires i <= signalAt
    ensures |s.trace| == signalAt - i + 1
    ensures s.trace[signalAt - i] == Shutdown
    ensures forall k :: 0 <= k < signalAt - i ==> s.trace[k] != Shutdown
    ensures i == signalAt ==> s.db == db
    decreases signalAt - i
  {
    if i == signalAt then Served(db, [Shutdown])
    else
      var t := turn(i, db);
      var rest := ServeGraceful(turn, t.db, i + 1, signalAt);
      Served(rest.db, [EventOf(t)] + rest.trace)
  }

  /** Serve after one turn before the signal: that turn's event, then the rest of the run. */
  lemma ServeUnfold(turn: TurnFn, db: Db, i: nat, signalAt: nat)
    requires i < signalAt
    ensures var t := turn(i, db);
      var rest := Serve(turn, t.db, i + 1, signalAt);
      Serve(turn, db, i, signalAt) == Served(rest.db, [EventOf(t)] + rest.trace)
  {
  }

  lemma ServeGracefulUnfold(turn: TurnFn, db: Db, i: nat, signalAt: nat)
    requires i < signalAt
    ensures var t := turn(i, db);
      var rest := ServeGraceful(turn, t.db, i + 1, signalAt);
      ServeGraceful(turn, db, i, signalAt) == Served(rest.db, [EventOf(t)] + rest.trace)
  {
  }

  /** Up to the shutdown both loops do the same turns; the loop as written then does one more. */
  lemma {:induction false} GracefulIsPrefix(turn: TurnFn, db: Db, i: nat, signalAt: nat)
    requires i <= signalAt
    ensures var s := Serve(turn, db, i, signalAt);
      var g := ServeGraceful(turn, db, i, signalAt);
      s == Served(turn(signalAt, g.db).db, g.trace + [EventOf(turn(signalAt, g.db))])
    decreases signalAt - i
  {
    if i < signalAt {
      var t := turn(i, db);
      GracefulIsPrefix(turn, t.db, i + 1, signalAt);
      var g := ServeGraceful(turn, t.db, i + 1, signalAt);
      assert [EventOf(t)] + (g.trace + [EventOf(turn(signalAt, g.db))]) ==
             ([EventOf(t)] + g.trace) + [EventOf(turn(signalAt, g.db))];
    }
  }

  /**
   * The loop as written takes a job after the shutdown: a signal seen in the first turn, with a
   * pending job in the queue, still has a job claimed and processed; the graceful loop claims none.
   */
  lemma JobTakenAfterShutdown(proc: JobFn, db: Db, worlds: nat -> World, faults: nat -> bool)
    requires !faults(0) && exists k :: 0 <= k < |db.queue| && db.queue[k].status == Pending
    ensures Serve(Turns(proc, worlds, faults), db, 0, 0).trace[1].Took?
    ensures ServeGraceful(Turns(proc, worlds, faults), db, 0, 0) == Served(db, [Shutdown])
  {
    assert Turns(proc, worlds, faults)(0, db) == Turn(proc, db, worlds(0), faults(0));
  }

  // ---------------------------------------------------------------- the worker object

  class TaskProcessor {
    const store: Store
    const ai: AiServiceEnhanced
    var running: bool

    /** A worker on the given database, running, with a new service built with no provider
     *  configuration: the default chain, with the keys from the environment. */
    constructor(store: Store, claudeKey: Option<string>, qwenKey: Option<string>)
      ensures this.store == store && fresh(ai) && ai.providers == DefaultProviders(claudeKey, qwenKey) && running
    {
      this.store := store;
      ai := new AiServiceEnhanced([], claudeKey, qwenKey);
      running := true;
    }

    /** handleSignal: the loop flag goes down (the log line is not modelled). */
    method HandleSignal()
      modifies this
      ensures !running
    {
      running := false;
    }

    /**
     * getNextTask: select the next pending row and move it to 'processing', both in one
     * transaction; a store failure rolls back and yields no task.
     */
    method GetNextTask(now: int, fault: bool) returns (task: Option<TaskRow>)
      modifies store
      ensures var c := NextTask(old(store.db), now, fault);
        task == c.task && store.db == old(store.db).(queue := c.queue)
    {
      if fault {
        return None;
      }
      var next := SelectNext(store.db.queue);
      if next.None? {
        return None;
      }
      var t := store.db.queue[next.value];
      store.db := store.db.(queue := UpdateTask(store.db.queue, t.id, ClaimRow(now)));
      return Some(t);
    }

    /** resetReportSteps: delete the report's rows, then insert one pending row per step. */
    method ResetReportSteps(reportId: string, steps: seq<PlanStep>, taskId: string, now: int, suffix: nat -> string)
      modifies store
      ensures store.db == old(store.db).(steps := ResetSteps(old(store.db.steps), reportId, taskId, now, suffix, steps))
    {
      store.db := store.db.(steps := StepsNotOf(store.db.steps, reportId));
      ghost var kept := store.db.steps;
      ghost var rows := FreshSteps(reportId, taskId, now, suffix, steps);
      var i := 0;
      while i < |steps|
        invariant i <= |steps|
        invariant store.db == old(store.db).(steps := kept + rows[..i])
      {
        store.db := store.db.(steps := store.db.steps + [FreshStep(reportId, taskId, now, suffix, steps, i)]);
        assert rows[..i + 1] == rows[..i] + [rows[i]];
        i := i + 1;
      }
      assert rows[..|steps|] == rows;
    }

    /** markStepProcessing. */
    method MarkStepProcessing(reportId: string, stepName: string, now: int)
      modifies store
      ensures store.db == old(store.db).(steps := UpdateStep(old(store.db.steps), reportId, stepName, MarkRow(now)))
    {
      store.db := store.db.(steps := UpdateStep(store.db.steps, reportId, stepName, MarkRow(now)));
    }

    /** storeStepResult. */
    method StoreStepResult(reportId: string, step: PlanStep, response: AiResponse, content: string, wordCount: int, duration: int, now: int)
      modifies store
      ensures store.db == old(store.db).(steps := UpdateStep(old(store.db.steps), reportId, step.name,
                                                              StoreRow(response, content, wordCount, duration, now)))
    {
      store.db := store.db.(steps := UpdateStep(store.db.steps, reportId, step.name,
                                                StoreRow(response, content, wordCount, duration, now)));
    }

    /** updateTaskProgress. */
    method UpdateTaskProgress(id: int, currentStep: int, totalSteps: int, message: string)
      modifies store
      ensures store.db == old(store.db).(queue := UpdateTask(old(store.db.queue), id, ProgressRow(currentStep, totalSteps, message)))
    {
      store.db := store.db.(queue := UpdateTask(store.db.queue, id, ProgressRow(currentStep, totalSteps, message)));
    }

    /** completeTask. */
    method CompleteTask(t: TaskRow, results: Results, duration: int, now: int)
      modifies store
      ensures store.db == CompleteJob(old(store.db), t, results, duration, now)
    {
      store.db := store.db.(queue := UpdateTask(store.db.queue, t.id, CompleteRow(ResultJson(results, duration), now)));
      store.db := store.db.(reports := UpdateReport(store.db.reports, t.reportId, ReportDone(now)));
    }

    /** failTask. */
    method FailTask(t: TaskRow, error: string, now: int)
      modifies store
      ensures store.db == FailJob(old(store.db), t, error, now)
    {
      store.db := store.db.(queue := UpdateTask(store.db.queue, t.id, FailRow(error, now)));
      store.db := store.db.(reports := UpdateReport(store.db.reports, t.reportId, ReportFail(now)));
    }

    /** The `foreach` of buildStepPrompt: one excerpt line appended per finished step. */
    method AppendExcerpts(previous: Results) returns (lines: string)
      ensures lines == Excerpts(previous)
    {
      lines := "";
      var i := 0;
      while i < |previous|
        invariant i <= |previous|
        invariant lines == Excerpts(previous[..i])
      {
        ExcerptsSnoc(previous, i);
        lines := lines + ExcerptLine(previous[i].1.title, previous[i].1.content);
        i := i + 1;
      }
      assert previous[..|previous|] == previous;
    }

    /** buildStepPrompt; a non-array input is the TypeError of its typed parameter. */
    method BuildStepPrompt(input: Json, step: PlanStep, previous: Results) returns (r: Result<Prompt, string>)
      ensures r == StepPrompt(input, step, previous)
    {
      hide StepSystem, StepContext, TaskText, Excerpts, CompletedHeading;
      if !IsArray(input) {
        return Err(ArrayArgumentError("buildStepPrompt", 1, "input", input, 116));
      }
      var system := StepSystem(input);
      var context := StepContext(input);
      if previous != [] {
        var lines := AppendExcerpts(previous);
        context := context + CompletedHeading + lines;
        assert context + TaskText(step) == StepContext(input) + (CompletedHeading + lines) + TaskText(step);
      } else {
        assert context == StepContext(input) + "";
      }
      return Ok(Prompt(system, context + TaskText(step)));
    }

    /**
     * The `foreach` of analyzeBusinessIdea over the plan: mark the step, record the progress,
     * build the prompt, call the invoker, store the result. An exception ends the loop.
     */
    method RunPlan(t: TaskRow, plan: seq<PlanStep>, input: Json, w: World) returns (r: Result<Results, string>)
      modifies store
      ensures var ran := RunSteps(Job(t, plan, Prompts(input), Answers(ai.providers, w), w), old(store.db));
        store.db == ran.db && r == ran.result
    {
      // The steps need what the invoker and the prompt builder return, not how they compute it.
      hide RunChain, StepPrompt;
      ghost var j := Job(t, plan, Prompts(input), Answers(ai.providers, w), w);
      ghost var d0 := store.db;
      var results: Results := [];
      var k := 0;
      while k < |plan|
        invariant k <= |plan|
        invariant Loop(Stepper(j), |plan|, 0, d0, []) == Loop(Stepper(j), |plan|, k, store.db, results)
      {
        ghost var o := StepOnce(j, k, store.db, results);
        assert Stepper(j)(k, store.db, results) == o;
        ghost var d := Begin(j, k, store.db);
        MarkStepProcessing(t.reportId, plan[k].name, w.stepStartedAt(k));
        UpdateTaskProgress(t.id, k + 1, |plan|, "正在执行：" + plan[k].title);
        assert store.db == d;
        var prompt := BuildStepPrompt(input, plan[k], results);
        if prompt.Err? {
          return Err(prompt.error);
        }
        var response, _ := ai.CallWithRetry(StepEnv(w, k, prompt.value));
        if response.Err? {
          return Err(response.error);
        }
        var text := ResponseText(response.value);
        if text.Err? {
          return Err(text.error);
        }
        var content := text.value;
        var wordCount := WordCount(StripTags(content));
        results := results + [(plan[k].name, StepResult(plan[k].title, content))];
        StoreStepResult(t.reportId, plan[k], response.value, content, wordCount, w.stepMs(k), w.stepFinishedAt(k));
        k := k + 1;
      }
      return Ok(results);
    }

    /** analyzeBusinessIdea: the input, the reset of the step rows, then the eight steps. */
    method AnalyzeBusinessIdea(t: TaskRow, payload: Json, w: World) returns (r: Result<Results, string>)
      modifies store
      ensures var ran := Analyze(Plan, t, payload, old(store.db), Answers(ai.providers, w), w);
        store.db == ran.db && r == ran.result
    {
      var input := InputOf(payload);
      var steps := Plan;
      ResetReportSteps(t.reportId, steps, t.taskId, w.resetAt, w.stepSuffix);
      r := RunPlan(t, steps, input, w);
    }

    /** processTask: dispatch on the type, then complete the job, or fail it with the exception's message. */
    method ProcessTask(t: TaskRow, w: World)
      modifies store
      ensures store.db == Process(Plan, t, old(store.db), Answers(ai.providers, w), w)
    {
      hide Analyze, CompleteJob, FailJob, DecodePayload, IsArray, ArrayArgumentError;
      var payload := DecodePayload(t.payload);
      if t.taskType != AnalyzeType {
        FailTask(t, "Unknown task type: " + t.taskType, w.finishedAt);
      } else if !IsArray(payload) {
        FailTask(t, ArrayArgumentError("analyzeBusinessIdea", 2, "payload", payload, 77), w.finishedAt);
      } else {
        var r := AnalyzeBusinessIdea(t, payload, w);
        match r
        case Ok(results) => CompleteTask(t, results, w.durationMs, w.finishedAt);
        case Err(m) => FailTask(t, m, w.finishedAt);
      }
    }

    /** One turn after the dispatch: getNextTask, then processTask on the job, or a sleep. */
    method TakeTurn(i: nat, worlds: nat -> World, faults: nat -> bool) returns (took: Option<int>)
      modifies store
      ensures Turned(store.db, took) == Turns(Jobs(ai.providers), worlds, faults)(i, old(store.db))
    {
      hide Process;
      var task := GetNextTask(worlds(i).claimedAt, faults(i));
      if task.Some? {
        ProcessTask(task.value, worlds(i));
        took := Some(task.value.id);
      } else {
        took := None;
      }
    }

    /**
     * One turn of run()'s loop as written: pcntl_signal_dispatch() (the signal arrives in turn
     * `signalAt`), then the claim and the job whatever the flag now says.
     */
    method Iterate(i: nat, signalAt: nat, worlds: nat -> World, faults: nat -> bool) returns (events: seq<LoopEvent>)
      requires running && i <= signalAt
      modifies this, store
      ensures running <==> i < signalAt
      ensures var turns := Turns(Jobs(ai.providers), worlds, faults);
        var s := Serve(turns, old(store.db), i, signalAt);
        if i == signalAt then Served(store.db, events) == s
        else s == Served(Serve(turns, store.db, i + 1, signalAt).db, events + Serve(turns, store.db, i + 1, signalAt).trace)
    {
      hide Process, Turn;
      ghost var turns := Turns(Jobs(ai.providers), worlds, faults);
      if i < signalAt {
        ServeUnfold(turns, store.db, i, signalAt);
      }
      if i == signalAt {
        HandleSignal();
      }
      var took := TakeTurn(i, worlds, faults);
      events := (if i == signalAt then [Shutdown] else []) + [EventOf(Turned(store.db, took))];
    }

    /**
     * run: while the flag is up, dispatch pending signals, then claim a job and process it, or
     * sleep when there is none.
     */
    method Run(signalAt: nat, worlds: nat -> World, faults: nat -> bool) returns (trace: seq<LoopEvent>)
      requires running
      modifies this, store
      ensures Served(store.db, trace) == Serve(Turns(Jobs(ai.providers), worlds, faults), old(store.db), 0, signalAt)
      ensures !running
    {
      // The loop needs only the contracts of Iterate and of Serve, not the bodies of the functions.
      hide *;
      ghost var turns := Turns(Jobs(ai.providers), worlds, faults);
      trace := [];
      var i := 0;
      while running
        invariant i <= signalAt + 1 && (running <==> i <= signalAt)
        invariant running ==> (Serve(turns, old(store.db), 0, signalAt) ==
          Served(Serve(turns, store.db, i, signalAt).db, trace + Serve(turns, store.db, i, signalAt).trace))
        invariant !running ==> Serve(turns, old(store.db), 0, signalAt) == Served(store.db, trace)
        decreases signalAt + 1 - i
      {
        ghost var before := trace;
        ghost var cur := Serve(turns, store.db, i, signalAt);
        var events := Iterate(i, signalAt, worlds, faults);
        trace := trace + events;
        if i < signalAt {
          ghost var rest := Serve(turns, store.db, i + 1, signalAt);
          assert cur == Served(rest.db, events + rest.trace);
          assert before + cur.trace == trace + rest.trace;
        } else {
          assert cur == Served(store.db, events);
        }
        i := i + 1;
      }
    }

    /** One turn of the corrected loop: the turn that dispatches the signal claims nothing. */
    method IterateGraceful(i: nat, signalAt: nat, worlds: nat -> World, faults: nat -> bool) returns (events: seq<LoopEvent>)
      requires running && i <= signalAt
      modifies this, store
      ensures running <==> i < signalAt
      ensures var turns := Turns(Jobs(ai.providers), worlds, faults);
        var s := ServeGraceful(turns, old(store.db), i, signalAt);
        if i == signalAt then Served(store.db, events) == s
        else s == Served(ServeGraceful(turns, store.db, i + 1, signalAt).db, events + ServeGraceful(turns, store.db, i + 1, signalAt).trace)
    {
      hide Process, Turn;
      if i == signalAt {
        HandleSignal();
        events := [Shutdown];
      } else {
        ServeGracefulUnfold(Turns(Jobs(ai.providers), worlds, faults), store.db, i, signalAt);
        var took := TakeTurn(i, worlds, faults);
        events := [EventOf(Turned(store.db, took))];
      }
    }

    /** The corrected loop: once the signal is dispatched, no further job is claimed. */
    method RunGraceful(signalAt: nat, worlds: nat -> World, faults: nat -> bool) returns (trace: seq<LoopEvent>)
      requires running
      modifies this, store
      ensures Served(store.db, trace) == ServeGraceful(Turns(Jobs(ai.providers), worlds, faults), old(store.db), 0, signalAt)
      ensures !running
    {
      // The loop needs only the contracts of Iterate and of Serve, not the bodies of the functions.
      hide *;
      ghost var turns := Turns(Jobs(ai.providers), worlds, faults);
      trace := [];
      var i := 0;
      while running
        invariant i <= signalAt + 1 && (running <==> i <= signalAt)
        invariant running ==> (ServeGraceful(turns, old(store.db), 0, signalAt) ==
          Served(ServeGraceful(turns, store.db, i, signalAt).db, trace + ServeGraceful(turns, store.db, i, signalAt).trace))
        invariant !running ==> ServeGraceful(turns, old(store.db), 0, signalAt) == Served(store.db, trace)
        decreases signalAt + 1 - i
      {
        ghost var before := trace;
        var events := IterateGraceful(i, signalAt, worlds, faults);
        trace := trace + events;
        if i < signalAt {
          ghost var rest := ServeGraceful(turns, store.db, i + 1, signalAt);
          assert before + (events + rest.trace) == trace + rest.trace;
        }
        i := i + 1;
      }
    }
  }
}

# PlanWise job pipeline, modelled in Dafny

PlanWise turns a business idea into a multi-step strategy report. A submission script places
an analysis job in the table `planwise_task_queue`. A long-running worker claims the best
pending job. It rebuilds the report's eight step rows in `planwise_report_steps` and runs the
eight analysis steps in order. For each step it asks a retrying multi-provider AI invoker
(Claude, then Qwen, then a built-in mock) for an answer. It then marks the job and the report
(`planwise_reports_v2`) completed, or failed.

The model follows the program's structure:

- **Wrappers, Text, Json, Sorting** hold the PHP semantics the core leans on:
  - truthiness of `""`/`"0"`, `trim`, `strtolower`, `explode`;
  - byte length through UTF-8, and `(int)` casts;
  - decoded JSON with `??` lookups, and `ORDER BY` as a sort on a key (the order of equal keys is left open, as in SQL).
- **Invoker** models `AI_Service_Enhanced`:
  - the configuration;
  - the back-off and retry policy;
  - the mock path;
  - the request and response adapters.

  The provider chain is a pure specification (`RunChain`). The class `AiServiceEnhanced` runs the
  nested provider/attempt loops and is proved to produce exactly that chain, including its trace
  of back-offs, pauses and calls. The network and the random jitter are parameters.
- **TaskStore** holds the three tables as rows and every `UPDATE` as a function. A `Store`
  object holds the database the scripts share.
- **Worker** is the worker's specification, as functions over the tables:
  - the claim, the reset of the step rows and the step prompt;
  - one step of the loop, the step loop and `processTask`.

  It also holds the lemmas about what these do to every row.
- **Processor** is the class `TaskProcessor`. Its methods update a `Store` in place and are
  proved to agree with module Worker. It also models the `run` loop with its shutdown flag.

Besides the job pipeline, the model covers the scripts around it:

- **TaskCreate** is `api/task/create.php`: the request checks, the defaults, and the transaction that
  inserts the report row and the queue row. It also shows that the status endpoint then reports the
  new task as pending.
- **TaskStatus** is `api/task/status.php`: the lookup, the access rule and the snapshot of a task's
  progress, result and error.
- **LegacyService** is the older `AI_Service`:
  - the provider choice by analysis depth;
  - the system and user prompts;
  - the OpenAI call, with the other providers answering from the mock report;
  - the section parser and the key insights;
  - `formatReport` and `testProvider`.
- **Quota** is `includes/quota_manager.php`: the quota rows, the monthly reset, the deduction by
  analysis depth and the membership upgrade. The class `QuotaManager` updates the table in place.
- **LegacyApi** is `api.php`, the class `PlanWiseAPI`:
  - authentication and the quota check;
  - `startAnalysis`, and the simulated progress that advances one step per 30 seconds;
  - the report stored on completion, and the progress reply.
- **Session** holds the helpers of `db_connect.php`: the one-time CSRF token and the logged-in test.
- **Announcements** is `api/announcements.php`: the list of active announcements with the viewed
  flag, and recording a view.
- **Registration** is `register.php`: the form checks, the uniqueness of names and e-mails, the
  automatic login, and the password-strength meter on the page.
- **Management** is the admin panel `planwise_management.php`:
  - the CSRF gate;
  - the announcement actions;
  - the per-user and batch quota updates;
  - what the configuration actions decide and report.

## Model

| member | source | states |
|---|---|---|
| Invoker.Configure | services/AI_Service_Enhanced.php:18-44 | a non-empty configuration replaces the defaults; otherwise claude, qwen, mock in that order |
| Invoker.EnvKey | services/AI_Service_Enhanced.php:23-29 | `getenv(..) ?: ''` yields a falsy key exactly when the variable is unset or falsy |
| Invoker.AiServiceEnhanced.constructor | services/AI_Service_Enhanced.php:18-44 | the service's provider list is the configured one |
| Invoker.DelayBounds | services/AI_Service_Enhanced.php:89-97 | every back-off lies in [1000, 32000] ms and is the doubled base plus jitter, capped at the maximum |
| Invoker.DelayNonDecreasing | services/AI_Service_Enhanced.php:89-97 | the back-off before retry n+1 is never shorter than before retry n, whatever the jitters |
| Invoker.DelaysWithinThreeAttempts | services/AI_Service_Enhanced.php:89-97 | with three attempts the two back-offs are 1-2 s and 2-3 s |
| Invoker.PauseFor | services/AI_Service_Enhanced.php:104-110 | a pause is taken exactly for a 429 with a positive retry-after, and lasts that many seconds |
| Invoker.ShouldRetryCharacterized | services/AI_Service_Enhanced.php:99-125 | a retry happens iff it is a 429 with retry-after, or attempt < 2 and the error is a 503, a timeout or not a 4xx |
| Invoker.MockResponse | services/AI_Service_Enhanced.php:338-351 | the mock's provider is 'mock', its content starts with the mock banner, its raw part is {mock: true} |
| Invoker.BuildHeaders | services/AI_Service_Enhanced.php:193-215 | content type first; claude gets x-api-key and anthropic-version, every other type a Bearer header; extra headers last; nothing else (3 or 2 lines plus the extras) |
| Invoker.RequestMessages | services/AI_Service_Enhanced.php:224-232 | a truthy system prompt (system, else system_prompt) goes first; otherwise the messages are the caller's or one user message |
| Invoker.BuildBody | services/AI_Service_Enhanced.php:222-276 | the body's kind follows the provider type; a truthy options model wins, a present but falsy one falls to the type default without looking at the provider's; with no options model a truthy provider model is used, else the default; max_tokens is the option or 1500 for every type but qwen; the messages are RequestMessages |
| Invoker.OptionModelOverrides | services/AI_Service_Enhanced.php:224 | a truthy options model replaces the model and changes nothing else in the body |
| Invoker.AddHeader | services/AI_Service_Enhanced.php:157-164 | a header line without a colon leaves the header map unchanged |
| Invoker.HeaderValueKeepsColons | services/AI_Service_Enhanced.php:157-164 | `Name: value` is stored under the lower-cased trimmed name; the value keeps every colon after the first |
| Invoker.RetryAfterForms | services/AI_Service_Enhanced.php:180-182 | a delay-seconds retry-after reads as its number; an HTTP-date reads as 0 |
| Invoker.ParseResponse | services/AI_Service_Enhanced.php:281-312 | error iff the body is not a JSON array; otherwise the raw data, the type as provider, and the content: claude's content[0].text, qwen's output.text then output.choices[0].message.content, any other type's choices[0].message.content then content, '' when none is present |
| Invoker.ClaudeContent | services/AI_Service_Enhanced.php:291-297 | a Claude reply's first text block is its content |
| Invoker.MissingContentIsEmpty | services/AI_Service_Enhanced.php:292 | a Claude reply without the content field parses to '' rather than an error |
| Invoker.QwenOutputText | services/AI_Service_Enhanced.php:299 | a Qwen reply's output.text is its content |
| Invoker.QwenChoiceContent | services/AI_Service_Enhanced.php:299 | without output.text a Qwen reply's first choice's message content is its content |
| Invoker.QwenMissingIsEmpty | services/AI_Service_Enhanced.php:299 | a Qwen reply without output parses to '' |
| Invoker.ChoiceContent | services/AI_Service_Enhanced.php:306 | any other type reads its first choice's message content |
| Invoker.TopLevelContent | services/AI_Service_Enhanced.php:306 | without choices, any other type falls back to the top-level content field |
| Invoker.GenericMissingIsEmpty | services/AI_Service_Enhanced.php:306 | with neither choices nor content, any other type parses to '' |
| Invoker.HttpErrorCode | services/AI_Service_Enhanced.php:178-184 | a non-200 reply is an error whose code is the status |
| Invoker.RunAttemptsBounds | services/AI_Service_Enhanced.php:61-82 | at most one call per remaining attempt, all events about this provider, an error left when no attempt succeeded |
| Invoker.RunProviderBounds | services/AI_Service_Enhanced.php:61-82 | each provider is called at most three times |
| Invoker.RunChainBounds | services/AI_Service_Enhanced.php:58-83 | total calls are at most 3 × the number of providers, and no earlier provider is revisited |
| Invoker.MockAnswersAtOnce | services/AI_Service_Enhanced.php:134-141 | a mock-path provider answers at its first attempt with one call and no request |
| Invoker.ChainWithMockSucceeds | services/AI_Service_Enhanced.php:58-83 | once a later provider is on the mock path, the chain cannot fail |
| Invoker.DefaultChainNeverFails | services/AI_Service_Enhanced.php:20-43 | the default configuration never throws |
| Invoker.DefaultWithoutKeysIsOffline | services/AI_Service_Enhanced.php:134-141 | without keys the defaults answer from the mock in one call, with no network traffic |
| Invoker.ChainFailureMessage | services/AI_Service_Enhanced.php:56-86 | when some provider was tried, the failure is the fixed prefix plus the error message of the chain's last call; every call failed and named a provider in range; 'Unknown error' only when no provider was left and none failed before |
| Invoker.PermanentErrorStops | services/AI_Service_Enhanced.php:120-122 | a 4xx without usable retry-after and not a timeout ends the provider after that one call |
| Invoker.RateLimitRetries | services/AI_Service_Enhanced.php:104-110 | a 429 with retry-after pauses, retries the same provider and uses up the next attempt |
| Invoker.ServiceUnavailableAttempts | services/AI_Service_Enhanced.php:112-114 | attempts that all fail with 503 make exactly three calls with two back-offs |
| Invoker.ServiceUnavailableThreeCalls | services/AI_Service_Enhanced.php:112-114 | a real provider answering 503 every time is called exactly three times, without success |
| Invoker.AttemptsSuccessEndsWithCall | services/AI_Service_Enhanced.php:69-72 | on success the provider's last event is a call on it whose outcome is the response returned |
| Invoker.AttemptsEarlierCallsFail | services/AI_Service_Enhanced.php:61-80 | on success every call before the last one failed |
| Invoker.AttemptsFailureLastCall | services/AI_Service_Enhanced.php:73-79 | without success, the error left behind is the one the last call returned |
| Invoker.AttemptsAllCallsFail | services/AI_Service_Enhanced.php:61-80 | without success, every call failed |
| Invoker.ProviderCalls | services/AI_Service_Enhanced.php:58-81 | one provider's attempts in terms of executeApiCall: the winner's outcome is the response and earlier calls failed, or all calls failed and the last one's error is kept |
| Invoker.SuccessEndsWithCall | services/AI_Service_Enhanced.php:58-72 | when the chain succeeds, its last event is a call whose executeApiCall outcome is the returned response; no event names a later provider, and every earlier call failed |
| Invoker.AttemptOk | services/AI_Service_Enhanced.php:69-72 | a successful attempt ends the provider's attempts with that response |
| Invoker.AttemptRetry | services/AI_Service_Enhanced.php:74-81 | a retryable error moves to the next attempt, recording the error |
| Invoker.AttemptStop | services/AI_Service_Enhanced.php:74-78 | a non-retryable error ends the provider with that error |
| Invoker.AiServiceEnhanced.TryProvider | services/AI_Service_Enhanced.php:59-82 | the attempt loop on one provider returns exactly that provider's attempts |
| Invoker.AiServiceEnhanced.CallWithRetry | services/AI_Service_Enhanced.php:54-87 | the provider loop returns exactly the chain's result and trace |
| TaskStore.ProgressPayload | worker/task_processor.php:216 | JSON_SET on an object or NULL payload yields an object with current_step, total_steps and current_message set |
| TaskStore.ProgressKeepsOtherKeys | worker/task_processor.php:216 | every other payload member, the job's input among them, survives a progress update |
| TaskStore.FilterConcat | worker/task_processor.php:179 | selecting from two concatenated tables is the two selections concatenated |
| Worker.PlanShape | worker/task_processor.php:96-105 | the plan has eight steps with distinct names |
| Worker.SelectNext | worker/task_processor.php:48 | none iff no row is pending; otherwise a pending row with the greatest priority, then the earliest created_at |
| Worker.Claim | worker/task_processor.php:48-56 | the claimed task is a best pending row; exactly that row becomes processing with its start time; no pending row leaves the queue unchanged |
| Worker.ClaimTwiceDistinct | worker/task_processor.php:48-55 | two successive claims never return the same task |
| Worker.ResetRebuildsSteps | worker/task_processor.php:177-192 | the report ends with one pending row per step, numbered 1.. in plan order, whatever it had; other reports keep their rows |
| Worker.ResetLeavesEight | worker/task_processor.php:177-192 | after a reset the report has exactly eight step rows |
| Worker.ResetWellNamed | worker/task_processor.php:177-192 | after a reset the report's rows are numbered by plan position and all pending |
| Worker.ExcerptLines | worker/task_processor.php:164-166 | one excerpt line per finished step, naming its title and 120 characters of tag-free content |
| Worker.ExcerptsInOrder | worker/task_processor.php:162-167 | the excerpt of an earlier step comes before that of every later step |
| Worker.PromptOfStep | worker/task_processor.php:145-175 | step k's prompt holds the context, then the excerpts of exactly steps 1..k in order, then step k's task |
| Worker.FirstPromptHasNoExcerpts | worker/task_processor.php:161-169 | the first step's prompt has no excerpt section |
| Worker.ArrayArgumentError | worker/task_processor.php:77-116 | the TypeError message of a typed `array` parameter starts with the method and ends with its call site |
| Worker.ResponseText | worker/task_processor.php:124 | trim() of a string content, '' for a missing one, and a TypeError for an array content |
| Worker.StepOnce | worker/task_processor.php:112-134 | a step marks its rows and writes the progress; on success it stores its rows and appends exactly its result |
| Worker.MarkStepRows | worker/task_processor.php:194-198 | when step k starts, exactly its rows become processing with the start time |
| Worker.StoreStepRows | worker/task_processor.php:200-212 | when step k ends, exactly its rows are completed with the content and provider |
| Worker.ProgressOfStep | worker/task_processor.php:113-114 | when step k starts, the job's progress reads k+1 of 8 with the step's title; only that job's payload changes |
| Worker.StepOnceCompletes | worker/task_processor.php:112-134 | a successful step k completes the rows of step k and keeps earlier results |
| Worker.StepOnceRows | worker/task_processor.php:112-134 | a step changes only its own rows; a step that throws leaves them processing |
| Worker.StepOnceJobs | worker/task_processor.php:112-134 | a step changes no job's status or retry count, and no other job |
| Worker.Loop | worker/task_processor.php:112-134 | an exception stops the loop at the step that threw; otherwise it runs to the end |
| Worker.LoopStops | worker/task_processor.php:112-134 | a loop that throws leaves untouched the rows of every later step |
| Worker.LoopCompletes | worker/task_processor.php:112-134 | a loop that finishes completed every row and holds one result per step |
| Worker.LoopKeepsJobs | worker/task_processor.php:112-134 | the loop changes no job's status or retry count, and no other job |
| Worker.RunStepsOutcome | worker/task_processor.php:107-136 | success: all rows completed and one result per step in order; failure at step k: later steps and other reports untouched |
| Worker.ResultJsonOfRun | worker/task_processor.php:222-225 | the result maps every step name, in plan order, to its title and content, beside duration_ms |
| Worker.CompleteJob | worker/task_processor.php:220-231 | the job becomes completed with the result, the report completed; nothing else changes |
| Worker.FailJob | worker/task_processor.php:233-239 | the job becomes failed, its error cut to 1000 characters, retry_count plus one; the report failed; nothing else changes |
| TaskStore.DecodePayload | worker/task_processor.php:71 | a falsy payload becomes an empty array, a truthy one is kept |
| Worker.ProcessUnknownType | worker/task_processor.php:75-88 | a job of unknown type fails with 'Unknown task type: ' and its type; the step rows are untouched |
| Worker.ResetDbReady | worker/task_processor.php:107 | right after the reset the report's rows are well named and pending |
| Worker.CompletedRun | worker/task_processor.php:220-231 | completeTask after a finished loop: rows completed, job completed with the result, report completed |
| Worker.FailedRun | worker/task_processor.php:233-239 | failTask after a loop that threw: job failed with one more retry, later rows untouched |
| Worker.ProcessSucceeds | worker/task_processor.php:68-89 | an analysis whose steps all return completes every row, the job (with one result per step) and the report |
| Worker.ProcessFails | worker/task_processor.php:68-89 | an analysis whose step k throws fails the job (error cut, retry plus one) and the report; later steps stay pending |
| Processor.NextTask | worker/task_processor.php:44-66 | a store failure yields no task and leaves the queue unchanged; otherwise the claim |
| Processor.Turn | worker/task_processor.php:29-34 | a turn takes nothing iff the store failed or nothing is pending; what it takes was pending |
| Processor.EventOf | worker/task_processor.php:29-34 | a turn's event is never the shutdown |
| Processor.Serve | worker/task_processor.php:24-35 | the loop as written: turns before the signal, the shutdown, then one more turn |
| Processor.ServeGraceful | worker/task_processor.php:24-35 | the corrected loop: turns before the signal, then the shutdown and nothing more |
| Processor.ServeUnfold | worker/task_processor.php:24-35 | a turn before the signal is followed by the rest of the loop |
| Processor.ServeGracefulUnfold | worker/task_processor.php:24-35 | the same for the corrected loop |
| Processor.GracefulIsPrefix | worker/task_processor.php:24-35 | up to the shutdown both loops do the same turns; the loop as written then does one more |
| Processor.JobTakenAfterShutdown | worker/task_processor.php:24-31 | a signal seen in the first turn, with a pending job, still has a job claimed; the corrected loop claims none |
| Processor.TaskProcessor.constructor | worker/task_processor.php:11-15 | a new worker is running, on the given store, with a new service holding the default provider chain |
| Processor.TaskProcessor.HandleSignal | worker/task_processor.php:38-42 | the running flag goes down |
| Processor.TaskProcessor.GetNextTask | worker/task_processor.php:44-66 | the stored queue becomes the claim's queue, and the claimed task is returned |
| Processor.TaskProcessor.ResetReportSteps | worker/task_processor.php:177-192 | the step table becomes the reset table |
| Processor.TaskProcessor.MarkStepProcessing | worker/task_processor.php:194-198 | the step table becomes the mark update; nothing else changes |
| Processor.TaskProcessor.StoreStepResult | worker/task_processor.php:200-212 | the step table becomes the store update; nothing else changes |
| Processor.TaskProcessor.UpdateTaskProgress | worker/task_processor.php:214-218 | the queue becomes the progress update; nothing else changes |
| Processor.TaskProcessor.CompleteTask | worker/task_processor.php:220-231 | the database becomes CompleteJob of the old one |
| Processor.TaskProcessor.FailTask | worker/task_processor.php:233-239 | the database becomes FailJob of the old one |
| Processor.TaskProcessor.AppendExcerpts | worker/task_processor.php:164-166 | the accumulated lines are exactly the excerpts of the finished steps, in order |
| Processor.TaskProcessor.BuildStepPrompt | worker/task_processor.php:145-175 | the prompt is StepPrompt of the input, step and earlier results |
| Processor.TaskProcessor.RunPlan | worker/task_processor.php:109-136 | the step loop leaves the tables and results of the step loop's specification |
| Processor.TaskProcessor.AnalyzeBusinessIdea | worker/task_processor.php:91-137 | the reset, then the step loop, as specified by Analyze |
| Processor.TaskProcessor.ProcessTask | worker/task_processor.php:68-89 | the database becomes Process of the old one |
| Processor.TaskProcessor.TakeTurn | worker/task_processor.php:29-34 | one claim-then-process turn, as Turn specifies |
| Processor.TaskProcessor.Iterate | worker/task_processor.php:24-35 | one turn of the loop as written; the flag drops in the signal's turn |
| Processor.TaskProcessor.Run | worker/task_processor.php:17-36 | run() performs exactly Serve and ends with the flag down |
| Processor.TaskProcessor.IterateGraceful | worker/task_processor.php:24-35 | one turn of the corrected loop |
| Processor.TaskProcessor.RunGraceful | worker/task_processor.php:24-35 | the corrected loop performs exactly ServeGraceful and ends with the flag down |
| Text.TrimIdempotent | worker/task_processor.php:124 | trimming twice is trimming once |
| Text.SplitJoin | services/AI_Service_Enhanced.php:159 | joining the pieces of explode with the separator gives the string back |
| Text.SplitFirst | services/AI_Service_Enhanced.php:159 | explode with limit 2 splits at the first separator, or gives one piece when there is none |
| Text.IntCastOfIntToString | services/AI_Service_Enhanced.php:181 | `(int)` of an integer's decimal text is that integer |
| Text.IntCastOfWord | services/AI_Service_Enhanced.php:181 | `(int)` of text starting with a letter is 0 |
| Text.StripTags | worker/task_processor.php:165 | removing tags never lengthens the text and keeps tag-free text unchanged |
| Sorting.SortDesc | api/announcements.php:68-69 | the sorted rows are in descending key order and a permutation of the input |
| TaskStatus.FindTask | api/task/status.php:19-27 | none iff no queue row has the task id; otherwise a row of the queue with that id |
| TaskStatus.Partial | api/task/status.php:39-52 | one partial entry per step row of the report |
| TaskStatus.PartialOfReport | api/task/status.php:39-52 | the partial result is a permutation of the projections of the report's step rows (as a multiset), in ascending step order |
| TaskStatus.ProjectAllPermutes | api/task/status.php:39-52 | rows that are a permutation of each other project to entries that are a permutation of each other |
| TaskStatus.UpdatedAt | api/task/status.php:63 | updated_at is completed_at, else started_at, else created_at |
| TaskStatus.Status | api/task/status.php:10-72 | 400 iff the task id is missing or falsy; then 404 iff no row; then 403 iff both owner and viewer are users and differ; otherwise the snapshot of the row |
| TaskStatus.ProgressDefaults | api/task/status.php:59-61 | a payload without progress keys reads step 0, total max(8, number of step rows), message '' |
| TaskStatus.ProgressLookups | api/task/status.php:36 | after a progress update the decoded payload holds the step, total and message written |
| TaskStatus.ProgressVisible | api/task/status.php:59-61 | a progress update is what the status reply shows |
| TaskStatus.ResultAndErrorShown | api/task/status.php:66-72 | the result is shown iff the task completed, the error iff it failed, each with the row's value |
| TaskCreate.Validate | api/task/create.php:10-56 | 405 iff not POST; 403 iff the CSRF check rejects; 400 for a falsy body or missing task_id/type; an idea that trim() refuses is an uncaught error; under 10 bytes is 400; a request passing every check is accepted with the defaults applied; an accepted submission has a trimmed idea of at least 10 bytes and the caller's user |
| TaskCreate.WithDefaults | api/task/create.php:53-56 | each absent field takes its default (standard, '', the unnamed title or business_name, rpt_ plus the random hex, priority 5); a present one is kept |
| TaskCreate.ShortIdeaRefused | api/task/create.php:46-51 | a trimmed idea under 10 bytes is refused with 400 |
| TaskCreate.NoHelperNoCsrfCheck | api/task/create.php:17 | without the CSRF helper no token is checked |
| TaskCreate.MatchingTokenAccepted | api/task/create.php:16-24 | a missing, falsy or matching header passes the CSRF check |
| TaskCreate.Enqueue | api/task/create.php:58-101 | the transaction leaves the tables of EnqueueDb and the reply of EnqueueReply |
| TaskCreate.Submit | api/task/create.php:10-101 | the script leaves the tables of SubmitDb and the reply of SubmitReply |
| TaskCreate.RejectedWritesNothing | api/task/create.php:10-51 | a rejected request writes nothing and replies with the rejection |
| TaskCreate.CommitAddsTwoRows | api/task/create.php:59-95 | a commit appends one analyzing report and one pending task with the same ids and user, created now, retry 0 |
| TaskCreate.FaultRollsBack | api/task/create.php:96-101 | a failed transaction leaves every table as it was and replies 500 |
| TaskCreate.EnqueueKeepsIds | api/task/create.php:79-87 | queue ids stay distinct and below the next id |
| TaskCreate.WorkerSeesInput | api/task/create.php:72-73 | the worker reads back the submitted data as the job's input |
| TaskCreate.InitialMember | api/task/create.php:72-77 | every non-null member written into the initial payload reads back |
| TaskCreate.InitialLookups | api/task/create.php:72-77 | the new task's payload reads step 0 of 8, waiting |
| TaskCreate.FindNew | api/task/create.php:79-87 | a newly appended task with a fresh id is the one found by its id |
| TaskCreate.NewTaskVisible | api/task/create.php:58-95 | right after a commit the status endpoint shows the task as pending at step 0 of 8, with no result or error |
| LegacyService.Find | AI_Service.php:304-334 | a key is found iff some entry has it, and the value found belongs to it |
| LegacyService.PutFind | AI_Service.php:316-318 | after storing a section its title reads the new text and every other title reads as before |
| LegacyService.PutMembers | AI_Service.php:316-318 | storing adds only the new entry |
| LegacyService.PutShape | AI_Service.php:316-318 | a new title goes last; an existing one keeps its place |
| LegacyService.PutDistinct | AI_Service.php:316-318 | storing keeps the titles distinct |
| LegacyService.FocusLinesSnoc | AI_Service.php:81-83 | one more focus area adds one more line at the end |
| LegacyService.AppendFocusLines | AI_Service.php:81-83 | the loop appends exactly one line per focus area |
| LegacyService.BuildSystemPrompt | AI_Service.php:62-102 | the prompt is the base sentence, the depth sentence, the focus block, the outline and the closing |
| LegacyService.DepthSentenceOnly | AI_Service.php:66-76 | the depth only chooses one of three sentences, and none for an unknown depth |
| LegacyService.FocusLinesSplit | AI_Service.php:79-85 | the focus block splits back into one bullet per area |
| LegacyService.UserPrompt | AI_Service.php:104-115 | the idea and industry, escaped, then the focus areas joined by commas when there are any, then the closing |
| LegacyService.UserPromptHasNoMarkup | AI_Service.php:104-115 | whatever the inputs hold, no '<', '>', '"' or ''' reaches the prompt |
| LegacyService.FirstConfigured | AI_Service.php:117-135 | the first configured candidate, or none iff no candidate is configured |
| LegacyService.SelectBestProvider | AI_Service.php:117-135 | the first configured provider the depth prefers; otherwise the first configured one, or mock |
| LegacyService.OpenAiRequest | AI_Service.php:159-167 | the body has model, messages and max_tokens: a configured model or limit is used as is, a missing one defaults to gpt-3.5-turbo or 4000; the messages are the system then the user text |
| LegacyService.OpenAiResult | AI_Service.php:185-199 | a curl failure and a non-200 code are named errors; a 200 succeeds iff the content is present |
| LegacyService.CallAI | AI_Service.php:137-277 | named providers fail iff their key is missing; only OpenAI goes to the network; everything else answers with the mock report |
| LegacyService.OpenAiErrorsNamed | AI_Service.php:155-199 | a transport error is never mistaken for the missing-key error |
| LegacyService.OnlyOpenAiUsesNetwork | AI_Service.php:137-150 | for every provider but OpenAI the answer does not depend on the network |
| LegacyService.HeadingCapture | AI_Service.php:314-322 | a heading is a line starting '##' and at least one more character, the title after the spaces |
| LegacyService.ParseReportSections | AI_Service.php:304-334 | the line loop computes Sections of the text |
| LegacyService.ReadLine | AI_Service.php:313-326 | one line of the loop is ParseLine |
| LegacyService.ParseLineShape | AI_Service.php:314-325 | a heading flushes the section and opens its title; another line keeps the sections and the title |
| LegacyService.FlushSound | AI_Service.php:316-318 | flushing keeps the titles distinct and every stored section named by a heading line |
| LegacyService.ParseLineSound | AI_Service.php:313-326 | one line keeps the parse state sound |
| LegacyService.ParseLinesSound | AI_Service.php:313-326 | the whole walk keeps it sound |
| LegacyService.SectionsSound | AI_Service.php:304-334 | the sections have distinct titles, each opened by a heading line, and trimmed texts |
| LegacyService.ParseLinesAppend | AI_Service.php:313-326 | the walk over two parts is the walk over the second from the state after the first |
| LegacyService.PreambleIgnored | AI_Service.php:323-325 | lines before the first heading are ignored |
| LegacyService.Insight | AI_Service.php:341-343 | an insight is at most 100 bytes plus the ellipsis |
| LegacyService.ExtractKeyInsights | AI_Service.php:336-347 | the loop keeps the first three insights of the sections longer than 50 bytes |
| LegacyService.InsightPoolAppend | AI_Service.php:338-345 | the insights of two parts are the insights of each, in order |
| LegacyService.InsightsBounded | AI_Service.php:336-347 | at most three insights, each short and taken from a long section |
| LegacyService.PoolMembers | AI_Service.php:338-345 | every candidate insight comes from a section over 50 bytes |
| LegacyService.FormatReport | AI_Service.php:279-302 | the summary section or the placeholder, the key insights, and the nine content keys with '' for a missing section |
| LegacyService.ReportFrom | AI_Service.php:45-60 | a provider error is passed on, an array content is a TypeError, a text is formatted |
| LegacyService.UnconfiguredUsesMock | AI_Service.php:117-135 | with no provider configured, the report is the formatted mock |
| LegacyService.Outcome | AI_Service.php:393-410 | an error is reported as failure; a text as success with its first 100 bytes; an array content escapes the catch |
| LegacyService.TestProviderCanThrow | AI_Service.php:393-410 | an OpenAI reply with a list content makes testProvider throw past its catch |
| LegacyService.CaughtResult | AI_Service.php:393-410 | the corrected test always reports: success iff the call answered text, else the error |
| LegacyService.CatchingAllAgrees | AI_Service.php:393-410 | the corrected test reports what the one as written reports whenever that one reports |
| Quota.AnalysisCost | includes/quota_manager.php:109-117 | basic and unknown depths cost 1, standard 2, deep 3 |
| Quota.GuestRemaining | includes/quota_manager.php:45-63 | the guest remainder is the limit minus today's use, never below 0 |
| Quota.GuestQuota | includes/quota_manager.php:45-63 | a guest's total is guest_daily_limit (default 3), the remainder never negative |
| Quota.ResetIfStale | includes/quota_manager.php:195-209 | a row reset before this month's start is refilled to its total and stamped now; nothing else changes |
| Quota.Deducted | includes/quota_manager.php:86-104 | the guarded UPDATE fails iff the row is missing or short; otherwise only that row loses the cost and records the use |
| Quota.Deduction | includes/quota_manager.php:86-104 | a guest pays nothing; a user pays the depth's cost |
| Quota.TierQuota | includes/quota_manager.php:122-145 | the four tiers map to their configured quotas (10, 50, 200, 1000 by default); any other tier is invalid |
| Quota.Upgraded | includes/quota_manager.php:150-175 | the row takes the tier and quota, the remainder never shrinks, a missing row is created; other rows unchanged |
| Quota.UserQuota | includes/quota_manager.php:17-40 | the stored row (before any reset) or a new free row; the table gains only that user |
| Quota.QuotaLookup | includes/quota_manager.php:17-63 | a guest gets the guest quota and no write; a user gets UserQuota |
| Quota.QuotaManager.CreateDefaultQuota | includes/quota_manager.php:180-190 | the new user gets a free row with the configured free quota |
| Quota.QuotaManager.CheckQuotaReset | includes/quota_manager.php:195-209 | the table becomes ResetIfStale of the old one |
| Quota.QuotaManager.GetUserQuota | includes/quota_manager.php:17-40 | the quota and table of QuotaLookup |
| Quota.QuotaManager.CanCreateReport | includes/quota_manager.php:68-81 | allowed iff the remainder covers the depth's cost; otherwise the guest or member message |
| Quota.QuotaManager.DeductQuota | includes/quota_manager.php:86-104 | the table of Deduction, or unchanged with its error |
| Quota.QuotaManager.UpgradeMembership | includes/quota_manager.php:150-175 | an unknown tier is refused with nothing written; otherwise the table of Upgraded |
| Quota.UpgradeIdempotent | includes/quota_manager.php:150-175 | upgrading twice to the same tier is upgrading once |
| Quota.ResetOncePerMonth | includes/quota_manager.php:195-209 | a second check in the same month changes nothing |
| Quota.StaleRowReturnedBeforeReset | includes/quota_manager.php:36-39 | a stale row is returned as read, although the table is refilled |
| Quota.NewUserGetsFreeRow | includes/quota_manager.php:30-34 | a user without a row gets a full free row |
| Quota.CheckThenDeduct | includes/quota_manager.php:17-104 | after the lookup a deduction succeeds iff the refilled or current remainder covers the cost |
| LegacyApi.EstimatedTime | api.php:456-463 | 300 s, 900 s for standard, 1800 s for deep |
| LegacyApi.EstimatedTimeFollowsCost | api.php:436-463 | a costlier depth never has a shorter estimate, and the other way round |
| LegacyApi.RemainingTime | api.php:482-486 | 45 s per remaining step of eight, 0 once completed, never negative |
| LegacyApi.Authenticate | api.php:58-67 | guest iff the session user is missing or 0; otherwise that user |
| LegacyApi.QuotaCheck | api.php:367-395 | guests pass iff today's count is below the limit; users iff their remainder is positive; 'OK' iff allowed, the refusal otherwise |
| LegacyApi.Start | api.php:105-136 | a quota refusal or short idea changes only the quota reset; success iff the deduction succeeds, adding the session and its first progress row |
| LegacyApi.StartLeavesOrphanSession | api.php:122-125 | a user whose remainder is positive but below the cost gets an error, yet a processing session stays behind without progress |
| LegacyApi.StartDeductFirst | api.php:105-136 | the corrected order writes nothing on failure and agrees with the original on success |
| LegacyApi.CanAccess | api.php:465-474 | no session: denied; an unowned session: anyone; an owned one: exactly its owner |
| LegacyApi.SharedOnlyWhenUnowned | api.php:465-474 | two different viewers share a session only when it has no owner |
| LegacyApi.Advanced | api.php:224-227 | the step moves one on, stopping at 8; completed iff at 8; the description of that step, stamped now |
| LegacyApi.OneStepPerWindow | api.php:223 | an advanced row does not advance again within 30 s |
| LegacyApi.AdvanceShortensEstimate | api.php:223-227 | each advance takes 45 s off the estimate, or brings it to 0 on completion |
| LegacyApi.Stored | api.php:250-273 | a generation error writes nothing; otherwise one report appended and the session marked completed |
| LegacyApi.Complete | api.php:245-273 | an unknown session changes nothing; otherwise the report of the session is stored |
| LegacyApi.Simulate | api.php:207-243 | only a row idle over 30 s and not completed advances; only its completion writes a report |
| LegacyApi.CompletedIsFinal | api.php:223 | a completed analysis never changes again |
| LegacyApi.CompletionSticks | api.php:223-241 | once the last advance completes, later polls change nothing |
| LegacyApi.Progress | api.php:172-205 | a missing id and a denied session are errors with nothing written; for an accessible session the tables are those the simulated step leaves, an error of the simulated step (report generation) is the reply, and otherwise the reply is the session's row with its remaining time exactly when the row exists, 'Session not found' when it does not |
| LegacyApi.PlanWiseApi.constructor | api.php:49-67 | the API starts on the given tables, with the authenticated user and the report service |
| LegacyApi.PlanWiseApi.CreateDefaultQuota | api.php:488-495 | the user gets a free row of 10 |
| LegacyApi.PlanWiseApi.CheckQuotaReset | api.php:497-509 | the quota table becomes ResetIfStale of the old one |
| LegacyApi.PlanWiseApi.GetUserQuota | api.php:397-415 | the row and table of UserQuota |
| LegacyApi.PlanWiseApi.CheckUserQuota | api.php:367-395 | the verdict, message and table of QuotaCheck |
| LegacyApi.PlanWiseApi.DeductUserQuota | api.php:417-434 | the table of Deduction, or unchanged with its error |
| LegacyApi.PlanWiseApi.StartAnalysis | api.php:105-170 | the reply and tables of Start |
| LegacyApi.PlanWiseApi.CompleteAnalysis | api.php:245-273 | the outcome and tables of Complete |
| LegacyApi.PlanWiseApi.SimulateProgressUpdate | api.php:207-243 | the outcome and tables of Simulate |
| LegacyApi.PlanWiseApi.GetProgress | api.php:172-205 | the reply and new tables of Progress, for every input |
| Session.CurrentUserId | db_connect.php:60-66 | an id iff the session user is numeric and positive; a stored number is returned as is |
| Session.IntToStringIsIntegerText | db_connect.php:61 | an integer's decimal text is numeric |
| Session.CurrentUserIdOfId | db_connect.php:60-66 | a positive id stored as a number or as its text reads back as that id |
| Session.NobodyLoggedIn | db_connect.php:60-66 | no id, 0 and "0" mean nobody is logged in |
| Session.IssueToken | db_connect.php:45-50 | a non-empty stored token is kept; otherwise the generated one is stored; the token returned is the one stored |
| Session.ValidateToken | db_connect.php:52-57 | valid iff a token is stored and the argument is that string; a valid token is removed, an invalid attempt keeps it |
| Session.TokenStable | db_connect.php:45-50 | asking twice gives the same token |
| Session.TokenIsOneTime | db_connect.php:45-57 | the issued token validates once and is refused the second time |
| Session.CsrfSession.CsrfToken | db_connect.php:45-50 | the token and stored value of IssueToken |
| Session.CsrfSession.CsrfValidate | db_connect.php:52-57 | the verdict and stored value of ValidateToken |
| Announcements.Selected | api/announcements.php:62-69 | the rows selected are exactly the table's visible ones |
| Announcements.ActiveSound | api/announcements.php:62-72 | at most ten rows, all visible, in priority then creation order, descending |
| Announcements.ActiveIsTop | api/announcements.php:62-72 | a visible row left out means ten rows, each ahead of it in the order |
| Announcements.GuestSeesOnlyPublic | api/announcements.php:50-69 | a guest sees only announcements aimed at all |
| Announcements.NoQuotaRowIsFree | api/announcements.php:50-60 | a user without a quota row is filtered as free |
| Announcements.FlagViewed | api/announcements.php:76-98 | each row keeps its data and is flagged viewed iff the user has a view record for it |
| Announcements.MarkView | api/announcements.php:107-130 | rejected iff guest or a non-positive id; otherwise the reply follows the insert, which adds the one view record |
| Announcements.MarkIdempotent | api/announcements.php:119-124 | marking again changes nothing |
| Announcements.MarkThenFlagged | api/announcements.php:76-124 | after a view is recorded the row lists as viewed; no other pair's flag changes |
| Announcements.AnnouncementBoard.GetActiveAnnouncements | api/announcements.php:41-105 | the reply lists the active announcements with their flags and whether a user is logged in |
| Announcements.AnnouncementBoard.MarkAsViewed | api/announcements.php:107-130 | the reply and records of MarkView |
| Registration.Validate | register.php:29-39 | the first failing check, in order: missing fields, username length 3-20 bytes, e-mail, password under 6 bytes, mismatch; none iff all pass |
| Registration.AcceptedBounds | register.php:29-39 | an accepted username has 1-20 characters and an accepted password at least 2 |
| Registration.Register | register.php:10-76 | a logged-in visitor is sent to the dashboard; a form reply writes nothing |
| Registration.RegisterSucceeds | register.php:22-66 | a POST succeeds iff the form is valid, the name and e-mail are new and the insert runs; then the user is appended and logged in |
| Registration.NameCheckedFirst | register.php:42-46 | a taken username is reported before the e-mail is checked, with nothing written |
| Registration.AppendKeepsUnique | register.php:42-57 | appending a new name and e-mail keeps both unique |
| Registration.RegisterKeepsUnique | register.php:22-76 | registration keeps usernames and e-mails unique |
| Registration.LogInSetsUser | register.php:61-63 | after registering, the session's user is the new id |
| Registration.RegistrationPage.HandleRequest | register.php:10-76 | the page, users and session of Register |
| Text.Utf16Length | register.php:277 | a password's JavaScript length lies between its length and twice it |
| Registration.CountTrue | register.php:277-282 | the score never exceeds the number of criteria and reaches it iff all hold |
| Registration.CountSix | register.php:277-282 | the score is one point per criterion |
| Registration.CheckPasswordStrength | register.php:272-308 | the score is the number of the six criteria met, 0-6, with its label and color |
| Registration.DefaultUnreachable | register.php:284-307 | the fallback label is never shown |
| Registration.VeryStrongIff | register.php:277-307 | 'very strong' iff at least 8 long with lower, upper, digit and other characters |
| Registration.ShortIsAtMostStrong | register.php:277-282 | a password under 6 scores at most 4 |
| Management.Upserted | planwise_management.php:301-333 | the user's row takes the new numbers and type, keeps its dates or is created; other rows unchanged |
| Management.UserQuotaUpdated | planwise_management.php:301-333 | refused iff the user id is not positive; otherwise the upsert |
| Management.UpsertIdempotent | planwise_management.php:301-333 | the same update twice is the update once |
| Management.BatchUpdated | planwise_management.php:343-361 | rows of the type are reset or doubled; other rows unchanged |
| Management.BatchUpdate | planwise_management.php:335-374 | refused iff type or action is missing; the count is the number of rows changed |
| Management.ResetRefillsType | planwise_management.php:343-351 | a reset refills every row of the type and stamps it; others unchanged |
| Management.DoubleDoublesType | planwise_management.php:353-361 | doubling doubles the total and remainder of every row of the type |
| Management.UnknownBatchChangesNothing | planwise_management.php:336-374 | an unknown action changes nothing and counts 0 |
| Management.AffectedAreOfType | planwise_management.php:343-361 | only rows of the chosen type change |
| Management.ResetTwiceChangesNothing | planwise_management.php:343-351 | a second reset at the same time changes nothing |
| Management.BatchKeepsConsistent | planwise_management.php:343-361 | a remainder between 0 and the total stays so |
| Management.Create | planwise_management.php:100-136 | refused iff the title or content is empty; otherwise the new announcement is appended |
| Management.CreatedForAllIsVisible | planwise_management.php:100-136 | an announcement created for all without end date is visible to everyone |
| Management.Update | planwise_management.php:138-172 | refused for a bad id or empty text; otherwise exactly the rows with that id are revised |
| Management.UpdateKeepsIdentity | planwise_management.php:138-172 | an update keeps ids, creation times and the active flag |
| Management.Delete | planwise_management.php:174-192 | refused iff the id is not positive; otherwise exactly the rows with other ids remain |
| Management.Toggle | planwise_management.php:194-214 | refused iff the id is not positive; otherwise only that row's active flag changes |
| Management.DisabledIsHidden | planwise_management.php:194-214 | a disabled announcement is visible to nobody |
| Management.Handle | planwise_management.php:31-85 | a bad token reissues one and changes nothing; an Exception keeps tables and token and reports its message as an error; an Error passes the catch and ends the request with tables and token unchanged and no message; a case that does not throw stores its tables and message and rotates the token, the type being 'error' only for a failed provider test |
| Management.ConfigResult | planwise_management.php:234-420 | the four configuration actions: the system update always succeeds; the others throw an Exception without a provider, the update and toggle also when the statement fails; the test lets the probe's Error through; otherwise their messages |
| Management.ThrowingTestIsFatal | planwise_management.php:376-392 | a probe Error ends the request: tables and token are kept, no message is shown and the token stays good |
| Management.OnlyProbeErrorIsFatal | planwise_management.php:41-83 | behind a valid token, a request ends uncaught exactly when it is a connection test whose probe throws an Error |
| Management.NextRequestStartsClean | planwise_management.php:20-22 | a request without an action that follows any request keeps its tables and token and clears its message, type and uncaught error |
| Management.SuccessType | planwise_management.php:385-391 | a case that does not throw reports 'error' exactly for a failed connection test, 'success' otherwise |
| Management.ConfigActionKeepsTables | planwise_management.php:43-80 | a configuration action changes neither quotas nor announcements, and one that does not throw rotates the token |
| Management.SystemConfigAlwaysSucceeds | planwise_management.php:266-291 | behind a valid token the system configuration update succeeds with its message and rotates the token |
| Management.FailedTestRotatesToken | planwise_management.php:385-391 | a failed connection test is an error message, but it does not throw, so the token rotates |
| Management.TokenConsumedBySuccess | planwise_management.php:76-79 | the token of a successful action cannot be replayed |
| Management.OtherActionChangesNothing | planwise_management.php:73-74 | a name outside the switch changes neither quotas nor announcements |
| Management.AdminPanel.HandleRequest | planwise_management.php:31-85 | the panel state of Handle, the uncaught Error included, each request starting with no message |
| Management.AdminPanel.DispatchAction | planwise_management.php:42-75 | the tables and reply of Dispatch |
| Management.AdminPanel.ApplyRows | planwise_management.php:100-214 | the announcement rows of the action's result, nothing else |
| Management.AdminPanel.UpdateUserQuota | planwise_management.php:301-333 | the table and reply of UserQuotaUpdated |
| Management.AdminPanel.BatchUpdateQuotas | planwise_management.php:335-374 | the table and reply of BatchUpdate |
| Quota.QuotaManager.constructor | includes/quota_manager.php:10-12 | the manager starts on the given quota table and configuration |
| Announcements.AnnouncementBoard.constructor | api/announcements.php:41-45 | the board starts on the given tables |
| Session.CsrfSession.constructor | db_connect.php:45-57 | the session starts with the given stored token |
| Registration.RegistrationPage.constructor | register.php:15-19 | the page starts on the given users and session |
| Management.AdminPanel.constructor | planwise_management.php:20-27 | the panel starts on the given tables and token, with no message |

## Left out

- Network I/O: every curl transfer is a parameter `net` giving the transport outcome for each provider and attempt. The JSON encoding of the request and the temperature/top_p floats are not modelled.
- Time, sleeping and randomness: `NOW()`, `microtime`, `usleep`/`sleep`, `rand`, `random_bytes` and `md5` are parameters of the world (time stamps, durations, jitter, id suffixes, digests). A sleep appears only as a trace event.
- Logging (`error_log`, `echo` of the signal) is not modelled.
- Concurrency: the claim's `FOR UPDATE` transaction is one atomic method. The store failure that causes a rollback is a boolean per turn. Several workers running at once are not modelled.
- Processor.TaskProcessor.Run: the loop runs until a signal. The model takes the turn whose `pcntl_signal_dispatch()` delivers the signal as a parameter, so a worker that is never signalled is not modelled.
- Signals are delivered only at the dispatch at the top of a turn; delivery in the middle of a job is not modelled.
- Worker.SelectNext: rows with equal priority and created_at are taken in table order; SQL leaves that order open.
- `$results` is keyed by step name. The model appends, which is the same map for the eight distinct names.
- Text.StripTags and Text.WordCount are simple stand-ins for `strip_tags` and `str_word_count`. `mb_substr` is a prefix of characters.

- TaskCreate: the helper `generate_csrf_token` is taken as defined or not. db.php, which defines it, is not part of this model.
- Management: the admin login redirect (`admin_id`) and `logAdminAction` are not modelled.
- Management: the actions `update_ai_config`, `update_system_config`, `test_ai_provider` and `toggle_ai_provider` write configuration tables, which this model does not hold. `ConfigAction` models what they decide and report: whether a provider was named, whether the statement succeeded (a parameter), the probe's outcome (a parameter; the probe itself is LegacyService.TestProvider), and the message. The `(int)`/`(float)` casts of the stored values are not modelled.
- Worker.ArrayArgumentError: PHP names the script by its absolute path, which depends on where it is installed. The model writes the repository path `worker/task_processor.php`.
- Management.Create, Management.Update: the posted fields are text or absent. A field posted as an array, for which `trim()` throws a TypeError that the panel's `catch (Exception)` does not catch, is not modelled.
- Registration.Register: the posted fields are text or absent. A field posted as an array, for which `trim()` throws an uncaught TypeError, is not modelled.
- Announcements.Active: a listed row is the whole table row, so it also carries `is_active` and `end_date`, which the SELECT does not return. The JSON shape of the reply is not modelled.
- Management: a statement that fails to execute, the parsing of `end_date` text, the `created_by` column and the GET rendering of the panel are not modelled. A new announcement is active, as the column default makes it.
- Registration.Register: only the INSERT may fail (`inserted`). A PDOException from either uniqueness SELECT, which the page catches and reports as '注册失败，请稍后重试', is not modelled.
- Registration: `filter_var(..., FILTER_VALIDATE_EMAIL)` is a parameter `isEmail`. `password_hash` is a parameter. `lastInsertId` is the parameter `newId`.
- Registration: the uniqueness checks compare exactly, not under MySQL's case-insensitive collation.
- LegacyApi.Progress: the TypeError that `explode` throws when a report's content decodes to an array (AI_Service.php:306) is an Error, which neither the endpoint's catch (api.php:91) nor the script's (api.php:523) catches; the model returns its message as an ordinary error reply, so the uncaught exit and the empty response are not modelled. GetProgress inherits this.
- Json: decoded JSON has no fractional numbers; a number is an integer. A float in a posted body, a stored row or a provider's reply is not modelled, which affects TaskCreate, TaskStatus, Worker.ResponseText and Invoker.ParseResponse.
- LegacyService: temperature, floating point, curl options and HTTP headers are not modelled. The loop of `loadApiConfigs` is replaced by the configuration as a parameter, with one entry per provider: `loadApiConfigs` keys its array by provider, so of two enabled rows for one provider the last wins, whereas `IsConfigured` and `ConfigOf` read the first entry; the model assumes the configuration lists each provider once.
- LegacyService.BuildSystemPrompt: the outline section is appended in one step, not line by line.
- LegacyApi.PlanWiseApi.constructor: api.php:50-52 and AI_Service.php:23-25 take the database handle from `global $pdo`. db_connect.php never assigns that global: it keeps the handle in a static of `planwise_pdo()`. As written, `new AI_Service()` fails in `loadApiConfigs` with an uncaught Error on the null handle, so every request to api.php ends there. The model assumes both objects hold a working handle.
- LegacyApi.PlanWiseApi.GetUserQuota: it requires a logged-in user, which holds at its one call site in checkUserQuota. The guest branch, which returns zero remaining and zero total (api.php:398), is not modelled.
- LegacyApi: the CSRF gate at the top of api.php and the `handleRequest` dispatch are not modelled. The `updated_at` column of the queue is taken as the time stamp of the progress row, and the progress percentage is not modelled.
- LegacyApi: `getQuotaStatus`, `getReport` and `getUserReports` only read the tables and are not modelled. `saveReport`, which the dispatch names, has no definition in api.php.
- LegacyApi.CanAccess: `===` compares the column with the session user. The model compares their values, so type differences between an integer column and a string session value are not modelled.
- LegacyApi.Start: the focus areas are stored as a list; the JSON round trip through the column is not modelled.
- Session.IsIntegerText: `is_numeric` also accepts decimals and exponents; the model accepts only integer text.
- Quota: configuration values are `(int)` of their text. `getUserUsageStats` and `getUserReports` only read tables and are not modelled.
- Text.IntCast: reads an optional sign and the leading digits. PHP 8 also reads a leading float such as `"1e3"` (1000) and saturates text beyond the integer range; neither is modelled, here or for the retry-after header (services/AI_Service_Enhanced.php:181).
- Quota.QuotaManager.UpgradeMembership: a user id that is not in the users table is not checked.
- Announcements: PDO binding of the id list and the `(int)` cast of the priority column are not modelled.
- Announcements: the script obtains its database handle from `getConnection()`, which db_connect.php does not define. The model takes the tables as given.

## Findings

| source | as written | input that shows it | evidently intended | confidence | as-written member | corrected member |
|---|---|---|---|---|---|---|
| worker/task_processor.php:24-34 | the loop dispatches pending signals and then claims and processes a job in the same turn, whatever the flag now says | SIGTERM arrives before the dispatch of the first turn, and one job is pending: that job is claimed and processed after the shutdown was received | a worker that has received SIGTERM or SIGINT claims no further job | not executed | Processor.JobTakenAfterShutdown | Processor.TaskProcessor.RunGraceful |
| AI_Service.php:393-410 | `testProvider` catches `Exception`, but `substr` of an array content throws a `TypeError`, which is not an `Exception` | an OpenAI reply with `choices[0].message.content` a list: the test aborts instead of reporting | every failure of a provider test is reported as `success: false` | not executed | LegacyService.TestProviderCanThrow | LegacyService.CaughtResult |
| api.php:105-136 | the session row is inserted before the quota is deducted, and a failed deduction does not remove it | a user with remaining quota 1 starting a deep analysis (cost 3): the start fails, but a processing session without progress stays behind | the deduction runs first, and a failed start writes no session | not executed | LegacyApi.StartLeavesOrphanSession | LegacyApi.StartDeductFirst |

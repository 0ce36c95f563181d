# Verification of ProxyLM.GO

A Dafny model of the logic of the proxy: the scheduler with its queues, pool, retries and health
changes; the performance regression and its restart through a trimmed table; the translation between
the OpenAI and the Anthropic protocol; the usage views. `dafny verify dfyconfig.toml` checks everything.

## What is modelled

**The scheduler** (`Machine`) is a machine of interleaved steps. There is one submitter per job, one
worker and one poller per server; a step is what the program does between two points where another
goroutine may come in: a critical section, an atomic load or store, a channel operation. A run is any
sequence of steps from any number of servers in any health and any number of fresh jobs; `Run` ends in
an arbitrary way, clients cancel, servers fail and heal, shutdown comes at any moment. Over every run:

* `Conservation` and `Order`: a job whose Submit waits is in exactly one queue, pool, worker's hand or
  result slot, every other job is in none; a send into a slot never finds it full; a server runs one job.
* `Attempts`, `Finality`, `Failover`, `Guarantees`, `Sightings`: how often a job runs, that nothing runs
  after a final result, and when two attempts in a row may share a server. A call looks at one server after
  the other, and a second search that no longer excludes the failed server is a step of its own, so servers
  fail and heal in between: what holds is that between the two attempts every other server was, at a moment
  of its own, not a healthy server with the model.
* `Attendance`, `Stranding`, `PullAttendance`: whether waiting work always has somebody who will look at it.
* `Outcomes`: that a call is told what its last run reported, and goes on to another attempt exactly when
  it should. `Progress`: that no call and no worker is stuck.
* `Health`: after which answers and which runs a server is down, and what becomes of its queue.
* `Arrivals`: of two jobs of one model the one that came first is taken first.
* `FairShare`, `Starvation`, `FairPops`: how long a takeable job can be passed over, what a streak counts, and
  what a pop does at the limit and below.
* `Timing`: what QueueMs and RunMs add up to. `Backoff`: the pauses, in 64-bit arithmetic.
* `Drain`, `Backlog`: a backlog is worked off with the fewest model changes, as a rule applied again and
  again and in every run in which the server's line is left alone.

`Selection` holds the four pop rules and the push rule as functions; the machine steps by them, and the
classes in `Servers`, `Pool`, `Queues` and `Router` implement them in place and are proved against them.
`Scans` says that the idle scan of the machine, undisturbed, picks what the method picks.

**The regression**: `Vectors`, `Ridge`, `Orthant`, `ActiveSet` and `TokenFit` hold the mathematics over exact reals;
`Perf` holds the solvers as the loops of the program. `Persistence` holds the buffers, the table and the restart.

**The translation**: `Json` and `Sse` hold values and lines, with JSON parsing and printing as a trusted
pair (`Faithful`: printing and parsing again gives the value back, a printed value is one line without
white space at its ends, `[DONE]` is not JSON). `Streams`, `StreamUsage` and `Translators` hold the two
stream translators with their drivers; `Conversation`, `Requests`, `RoundTrips`, `Converters`, `Bodies` and
`Responses` hold the converters. `Conversation` gives an OpenAI message two readings. One is what the converter reads.
The other is all that the message says: text in array contents, arguments as the value they parse to, an
empty message as a turn, and as unread pieces whatever is left, such as a tool call without a function
object or with arguments that are no JSON, an image, or a content of another type. Neither reading sees
where one text block ends and the next begins, nor the place of tool results among the texts of the same
message: both put the results last, as the converter does (`internal/api/translate/request.go:314-343`).

**The views**: `Rankings`, `Usage` and `Pivots` hold the pivots and the matrix, `TimeText` the window filter.

## What the code does not keep

Where a promise is false of the code, the model keeps the code, shows a failing input, and proves exactly
when the promise holds.

* Work can be stranded in push mode. For a server with a configured model list whose `/v1/models` answers
  in another shape, discovery reads the health and stores it in two steps without a wake in between
  (`internal/core/discovery.go:180-186`). If a connection error falls between them, the server is healthy
  again, its worker sleeps, and a queued job waits for an unrelated wake. `NeverStrandsIffNoneOdd`: this
  can happen exactly when such a server exists.
* A response that has started can be produced twice. A panic in Run loses the flag
  (`internal/core/scheduler.go:464-475`), so the call is retried. `RerunsWrittenIff`: in every mode reachable
  exactly when a second attempt is allowed at all.
* Backoff overflows for very large limits. `BackoffExactIff`: it equals its formula for every attempt
  exactly when the doubling that reaches the limit fits 63 bits.
* The non-negative fit compares plain residuals, so its fallback can miss the ridge optimum over the
  orthant. For any observations there is an optimal face: its solution is feasible and no fitted coefficient
  has a negative slope there; that solution is the only optimum (`OptimalIff`). With the two token
  coefficients, as where no row is loaded and in the first of the two stages, the fit always answers with the
  optimum (`TokensAreOptimal`). With all three, which takes a load and fewer than two rows without one, it
  does exactly when the free solution is feasible, or no feasible boundary solution has a smaller residual
  than the optimal face's (`RidgeOptimalIff`, `ReportOptimalIff`); on a tie the face tried first wins, so
  another solution with the same residual must be tried later. `ReportCanMiss`: three observations, two of
  them with a load, on which the reported coefficients cost more than a feasible point.
* A request round trip loses what the converter does not read: text that a system or tool message, or a
  message with tool calls, gives as an array (`ToolResultCanBeLost`), tool arguments that do not parse
  (`ArgumentsCanBeLost`), tool calls without a function object, other blocks than text and tools, and a
  message with neither text nor calls. `RoundTripKeepsAllIff`: everything arrives exactly when no message has
  any of these. A second round trip can still change a message whose only text block is empty beside tool
  uses (`SecondTripCanDiffer`, `SecondTripChangesNothingIff`). Of the finish reasons only stop, length and
  tool_calls survive.
* The round-robin counter wraps after 2^63 picks; from then on the index can be negative, and the pick panics
  (`PickPanicsIff`).
* Text order of the stored times is not time order (`TextOrderFails`, `TextOrderIff`); the two-stage
  filter is exact all the same (`FilterIsExact`).

## Model

| member | source | states |
|---|---|---|
| Selection.DeferredIndex | internal/core/pool.go:59-94 | PopFor takes the earliest job of its model that does not exclude the server, leaves no loaded model that still has takeable jobs, and finds nothing only when there is nothing |
| Selection.FairShareIndex | internal/core/pool.go:116-173 | the same, except that a loaded model with takeable jobs is left only when the streak has reached the limit |
| Selection.CoverageIndex | internal/core/pool.go:194-263 | the same, except that a loaded model with takeable jobs is left only when another healthy server holds it |
| Selection.PushIndex | internal/core/scheduler.go:488-510 | the first job of its model; another model than the loaded one only from the head and when none of the loaded model waits |
| Selection.PopIndex | internal/core/scheduler.go:436-453 | each strategy's pop takes an earliest non-excluded job of a model the server may load or has loaded, and none only when nothing is takeable |
| Pool.JobPool.PopFor | internal/core/pool.go:59-94 | in place: exactly the job the deferred rule selects is cut out, the others keep their order; an unhealthy server gets none |
| Pool.JobPool.PopForFairShare | internal/core/pool.go:116-173 | in place: below the limit, or without one, the deferred rule; with the streak at the limit the first job of another model that the server may take, if there is one; and the machine's rule on the server's fields |
| Pool.JobPool.PopForCoverage | internal/core/pool.go:194-263 | in place against the coverage rule with the other servers' loaded models |
| Pool.JobPool.FindLoaded | internal/core/pool.go:70-81 | the loop over jobs of the loaded model stops at the first that does not exclude the server |
| Pool.JobPool.FindCompatible | internal/core/pool.go:83-92 | the loop over compatible jobs stops at the first |
| Pool.JobPool.FindSwitch | internal/core/pool.go:135-146 | the loop over compatible jobs of another model stops at the first |
| Pool.JobPool.Remove | internal/core/pool.go:268-278 | cuts out the first job with the id and says whether there was one |
| Pool.PickIdleByPriority | internal/core/pool.go:353-379 | the first idle compatible server of least priority value, or none exactly when none is idle |
| Pool.AnyHealthyCompatible | internal/core/pool.go:388-401 | true exactly when a healthy, not excluded server has the model |
| Pool.OtherHasCurrent | internal/core/pool.go:231-243 | true exactly when another healthy server has this server's model loaded |
| Servers.ServerInfo.SetCurrentModel | internal/core/models.go:145-162 | the model read back is the one set, the empty name meaning none |
| Servers.ServerInfo.ModelsSnapshot | internal/core/pool.go:324-332 | the set of the listed names |
| Servers.ServerInfo.HasModel | internal/core/pool.go:336-345 | membership in that set |
| Servers.ServerInfo.MarkDispatched | internal/core/scheduler.go:526-545 | the server's fields change exactly as in the machine's dispatch step |
| Servers.DiscoveryEntry.PollOne | internal/core/discovery.go:171-238 | an undisturbed poll is the machine's sequence of poll acts from idle to idle, for every answer |
| Health.PollsDecide | internal/core/discovery.go:171-238 | over any series of polls with nobody else writing: failed polls counted since the last answer, healthy exactly when once healthy or answered and the failures since are below the threshold, the models of the last list |
| Health.DownAfterThreshold | internal/core/discovery.go:191-193 | a healthy server with a clean record is down afterwards exactly when the failures in a row have reached the threshold |
| Health.PollAll | internal/core/discovery.go:160-238 | the polling loop, against the answers alone |
| Health.OnePoll | internal/core/discovery.go:175-224 | an answer resets the count, heals, and leaves a wake when the server was down; a failure adds one and wakes nobody |
| Health.HealthChangesIff | internal/core/scheduler.go:562-580 | over all steps of everybody: a server goes down exactly with a run that fails to connect before a response or a failed poll at the threshold, and up exactly with an answered poll |
| Health.CrashEmptiesQueue | internal/core/scheduler.go:588-600 | the worker of a server that went down takes the whole queue in hand and tells every job before it goes on |
| Servers.ToModelInfos | internal/core/discovery.go:261-269 | the listed names without the empty one |
| Queues.PickNext | internal/core/scheduler.go:488-510 | in place against the push rule; the loaded model is that of the job taken |
| Queues.CancelQueued | internal/core/scheduler.go:410-420 | cuts out the first job with the id and says whether there was one |
| Queues.OfferAll | internal/core/scheduler.go:593-599 | every job is offered the result, a full slot keeps what it has |
| Queues.FailServerQueue | internal/core/scheduler.go:588-600 | the queue is empty and every job in it has a result |
| Queues.FailPending | internal/core/scheduler.go:705-728 | queue and pool are empty and every job in them has a result |
| Scans.ScanPicksIdle | internal/core/pool.go:353-379 | the scan of the machine, undisturbed, ends with the first idle server of least priority value |
| Router.Router.Pick | internal/core/router.go:52-70 | no server exactly when there is no candidate or round robin panics; otherwise the strategy's choice among the candidates |
| Router.Router.CandidatesFor | internal/core/router.go:72-87 | the healthy, not excluded servers with the model, in order |
| Router.PickLeastBusy | internal/core/router.go:119-143 | the first server of least load and, among those, least priority value |
| Router.PickModelAffinityLeastBusy | internal/core/router.go:103-117 | the least busy of those with the model loaded, if there are any, else of all |
| Router.RoundRobinTurn | internal/core/router.go:145-150 | over n picks in a row among the same n candidates each gets exactly one turn |
| Router.PickPanicsIff | internal/core/router.go:145-150 | with the 64-bit counter, pick number k panics exactly when k has reached 2^63 and the distance to the next wrap is no multiple of the number of candidates |
| Machine.IndexOf | internal/core/pool.go:268-278 | the first occurrence of an id, or none exactly when it is absent |
| Conservation.BalancedStep | internal/core/scheduler.go:311-728 | every step of the machine keeps, for each job, places plus delivered equal to owed |
| Conservation.JobMoveKeepsDue | internal/core/scheduler.go:343-386 | a call's own moves neither create nor lose a result |
| Conservation.HeldAlone | internal/core/scheduler.go:525-583 | a job in a worker's hands or a queue is there once, is owed, and is nowhere else |
| Order.SafeStep | internal/core/scheduler.go:226-728 | every step keeps the whole invariant |
| Order.EachJobInOnePlace | internal/core/scheduler.go:226-728 | INV-1 and conservation in every reachable state: one place per waiting job, none for others, no send finds a full slot, the in-flight swap never fails |
| Order.ForcedWaitEnds | internal/core/scheduler.go:377-386 | when a cancelled call does not find its job in line, the job is in a worker's hands or its result is there, so the forced wait is not in vain |
| Attendance.AttendanceStep | internal/core/scheduler.go:427-460 | away from the unguarded store every step keeps a healthy server's waiting job attended |
| Stranding.NeverStrandsIffNoneOdd | internal/core/discovery.go:175-189 | push mode never strands a job, over all runs, exactly when no server has both a configured list and an answer of another shape |
| PullAttendance.PoolNeverStrands | internal/core/scheduler.go:338-341 | in pull mode, while health only rises and lists stay, every pooled job has a server that may take it and will look, or its submitter is about to wake one |
| PullAttendance.ScanServes | internal/core/pool.go:359-379 | the idle scan, one server at a time, cannot overlook every server that will serve the job |
| Attempts.CountedStep | internal/core/scheduler.go:254-264 | attempts, placements and pauses of every call stay in step |
| Attempts.RunsBoundedStep | internal/core/scheduler.go:525-583 | each placement is run at most once |
| Finality.FinalStep | internal/core/scheduler.go:343-360 | a job with a final result is in no line and in no hands but those that carry the result |
| Failover.PushTrailsStep | internal/core/scheduler.go:236-252 | push mode: consecutive choices differ unless a search that left out the failed server had looked at all others in vain |
| Failover.PullTrailsStep | internal/core/scheduler.go:361-374 | pull mode: consecutive runs differ unless such a search had lifted the exclusion |
| Guarantees.RetrySafety | internal/core/scheduler.go:226-290 | over every run at most MaxAttempts runs per Submit, and the same server twice in a row only after a search in vain |
| Sightings.SameServerTwice | internal/core/scheduler.go:236-246 | in every run and mode: the same server twice in a row only if every other server was, at a moment of the run between the two attempts, not a healthy server with the model |
| Sightings.GivesUpInVain | internal/core/scheduler.go:241-252 | a call gives up for want of a server only if every server was, at a moment of its search, not a healthy one with the model |
| Sightings.ChosenWasFit | internal/core/router.go:72-87 | in push mode every server a call chose was, at a moment of the search for that attempt, a healthy one with the model |
| Sightings.PassesAFitOne | internal/core/pool.go:388-401 | in pull mode a call goes on with its exclusion only past a healthy server with the model that is not excluded |
| Guarantees.AboutToRun | internal/core/scheduler.go:525-556 | whoever is about to call Run has attempts left, no final result behind it, and the server chosen last |
| Outcomes.AfterResult | internal/core/scheduler.go:268-290 | in every reachable state: after a result a call goes on exactly on an error, with no response started, no cancelled context and attempts left, and then avoids the server of the attempt; otherwise it returns the result's error |
| Outcomes.ResultsAreTrue | internal/core/scheduler.go:556-583 | a result on its way is what the last run reported, or the error of a server that went down with the job in its queue, or a shutdown's |
| Outcomes.SuccessIsTold | internal/core/scheduler.go:273-275 | a call reports success exactly when its last run succeeded; only a cancelled pull call says cancelled instead |
| Outcomes.NothingAfterConclusive | internal/core/scheduler.go:273-278 | no run follows one that succeeded or whose response had started |
| Outcomes.HowCallsReturn | internal/core/scheduler.go:226-290 | a call returns for want of a server, cancelled in a pause or in line, or after a result, with the error that belongs to it |
| Progress.CallGoesOn | internal/core/scheduler.go:226-408 | in every reachable state a call can act unless it has returned or waits for a result that is not there |
| Progress.WorkerGoesOn | internal/core/scheduler.go:427-460 | in every reachable state a worker can act unless it has stopped or sleeps without a wake; its send never blocks |
| Progress.NothingToDoSleeps | internal/core/scheduler.go:427-460 | a worker with nothing to take, or whose server is down, sleeps and leaves a wake that came meanwhile |
| Reruns.RerunsWrittenIff | internal/core/scheduler.go:464-475 | in every mode a second run after written bytes is reachable exactly when MaxAttempts is at least two |
| Guarantees.TimeAccounting | internal/core/scheduler.go:548-558 | RunMs is the sum of the runs, QueueMs the whole milliseconds from Submit to the begin of the first run, and together they never exceed the milliseconds since Submit |
| Timing.RunReadsClock | internal/core/scheduler.go:548-558 | a run is noted with the clock at its begin and at its end |
| Timing.SubmittedAt | internal/core/scheduler.go:198-206 | the time of Submit is the clock's when the call starts, and stays |
| Guarantees.PausesOfACall | internal/core/scheduler.go:254-264 | both submit paths pause before attempts 2, 3, and so on, each for the 64-bit value Backoff returns, in all at most (MaxAttempts-1) times the maximum; each is the documented one when nothing overflows |
| Timing.QueueMsOnce | internal/core/scheduler.go:549-554 | once a job was dispatched its queue time is never written again |
| Timing.TimesStep | internal/core/scheduler.go:198-217 | every step keeps the accounts of every job within its time since Submit |
| Backoff.Backoff | internal/core/retry.go:26-41 | the loop in 64-bit arithmetic; the capped doubling when it cannot overflow |
| Backoff.BackoffExactIff | internal/core/retry.go:26-41 | the formula holds for every attempt exactly when the doubling that reaches the limit fits 63 bits |
| Backoff.SmallLimitNeverOverflows | internal/config/validate.go:118-124 | limits below 2^62 never overflow |
| Backoff.PausesBounded | internal/core/retry.go:26-41 | any n pauses, overflow or not, total at most n times the maximum |
| FairShare.OwnPopPays | internal/core/pool.go:116-173 | a server's own pop takes the waiting job or lowers its potential, whatever model it switches to |
| FairShare.OthersRemove | internal/core/pool.go:116-173 | what other servers and cancels remove never raises the potential |
| FairShare.OthersArrive | internal/core/pool.go:35-39 | arrivals leave the potential unchanged |
| Starvation.BudgetStep | internal/core/scheduler.go:525-541 | every step of anybody keeps the budget, and the server's own pop spends one |
| Starvation.StarvationBound | internal/core/pool.go:116-173 | with limit N a server pops at most (a+1)(N+1) times while a job it may take stays in the pool, a being the takeable jobs ahead of it |
| FairPops.StreakCounts | internal/core/scheduler.go:534-541 | over every run a server's streak is the number of its last dispatches that were of one model |
| FairPops.PopAtLimit | internal/core/pool.go:124-146 | in every reachable state a pop leaves no loaded model with jobs to take while the streak is below the limit, and takes the first job of another model once it is reached |
| Drain.LoadsOnce | internal/core/scheduler.go:477-510 | working off a backlog loads no model twice and the one already there not at all |
| Drain.DrainIsComplete | internal/core/pool.go:59-94 | nothing is lost or invented, and what is left the server could not take |
| Drain.DrainIsOptimal | internal/core/pool.go:41-94 | no other order of the same jobs changes the model less often |
| Drain.BacklogDrainsOptimally | internal/core/scheduler.go:488-510 | the same for the line of any server in any reachable state, by induction over runs that no job without a model name is ever in line |
| Backlog.TakenIsDrained | internal/core/scheduler.go:427-460 | in every run in which nothing enters or leaves the server's line but by its own pops, the jobs it has taken and those a drain would still take are together the drain of the line at the start |
| Backlog.RunDrainsOptimally | internal/core/scheduler.go:477-510 | at every moment of such a run, from any reachable state on, no model was loaded twice and no other order of the jobs taken has fewer model changes |
| Arrivals.FirstComeFirstServed | internal/core/scheduler.go:391-395 | in every run: while a job waits in a line and does not exclude the server, the server takes no job of the same model that came later |
| Ridge.CostAround | internal/core/perf.go:74-84 | value, slope and curvature of the ridge objective around any point, for every list of observations |
| Ridge.FaceMinimum | internal/core/perf.go:742-776 | a stationary point is the unique minimiser on its face, by at least lambda times the distance squared |
| Ridge.PairDet | internal/core/perf.go:701-706 | every 2x2 ridge determinant is at least lambda squared |
| Ridge.FullDet | internal/core/perf.go:806-810 | the 3x3 ridge determinant is at least lambda cubed |
| Orthant.StationaryOnly | internal/core/perf.go:669-682 | the one-column formula makes the slope vanish |
| Orthant.StationaryPair | internal/core/perf.go:684-708 | the two-column formula makes the slope vanish |
| Orthant.StationaryFree | internal/core/perf.go:806-821 | Cramer's rule on three columns makes the slope vanish |
| Orthant.Descend | internal/core/perf.go:528-546 | from every feasible point one comes down to a feasible solution of a face |
| ActiveSet.FreeFitIsOptimal | internal/core/perf.go:553-556 | a feasible free solution is the unique ridge optimum over the whole orthant |
| ActiveSet.FitBounds | internal/core/perf.go:549-598 | in every case the residual of the fit is at most the full ridge cost of every feasible point |
| ActiveSet.FitBeatsZero | internal/core/perf.go:593-597 | and at most the sum of the squared times |
| ActiveSet.OptimalFaceExists | internal/core/perf.go:530-546 | for every list of observations some face has a feasible solution from which the cost falls nowhere into the orthant |
| ActiveSet.OptimalIff | internal/core/perf.go:530-546 | the solution on such a face is the ridge optimum over the orthant, and the only one |
| ActiveSet.RidgeOptimalIff | internal/core/perf.go:549-598 | the fit answers with the ridge optimum exactly when the free solution is feasible or the optimal face has the least residual on the boundary, ties going to the face tried first |
| TokenFit.TokensAreOptimal | internal/core/perf.go:602-622 | whatever the observations, the fit of the two token coefficients is the ridge optimum over the quadrant |
| ActiveSet.FallbackMissesOptimum | internal/core/perf.go:557-596 | three observations, one of them without a load, on which that condition fails, and the answer costs more than a feasible point |
| ActiveSet.AnswerIsUnique | internal/core/perf.go:549-598 | the observations determine the answer, ties included |
| Perf.SolveNormal1 | internal/core/perf.go:669-682 | the sums and the quotient give the solution of the face; the guard never trips |
| Perf.SolveNormal2Cols | internal/core/perf.go:688-708 | the same for two columns |
| Perf.SolveNormal2 | internal/core/perf.go:780-802 | the same for the token columns |
| Perf.SolveNormal3 | internal/core/perf.go:748-776 | the same for all three columns |
| Perf.Rss3 | internal/core/perf.go:625-637 | the loop computes the residual sum of squares |
| Perf.SolveNNLS3 | internal/core/perf.go:549-598 | the free solution if feasible, else the feasible boundary solution of least residual that is tried first |
| Perf.SolveNNLS2 | internal/core/perf.go:602-622 | the same for the token coefficients |
| Perf.LoadTimeIsBest | internal/core/perf.go:356-368 | the clamped mean of what the token coefficients leave is the unique best non-negative load time |
| Perf.MeanLeft | internal/core/perf.go:356-368 | the loop computes it |
| Perf.FitRegression | internal/core/perf.go:302-387 | which of the three estimates is reported; all coefficients are non-negative, and the load time of the two stages is the best for its token coefficients |
| Perf.ReportOptimalIff | internal/core/perf.go:345-387 | the reported token coefficients are the ridge optimum without a load and in the first stage; with fewer than two rows without a load the report is exactly under the residual condition |
| Perf.ReportCanMiss | internal/core/perf.go:369-387 | observations that reach the three-coefficient fit and whose report costs more than a feasible point |
| Persistence.TrimKeepsLast | internal/storage/perf.go:153-173 | a trim keeps of every key exactly the newest rows |
| Persistence.LiveIsNewest | internal/core/perf.go:117-144 | over every run in which all accepted rows are written each buffer is the newest thousand accepted observations, and the table ends with them |
| Persistence.RestartIsInvisible | cmd/serve.go:163-181 | a restart leaves every buffer as it was, whatever trims came before |
| Persistence.RestartGives | internal/core/perf.go:183-199 | what a restart leaves in a buffer, for any state of the table |
| Persistence.PerfTracker.Record | internal/core/perf.go:117-144 | an observation without positive time and output tokens changes nothing; another joins the last 999 of its key, with negative input tokens as none, and goes to the sink |
| Persistence.OnlyMeasurements | internal/core/perf.go:121-126 | over every run buffers, table and channel hold positive times and output tokens and no negative input tokens |
| Persistence.PerfTracker.Load | internal/core/perf.go:183-199 | the buffer of the key is the newest thousand of old and loaded, the others are untouched |
| Persistence.PerfStore.WriteOne | internal/storage/perf.go:79-112 | one turn of the writer is a write of the daemon's run |
| Persistence.PerfStore.Trim | internal/storage/perf.go:153-173 | the table after the delete, and how many rows went |
| Persistence.PerfStore.LoadAll | internal/storage/perf.go:117-145 | the rows of every key, oldest first |
| Persistence.StartUp | cmd/serve.go:161-181 | trim, load, attach: the new tracker holds what the table gives, and nothing is written back |
| Sse.LineThen | internal/api/streaming_translate.go:51-63 | a written line without newline is read back as one line |
| Sse.ReadsData | internal/api/translate/stream.go:296-307 | the payload of a written data line is read back |
| Streams.EventsArrive | internal/api/translate/stream.go:309-312 | whoever reads the lines of a written event stream finds exactly the events sent |
| Streams.ChunksArrive | internal/api/translate/stream.go:266-292 | whoever reads the lines of a written chunk stream finds exactly the chunks sent |
| Streams.FollowsGrammar | internal/api/translate/stream.go:49-144 | message_start exactly when a chunk parsed, the block exactly when some chunk had content, one delta per non-empty content, then the two closing events |
| Streams.AnthropicStreamGrammar | internal/api/streaming_translate.go:57-103 | the same as a client reads it, for every sequence of upstream lines |
| Streams.KeepsText | internal/api/translate/stream.go:106-125 | the deltas carry the text of the chunks |
| Streams.KeepsContent | internal/api/translate/stream.go:209-224 | the chunks carry the text of the deltas |
| Streams.DoneOnceLast | internal/api/translate/stream.go:243-259 | exactly one end marker, in last place |
| Streams.OpenAIStreamEndsOnce | internal/api/streaming_translate.go:186-233 | the same for the written lines, however the upstream ends |
| Streams.AnthropicClientReadsAll | internal/api/streaming_translate.go:57-103 | an Anthropic client reads the text the OpenAI upstream sent |
| Streams.OpenAIClientReadsAll | internal/api/streaming_translate.go:186-233 | an OpenAI client reads the text the Anthropic upstream sent |
| Streams.ChainedKeepsText | internal/api/translate/stream.go:24-259 | both translators chained, in either order, keep the text |
| StreamUsage.CountsArrive | internal/api/translate/stream.go:65-88 | an Anthropic client reads one opening with the model and input count of the first chunk, and one close with the output count of the last chunk that had one |
| StreamUsage.PiecesArrive | internal/api/translate/stream.go:186-241 | an OpenAI client reads the begin once, the texts, and the end with mapped reason and all counts, each with the model, as the events had them |
| StreamUsage.WrittenCountsArrive | internal/api/streaming_translate.go:57-233 | the same for whoever reads the written lines, for every upstream |
| Translators.OpenAIToAnthropic.ProcessLine | internal/api/translate/stream.go:49-128 | fields and output of one line, against the chunk step |
| Translators.AnthropicToOpenAI.ProcessLine | internal/api/translate/stream.go:170-252 | fields and output of one line, against the event step |
| Translators.DriveToAnthropic | internal/api/streaming_translate.go:57-103 | the driver writes the whole translated stream and stops at the end marker |
| Translators.DriveToOpenAI | internal/api/streaming_translate.go:186-233 | the same for the other direction |
| Requests.ForwardKeepsTurns | internal/api/translate/request.go:164-248 | every message that is not a system message says the same as an Anthropic message |
| Requests.BackKeepsTurns | internal/api/translate/request.go:250-344 | every converted message says the same as one or more OpenAI messages |
| Requests.CallJsonsRead | internal/api/translate/request.go:293-305 | tool calls written as text arguments are read back as the same values |
| RoundTrips.RoundTripKeeps | internal/api/translate/request.go:137-344 | what the converter reads of a conversation arrives: one leading system message, then texts, calls and results in order |
| RoundTrips.RoundTripKeepsAllIff | internal/api/translate/request.go:152-253 | all that a conversation says arrives exactly when every message can be read in full: plain content where only a string is read, calls with a function object and arguments that parse, whole blocks, no empty message |
| RoundTrips.ToolResultCanBeLost | internal/api/translate/request.go:238-248 | a tool result given as an array is lost |
| RoundTrips.ArgumentsCanBeLost | internal/api/translate/request.go:222-226 | any arguments that do not parse come back as an empty object |
| RoundTrips.SecondTripChangesNothingIff | internal/api/translate/request.go:203-236 | a second trip changes no message exactly when none leaves an empty text beside tool calls |
| RoundTrips.SecondTripCanDiffer | internal/api/translate/request.go:317-331 | a message that a second trip changes again |
| Converters.BodyThereAndBack | internal/api/translate/request.go:10-135 | what of a request body comes back, field by field |
| Converters.BodyKeepsTalkIff | internal/api/translate/request.go:10-135 | all that the conversation of the whole body says arrives exactly when every message can be read in full |
| Converters.SecondBodyTripIff | internal/api/translate/request.go:10-135 | a second trip changes nothing in the whole body exactly when it changes no message |
| Converters.ToolListAgain | internal/api/translate/request.go:346-403 | the tool list is settled after one trip |
| Bodies.ToolsArrive | internal/api/translate/request.go:346-403 | name, description and schema of every tool arrive in order, in either direction; missing are only entries without a function object, or that are no objects |
| Bodies.BodyToolsArrive | internal/api/translate/request.go:59-62 | the same for the tools of a whole body |
| Bodies.SettingsArrive | internal/api/translate/request.go:18-67 | model, stream, temperature, top_p, the stop list and the user of an OpenAI body arrive |
| Bodies.LimitArrives | internal/api/translate/request.go:24-31 | the limit is max_tokens, else max_completion_tokens, else 4096 |
| Bodies.SettingsComeBack | internal/api/translate/request.go:81-108 | the settings of an Anthropic body arrive on the way back |
| Bodies.SystemComesBack | internal/api/translate/request.go:110-122 | a system given as text or as blocks becomes one leading message with its texts, one per line |
| Bodies.SystemIsLined | internal/api/translate/request.go:137-162 | the system messages with a text make one system text, one per line, in order |
| Converters.ExtractSystemMessages | internal/api/translate/request.go:137-162 | the loop splits off the joined system text |
| Converters.ConvertOAIMessages | internal/api/translate/request.go:164-184 | the loop converts every message |
| Converters.ToolCallBlocks | internal/api/translate/request.go:203-236 | text and calls as blocks, malformed calls skipped |
| Converters.ConvertAnthropicMessages | internal/api/translate/request.go:250-276 | the loop converts every message back |
| Converters.ConvertBlocks | internal/api/translate/request.go:278-344 | texts, calls and results collected from the blocks |
| Converters.OpenAIChatToAnthropicMessages | internal/api/translate/request.go:10-69 | the converter on text: an error exactly when the body is no object |
| Converters.AnthropicMessagesToOpenAIChat | internal/api/translate/request.go:73-135 | the other converter on text |
| Converters.ThereAndBackOnText | internal/api/translate/request.go:10-135 | both on text, one after the other |
| Responses.AnswerArrives | internal/api/translate/response.go:106-229 | text and tool calls of an answer, as the converter reads them, arrive on the other side and back, all calls with their values when all are sound; its finish reason survives both maps exactly when it is stop, length or tool_calls |
| TimeText.SecondsOrder | internal/storage/history.go:168-173 | on the first nineteen characters text order is time order |
| TimeText.FilterIsExact | internal/storage/usage.go:49-55 | the coarse bound drops no row that the exact filter keeps, at nanosecond or any coarser precision |
| TimeText.TextOrderIff | internal/storage/usage.go:26-30 | full text order agrees with time order unless one fraction is a proper prefix of the later one in the same second |
| TimeText.TextOrderFails | internal/storage/usage.go:26-30 | two times in the wrong text order |
| Rankings.RankingIsUnique | internal/tui/usage.go:206-218 | a map has exactly one ranking by count and name |
| Rankings.SortedCounts | internal/tui/usage.go:206-218 | the entries of the map in that ranking |
| Usage.MatrixConserves | internal/tui/usage.go:277-308 | rows add up to row totals, columns to column totals, both totals to all requests |
| Usage.MatrixIgnoresOrder | internal/tui/usage.go:277-308 | rows in another order give the same matrix |
| Usage.AcrossIsWhole | internal/tui/usage.go:231-253 | counts by name, every name once, add up to the whole |
| Pivots.UsageAccum.Add | internal/tui/usage.go:180-193 | every field and every per-name count grows by the row |
| Pivots.UsageAccum.Finish | internal/tui/usage.go:195-203 | the aggregate of the accumulated rows, with its rankings |
| Pivots.PivotUsage | internal/tui/usage.go:231-253 | one aggregate per name, ranked |
| Pivots.PivotConserves | internal/tui/usage.go:231-253 | the aggregates add up to all rows in every summed field |
| Pivots.EveryRowIsShown | internal/tui/usage.go:231-253 | every row has an aggregate under its own name, or under the label for rows without one |
| Pivots.AlikeAverage | internal/tui/usage.go:195-203 | rows that all waited alike have that average, however many requests each stands for |
| Pivots.PivotIgnoresOrder | internal/tui/usage.go:231-253 | rows in another order give the same pivot |
| Pivots.BuildMatrix | internal/tui/usage.go:277-308 | the matrix of the rows, with its largest cell |

## Left out

- HTTP handlers, the WebSocket hub, the database driver and its migrations, service installation, the command line, logging and the rendering of the dashboard: input and output around the logic.
- `Run` is an arbitrary step that ends with an error kind, two flags and, for a panic, whether bytes were written; which errors count as connection errors is one of the flags.
- Names of servers and ids of jobs are numbers; the configuration forbids two backends of one name, and ids are taken as distinct.
- One look at one server is one step, although its health and its model list are read one after the other; the choice among the servers found is arbitrary in the machine, since the loads it goes by are read later and one by one.
- Whether a coverage pop finds its model held elsewhere is arbitrary in the machine, since the rule reads the other servers one by one while they change; `Selection.CoverageIndex` and `Pool.OtherHasCurrent` say what it does with what it finds.
- The field updates of a dispatch before the clock is read are one step, since no other goroutine's decision depends on their order among each other.
- The machine's clock is one monotone number of nanoseconds; the program reads two clocks around a run.
- Jobs submitted after shutdown, liveness under a real scheduler, and races below the level of atomic operations and critical sections.
- Starvation.StarvationBound: counts pops while the server stays eligible with the same model list; a pop with a view taken before the list last changed costs one more.
- Drain.DrainIsOptimal: for the rules when they are not forced to switch; the fair-share limit trades model changes for fairness on purpose.
- Stable sorts of candidate lists and idle lists are modelled by the first element they put in front; the sort routine itself is library code.
- Rounding of floating point, NaN, R squared, standard errors and confidence intervals of the regression: exact reals are used throughout.
- Persistence.RestartIsInvisible: assumes that every accepted observation is written; the channel drops rows when it is full and loses those under way at a shutdown, and inserts can fail.
- Client write errors and cancelled requests in the stream drivers: the drivers return early and nobody reads the rest.
- A line over the scanner's limit ends the upstream like a cut; a carriage return at the end of a line is trimmed with the other white space.
- Identifiers, names, roles and texts that are not strings read as empty in both readings of a message, and fields beside role, content, tool_calls and tool_call_id are not read.
- Streams.ChainedKeepsText: is about text; tool-call deltas are not translated by the program.
- TimeText.FilterIsExact: takes a stamp down to the unit of the exact stage; a database that rounded a fraction up into the next second is not modelled.
- The SQL of the usage query beyond the two time conditions, and the shading of the matrix.

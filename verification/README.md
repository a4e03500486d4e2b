# Verified model of the benchmarker's protocols

The benchmarker is a daemon that takes models from a queue, deploys each one on
a shared GPU VM, measures it, has it evaluated on Buildkite, and reports. Its
hard logic is a set of small stateful protocols. This project states those
protocols in Dafny and proves what each of them keeps, over every input, every
run, every interleaving, and every failure of the calls they make.

`dafny verify dfyconfig.toml` checks everything.

| file | what it models |
|---|---|
| `GpuVmLease.dfy` | the cross-host lease on the GPU VM: one daemon's calls, then N daemons interleaved step by step |
| `QueueFence.dfy` | the queue's claim tokens, fenced terminal writes, bounded automatic retries |
| `Pipeline.dfy` | one queue entry through all stages, with the detached Buildkite tail |
| `SuiteBuilds.dfy`, `Stage2Merge.dfy` | per-suite builds and their retries, resuming, mapping and merging results |
| `ModelCooldown.dfy` | the three-strike failure tracker and its cooldowns |
| `BuzzNotifier.dfy` | full-state polls turned into one message per change, with crashes between post and store |
| `EisStream.dfy`, `SseFrames.dfy` | the two incremental event-stream readers (WHATWG HTML Living Standard, sections 9.2.5 and 9.2.6) |
| `CircuitBreaker.dfy`, `RateLimiter.dfy` | two timed state machines, over all operation sequences and clock readings |
| `ServedWeights.dfy`, `Discovery.dfy` | selecting the served weights; family supersession and queue priorities |
| `Config.dfy` | deep merge and configuration layering |
| `Prelude.dfy`, `Text.dfy`, `Sorting.dfy` | options and results, splitting and joining text, stable sorting |

Objects the program updates in place are classes here, and their methods are
proved against functions on values; the properties are proved about those
functions. Networks, clocks, processes and workers are parameters: an answer per
call, a clock reading per operation, a flag for each call that may throw, and for
races the writes that get in between.

## Where the code differs from what it says or intends

Each of these is a theorem below, with the exact condition where there is one.

- Mutual exclusion on the VM rests on the document showing a fresh heartbeat
  whenever somebody holds the lease, and on no delete taking effect without its
  sender hearing of it. A graceful shutdown breaks the first: it stops the
  heartbeat timer (`src/cli/shutdown.ts:59-62`) and then drains the scheduler for
  up to five minutes (`src/scheduler/scheduler.ts:58`, `284`), against a window of
  two. A heartbeat that lands late breaks it too: it carries the time it was sent
  and hits whatever lease is there.
- Even then exclusion is not of all daemons that believe they own the VM. A delete
  is applied before its sender hears of it and stops believing
  (`src/services/gpu-vm-lease.ts:290-291`), and in between the next daemon owns too.
- Marking an entry `deploying` or `benchmarking` is not fenced
  (`src/scheduler/scheduler.ts:635`, `670`, `716`), so a stalled daemon reopens an
  entry that another daemon finished.
- The sweep that puts failed entries back in the queue does not look for open ones of
  the same model, as `enqueue` does (`src/services/queue-service.ts:903-931`), so a
  model whose retry is waiting comes up twice.
- The branch for transient errors of the detached poll says it does not tear the
  deployment down, but the next link of the chain does
  (`src/scheduler/scheduler.ts:1559-1582`).
- Rows of on-demand builds are saved under the weekly pipeline's name
  (`src/scheduler/scheduler.ts:1325`), so a resumed entry looks up the wrong
  pipeline's build of that number. And a first failed build already counts as
  done, so a crash before its retry forfeits the retry.
- When nothing is left to run, a resumed entry reports success and score 1 for
  every suite, those that failed included.
- HALF_OPEN admits every attempt, not a single one as documented. And failures do
  not expire by themselves: those before a gap are forgotten iff somebody asked
  about the model more than the failure window after the last of them.
- The rate limit of 100 a minute admits 199 requests in some minutes.
- A stream whose server says "unknown" after a real finish reason is read
  differently in pieces than as a whole.
- A model family can be superseded as a whole, in a circle.
- A hardware value in the configuration file beats the named profile; the
  documentation puts the profile above the file. And the Kibana checkout's branch
  is replaced even where it is set explicitly.

## Model

| member | source | states |
|---|---|---|
| GpuVmLease.GpuVmLeaseService.Acquire | src/services/gpu-vm-lease.ts:168-228 | for every interference between read and write: an existing lease is taken iff it is the caller's own, has no readable or a silent heartbeat, or its owner is dead on the same host, and otherwise its holder is named and nothing is written; the write replaces exactly the version read, or the lease still missing, and success means that it did; a lost race writes nothing and names a fresh winner; ownership changes on success only |
| GpuVmLease.GpuVmLeaseService.RefuseAfterConflict | src/services/gpu-vm-lease.ts:230-244 | after a lost race the winner is named iff it is fresh and someone else's; never a success |
| GpuVmLease.GpuVmLeaseService.Heartbeat | src/services/gpu-vm-lease.ts:271-285 | unfenced: refreshes whatever lease is there, a successor's too |
| GpuVmLease.GpuVmLeaseService.Release | src/services/gpu-vm-lease.ts:287-301 | unfenced: deletes whatever lease is there; a lost answer leaves ownership set |
| GpuVmLease.RivalsLeaveOrReplace | src/services/gpu-vm-lease.ts:196-227 | whatever rivals write between read and write, a version that changed never comes back |
| GpuVmLease.StepKeepsConsistent | src/services/gpu-vm-lease.ts:168-300 | every step keeps the protocol invariant, for requests that land late or after their sender gave up, released or died: versions seen are past or present ones, a takeover under way is based on a lease its sender may displace, and only owners release |
| GpuVmLease.RunConsistent | src/services/gpu-vm-lease.ts:168-300 | the invariant holds in every reachable state, with no assumption on timing |
| GpuVmLease.TakeoverDisplacesOnlyTheSilent | src/services/gpu-vm-lease.ts:131-151 | in every run, a takeover that lands replaces the very version it is based on, and the holder displaced is the sender, a dead process on the sender's host, or silent for the whole window |
| GpuVmLease.VersionNeverReturns | src/services/gpu-vm-lease.ts:196-227 | over any further run a version is either still in place with nothing written since, or gone for good |
| GpuVmLease.AppliedWriteSawNoOtherWrite | src/services/gpu-vm-lease.ts:187-227 | if a takeover based on a version that was read goes through, nobody's heartbeat, release or takeover reached the document at any moment since that read |
| GpuVmLease.StepKeepsHolders | src/services/gpu-vm-lease.ts:168-300 | while the document is fresh and deletes are heard of, every step keeps each holder - its takeover landed, its release not - the recorded owner |
| GpuVmLease.RunKeepsHolders | src/services/gpu-vm-lease.ts:168-300 | the same over whole runs |
| GpuVmLease.MutualExclusion | src/services/gpu-vm-lease.ts:107-305 | in every interleaving of any number of daemons and of requests landing at any time, if the document is fresh whenever somebody holds the lease and no delete takes effect unheard of, at most one live daemon that believes it owns the VM has not had its delete applied, and the document names it |
| GpuVmLease.TwoOwnersMeansOneIsLeaving | src/services/gpu-vm-lease.ts:287-291 | so of two live owners one is only waiting to hear that its delete was applied |
| GpuVmLease.PromptWritesKeepOnTime | src/services/gpu-vm-lease.ts:135-139 | the document stays fresh if, while the lease is held, writes reach it at most some gap apart and none is older than some latency when it lands, the two together less than the staleness window |
| GpuVmLease.PromptDaemonsExclude | src/services/gpu-vm-lease.ts:107-305 | so prompt writes and deletes that are heard of give mutual exclusion |
| GpuVmLease.ReleaseWindowOverlaps | src/services/gpu-vm-lease.ts:289-291 | and that happens: a run with no time passing and nothing failing in which a second daemon owns between an applied delete and its answer |
| GpuVmLease.LateHeartbeatEvictsSuccessor | src/services/gpu-vm-lease.ts:271-279 | a run in which a heartbeat still under way when its sender has released moves the successor's heartbeat back, and a third daemon displaces an owner that took the lease that instant |
| GpuVmLease.OverdueOwnerIsDisplaced | src/services/gpu-vm-lease.ts:135-151 | the freshness condition is needed: from any state where the document shows an old heartbeat, another daemon takes the lease while its live owner still believes |
| GpuVmLease.DisplacedOwnerEvictsSuccessor | src/services/gpu-vm-lease.ts:287-301 | the displaced owner's unfenced release deletes its successor's fresh lease and lets a third daemon in |
| GpuVmLease.SilenceBreaksExclusion | src/cli/shutdown.ts:57-75 | a run from a cold start, with no failure but a heartbeat stopped for one staleness window, that ends with two owners, neither releasing |
| GpuVmLease.LostReleaseBreaksExclusion | src/services/gpu-vm-lease.ts:287-301 | a run with a fresh document but one lost release answer that ends with two owners, neither releasing |
| GpuVmLease.OrphanDeleteBreaksExclusion | src/services/gpu-vm-lease.ts:287-301 | the same for a delete that lands after its sender gave up on it |
| GpuVmLease.TakeLeaseWorks | src/services/gpu-vm-lease.ts:168-228 | progress: an undisturbed acquire of a lease that is absent, own, silent, or held by a dead process of the same host makes the caller the live, recorded owner |
| GpuVmLease.RefusesIffNotTakeable | src/services/gpu-vm-lease.ts:131-151 | a daemon that reads the document is turned away iff the lease is another owner's, fresh, and that owner is not a dead process of its own host |
| QueueFence.QueueIndex.WriteTerminalFenced | src/services/queue-service.ts:605-663 | under any interference, having lost so many races, the loop has the effect of one atomic check-and-write on the document as the rivals of exactly those attempts left it; it writes only if that is also the version it read, each lost attempt was overtaken, and it gives up, having written nothing, iff all three were |
| QueueFence.Queue.UpdateStatus | src/services/queue-service.ts:676-720 | the unfenced terminal write applies whatever status and token the entry has: it ends closed and unclaimed, counted as finished again only if it was open, and no other entry or token changes |
| QueueFence.Queue.WriteTerminal | src/scheduler/scheduler.ts:370-393 | applied iff there is no token or the fence passes; otherwise nothing changes |
| QueueFence.Queue.Fail | src/scheduler/scheduler.ts:985-1075 | a fenced-out failure changes nothing; an applied one leaves the entry failed and unclaimed, and adds one pending entry - of the same model, one retry deeper - iff retries are on, the failure is retriable, the count is below the limit of its own category, the enqueue works and no other entry of the model is open |
| QueueFence.FailInPlainTerms | src/scheduler/scheduler.ts:985-1075 | the same of the step functions that runs are made of |
| QueueFence.RunBalanced | src/services/queue-service.ts:605-663 | in every run each entry's closings, revivals, fenced writes and retries balance |
| QueueFence.OneTerminalWriteOneRetry | src/scheduler/scheduler.ts:985-1075 | across all daemons an entry that nobody revives gets at most one applied terminal write and at most one retry child; in general, one more than its revivals |
| QueueFence.RunTokens | src/services/queue-service.ts:283-443 | no two entries ever hold the same token, and no spent one is held again |
| QueueFence.StepHeld | src/services/queue-service.ts:283-581 | an entry is deploying or benchmarking iff it holds a token, and a step breaks that iff it is an unfenced status write on an entry nobody has claimed |
| QueueFence.StepOneOpen | src/services/queue-service.ts:212-234 | from at most one open entry per model a step leads to two iff it opens a closed entry again beside an open one |
| QueueFence.RunOneOpen | src/services/queue-service.ts:212-234 | so in every run whose revivals find no other open entry, each model has at most one |
| QueueFence.SweepDoublesTheModel | src/services/queue-service.ts:903-931 | a run in which the sweep of failed entries revives one whose automatic retry is waiting: two pending entries of one model |
| QueueFence.SpentTokensAreDead | src/services/queue-service.ts:605-663 | a token whose terminal write was applied never passes a fence again, on any entry |
| QueueFence.ZombiesAreFenced | src/services/queue-service.ts:471-550 | once an in-flight entry is reclaimed or adopted, whatever anybody does from then on - claims by others included - the old token passes no fence on any entry, and its terminal write and its failure with its retry change nothing |
| QueueFence.LineagesAreBounded | src/scheduler/scheduler.ts:985-1075 | any lineage of automatic retries has at most max(maxInfraRetries, maxResourceFitRetries) re-enqueues, whatever the classifier answers |
| QueueFence.UnfencedStatusReopens | src/scheduler/scheduler.ts:716-716 | a run in which an unfenced status write reopens a completed entry and it is finished a second time |
| Pipeline.FinalizePipeline | src/scheduler/scheduler.ts:1078-1158 | Stage 3 where it is wanted, then failed iff Stage 2 or the Stage 1 gate failed and completed otherwise, unless Stage 3 throws; an exception iff a call on the way throws |
| Pipeline.Stage1 | src/scheduler/scheduler.ts:632-753 | a run gets past Stage 1 iff nothing throws and, where it ran, it succeeded or is eligible for a Stage 2 that a local worker runs; otherwise it ends in a failure write or an exception, whichever the answers say |
| Pipeline.LocalGate | src/scheduler/scheduler.ts:822-876 | the gate passes iff the local worker answers success; an error answer ends the run with a failure write |
| Pipeline.CiEvals | src/scheduler/scheduler.ts:1244-1300 | builds are reached iff the smoke test passes, there is a public URL and nothing throws on the way; the poll is deferred iff it is to be detached |
| Pipeline.TryBlock | src/scheduler/scheduler.ts:629-960 | what the try block leaves behind and how it is left, for every combination of answers and throwing calls |
| Pipeline.DetachedTail | src/scheduler/scheduler.ts:1543-1582 | the chain's events in order; it is abandoned iff it fails with a transient error, and fails to release iff its error handler runs and throws |
| Pipeline.ProcessEntry | src/scheduler/scheduler.ts:577-972 | for every setup, request, answer and combination of throwing calls, the exact events of a run and how it ends; and, told from the answers alone: builds are triggered iff Stage 1 stands, the model is not ineligible, the local run succeeded, the smoke test passed on a public URL and no call on the way throws; when Stage 1 and Stage 3 run; completed is written iff all that is due was done and did not fail; failed otherwise, or when that write or its report throws; infrastructure is released once and last, unless the detached chain's handler throws |
| Pipeline.GuardsFromTheAnswers | src/scheduler/scheduler.ts:629-960 | how far a run gets, stage by stage, told in the answers' own fields |
| Pipeline.TriggeredIff | src/scheduler/scheduler.ts:880-960 | builds are triggered iff they are due, safe and reached, and the poll has any to trigger |
| Pipeline.StagesRunIff | src/scheduler/scheduler.ts:707-1125 | Stage 1 runs iff it is neither left out nor found running, and Stage 3 iff it is configured, asked for, and Stage 2 did not fail outright |
| Pipeline.CompletedFromTheAnswers | src/scheduler/scheduler.ts:577-1149 | completed is attempted iff every stage that is due returned, and none of them failed |
| Pipeline.FailedUnlessCompleted | src/scheduler/scheduler.ts:961-971 | an attached run is written failed iff it is not written completed or that write or its report throws; a detached one also on a takeover, a transient error aside |
| Pipeline.TriggersAreGuarded | src/scheduler/scheduler.ts:880-910 | builds are triggered iff the run reaches them, each after its smoke test and its local gate |
| Pipeline.CompletedIff | src/scheduler/scheduler.ts:1127-1149 | completed is attempted iff the run concludes and neither stage failed |
| Pipeline.FailedIff | src/scheduler/scheduler.ts:961-971 | failed is attempted iff a gate rejects, the verdict is bad, the GPU is taken over, or an exception is handled |
| Pipeline.WithoutExceptionsTheVerdictIsRight | src/scheduler/scheduler.ts:577-972 | when nothing throws, completed is attempted iff nothing failed - Stage 1 succeeded or was skipped for a local Stage 2, and the local run, the smoke test and the builds that are due did not fail - and failed otherwise |
| Pipeline.ReleasedOnceAtTheEnd | src/scheduler/scheduler.ts:964-971 | release is the last event and comes once, except when the detached chain's error handler throws: then it never comes |
| Pipeline.TransientErrorReleasesWithoutVerdict | src/scheduler/scheduler.ts:1559-1582 | a transient error of the detached poll leaves no verdict and releases all the same |
| Stage2Merge.MapBuildkiteResultToStage2 | src/services/ci-eval-stage2-mapper.ts:17-84 | success iff the build passed, a reason iff not, telling a timeout from a failure; exactly one score under the first suite named: the rate reported, else passed over total, else all or nothing; one row per case in order, each passing iff its case did, or else one row for the suite |
| Stage2Merge.MergeStage2Results | src/services/ci-eval-stage2-mapper.ts:114-155 | the loop computes the merge defined on whole sequences: of several results the first one's ids and start and the last one's end, failed iff one failed, erred or was skipped, else partial iff one is; a reason iff failed; nothing to merge is an error |
| Stage2Merge.MergeBatches | src/services/ci-eval-stage2-mapper.ts:114-155 | merging two batches and then their results equals merging all at once, in every field, reasons and timestamps included |
| Stage2Merge.BatchingIrrelevant | src/services/ci-eval-stage2-mapper.ts:114-155 | the same for any cut into non-empty batches |
| Stage2Merge.ScoreIsLastGiven | src/services/ci-eval-stage2-mapper.ts:123-132 | a suite is scored iff some result scores it, with the last such score |
| Stage2Merge.EachSuiteItsOwnScore | src/services/ci-eval-stage2-mapper.ts:123-132 | for distinct suites each score is that of the suite's own build, and no other suite is scored |
| Stage2Merge.SucceedsIffAllDo | src/services/ci-eval-stage2-mapper.ts:134-136 | without partial results the merge succeeds iff every result does |
| Stage2Merge.OneReason | src/services/ci-eval-stage2-mapper.ts:137-143 | what one result adds to the reasons: nothing unless it fails, its reason, or by default that its model's suite failed |
| SuiteBuilds.RunSuiteBuild | src/scheduler/scheduler.ts:1366-1447 | at most maxSkipRetries + 2 triggers; every build but the last was skipped, not run, or the one failure to be retried; a last one that was skipped or not run used up the budget, and one that failed has had its retry; two rows per build, started and ended, in order, under the weekly pipeline's name |
| SuiteBuilds.RetriesAreFew | src/scheduler/scheduler.ts:1411-1443 | builds that were all retried are preempted ones within budget plus at most one real failure |
| SuiteBuilds.BudgetIsReached | src/scheduler/scheduler.ts:1366-1447 | the bound is tight: answers, exhibited, that take all maxSkipRetries + 2 triggers |
| SuiteBuilds.ConclusionIsUnique | src/scheduler/scheduler.ts:1366-1447 | the stopping rule fixes the result: the same answers lead to the same build after the same number of triggers |
| SuiteBuilds.GetCompletedEvalSuites | src/services/ci-eval-resume.ts:23-42 | exactly the configured suites with a row whose build ended and was neither skipped nor not run |
| SuiteBuilds.ResolveCompletedEvalSuites | src/services/ci-eval-resume.ts:48-71 | exactly those, and the configured suites of a running row whose build has passed |
| SuiteBuilds.PlanResume | src/scheduler/scheduler.ts:889-909 | skipped and re-run suites partition the configured ones; a skip has a settled row or a passed build of this very entry, a re-run has none |
| SuiteBuilds.FirstVerdictIsFinal | src/scheduler/scheduler.ts:1313-1337 | after any number of builds, and with one more under way when the daemon crashes, the rows settle the suite iff some build reached a real verdict |
| SuiteBuilds.CrashForfeitsRetry | src/services/ci-eval-resume.ts:28-40 | a crash between a first failure and its retry makes the resume skip the suite, though the loop would have gone on |
| SuiteBuilds.SkipsAreEarnedIffOnePipeline | src/scheduler/scheduler.ts:1325-1325 | for every state of Buildkite and every set of truthful rows each skipped suite really ran, iff the on-demand and the weekly pipeline are the same |
| SuiteBuilds.SomeoneElsesBuild | src/services/ci-eval-resume.ts:60-66 | with two pipelines, a suite whose build was preempted is skipped because the other pipeline's build of that number passed |
| SuiteBuilds.PollWeeklyMatrix | src/scheduler/scheduler.ts:1339-1513 | one build per suite to run, the one its own loop concludes with; as many triggers as those loops take together, within the total budget; and the merge of exactly one result about each suite and its own build; with every suite skipped, success and score 1 throughout |
| SuiteBuilds.MatrixVerdict | src/scheduler/scheduler.ts:1449-1513 | for results about distinct suites the merged scores are each suite's own rate, and success means every build passed |
| SuiteBuilds.FastPathTruth | src/services/ci-eval-stage2-mapper.ts:95-111 | the resume fast path's verdict is that of merging the real builds iff they all passed |
| ModelCooldown.Scheduler.PruneStaleModelEntries | src/scheduler/scheduler.ts:132-151 | the two loops drop exactly the tracker rows older than six hours, above two hundred of them, and the expired cooldowns |
| ModelCooldown.Scheduler.RecordModelFailure | src/scheduler/scheduler.ts:153-201 | counting, tripping and pruning as specified |
| ModelCooldown.Scheduler.IsModelCooldown | src/scheduler/scheduler.ts:203-218 | the answer, and dropping only an expired row |
| ModelCooldown.Scheduler.AfterFailure | src/scheduler/scheduler.ts:1011-1040 | the strike and, for a non-retriable failure not already on cooldown, the quarantine |
| ModelCooldown.PruningIsInvisible | src/scheduler/scheduler.ts:132-151 | neither pruning nor asking changes any answer from then on |
| ModelCooldown.CountIsTrailingRun | src/scheduler/scheduler.ts:153-192 | in every run a model's count is the length of its trailing run of same-category failures modulo three, since the tracker last forgot it |
| ModelCooldown.TrailingRunIsLongest | src/scheduler/scheduler.ts:153-170 | that run is the longest one of a single category the failures end with |
| ModelCooldown.EveryThirdTrips | src/scheduler/scheduler.ts:171-190 | a failure trips the cooldown by striking iff it makes that run a multiple of three |
| ModelCooldown.NothingForgotten | src/scheduler/scheduler.ts:136-143 | with at most two hundred models the tracker forgets nothing, so the run is over all failures |
| ModelCooldown.CooldownLastsSixHours | src/scheduler/scheduler.ts:171-218 | with a rising clock a model is on cooldown iff its last cooldown started less than six hours ago, whatever was pruned or asked |
| ModelCooldown.StartsIs | src/scheduler/scheduler.ts:153-201 | what starts a cooldown, by the history: a failure that makes the trailing run of its category a multiple of three, or a non-retriable one six hours or more after the last start |
| ModelCooldown.LastStartNext | src/scheduler/scheduler.ts:153-201 | so when the last cooldown started is determined operation by operation |
| ModelCooldown.NonRetriableQuarantines | src/scheduler/scheduler.ts:1016-1040 | a non-retriable failure shuts the model out at once |
| BuzzNotifier.TransitionStore.Set | src/services/buzz-notifier.ts:96-107 | the status is replaced, a stored root is kept |
| BuzzNotifier.BuzzNotifier.ObserveEntry | src/services/buzz-notifier.ts:203-233 | one observation, with its post refused, its process dying between post and store, or neither |
| BuzzNotifier.BuzzNotifier.ProcessSnapshot | src/services/buzz-notifier.ts:180-201 | a round observes the running entry and, for every other id, its last appearance on the page, then the tracked entries no longer shown; it fails iff a lookup does, and then everything shown and everything tracked but the entries left over, the one looked up in vain among them, has been observed |
| BuzzNotifier.ShownIs | src/services/buzz-notifier.ts:180-190 | shown is exactly the running entry, though the page cut it off, and the last entry of the page with each other id |
| BuzzNotifier.ResolvedInPlainTerms | src/services/buzz-notifier.ts:191-201 | looked up is exactly what is tracked as unfinished and not shown |
| BuzzNotifier.FirstSight | src/services/buzz-notifier.ts:203-233 | an entry never seen before opens a thread iff it is open; a finished one is only remembered |
| BuzzNotifier.ShownDistinct | src/services/buzz-notifier.ts:180-190 | each entry is observed once per round |
| BuzzNotifier.OneMessagePerChange | src/services/buzz-notifier.ts:203-233 | for any stream of observations, refusals and crashes: the recorded messages of an entry are its taken-in statuses without repeats, minus a terminal first one, one root and replies to it; all further messages are one per crash |
| BuzzNotifier.NothingLost | src/services/buzz-notifier.ts:203-233 | without failures every observed status is taken in |
| BuzzNotifier.UndisturbedThread | src/services/buzz-notifier.ts:203-233 | without failures the messages are exactly the observed changes |
| BuzzNotifier.RootsAreForever | src/services/buzz-notifier.ts:96-107 | a stored root never changes, whatever follows |
| BuzzNotifier.OpenEntriesHaveRoots | src/services/buzz-notifier.ts:109-126 | in every reachable state a tracked, unfinished entry has a root |
| BuzzNotifier.ReplayPostsNothing | src/services/buzz-notifier.ts:180-233 | a second round over the same snapshot and answers posts nothing and stores nothing, from any state |
| EisStream.ParseEisSsePayload | src/services/eis-llm-client.ts:50-105 | the parser's loop computes the meaning defined line by line, the exception of the first error chunk included |
| EisStream.MeaningNext | src/services/eis-llm-client.ts:66-102 | what one more payload adds, field by field: its text, and the last finish reason, model and usage given, missing token counts being zero; blank, [DONE] and unreadable ones nothing; an error or a null ends it |
| EisStream.MeaningGrows | src/services/eis-llm-client.ts:56-66 | what one more block adds: a data line its trimmed text, any other line nothing |
| EisStream.FirstDataLineCounts | src/services/eis-llm-client.ts:60-64 | behind the first data line of a block no further line counts |
| EisStream.PayloadsCut | src/services/eis-llm-client.ts:56-62 | any blank line, in any mix of LF and CRLF, cuts the payloads of a text in two |
| EisStream.BlockHasOnePayload | src/services/eis-llm-client.ts:60-64 | a block without delimiter carries at most its first data line |
| EisStream.BlocksCarryPayloads | src/services/eis-llm-client.ts:56-66 | splitting at blank lines and taking first data lines gives exactly the payloads of the line-by-line definition |
| EisStream.DelimiterStays | src/services/eis-llm-client.ts:244-247 | text that arrives later never moves the first delimiter |
| EisStream.StreamChatCompletion | src/services/eis-llm-client.ts:228-283 | the streamed result is a function of the concatenated text: no chunking changes it, and the loop terminates |
| EisStream.StreamingIsParsing | src/services/eis-llm-client.ts:228-283 | it equals parsing the whole text, exceptions included, iff no literal "unknown" comes last after a real finish reason; byte order marks, error chunks and line endings make no difference |
| EisStream.StreamingIsParsingNormally | src/services/eis-llm-client.ts:228-283 | in particular whenever the server never says "unknown" |
| EisStream.UnknownAfterStop | src/services/eis-llm-client.ts:253-255 | a two-chunk text on which the two readings differ |
| EisStream.WhitespaceSaysNothing | src/services/eis-llm-client.ts:267-268 | skipping a blank rest loses nothing |
| SseFrames.SseFrameParser.Feed | src/scripts/buzz-bridge.ts:115-143 | after each chunk the frames so far are those of all text received, and the buffer is its unterminated rest, without a blank line in it |
| SseFrames.AssembleBlocks | src/scripts/buzz-bridge.ts:122-128 | a text is its blocks, each closed by a blank line, and the rest |
| SseFrames.LineAdds | src/scripts/buzz-bridge.ts:132-138 | what one more line adds to a block: the text after `data:` and at most one space, or nothing if it is a comment or another field |
| SseFrames.BlocksUnique | src/scripts/buzz-bridge.ts:122-128 | and in no other way |
| SseFrames.ReadOn | src/scripts/buzz-bridge.ts:118-128 | reading on from the retained rest is reading on from the whole text |
| SseFrames.ChunkingIrrelevant | src/scripts/buzz-bridge.ts:110-143 | two ways of cutting the same text give the same frames, those of the whole text |
| SseFrames.MessagesSurvive | src/scripts/buzz-bridge.ts:132-138 | round trip: non-empty messages of any text, sent as event-stream blocks and cut anywhere, come out one frame each |
| CircuitBreaker.CircuitBreaker.CanAttempt | src/services/circuit-breaker.ts:147-190 | the verdict and the new state, for every state and clock reading; new empty lists iff the window has expired |
| CircuitBreaker.CircuitBreaker.RecordFailure | src/services/circuit-breaker.ts:202-265 | the new state; the lists of an existing record grow in place, to the last five reasons and each category once; a new record has lists of its own, other records stay |
| CircuitBreaker.CircuitBreaker.RecordSuccess | src/services/circuit-breaker.ts:273-309 | the new state; new empty lists iff the circuit is left closed |
| CircuitBreaker.CircuitBreaker.GetBlockedModels | src/services/circuit-breaker.ts:333-349 | exactly the models canAttempt would refuse at that moment |
| CircuitBreaker.CircuitBreaker.Snapshot | src/services/circuit-breaker.ts:376-381 | restoring it at once gives every record back |
| CircuitBreaker.CircuitBreaker.Restore | src/services/circuit-breaker.ts:388-399 | the records of the snapshot, the last one where a model repeats |
| CircuitBreaker.CircuitBreaker.SnapshotFailRestore | src/services/circuit-breaker.ts:376-399 | a failure recorded in between does not change what the snapshot decides, but shows up in its list of reasons |
| CircuitBreaker.ReachableCoherent | src/services/circuit-breaker.ts:202-309 | in every reachable state the opening time is unset iff CLOSED, and the count is below the threshold iff CLOSED |
| CircuitBreaker.ThresholdMustBePositive | src/services/circuit-breaker.ts:122-137 | any threshold below one breaks that, by an exhibited run |
| CircuitBreaker.StaysOpen | src/services/circuit-breaker.ts:202-309 | until somebody asks after the deadline, nothing moves an open circuit or its opening time |
| CircuitBreaker.ShutForExactlyTheTimeout | src/services/circuit-breaker.ts:147-190 | whatever happens meanwhile, an opened circuit refuses every question before the deadline, with the exact time left, and allows the first one from it on |
| CircuitBreaker.RefusedOnlyWhenOpen | src/services/circuit-breaker.ts:147-190 | a refusal means the threshold was reached and the circuit opened less than the timeout ago |
| CircuitBreaker.HalfOpenAdmitsEveryone | src/services/circuit-breaker.ts:162-163 | in HALF_OPEN any number of attempts is allowed until an outcome is recorded |
| CircuitBreaker.RecoversAfterSuccesses | src/services/circuit-breaker.ts:230-309 | from half-open and without a failure the circuit closes with exactly the success that fills the threshold, the first at the least; one failure before that opens it for a whole timeout again |
| CircuitBreaker.CountsSinceAskedLate | src/services/circuit-breaker.ts:408-420 | in every run the count of a CLOSED circuit is the number of failures since the last success and the last question that came more than the failure window after the latest failure before it |
| CircuitBreaker.FailureOpensIffCountReaches | src/services/circuit-breaker.ts:202-265 | a failure opens a CLOSED circuit iff it makes that number reach the threshold |
| CircuitBreaker.GapForgetsIffAsked | src/services/circuit-breaker.ts:154-156 | of two consecutive failures of a CLOSED circuit, however far apart: everything up to the first is forgotten iff somebody asked about the model more than the failure window after it |
| CircuitBreaker.UnaskedFailuresAddUp | src/services/circuit-breaker.ts:202-265 | for instance, failures any time apart open the circuit at the threshold when nobody asks in between |
| RateLimiter.ApiMiddleware.Admit | src/api/queue-server.ts:247-260 | a new key, or one whose minute is over, starts a window of one; otherwise the count goes up and the request is let through iff fewer than a hundred came before; other keys stay |
| RateLimiter.KeysAreIndependent | src/api/queue-server.ts:248-253 | a key's entry depends on that key's requests only |
| RateLimiter.EntryCountsWindow | src/api/queue-server.ts:252-256 | the entry counts the requests of the current window, refused ones included |
| RateLimiter.AdmittedIffRoom | src/api/queue-server.ts:255-259 | a request is refused iff a hundred of its window came before it |
| RateLimiter.WindowAdmitsHundred | src/api/queue-server.ts:110-111 | no window admits more than a hundred |
| RateLimiter.AnyMinuteAdmits199 | src/api/queue-server.ts:110-111 | with a rising clock no stretch of sixty seconds admits more than 199 |
| RateLimiter.Reaches199 | src/api/queue-server.ts:252-260 | and 199 is reached, by an exhibited burst |
| ServedWeights.KeyTellsAll | src/services/hf-served-weight-size.ts:75-77 | one group key means one family and one total, whatever characters the family has |
| ServedWeights.IsCompleteShardSet | src/services/hf-served-weight-size.ts:87-107 | the neighbour loop answers exactly whether the indices run from 0 or 1 without gap or repeat, up to the declared total |
| ServedWeights.CompleteIffWhole | src/services/hf-served-weight-size.ts:87-107 | told shard by shard, in any order: a lone shard without an index, or every shard with one, each from 0 or 1 on there, up to a declared total |
| ServedWeights.DeclaredSetIsWhole | src/services/hf-served-weight-size.ts:99-105 | a complete set that declares N has exactly the indices 1..N, or exactly 0..N |
| ServedWeights.InferExpectedShardCount | src/services/hf-served-weight-size.ts:192-199 | the declared total, or an error iff two differ |
| ServedWeights.CollectCandidates | src/services/hf-served-weight-size.ts:118-134 | the candidates and the ignored paths, in order, each candidate under the key of its own name |
| ServedWeights.CandidateFrom | src/services/hf-served-weight-size.ts:118-134 | a candidate comes from a non-empty `.safetensors` file whose first directory, lower-cased, is not a duplicate package, an ignored path from one whose is |
| ServedWeights.CandidateOf | src/services/hf-served-weight-size.ts:118-134 | and every such file gives its candidate, or is ignored |
| ServedWeights.GroupShards | src/services/hf-served-weight-size.ts:138-143 | every candidate in the group of its key, groups in order of first appearance |
| ServedWeights.GroupsHoldAllBytes | src/services/hf-served-weight-size.ts:138-150 | grouping loses no byte and counts none twice |
| ServedWeights.SummarizeServedWeightSize | src/services/hf-served-weight-size.ts:117-190 | the summary is the selection from the ranked groups; no candidates, no result; the conflicting-totals error cannot come up; if a whole group exists one is served: family `model` before others, then a declared total, then the most bytes |
| ServedWeights.SelectedIsFirstBest | src/services/hf-served-weight-size.ts:145-168 | the selected group is the first, in listing order, that no group outranks |
| ServedWeights.PreferredIsServed | src/services/hf-served-weight-size.ts:145-190 | against every other group the selected one is whole if the other is, then `model` if the other is, then declares a total if the other does, and then has at least its bytes; family, total, count, paths and bytes reported are its own |
| ServedWeights.IncompleteIffNoneIsComplete | src/services/hf-served-weight-size.ts:171-176 | the "incomplete" error comes up iff there are candidates and no complete group |
| ServedWeights.NoByteLost | src/services/hf-served-weight-size.ts:178-189 | selected bytes plus the alternates' bytes are all candidate bytes |
| Sorting.HeadIsFirstBest | src/services/hf-served-weight-size.ts:154-168 | what a stable sort puts first is the first of the best |
| Discovery.MarkSupersededByFamily | src/services/discovery-scheduler.ts:567-608 | a model ends up superseded iff it was, or a fitting member of its family has a higher generation, where both are known, or else a release date at least thirty days later - in whatever order families are visited |
| Discovery.SomeoneSurvivesIffNoCircle | src/services/discovery-scheduler.ts:577-606 | of the fitting members of a family one survives iff the family is not circular |
| Discovery.UniformFamiliesSurvive | src/services/discovery-scheduler.ts:583-597 | in particular when all generations are known, or none |
| Discovery.CirclesNeedALateLowGeneration | src/services/discovery-scheduler.ts:583-597 | a circle takes a lower generation dated at least sixty days after the highest |
| Discovery.ThreeModelCircle | src/services/discovery-scheduler.ts:567-608 | generation 3 on day 0, unknown on day 40, generation 2 on day 80: all superseded |
| Discovery.AutoQueue | src/services/discovery-scheduler.ts:637-699 | queued, skipped and errors add up to all models, each counted exactly; the attempts are those of the specification; disabled means all skipped |
| Discovery.PrioritiesFollowTheOrder | src/services/discovery-scheduler.ts:683-695 | priorities of attempts fall strictly along the score order and lie in 1..N |
| Discovery.OfferedAtTheirPlace | src/services/discovery-scheduler.ts:652-695 | exactly the unevaluated, fresh, unsuperseded, fitting models are offered, each at N minus the places taken before it |
| Discovery.EligibleIsOffered | src/services/discovery-scheduler.ts:652-695 | whoever was not evaluated, is fresh, not superseded and fits is offered, at N minus its position plus the number skipped before it |
| Discovery.OfferedIsEligible | src/services/discovery-scheduler.ts:652-695 | and nobody else is |
| Config.DeepMerge | src/config/index.ts:434-462 | the loop computes the merge, in whatever order keys come |
| Config.EmptyIsIdentity | src/config/index.ts:434-462 | the empty object is neutral on both sides |
| Config.RepeatIsAbsorbed | src/config/index.ts:434-462 | merging a source again changes nothing |
| Config.AssociativeIffCompatible | src/config/index.ts:434-462 | the bracketing of three layers does not matter iff, wherever the middle one cuts off an object the last one reopens, the last one overrides all of the first one's object |
| Config.SettingComesFrom | src/config/index.ts:440-459 | a setting of a merge is the source's, or the target's where the source is silent |
| Config.OverridesOverEnvOverFile | src/config/index.ts:584-591 | a setting resolves overrides over environment over file |
| Config.LoadConfig | src/config/index.ts:572-599 | the layers, then the profile, the branch and the legacy name, in this order |
| Config.SettingsFollowTheLayers | src/config/index.ts:584-598 | outside the three rewritten sections every loaded setting is the highest layer's that has it |
| Config.FailsIffProfileUnknown | src/config/index.ts:488-499 | resolution fails iff the layers name an unknown profile |
| Config.HardwareOverProfile | src/config/index.ts:501-509 | the loaded hardware section is the layers' section over the named profile, setting by setting |
| Config.HardwareFollowsLayersThenProfile | src/config/index.ts:501-509 | a hardware setting is the layers', the file's too, and the profile's only where they are silent |
| Config.FileBeatsProfile | src/config/index.ts:555-564 | a hardware value the file sets stays, whatever the profile has there |
| Config.BranchSurvivesIffBuildkiteAgrees | src/config/index.ts:512-536 | an explicit checkout branch survives iff Buildkite has none or the same |
| Config.BranchFollowsBuildkite | src/config/index.ts:512-536 | the branch loaded is Buildkite's, as the layers have it, and the layers' own where Buildkite has none |
| Config.OnlyTheBranchFollows | src/config/index.ts:512-536 | nothing but the branch changes, in the checkout section or elsewhere |
| Config.OnlyTheThresholdIsRenamed | src/config/index.ts:538-550 | nothing but the renamed threshold changes |
| Config.SectionsKeepTheRest | src/config/index.ts:512-550 | every other setting of the two sections is the highest layer's that has it |
| Config.MigrationSettles | src/config/index.ts:538-550 | the new threshold name wins, else takes the legacy value, and migrating twice is migrating once |

## Left out

- Pattern matching on names: families, generations and shard numbers come from parameters, and everything holds for any such derivation.
- The order in which JavaScript lists the entries of a Map or Set where no result depends on it; the models pick any order.
- Message wording, logging, floating-point rounding (scores and rates are reals) and Unicode decoding (streams are text, not bytes).
- Schema validation after configuration loading, and configuration keys named `__proto__`.
- GpuVmLease.GpuVmLeaseService.Acquire: one clock reading stands for the several a single decision takes, and each Elasticsearch call takes effect in one step.
- GpuVmLease.MutualExclusion: process ids are not reused and the daemons share one clock, as the lease itself assumes; a process does not acquire while it is releasing.
- QueueFence.Queue.WriteTerminal: exceptions of the queue service are not modelled here; Pipeline.dfy has them.
- QueueFence.Queue.Fail: `enqueue` searches and then writes; the model does both in one step, so two enqueues of one model that race are not in it.
- QueueFence.Queue.UpdateStatus: the terminal, unfenced use only; non-terminal unfenced writes are steps of the runs.
- SuiteBuilds.RunSuiteBuild: an exception from Buildkite ends the loop and the poll; the model has the loop's own exits only, and every save works.
- SuiteBuilds.PlanResume: the search returns the thirty newest rows of the model; the model takes whatever rows were found, and older ones only make a suite run again.
- SuiteBuilds.ResolveCompletedEvalSuites: Buildkite gives the same answer about a build throughout one call.
- ServedWeights.SummarizeServedWeightSize: the gigabyte figure, which is the byte count divided by a constant.
- ModelCooldown.Scheduler.AfterFailure: persisting cooldowns to the index, and reading them back at start-up.
- Discovery.AutoQueue: the scoring itself, and the query for recently finished models, whose answer is the skip set.
- EisStream.StreamChatCompletion: timeouts and HTTP errors before the first chunk.
- Stage workers, the failure classifier, the report builder, health and cost monitors, HTTP routes, the dashboard and the CLI: plumbing, formulas or tables around the protocols above.

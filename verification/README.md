# Verified models of the job board, the sync and the metrics

Dafny models of the parts of this repository whose correctness spans several steps, and proofs of what
they promise. `dafny verify dfyconfig.toml` checks all of it.

- **The job board.** `JobBoard` is `server/src/db/job-store.ts`, statement by statement: each SQL statement
  is a function of the table, and the class `JobStore` performs it in place. `Protocol` puts that board and
  any number of drivers into one transition system: the sweep and the claim are separate steps, messages
  are delivered late, twice or never, claim replies are lost, drivers stop at any moment. `History` states
  what a run of that system may contain, `Safety` proves it over every schedule, `LostReports` shows what it does
  not rule out, and `Liveness` bounds how long a command that kills its workers stays on the board.
- **The driver.** `DriverLoop` is `driver/src/loop.ts`, one method per turn of the event loop, and
  `DriverProtocol` proves that such a loop does only what `Protocol` lets a driver do. `Runner` is the timers
  and the output tail of `driver/src/docker.ts`.
- **The sync.** `SyncPolicy` chooses where to start, `PageWalk` walks a list that moves while it is read,
  `Sync` proves when the store agrees with upstream for one repository, and `SyncService` puts all
  repositories under the one mode a run chooses. `PrStore` is what a save may overwrite; `PrLoad` reads it back.
- **Attribution.** `Attribution` says what the join of sessions to pull requests is, `AttributionLoops` is
  the code that computes it, `RowMeaning` says what a row means in terms of sessions, links and splits, and
  `Conservation` proves that no work is lost or counted twice. `Keys` says when the string keys are unambiguous.
- **Metrics.** `Weeks` is the ISO week arithmetic, `WeekSeries` and `WeeklyStats` the two weekly series,
  `Percentile` the interpolated percentile, and `MetricTables` the reviewer table, the histograms and rework.
- **Two smaller machines.** `CloneQueue` over `UserRepos`, and `Auth`.

`Common` and `Sorting` hold the small shared vocabulary: options, stable sort, filter, grouping, sums.

Conventions. Instants are integers and one clock serves a model. A uuid or a random token never repeats, so
a serial number stands for it; an agent session is named by the run that mints it. Ratios and figures are
reals. Text comparison is by character, which for the keys compared here (digits, `-` and `W` in fixed
places) is the order `localeCompare` gives. A statement is atomic; rows that another claimer holds are a
parameter of a claim. Each model covers one organization's slice of its tables unless it says otherwise.

## What turned out not to hold

- **The five minute overlap** has to absorb replica lag and the walk's own duration together. A full walk
  that is slower than the overlap leaves the store stale behind its own watermark.
  `Sync.FreshExactlyWithinTheOverlap` is the exact condition.
- **Lost session reports.** The comment at `server/src/db/job-store.ts:66-71` says that the claim of a parked
  job restores its session and does not deliver the command again. It restores one if and only if the board
  has the parked run's session (`Safety.ResumesExactlyWhenReported`); the driver goes on when its report is
  lost, and then the command is delivered again into a new session, any number of times
  (`LostReports.LostReportsRepeatTheCommand`).
- **Rereading.** A PR that changes while an incremental walk is under way can move ahead of its cursor, and
  then that walk does not read it (`Sync.MovingPrIsMissed`); a later one does. `Sync.WatchedAreRereadExactlyWhen`
  is the exact condition for every walk to read every open or recent PR.
- **A repository without PRs** never gets a watermark, although its walks complete, so every run that measures
  it is a full one (`SyncService.EmptyRepositoryKeepsRunsFull`); the comment at
  `server/src/stats-service.ts:336-337` takes a missing watermark to mean that no walk ever completed.
- **Removing a member** is two statements. If it stops between them, the member's sessions survive and
  resolve again as soon as the member is invited and signs in.
  `Auth.HalfRemovalKeepsSessionsExactlyWhen` is the exact condition, `Auth.HalfRemovalLetsASessionBack` the run.
- **Branch keys** are ambiguous between a repository and one whose name is the first followed by `@` and
  anything. `Attribution.OwnerCrossesReposExactlyWhen` shows that work is then misattributed, and only then.
- **Replaying a selection** is documented as a no-op. It is one exactly when no listed row is cloning or
  failed (`UserRepos.SelectKeepsStatusesExactlyWhen`); a row still cloning is queued a second time.
- **Saving and loading** a PR keeps the creation time of its first save: the upsert does not write it.

## Model

| member | source | states |
|---|---|---|
| JobBoard.OfferedRows | server/src/db/job-store.ts:238-249 | On a well-formed board every queued row is claimable at once unless it is locked, a running one when its lease is out and attempts are left, a parked or finished one never; and a row has a token that can write exactly when it is running |
| JobBoard.ClaimFindsWork | server/src/db/job-store.ts:239-250 | Whenever a row is on offer exactly one is the oldest, by creation and then id, so a claim finds work if there is any and claims are first in, first out |
| JobBoard.VerdictTellsTheHolder | server/src/db/job-store.ts:272-355 | Ok exactly for the token that the row bears, which no other row bears; lost for any other; missing exactly where there is no row |
| JobBoard.JobStore.constructor | server/src/db/job-store.ts:189-197 | A board begins empty and well formed |
| JobBoard.JobStore.Create | server/src/db/job-store.ts:189-197 | A new job is queued with no attempts, no token and a lease already out, and is on offer immediately |
| JobBoard.JobStore.Sweep | server/src/db/job-store.ts:204-208 | Exactly the running rows out of time and attempts are retired, and none such is left |
| JobBoard.JobStore.SelectOldest | server/src/db/job-store.ts:238-250 | The ordered scan returns the oldest unlocked claimable row, or nothing only if there is none |
| JobBoard.JobStore.ClaimNext | server/src/db/job-store.ts:199-270 | A claim sweeps, then leases the oldest row to that worker under a new token and counts an attempt; it carries, and keeps, a session only if the row was queued; otherwise it takes nothing |
| JobBoard.JobStore.Heartbeat | server/src/db/job-store.ts:272-284 | The lease is extended for its holder only; anyone else is told lost or missing and changes nothing |
| JobBoard.JobStore.RecordSession | server/src/db/job-store.ts:286-300 | The session is recorded for the holder only; a reported remote id is stored, and one stored stays when none is reported |
| JobBoard.JobStore.Suspend | server/src/db/job-store.ts:302-323 | Parking hands back exactly the attempt the claim took, for the holder only, and the parked row is not on offer |
| JobBoard.JobStore.Resume | server/src/db/job-store.ts:325-336 | Exactly a parked row is requeued and on offer at once; otherwise conflict or missing, and nothing changes |
| JobBoard.JobStore.Complete | server/src/db/job-store.ts:338-355 | For the holder only: succeeded or failed as reported, with the reported exit code and output, the time and no token; attempts and session stay |
| Protocol.CommandOnlyWhenOpening | driver/src/docker.ts:187-215 | A run that opens its session is given its id and, as the last argument, the command; one that restores a session is told to resume that one, and the command appears nowhere; exactly claude-code has a session |
| Protocol.FlagsOfARun | driver/src/docker.ts:203-215 | Between them: the permissions flag exactly when configured, the name under Remote Control, and `-p` for a headless run that opens its session |
| Safety.ScheduleKeepsInv | server/src/db/job-store.ts:199-355 | The invariant that ties rows, claims, runs, messages in flight and the history holds after any schedule |
| Safety.AcceptedWritesComeFromTheLatestClaim | server/src/db/job-store.ts:272-355 | In every schedule an accepted heartbeat, session, suspend or complete bears the token of the most recent claim of its job, which has not been parked or ended |
| Safety.RefusedForever | server/src/db/job-store.ts:272-355 | A token that does not hold its job now will not hold it after any further schedule |
| Safety.ReclaimRefusesOldToken | server/src/db/job-store.ts:221-252 | Every token but that of the latest claim is refused |
| Safety.OnlyLostRunsAreKilled | driver/src/loop.ts:58-79 | Over every schedule a run that takes itself for lost, and is killed, does not hold its job any more |
| Safety.LostBeatsAreRefused | server/src/db/job-store.ts:272-284 | The next beat of a run that has lost its job to arrive is refused, changes nothing, and tells the run |
| Safety.LeasesAreExclusive | server/src/db/job-store.ts:237-252 | A token is minted only when the lease last granted to the previous one has run out or its holder parked the job, never for an ended job, and is new |
| Safety.AtMostOneCompletion | server/src/db/job-store.ts:338-355 | No job is ever completed twice, and it is succeeded or failed exactly when one completion was accepted |
| Safety.StatusIsTheReport | server/src/db/job-store.ts:338-355 | In every reachable world a row is succeeded exactly if its one accepted completion reported success, failed exactly if it reported failure, and has the exit code and output it reported |
| Safety.SucceededExactlyWhenExitZero | driver/src/loop.ts:164-192 | Over every schedule a job that was completed is succeeded if and only if the container of the run that reported had exited with code zero within its time, and failed otherwise, with that container's exit code and output; a run that was refused, and never launched, fails without one |
| Safety.ParkedOnlyWhenIdle | driver/src/loop.ts:164-178 | A job is parked only by a run whose container stopped because nobody was driving it |
| Safety.QueuedJobsAreNotPassedOver | server/src/db/job-store.ts:238-250 | In every reachable world a claim passes over a queued job only for one created earlier, or while somebody has it locked |
| Safety.AttemptsCountUnparkedClaims | server/src/db/job-store.ts:225-313 | Attempts are accepted claims less accepted suspends and stay between 0 and the maximum |
| Safety.ReachableBoardOk | server/src/db/job-store.ts:189-355 | Every reachable board is well formed: a token exactly on running rows, queued rows claimable, tokens unique |
| Safety.FinalRowsNeverChange | server/src/db/job-store.ts:204-355 | No schedule changes a succeeded, failed or dead row |
| Safety.CommandDeliveredAtMostOnce | driver/src/loop.ts:129-164 | Over any parks, resumes and crashes a command is delivered into one agent session at most once |
| Safety.ResumesNameParkedSessions | server/src/db/job-store.ts:229-236 | A claim with a session to resume names one that got its command exactly once and was parked by the run that used it; a reclaim after a crash carries none |
| Safety.ResumesExactlyWhenReported | server/src/db/job-store.ts:225-236 | A claim carries a session if and only if it picks up a parked job and the board has the parked run's session, from its claim or from an accepted report |
| LostReports.LostReportsRepeatTheCommand | driver/src/loop.ts:154-163 | While reports are lost, parking and resuming a job delivers its command into a new session each time, any number of times |
| Safety.LaunchesRespectSessions | driver/src/docker.ts:203-215 | A launch brings the command exactly when its session has not had it yet, and each claim launches at most once |
| Liveness.ClaimsSpendAttempts | server/src/db/job-store.ts:202-252 | Over every schedule in which no suspend or complete is accepted, with any drivers claiming side by side, beats and session reports accepted or refused and any rows locked, accepted claims plus attempts left stays the same, open jobs stay open or die, and no other job is touched |
| Liveness.CrashLoopRetiresEverything | server/src/db/job-store.ts:202-252 | If workers claim, report their sessions, beat and crash without ever ending a run, in rounds of any such schedule that end with the leases out and a poll, every queued or running job is dead within one round more than the attempts left on the board, and no other job is touched |
| Liveness.CrashRoundExists | server/src/db/job-store.ts:199-252 | Whatever the drivers have done so far, such a round can be finished |
| Liveness.RoundEffect | server/src/db/job-store.ts:202-252 | Each such round uses up an attempt or leaves nothing open: the termination measure |
| DriverLoop.Loop.constructor | driver/src/loop.ts:43-46 | A driver begins running, with nothing claimed |
| DriverLoop.Loop.Top | driver/src/loop.ts:218-226 | The loop claims only below its concurrency, waits at it, and drains once stopped |
| DriverLoop.Loop.ClaimedUnrunnable | driver/src/loop.ts:249-283 | A claim that cannot run is reported failed once, starts no container and never becomes a run |
| DriverLoop.Loop.ClaimedRunnable | driver/src/loop.ts:118-152 | A claimed job is tracked even if stop came while the claim was outstanding; its heartbeat begins, and its search under Remote Control; a fresh session is announced before the container starts |
| DriverLoop.Loop.Drained | driver/src/loop.ts:288-292 | The loop returns only when every job ever claimed has settled |
| DriverLoop.Loop.HelpersEnded | driver/src/loop.ts:141-192 | After both helpers have ended: nothing if the lease was lost or the container never ran; a suspend if it idled; otherwise one completion, a success exactly on exit code zero in time |
| DriverLoop.Loop.BeatAnswered | driver/src/loop.ts:58-79 | Exactly a lost verdict marks the run lost and kills the runner once; after any other answer, or none, an unfinished run rests and will beat again |
| DriverLoop.Loop.BeatDue | driver/src/loop.ts:58-66 | When the period is over an unfinished run beats, and a finished one stops |
| DriverLoop.UnfinishedRunsBeat | driver/src/loop.ts:58-79 | A run that is neither finished nor lost is always resting or asking, can go on from either, and comes back to rest unless its lease is lost |
| DriverLoop.FinishedRunsSettle | driver/src/loop.ts:141-192 | Once its container is gone a run can always take a turn until it has settled, and takes at most six |
| DriverLoop.Loop.WatchLooked | driver/src/loop.ts:96-114 | The board is told exactly on a find; after an empty look the search goes on exactly while tries are left and the run is neither finished nor lost; a failed look ends it |
| DriverLoop.Loop.TakeJobTurn | driver/src/loop.ts:55-200 | A turn of one run does to it what that turn's specification says, leaves every other run alone, and takes a settled run out of the active set |
| DriverLoop.Loop.TakeTurn | driver/src/loop.ts:55-292 | A turn that can be taken does what its callback does, any turn keeps the invariant, and none undoes anything: reports and deeds only grow, a lost lease stays lost, settled stays settled |
| DriverLoop.Loop.Drive | driver/src/loop.ts:55-292 | Over any schedule of turns: runs never exceed the concurrency; each claim starts at most one container and is reported at most once, never after its lease is seen lost; only the end of a run or of its lease ends its heartbeat; and a driver that returned has settled every claim |
| DriverProtocol.TurnIsProtocol | driver/src/loop.ts:55-200 | Each turn of a run is a few protocol steps, all enabled, that send exactly the requests the turn sends, launch exactly when it starts the container, record its end, and leave the board's rows alone |
| DriverProtocol.SuccessIsReportedExactlyOnExitZero | driver/src/loop.ts:164-192 | No turn but the one after both helpers have ended sends a suspend or a completion; that one sends a success if and only if the exit code was zero and the run was not timed out |
| DriverProtocol.ClaimIsProtocol | driver/src/loop.ts:118-163 | A claim that is run is accepted, and a fresh session announced or the container launched at once |
| DriverProtocol.RefusalIsProtocol | driver/src/loop.ts:249-283 | A claim that cannot be run is accepted and failed in one protocol step |
| DriverProtocol.RunIsProtocol | driver/src/loop.ts:118-200 | Over any turns of a run, with any other steps between them, the whole is a protocol schedule in which every step of the run is enabled, so what is proved of every schedule holds of drivers that run the loop |
| Safety.LaunchesCanBeBuilt | driver/src/docker.ts:193-201 | A container that is launched always gets its arguments: neither refusal is ever met |
| Runner.LastOfLast | driver/src/docker.ts:260-266 | Trimming the output at every chunk keeps the same tail as trimming it once at the end |
| Runner.ContainerRun.constructor | driver/src/docker.ts:235-275 | Exactly one of the timeout and the idle timer is armed at the start, by whether the run is drivable |
| Runner.ContainerRun.Collect | driver/src/docker.ts:260-268 | What is kept is the tail of all that was received, and hearing output puts the idle deadline off |
| Runner.ContainerRun.IdleFires | driver/src/docker.ts:247-258 | Idle only under Remote Control and only after a full idle period of silence |
| Runner.ContainerRun.TimeoutFires | driver/src/docker.ts:270-278 | Timed out only when headless, after the whole timeout |
| Runner.ContainerRun.Ended | driver/src/docker.ts:280-292 | Both timers go, the first of error and close settles the promise for good, and a run is never both idle and timed out |
| SyncPolicy.Cutoff | server/src/stats-service.ts:365-375 | The cutoff is the least of the watermark less the overlap, fourteen days ago and the oldest open PR, and nothing else |
| SyncPolicy.BuildCutoff | server/src/stats-service.ts:361-378 | There is a cutoff for exactly the repositories with a watermark, each as above |
| SyncService.ModeDecidesEveryWalk | server/src/stats-service.ts:334-424 | In an incremental run every repository has a cutoff and its walk stops by the one `buildCutoff` computed; in a full run no walk stops early |
| SyncPolicy.ModeExactlyWhen | server/src/stats-service.ts:334-359 | A repository without a watermark or under an older schema makes the run full; otherwise it is full exactly when some full walk is due and every known budget covers one and a half walks of all repositories, so also when none is known |
| SyncPolicy.MoreBudgetKeepsRunsFull | server/src/stats-service.ts:350-358 | A larger budget, or an unknown one, never turns a full run into an incremental one |
| SyncService.DueWalksAreMade | server/src/stats-service.ts:343-358 | If a full walk is due and every known budget covers one and a half of them, the next run is full for every repository, and each one it records was walked in full just now and holds everything there was before the pass, current where it had settled |
| SyncService.ReconciledOrUnaffordable | server/src/stats-service.ts:343-358 | After any recorded run each repository was walked in full within the last day, or some known budget was below one and a half walks |
| SyncService.RowAfterARun | server/src/db/pr-store.ts:465-485 | Only a recorded full walk moves the time of the last one; the epoch never goes back and is current once anything is recorded; a known budget stays until a newer one is |
| SyncService.RowsMeanWalks | server/src/stats-service.ts:334-439 | In every reachable state a repository counts as repaired exactly when it has been walked in full, and has a watermark exactly when some recorded walk returned a PR of it |
| SyncService.EmptyRepositoryKeepsRunsFull | server/src/stats-service.ts:335-338 | While a repository without PRs is measured, every run is a full one |
| SyncService.EmptyRepositoryRun | server/src/stats-service.ts:433-439 | The run that walks such a repository in full, records it, and leaves it without a watermark |
| SyncService.EveryRepositoryStaysFresh | server/src/stats-service.ts:380-441 | Whatever mode each run chose and whichever reads and writes failed, every repository's store is fresh in every reachable state |
| PageWalk.WalkMissesNothing | server/src/github/client.ts:234-271 | A completed walk returns every PR at or after its cutoff that kept its place on the list, whatever versions the pages show, for any page size and any order among equal timestamps, while the rest of the list moves |
| PageWalk.WalkInventsNothing | server/src/github/client.ts:234-271 | All that is returned was on the list when some request was answered |
| PageWalk.StillListIsRead | server/src/github/client.ts:258-271 | On a list that does not move the walk returns a prefix, and all of it when there is no cutoff |
| PageWalk.StillWalkStopsEarly | server/src/github/client.ts:258-271 | With a cutoff the walk of such a list ends with the page after the last PR that is recent enough, whatever else the list holds |
| PageWalk.WalkRepo | server/src/github/client.ts:234-271 | The cursor loop computes that walk |
| PageWalk.FetchPullRequests | server/src/github/client.ts:212-276 | Repositories are walked one by one, with a cutoff exactly in incremental mode and where there is one, and cut-off lists then filled in; an answer holds every walk complete and every such list whole, and there is none exactly when some walk failed or some list could not be read |
| PageWalk.CollectNodes | server/src/github/client.ts:154-189 | An inner list is returned whole, or refused exactly when it exceeds fifty pages |
| PageWalk.Backfill | server/src/github/client.ts:191-206 | A PR's cut-off lists are replaced by the whole ones, or refused exactly when one is too long or not answered |
| Sync.SyncKeepsStoreFresh | server/src/stats-service.ts:380-441 | Over any changes, full and incremental passes, partial saves and failures the store holds the current version of every PR last updated at or before the watermark less the overlap, and the watermark never goes back |
| Sync.FreshExactlyWithinTheOverlap | server/src/stats-service.ts:361-441 | That holds in every run if and only if replica lag plus the duration of a walk fit into the overlap |
| Sync.SlowWalkLeavesStoreStale | server/src/stats-service.ts:426-441 | The run that breaks it otherwise |
| Sync.IncrementalPassRereads | server/src/stats-service.ts:361-378 | A recorded incremental pass reads again every PR the store holds as open and every one changed in the last fourteen days, if it did not change while the pass could see it, and leaves it current if nothing changed it since |
| Sync.MovingPrIsMissed | server/src/github/client.ts:234-271 | The pass that misses one that did |
| Sync.WatchedAreRereadExactlyWhen | server/src/stats-service.ts:361-378 | Every pass reads every open or recent PR if and only if nothing can change between what its pages show |
| Sync.FullPassRepairs | server/src/stats-service.ts:420-441 | A recorded full pass reads every PR there was before it, even one that changes meanwhile, and leaves it at a version no older than those of its start, current if it had settled, whatever the store held |
| Sync.PassMovesWatermark | server/src/db/pr-store.ts:465-485 | A recorded pass puts the watermark at the latest update it read, unless it is past that already; nothing else moves it, and a pass never moves it beyond its own end |
| Sync.LastReadIsStored | server/src/db/pr-store.ts:289-340 | A PR that a walk read twice is left as it was read last |
| PrStore.SaveKeepsExactly | server/src/db/pr-store.ts:487-585 | A connection that arrived truncated loses no stored row of its PR and gains the listed ones; one that arrived whole has exactly the listed rows afterwards; rows of other PRs stay |
| PrStore.SaveOverwrites | server/src/db/pr-store.ts:505-585 | A listed review or thread overwrites the stored one; a listed commit only where there is none or the list is whole; everything else keeps its value |
| PrStore.SaveReplacesLabels | server/src/db/pr-store.ts:293-340 | The labels are exactly the listed ones; the PR's row is the new one but for its creation time; other PRs keep theirs |
| PrStore.StoredExactlyWhen | server/src/db/pr-store.ts:505-585 | After any saves a review, thread or commit is stored if and only if some save lists it and no later save of its PR, with that connection whole, omits it |
| PrStore.LastListDecidesReviews | server/src/db/pr-store.ts:507-532 | A stored review says what the last save that listed it said |
| PrStore.LastListDecidesThreads | server/src/db/pr-store.ts:534-561 | And so does a stored thread |
| PrStore.CommitsAreNotOverwritten | server/src/db/pr-store.ts:563-585 | A stored commit says what the save said that began its present stay: the last whole list, or a truncated one that found it missing |
| PrStore.SavableExactlyWhen | server/src/db/pr-store.ts:510-561 | A PR is refused exactly when it lists two reviews or two threads under one key |
| PrStore.SavesStayInTheirOrg | server/src/db/pr-store.ts:505-512 | Saves for one organization leave every row of another unchanged |
| PrStore.LoadAfterSave | server/src/db/pr-store.ts:176-340 | Saving a complete PR and loading it returns it, up to list order and with the creation time first stored |
| PrStore.Store.WriteChildren | server/src/db/pr-store.ts:505-585 | Per connection: delete only when the list is complete, then upsert |
| PrStore.Store.SavePullRequests | server/src/db/pr-store.ts:289-340 | PRs are saved one transaction at a time; the first that cannot be saved is rolled back and ends the save |
| PrLoad.Bucket | server/src/db/pr-store.ts:225-231 | Every listed PR has a bucket with exactly its rows in order; other rows are dropped |
| PrLoad.BucketIsThePr | server/src/db/pr-store.ts:223-236 | A PR's bucket holds its rows and nobody else's |
| PrLoad.LoadPullRequests | server/src/db/pr-store.ts:176-287 | Each PR comes back as it is stored |
| Keys.PrKeyInjective | core/src/telemetry.ts:69 | `repo#number` names one PR, whatever the repository is called |
| Keys.BranchKeysCollideExactlyWhen | core/src/telemetry.ts:70 | Two repositories can share a branch key if and only if one is the other followed by `@` and anything |
| Attribution.OwnerIsTheEarliestToClose | core/src/telemetry.ts:216-245 | Grouping, sorting and first match yield, of the PRs on that repo and branch not merged before the split began, the one that closes first, ties by input order; and nothing exactly when there is none or the branch is null |
| Attribution.OwnerCrossesReposExactlyWhen | core/src/telemetry.ts:70-245 | Work on one repository can go to a PR of another if and only if the two names clash |
| AttributionLoops.SumValues | core/src/telemetry.ts:19-28 | The measured values added up; null exactly when none was measured |
| AttributionLoops.ScopeSessions | core/src/telemetry.ts:169-180 | The three groups of sessions are disjoint and exhaust the input |
| AttributionLoops.GroupLinks | core/src/telemetry.ts:182-194 | For each session the PRs its usable links name, in first-link order |
| AttributionLoops.PlaceLinked | core/src/telemetry.ts:196-207 | A session naming one PR goes to it; a PR named among several is marked |
| AttributionLoops.GroupCandidates | core/src/telemetry.ts:216-229 | Per branch key the PRs on it in stable closing order |
| AttributionLoops.PlaceSplits | core/src/telemetry.ts:231-245 | Each split goes to its owner or to the unmatched |
| AttributionLoops.Attribute | core/src/telemetry.ts:159-299 | The loops together compute the specified row for every PR, the totals and the unmatched bucket |
| RowMeaning.RowSaysWhatLanded | core/src/telemetry.ts:182-299 | Read off sessions, links and splits: a row is shared exactly when a session in scope names its PR among others or an indivisible split landed on it; of the rest it is empty exactly when nothing landed, linked exactly when a session names it and no other, and otherwise exact |
| RowMeaning.RowCountsItsSessions | core/src/telemetry.ts:260-267 | It counts the sessions that named it alone or whose splits landed on it, each once, and none if one names several PRs |
| RowMeaning.SessionsBehindARow | core/src/telemetry.ts:169-207 | The sessions whose figures it shows are exactly those in scope that name its PR and no other |
| RowMeaning.SplitsBehindARow | core/src/telemetry.ts:209-245 | And the splits exactly those of sessions in scope without a usable link, on a branch the PR owned |
| Conservation.SessionsLandOnce | core/src/telemetry.ts:196-207 | Each singly linked session in scope lands in the row of exactly one PR |
| Conservation.SplitsLandOnce | core/src/telemetry.ts:209-245 | Each unlinked split in scope lands in the row of exactly one PR or among the unmatched |
| Conservation.RowShowsItsWork | core/src/telemetry.ts:248-299 | A row that is not withheld shows the whole of its contributions, and null exactly when every contributor is null |
| Conservation.AttributionConservesWork | core/src/telemetry.ts:182-310 | For distinct PRs and sessions and every figure: shown, withheld as shared and unmatched add up to the sessions linked to one PR and the splits of unlinked sessions; sessions linked to several PRs are in none of them |
| Percentile.InterpolateIsLinear | core/src/metrics.ts:25-29 | Between two neighbouring values the result moves in a straight line and meets both |
| Percentile.PercentileStandsAt | core/src/metrics.ts:22-30 | The p-th percentile is read p hundredths of the way from the first of the sorted values to the last |
| Percentile.PercentileIgnoresOrder | core/src/metrics.ts:22-30 | A percentile does not depend on the order of its input |
| Percentile.PercentileMonotone | core/src/metrics.ts:22-30 | No percentile exceeds a higher one, so p50 never exceeds p90 |
| Percentile.PercentileSplitsTheValues | core/src/metrics.ts:22-30 | At least the given share of the values is at or below it and at least the rest at or above |
| Percentile.PercentileBetween | core/src/metrics.ts:22-30 | It lies between the least and the greatest value |
| Weeks.WeekDateIsIso | core/src/metrics.ts:33-42 | The computed year and week number are the week date of section 2.2.10 of ISO 8601:2004, and no other pair is; of the code from year 100 on |
| Weeks.WeekNumberRange | core/src/metrics.ts:33-42 | The week number is always 1 to 53; of the code from year 100 on |
| Weeks.KeyNamesTheWeek | core/src/metrics.ts:33-48 | Two days share a key exactly when they share a Monday; of the code from year 100 on |
| Weeks.KeysInOrder | core/src/metrics.ts:33-48 | In years 1000 to 9999 comparing keys as strings orders weeks chronologically |
| Weeks.WeekYearIsFourDigits | core/src/metrics.ts:33-42 | A day in years 1000 to 9999 has its ISO year in them too |
| Weeks.IndexIsMonday | core/src/metrics.ts:44-48 | `weekStart` is midnight of the Monday of that week; of the code from year 100 on |
| Weeks.GregorianYear | core/src/metrics.ts:33-48 | Years begin with day 0 at 1 January 1970 and have 366 days exactly if divisible by four and not by a hundred, or by four hundred; of the code from year 100 on |
| Weeks.KeyReadsBack | core/src/metrics.ts:33-42 | In years 1000 to 9999 a key has eight characters that read back as the year, `-W` and the week |
| WeekSeries.Seed | core/src/metrics.ts:207-225 | Seeding makes every week from the earliest event's to the latest's, once each and empty |
| WeekSeries.Build | core/src/metrics.ts:202-240 | Every event finds its own week seeded and is added to that one, so the late insert is never taken |
| WeekSeries.SeriesCovers | core/src/metrics.ts:202-247 | The series starts at the first event's Monday, ends at the last's, steps seven days, and survives the sort by key unchanged |
| WeekSeries.EachEventOnce | core/src/metrics.ts:227-237 | Each event is in exactly one week |
| WeekSeries.SeriesAddsUp | core/src/metrics.ts:227-237 | Any figure a week adds up sums over the series to that figure of the input |
| WeeklyStats.WeeklyMerges | core/src/metrics.ts:202-247 | The merge series is computed by those loops |
| WeeklyStats.MergeSeriesIsWhole | core/src/metrics.ts:202-247 | It is gapless, and its merges, sizes and threads of each fate sum to the input's |
| WeeklyStats.WeekMedian | core/src/metrics.ts:235-246 | A week's median is over the PRs merged in that week, and exactly the current week is partial |
| WeeklyStats.WeekFigures | core/src/metrics.ts:227-246 | Its size and its threads of each fate are those of the PRs merged in that week |
| WeeklyStats.WeeklySessions | core/src/telemetry.ts:81-125 | The session series is computed by the same loops |
| WeeklyStats.SessionSeriesIsWhole | core/src/telemetry.ts:81-125 | It is gapless, and its sessions and lines sum to the input's |
| WeeklyStats.WeekOfSessions | core/src/telemetry.ts:108-125 | A week shows the number, tokens and lines of the sessions first seen in it, and exactly the current week is partial |
| MetricTables.FatesSum | core/src/metrics.ts:60-78 | A PR's thread fates, and its bot and human threads, each sum to its threads |
| MetricTables.StatsOfOne | core/src/metrics.ts:68-77 | A thread counts as a bot's exactly if its author is one, and as resolved, outdated or live by its flags |
| MetricTables.StatsJoin | core/src/metrics.ts:68-77 | Two lists of threads together have the sums of their counts |
| MetricTables.TotalsAreOfAllThreads | core/src/metrics.ts:350-360 | The totals over the merged PRs are the statistics of all their threads together, and both splits sum to them |
| MetricTables.ReviewerTable | core/src/metrics.ts:249-290 | The loops yield, in stable order, one line for each name seen, counting that name's threads, resolved threads, reviews and PRs; one unclassifiable review nulls its body-only column |
| MetricTables.ReviewerLinesAre | core/src/metrics.ts:249-290 | The lines are sorted by threads and then reviews, one a name, for exactly the names that were seen; each has that name's counts, its bot mark, and resolved over all threads or nothing where there are none |
| MetricTables.ReviewerLinesSum | core/src/metrics.ts:266-284 | Reviewer lines sum to the threads and the reviews seen |
| MetricTables.FirstReviewIsEarliest | core/src/metrics.ts:50-91 | Sorting and finding yields the earliest submitted review, and the earliest of anybody who is not a bot; none only where there is none |
| MetricTables.HumanReworkIsRework | core/src/metrics.ts:90-93 | Commits after the first human review are never more than commits after the first review |
| MetricTables.ReworkedExactlyWhen | core/src/metrics.ts:92-93 | A PR was reworked exactly if a commit came after some review, and after human review exactly if one came after a review by somebody who is not a bot |
| MetricTables.ReworkCounts | core/src/metrics.ts:382-443 | Rework after human review never exceeds rework after any review |
| MetricTables.SizeHistogramSums | core/src/metrics.ts:456-460 | The size histogram sums to the merged count |
| MetricTables.Histogram | core/src/metrics.ts:472-484 | A bar for exactly the keys that occur, in order, each with its count, and together the merged count |
| MetricTables.CommitsHistogram | core/src/metrics.ts:472-484 | A bar for each number of commits that occurs, in order, with the PRs that have it, ten and more together under one label |
| MetricTables.MergedByAuthor | core/src/metrics.ts:292-303 | The merged column of the author table counts each author's PRs, has no other names, and sums to the merged count |
| UserRepos.SelectReplaces | server/src/db/user-repo-store.ts:96-133 | A saved selection makes the chosen set the list and deletes no row |
| UserRepos.SelectedRow | server/src/db/user-repo-store.ts:104-130 | What a saved selection does to each row: a listed one is chosen now, and stays ready if it was or else is queued without its error; unlisted ones are marked, other members' untouched |
| UserRepos.SavedExactlyWhenItCanBe | server/src/db/user-repo-store.ts:96-133 | A selection is saved exactly when it repeats no entry and its rows keep the constraints on names and directories |
| UserRepos.SelectKeepsStatusesExactlyWhen | server/src/db/user-repo-store.ts:23-32 | A selection leaves every status as it was if and only if no listed row is cloning or failed |
| UserRepos.ClaimsDoNotOverlap | server/src/db/user-repo-store.ts:157-177 | A claimed row is out of reach of the next claim |
| UserRepos.ClaimTakesTheOldest | server/src/db/user-repo-store.ts:157-177 | A claimed row was queued, selected and not locked, and is cloning with one attempt more; others stay, and one left behind is no older than those taken, which are then as many as asked |
| UserRepos.UserRepoStore.Select | server/src/db/user-repo-store.ts:96-133 | One transaction: refused without effect on a bad name, a repeated entry or a shared directory, otherwise as above |
| UserRepos.UserRepoStore.ClaimPending | server/src/db/user-repo-store.ts:157-177 | At most the limit, oldest first, queued and selected rows only; fewer than the limit only when nothing is left |
| UserRepos.UserRepoStore.MarkReady | server/src/db/user-repo-store.ts:179-186 | The row is ready, without an error, and nothing else changes |
| UserRepos.UserRepoStore.MarkFailed | server/src/db/user-repo-store.ts:188-195 | The row is failed with the first 2000 characters of the error, and nothing else changes |
| UserRepos.UserRepoStore.RequeueStranded | server/src/db/user-repo-store.ts:197-205 | Exactly the rows that were cloning are queued without an error, and the count is theirs |
| CloneQueue.Queue.RunPass | server/src/workspace/queue.ts:171-179 | A pass under way is joined, not doubled; otherwise one begins and asks for the free slots |
| CloneQueue.Queue.Settle | server/src/workspace/queue.ts:155-163 | Idle is announced exactly with no pass and no clone |
| CloneQueue.Queue.RunClaim | server/src/workspace/queue.ts:108-109 | A pass never gets more rows than the slots that were free when it asked |
| CloneQueue.Queue.StartClones | server/src/workspace/queue.ts:120-152 | Every claimed row becomes one running clone, in order, the clones there were go on, and the counter follows |
| CloneQueue.Queue.ClearPass | server/src/workspace/queue.ts:172-177 | A pass that clears `passing` clears its own entry, and then no pass runs |
| CloneQueue.Queue.EndClone | server/src/workspace/queue.ts:145-151 | A finished clone frees its slot and, until stop, has a pass running to refill it |
| CloneQueue.Queue.Take | server/src/workspace/queue.ts:103-189 | Whatever happens next, the running passes are at most the one `passing` names, the counter is the clones in flight and within the bound, idle is true when announced, and polling does not die |
| CloneQueue.Queue.Drive | server/src/workspace/queue.ts:85-221 | So over any run; and once stopping, no clone starts again |
| Auth.RunKeepsTablesOk | server/src/auth/store.ts:115-151 | Over any interleaving of statements each account has at most one membership per organization |
| Auth.SeatsAreKept | server/src/auth/store.ts:123-151 | A claimed membership keeps its account until it is removed, and only an invite changes a role, so sign-in never does |
| Auth.AccountsKeepTheirId | server/src/auth/store.ts:109-121 | An account keeps its id through every rename |
| Auth.SignInAdmits | server/src/auth/store.ts:105-155 | What a sign-in yields, in full: the role held, else an unclaimed invite's, else an automatic membership if the login is free, else nothing |
| Auth.LowerIgnoresCase | server/src/auth/store.ts:107 | Two logins are the same exactly when they differ in nothing but case |
| Auth.FreedLoginIsRefused | server/src/auth/store.ts:125-138 | A login that somebody has claimed gives another account nothing and changes no membership |
| Auth.SessionLastsUntilEnded | server/src/auth/store.ts:157-184 | A session is there exactly until its account is signed out or it is deleted, and never again after |
| Auth.RemovalEndsSessions | server/src/auth/store.ts:219-233 | A session from before a completed removal never resolves again, whatever is restored |
| Auth.HalfRemovalKeepsSessionsExactlyWhen | server/src/auth/store.ts:219-233 | After a removal that stopped between its statements a session resolves if and only if nothing ended it, it has not expired and its account is a member again |
| Auth.HalfRemovalLetsASessionBack | server/src/auth/store.ts:219-233 | The run in which it does |
| Auth.SignInIsARun | server/src/auth/store.ts:105-155 | Sign-in is a run of its statements |
| Auth.RemovalIsARun | server/src/auth/store.ts:219-233 | Removal is a run of its two statements |
| Auth.AuthStore.SignIn | server/src/auth/store.ts:105-155 | Sign-in returns that answer and leaves those tables |
| Auth.AuthStore.InviteLogin | server/src/auth/store.ts:208-217 | An invite creates a membership with that role or gives an existing one that role, keeping its account, and changes nothing else |
| Auth.AuthStore.RemoveMember | server/src/auth/store.ts:219-233 | Exactly that membership goes, and with it exactly the sessions of its account |
| Auth.AuthStore.FindSession | server/src/auth/store.ts:165-179 | The result is a caller exactly for a live session of a current member, with the role of that member's seat |

## Left out

- Routes, command line entry points, configuration, docker and git processes, the file system, the OAuth exchange, token signing and `web/`: plumbing around the cores.
- SQL views and migrations, and the `gate()` wait before every statement.
- `server/src/cache.ts`, `core/src/range.ts`, `server/src/telemetry/otlp.ts`, the executor store, the worker tokens and the seed generator: they would only add easy members.
- JobBoard: `get`, `list` and the texts of log lines; the workspace path of a claim is a choice the driver makes when it accepts one.
- Protocol: which claims a driver makes and when is in DriverLoop; DriverProtocol ties the two run by run, not claim loop by claim loop.
- Liveness: a bound on rounds; it says nothing about how often drivers poll.
- SyncService: branch history, revert counts, the repository list's own failures and the cooldown after a failed fetch; the clock of the mode and of the cutoffs is read once.
- Sync: versions are told apart by index, so two updates in one second are different versions; a listing orders equal ranks by some strict order of the provider's, which may be any.
- PrStore: `on conflict do nothing` keeps the first commit row of a sha, and the order of loaded lists is not modelled.
- PageWalk: rate limits, retries and progress; a list that a page cut off is a list of texts, and a request is answered or not.
- Weeks: `Date.UTC` takes years 0 to 99 for 1900 to 1999; the model does not, so it speaks of the code from year 100 on.
- AttributionLoops: the ratios derived from figures (`acceptRatio`, `tokensPerLoc`, `activeHours`), the list of unmatched branches, the counts of shared and unmatched sessions, and coverage.
- Attribution: `localeCompare` on timestamps is modelled as time order, with an open PR after everything.
- WeekSeries: the fallback that inserts a missing week is not in `Build`, which proves that it is never reached.
- MetricTables: the medians and ratios of the author table and the order of its rows.
- Percentile: null values, which the callers that can have them filter out or do not produce.
- UserRepos: `list` and `orphaned`; the timestamp columns that only they show are kept, their order is not.
- CloneQueue: exclusive cloning per row (a re-selected row that is still cloning is queued again) and the clone itself; a pass that was waiting for its claim when `stop` came still starts its clones, as in the source.
- Auth: the second sign-in of one account under two logins at once, where the index refuses the automatic membership, is a step without effect; the exception it raises is not modelled.
- Auth: the stand-in account for running without sign-in, worker tokens and listing.
- Runner: the container arguments before the image are not modelled, and `kill` is assumed not to fail.

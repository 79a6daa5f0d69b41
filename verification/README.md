# Job lifecycle: a verified model

The platform takes jobs over HTTP and MQTT, stores one row per job in Postgres, carries them on per-tier Kafka
topics, and lets workers, retry routers and reapers act on them. Its promises (at-least-once delivery, bounded
retries, dead-lettering, idempotent submission, recovery of dead workers) are promises about whole runs of all these
processes together. This project models the processes and proves those promises, or the exact condition under which
they hold.

## The two machines and the components

The same state (a table of rows, partitioned append-only logs with committed offset and read position, a claim map)
is used at two granularities.

* **Call level** (`Protocol`). One SQL statement, append, Redis command, fetch or commit is one event of one process.
  Processes interleave freely, may crash between any two calls, partitions may change hands, a commit from before such
  a change may still go through, and a call may fail, applied or not. `Next` is the whole system and `Run` a run of
  it; each theorem says which events it allows. A run is *plain* when nothing dies, nothing fails and nothing is reaped.
* **Serialised** (`Serial`). One step is a whole submission, the processing of one message with its commit, or one
  router iteration.
* **Components** (`Postgres`, `Kafka`, `Components`, `ReaperLoop`, `Api`, `Heartbeat`). Classes and loops that update
  their fields in place, statement by statement, as the program does. Each method is proved to have the effect of the
  corresponding function of `Serial`, `Reaping`, `Keys` or `Api`.

`Atomic` and `AtomicReaper` join them: every serialised run, and so every run of the worker and router loops, is a
plain run of the call-level machine, and a reaper's sweep is a sequence of its calls.

The main results, hardest first:

| module | result |
|---|---|
| `NoLoss`, `Failures`, `Losses` | no published job is lost, wherever processes crash, partitions move, stale readers commit and calls fail, unless a call of a few kinds fails; and each of those kinds loses jobs in every deployment, so the list is exact |
| `DeviceOrder`, `Overtaking` | per-device order: the first runs of a device's jobs are always in the order of their publishes; all runs are if and only if none of the device's jobs has been run again; and in every deployment one failed handler call is enough to let a later job succeed first |
| `Recovery`, `Termination` | from every state such runs reach, once all partitions are manned again, the number of calls still to come is bounded by a measure that falls with every call, and the processes can only stop with every published job dead-lettered or recorded as a success |
| `Overshoot`, `Tightness` | how far concurrency pushes a job past its attempt budget: by at most one run, and a run that does it exists if and only if the partitions of the job's device and of its id have different owners |
| `Course`, `Lifecycle`, `Limits` | exactly when a job obeys the transition table the code never consults: the guard of each late write; and what the late writes can do, in which deployments |
| `Pipeline` | whatever the schedule, each job ends as "run until success, at most max_attempts times" ends it |
| `Atomic` | serialised runs are call-level runs |
| `Redelivery` | what crashes can repeat: a message is read at most once per assignment of its partition, however far commits rewind, and a job is run no oftener than its publishes and these reads allow |
| `Drain` | for serialised runs a measure falls at every turn, alerts included, so every schedule ends, with all topics drained and all jobs decided |
| `Chronicle` | every column of every row is what the statements executed on it say, on every run |
| `Punctual`, `Delays`, `Waits` | retries wait: no copy of a retry reaches a handler before the instant in its header, on every run, and that instant is in the window of its attempt, 5^(n-1) seconds after the n-th failure |
| `Repeats`, `Requests` | who is answered: exactly which calls reply, and what a repeated request gets within 24 hours of the claim and after it; a request as one function is a run of its calls |
| `Authors` | every row, every message and every handler run carries what a well-formed request asked for |
| `Tokens` | every publish of a job is in exactly one place |
| `DeadLetter` | no early dead letter, and bounded reaper publishes, under full chaos |
| `Idempotency`, `Api`, `Keys` | one row and one publish per (key, type); exactly when a request is answered; derived keys |
| `Routing`, `Placement` | every message repeats its row and lies where its key puts it |
| `Reaping`, `ReaperLoop` | a backlog is drained oldest first, each row once |
| `Skips` | exactly when a retry the router could not forward comes back |
| `Heartbeat`, `StaleRuns`, `PastBudget` | a live run is never found stale if and only if it does not start with an old heartbeat, with everything else interleaved; and runs that start so, or that end past their budget, in every deployment with a reaper |
| `Telemetry` | two readings make one job exactly when they are of one device and one 60-second bucket |
| `Firmware`, `Reasons`, `Columns`, `Sightings` | history, failure reasons, device versions and sightings and bookkeeping columns agree with what the handlers did |

## Where the code and its documentation differ

* The transition table is never consulted. Two writes come after the publish they announce, unconditionally: a
  submission's QUEUED and a worker's RETRY. `Lifecycle` gives the guard each would need, exactly. Without it the first
  can leave a succeeded job reading QUEUED for good in every deployment (`Limits.LateQueuedHidesSuccess`), the second
  one reading RETRY exactly where two workers own the job's partitions (`Limits.LateRetryHidesSuccessIffTwoOwners`).
* The router's comment says a message whose republish failed is redelivered. It is, by a restart, only as long as no
  later message of the partition has been committed, because commits are cumulative; in general, exactly when the last commit of
  the partition is of an earlier message (`Skips.RestartReadsAgainIff`).
* `Run` commits even when `processOne` returned an error. That loses the message when the row could not be loaded or
  marked RUNNING, when SUCCESS could not be recorded, or when the retry or dead letter could not be published; a failed
  insert, QUEUED, RETRY, FAILED, increment, requeue or commit, and a publish that did go through although its call
  failed, lose nothing (`Losses.FailureLosesIff`).
* Messages are keyed by the device to preserve its order, but retries are keyed by the job id and wait. The order holds
  of first runs always and of all runs exactly while no job of the device is run again
  (`DeviceOrder.HandledInPublishOrderIff`); with one failed handler call a later job of the device can succeed first, in
  every deployment (`Overtaking.OneFailureOvertakes`). For the same reason another worker can run the retry before the
  first one has counted its attempt (`Tightness.OvershootIffTwoOwners`).
* The claim in Redis is on the key alone while the unique index is on (key, type): a second type under a claimed key
  gets an error (`Api.ClaimIgnoresType`), and a repeat after the claim has expired gets an error and not the existing
  job (`Api.RepeatGetsSameIdOrError`).
* A health check that is run again after raising its alert does not alert twice, as its comment says, but it reports a
  failure as long as the device is unhealthy (`Keys.SecondAlertIsRefused`).
* `heartbeat_at` survives a retry, so a job that waited more than 50 seconds can be reaped in the first ten seconds of
  a healthy run (`Heartbeat.ReapedAliveIffOldHeartbeat`), which happens in every deployment
  (`StaleRuns.LeftoverHeartbeatIsScanned`).
* The reaper's comment says a stale job past its budget sits as FAILED. Its row goes back to QUEUED and nothing is
  published for it; whatever message it still has, such as its dead worker's uncommitted one, remains to be dealt with
  (`AtomicReaper.ExhaustedRowStaysQueued`, reached in `PastBudget.RowPassesBudget`).

## Model

| member | source | states |
|---|---|---|
| `NoLoss.NoPublishedJobIsLost` | internal/worker/worker.go:58-236 | In every run, with any number of workers, routers, reapers and submitters, crashes and rebalances anywhere, stale commits and any failed calls but those of `Losses.FailureLosesIff`, each published job has an uncommitted message on its tier's main or retry topic that is unread or undisposed in its owner's hands, or a message on jobs.dlq, or a recorded SUCCESS. |
| `Losses.FailureLosesIff` | internal/worker/worker.go:98-142 | In any deployment, a kind of failed call (whose, at which point, applied or not) can by itself lose a published job for good if and only if it is a worker's load or RUNNING write, its SUCCESS write or its retry or dead-letter publish not applied, or a router's republish not applied. |
| `Failures.WorkerForgets` | internal/worker/worker.go:133-186 | Each losing failure of a worker can lose any job, in any deployment. |
| `Failures.HarmlessLosesNothing` | cmd/reaper/main.go:91-96 | With failed calls of one other kind only, in any number, no published job is lost. |
| `Losses.RouterForgets` | cmd/retry-router/main.go:93-104 | In any deployment a single failed republish can lose a job: the next retry of its partition takes it along. |
| `Skips.SkippedRetryComesBackIff` | cmd/retry-router/main.go:93-104 | After a failed republish, in any run in which the partition keeps its living owner, and no other router has any of it in hand, a restart reads the retry again exactly as long as no later message of the partition has been committed. |
| `Skips.RestartReadsAgainIff` | cmd/retry-router/main.go:60-105 | In any run whatever, with crashes, reassignments, stale commits and failed calls, a restart reads a message of a retry partition again if and only if the last commit of that partition, if there was one, is of an earlier message. |
| `Recovery.EveryJobCanBeDecided` | internal/worker/worker.go:58-236 | From every state that a run without losing failures reaches, once every partition has an owner of its tier, some plain continuation drains every topic, leaves all workers and routers idle, and every published job dead-lettered or succeeded. |
| `Termination.EveryContinuationEnds` | internal/worker/worker.go:116-236 | From every state that a run without losing failures reaches, once every partition has an owner of its tier, every plain continuation, however its calls interleave and whatever its handlers answer, makes at most a fixed number of steps, and a fixed number more for each new submission; no step is possible, now or later, exactly when everything is read and everybody idle, and then every published job is dead-lettered or succeeded. |
| `Redelivery.ReadAtMostOncePerAssignment` | internal/kafka/consumer.go:33-57 | On every run, a message is read at most once more than its partition is reassigned, however far stale commits rewind it. |
| `Redelivery.RunsBoundedByReassignments` | internal/worker/worker.go:51-114 | On every run in which no partition is reassigned more than c times, a job is run at most (1+c) * (p + (1+c) * r) times, p being its publishes by submissions and reapers and r its retries. |
| `Redelivery.CrashesForget` | internal/kafka/consumer.go:33-57 | A crash or a reassignment changes no row, log or commit: it empties one process's hands, and the readers concerned start again at what was last committed. |
| `Redelivery.FailedCallsMoveOn` | internal/worker/worker.go:98-114 | A failed call ends what it was about: a submission closes, a worker goes on to its commit, a router lets go of the message, a reaper gives up on the row; if the call was not applied nothing else has changed but a reply. |
| `Punctual.RepublishWaits` | cmd/retry-router/main.go:71-104 | On every run, whenever a router's call makes a log longer, failed or not, the last parseable retry-at header of the message it read names an instant that has passed, and it puts there that message under the same key. |
| `Punctual.CopyHasWaited` | cmd/retry-router/main.go:71-104 | On every run, each message on a main topic that is not keyed by its device was put there by one event, a router's, after the instant in the header of the retry it forwarded. |
| `Punctual.HandlerHasWaited` | cmd/retry-router/main.go:81-97 | On every run, a worker holds a retry's copy, in whatever phase, no earlier than the instant in the header of the very retry it was forwarded from. |
| `Delays.RetryNamesItsInstant` | internal/worker/worker.go:190-205 | On every run, each message on a retry topic was put there by a worker whose handler had just failed, and its header names an instant within half and one and a half times 5^(n-1) seconds, less the second lost to truncation, n being one more than the attempts the worker had read. |
| `Delays.RerunsWait` | internal/retry/backoff.go:10-31 | On every run, crashes and failed calls included, a worker holds a retry's copy at least half of 5^(n-1) seconds, less one, after the failure that retry was published for. |
| `Waits.FailureIsRescheduled` | internal/worker/worker.go:176-220 | A failed run with attempts left publishes exactly one message, the job's own under its id on its tier's retry topic, whose header names an instant in the window of the attempt it used up; the row reads RETRY with the handler's error, and the attempt is counted. |
| `Waits.FailureIsBuried` | internal/worker/worker.go:176-236 | A failed run that uses up the budget publishes exactly one message, the job's own under its id on the dead-letter topic; the row reads FAILED with the handler's error, finished now, no attempt counted. |
| `Waits.SuccessIsRecorded` | internal/worker/worker.go:163-188 | A run that succeeds leaves the row in SUCCESS, finished now, its attempts and error as they were, and publishes nothing but what its handler did. |
| `Waits.RerunWaits` | internal/retry/backoff.go:10-31 | In every serialised run, the retry of a job that has been run n times goes back to its main topic no earlier than half of 5^(n-1) seconds after its last run, less a second, and if the router waits for it, no later than one and a half times that. |
| `Waits.LaterRetriesWaitLonger` | internal/retry/backoff.go:10-25 | From failure to instant, a later retry waits longer than an earlier one, whatever the jitters and the truncation. |
| `Tokens.EveryPublishIsInOnePlace` | internal/worker/worker.go:155-236 | Without crashes and failed calls, the counts of a job's messages unread on main, in a worker's hands, unread on retry, in a router's hands and on jobs.dlq, plus recorded successes, always sum to the number of its publishes. |
| `Overshoot.ExactlyOneToken` | internal/worker/worker.go:155-236 | Without crashes, failed calls and reaps, a published job is in exactly one of these places, always. |
| `Overshoot.OvershootAtMostOne` | internal/worker/worker.go:133-220 | Without crashes, failed calls and reaps, a job is run at most max_attempts + 1 times and retried at most max_attempts times, with any number of workers; both bounds lose the one when the job's two partitions have one owner, as with one worker. |
| `Tightness.OvershootIffTwoOwners` | internal/worker/worker.go:191-220 | In any deployment and for any job, a run that takes it past its budget exists if and only if the partitions of its device and of its id have different owners. |
| `Tightness.OneRunTooMany` | internal/worker/worker.go:176-220 | Such a run: a request through the API, the first worker publishes the retry with its retry-at header and is held up before it counts the attempt, and the other worker runs the job max_attempts more times. |
| `Overshoot.DeadJobsHadTheirRuns` | internal/worker/worker.go:176-182 | A dead-lettered job has been run at least max_attempts times, and at most one more; exactly max_attempts with one owner. |
| `Overshoot.OneVerdict` | internal/worker/worker.go:163-236 | No job is both dead-lettered and succeeded, and none is dead-lettered or succeeds twice. |
| `Lifecycle.ObeysIffGuarded` | internal/jobs/state.go:7-16 | In every plain run, every step of a job's state, read as QUEUED while its message waits on main after ACCEPTED or RETRY, is a stutter or an edge of the table if and only if each QUEUED, RETRY and SUCCESS write finds the row as its guard says. |
| `Lifecycle.QueuedWriteObeysIff` | internal/jobsubmitter/submitter.go:61-66 | A submission's late QUEUED is an edge of the table exactly when it finds ACCEPTED, QUEUED or RETRY. |
| `Lifecycle.RetryWriteObeysIff` | internal/worker/worker.go:209-214 | A worker's late RETRY is an edge exactly when it finds RUNNING or RETRY, or, with the retry back on the main topic, ACCEPTED, QUEUED or RETRY. |
| `Lifecycle.JobsObeyTheTable` | internal/jobs/state.go:7-16 | If every late QUEUED and RETRY comes in time, the whole run obeys the table, SUCCESS writes included, and whenever nobody has anything left to do for the job its state says where its message lies. |
| `Lifecycle.SoloJobsObeyTheTable` | internal/worker/worker.go:144-236 | One process at a time with something left to do for the job is enough for that. |
| `Lifecycle.TerminalIsFinal` | internal/jobs/state.go:30-32 | Where a plain run has brought a job to SUCCESS or FAILED, no continuation whose writes meet their guards leaves it. |
| `Lifecycle.TerminalStaysIff` | internal/jobs/state.go:30-32 | Once a plain run has brought a job to SUCCESS or FAILED, its row reads so throughout a continuation if and only if no late QUEUED and no late RETRY is written for it; no other write reopens it. |
| `Course.MoveObeysIffGuarded` | internal/jobs/state.go:7-16 | On the course of one job, a move is an edge or a stutter exactly when its guard holds. |
| `Limits.LateQueuedHidesSuccess` | cmd/api/main.go:243-256 | In every deployment and for every job a plain run ends with the job succeeded, nothing left to do, and the row QUEUED. |
| `Limits.LateRetryHidesSuccessIffTwoOwners` | internal/worker/worker.go:198-220 | In any deployment and for any job, a plain run that leaves the succeeded job reading RETRY exists if and only if its two partitions have different owners. |
| `Limits.OverwrittenForGood` | internal/store/db/queries.sql.go:461-470 | A row so overwritten stays as it is in every plain continuation. |
| `Pipeline.PipelineIsSimpleLoop` | internal/worker/worker.go:116-236 | Once all topics are drained, each job's state, attempts, number of runs and number of dead letters are those of the simple loop on the outcomes its handler produced, whatever other jobs did. |
| `Pipeline.ScheduleIndependent` | cmd/retry-router/main.go:60-105 | Two schedules that give a job the same outcomes give it the same end. |
| `Drain.TurnBurnsFuel` | internal/worker/worker.go:163-187 | Every turn of a worker or router lowers a natural number built from remaining attempts, topic, and the alert a health check may still raise, in any plant whose messages have rows. |
| `Drain.SchedulesAreBounded` | cmd/retry-router/main.go:93-105 | No schedule of turns is longer than that number. |
| `Drain.StuckIffDrained` | internal/worker/worker.go:54-66 | No turn is possible exactly when every consumed topic has been read to its end. |
| `Drain.EveryRunEndsSettled` | internal/handlers/health_check.go:32-46 | From any reachable plant every run of turns ends, and when none is left all topics are drained and every job is FAILED with exactly one dead letter, or SUCCESS with none after a run that succeeded. |
| `Atomic.SerialRunsAreCallRuns` | internal/worker/worker.go:58-236 | Every serialised run from a fresh, staffed deployment is a plain call-level run that ends in the same rows, logs, time and handler runs. |
| `Atomic.WorkIsCalls` | internal/worker/worker.go:116-188 | One turn of a worker is its fetch, calls and commit, uninterrupted, with the submission its handler makes. |
| `Atomic.ForwardIsCalls` | cmd/retry-router/main.go:60-105 | One turn of a router is its fetch, wait, republish and commit; that no run can do without the wait is `Punctual.RepublishWaits`. |
| `Atomic.SubmitIsCalls` | internal/jobsubmitter/submitter.go:29-68 | A submission is its insert, publish and state write, or its refusal. |
| `AtomicReaper.SweepIsCalls` | cmd/reaper/main.go:74-121 | A scan and its sweep are calls of one reaper alone. |
| `AtomicReaper.SweepsGoOn` | cmd/reaper/main.go:91-96 | Every call of a reaper, failed or not, leaves it fewer calls to make and only rows it had still to see. |
| `Routing.MessagesMatchRows` | internal/jobs/tier.go:9-29 | On every run, every message on every topic names an existing row, repeats its type, tier, device and payload, lies on a topic of that tier, and has the tier of its type. |
| `Routing.TopicsHoldTheirTypes` | internal/jobs/tier.go:9-29 | On every run, realtime topics and workers hold remote commands only, bulk ones firmware updates only, standard ones the other three types only. |
| `Routing.DeadBranches` | internal/worker/worker.go:122-142 | On every run, no worker ever holds a misrouted message, one without a row, or one without a handler. |
| `Routing.NextGrows` | migrations/000002_jobs.up.sql:12-29 | No step deletes a row, changes its identity or lowers its attempts. |
| `DeadLetter.NoEarlyDeadLetter` | internal/worker/worker.go:176-182 | On every run, crashes, reaps, duplicates and failed calls included, a job on jobs.dlq has had handler failures plus requeues of at least max_attempts. |
| `DeadLetter.ReaperPublishesBounded` | cmd/reaper/main.go:99-120 | On every run, reapers together publish a job at most max_attempts times and no oftener than they requeued it; its attempts never exceed its failures plus requeues. |
| `Idempotency.RepliesAgree` | cmd/api/main.go:193-263 | On every run, all replies with an id for the same (key, type) carry the same id, that of the row of this pair; which requests get one is `Repeats.AnswersExactly`. |
| `Idempotency.OneRowOnePublish` | migrations/000002_jobs.up.sql:31-35 | On every run, one (key, type) has at most one row, published by the submit path at most once. |
| `Repeats.AnswersExactly` | cmd/api/main.go:200-263 | On every run, exactly these events of a submission reply: at the API, a lookup that finds a row, and whatever ends it after its INSERT, a failed publish or QUEUED included; the reply has the request's key and type and the id of the row that has them. |
| `Repeats.RepeatIsAnswered` | internal/idempotency/idempotency.go:49-72 | On every run, a request that finds its key claimed and the claim alive at its GET, with anything of others in between, is answered by its lookup exactly when a row of its key and type exists, with that row's id, and inserts and publishes nothing. |
| `Repeats.LateRepeatGetsNothing` | internal/idempotency/idempotency.go:58-64 | If the claim is gone at its GET, it ends without a reply. |
| `Repeats.ClaimLastsADay` | internal/idempotency/idempotency.go:15-18 | On every run a claim lives for 24 hours from its SETNX, to the nanosecond, whatever other requests do. |
| `Repeats.RepeatWithinADay` | internal/idempotency/idempotency.go:40-73 | On every run, once a row of a key and type is there, a request for them whose GET comes within 24 hours of the moment the key was claimed gets that row's id. |
| `Repeats.RepeatAfterADay` | cmd/api/main.go:220-232 | A later one that takes the claim anew is refused by the unique index: no row, no message, no reply. |
| `Requests.RequestIsCalls` | cmd/api/main.go:167-264 | From any state, the request taken as one function is a plain run of its calls with the same rows, logs, claims and reply, in every branch in which its topic exists. |
| `Authors.RowCarriesRequest` | cmd/api/main.go:214-227 | On every run, a submission that has inserted its row finds there the payload, device, type and key asked for, `{}` for an absent payload, and a budget of 3. |
| `Authors.EveryRowHasItsRequest` | internal/jobsubmitter/submitter.go:34-51 | On every run, every row was inserted by a submission of one of the five types and carries its request for good; from the API its key matches `[A-Za-z0-9_-]{8,128}`; its device exists. |
| `Authors.MessagesDeliverRequests` | cmd/api/main.go:234-244 | On every run, every message on every topic carries the type, device and payload of the request that made its job. |
| `Authors.HandlersGetRequests` | internal/worker/worker.go:116-163 | And so does the message in every worker's hands, which is what its handler gets. |
| `Chronicle.RowTellsItsHistory` | internal/store/db/queries.sql.go:461-470 | On every run, each row reads as the statements executed on it say: the state the last one left, an attempt for each increment and requeue, the first RUNNING since the last requeue as start time, the last SUCCESS or FAILED as finish time, the last error message, and the last heartbeat unless a requeue came after it. |
| `Api.Create` | cmd/api/main.go:220-263 | Insert, publish and state write have the effect of a whole submission; a failed insert is an internal error, a failed publish is answered with the id in ACCEPTED. |
| `Api.SubmitJob` | cmd/api/main.go:167-264 | The whole request, with its claim: new rows, logs, claims and reply in every branch. |
| `Api.AnsweredIff` | cmd/api/main.go:193-232 | A well-formed request gets an id exactly when its key is claimed, the claim outlives the read and the row exists, or its key is unclaimed and the row can be inserted. |
| `Api.RepliesNameTheRow` | cmd/api/main.go:200-263 | A reply's id is that of the one row with the request's key and type, and its state is that row's. |
| `Api.RepeatGetsSameIdOrError` | cmd/api/main.go:193-232 | A repeated request creates and publishes nothing; it gets the first id exactly while the claim lives, and an error after that. |
| `Api.RepeatWithinADay` | internal/idempotency/idempotency.go:15-18 | By the clock: the first id while the repeat's GET comes less than 24 hours after the claim, an error from then on. |
| `Api.MalformedIsRefused` | cmd/api/main.go:174-190 | Exactly requests with an unknown type or a key that does not match `[A-Za-z0-9_-]{8,128}` are bad requests, and they change nothing. |
| `Api.ClaimIgnoresType` | internal/idempotency/idempotency.go:40-73 | A second type under a claimed key is refused although the table would take it. |
| `Api.RedisAcquirer.SetNx` | internal/idempotency/idempotency.go:49-55 | Sets the claim exactly when none is live, for the time to live, and changes nothing otherwise. |
| `Api.RedisAcquirer.Acquire` | internal/idempotency/idempotency.go:40-73 | New exactly when no claim was live; an error exactly when a live claim expired before it was read; otherwise the holder of the live claim. |
| `Keys.TopicNamesDevice` | cmd/ingestion/main.go:93-99 | A topic is accepted with device d exactly when it is devices/d/telemetry and d is one level. |
| `Keys.MinuteKeysCollide` | cmd/ingestion/main.go:107-111 | Two minute keys are equal exactly when device and minute are, dashes in device names included, except for a minute before 1970 whose sign is taken for a dash. |
| `Keys.SameMinuteIff` | cmd/ingestion/main.go:111 | The minutes in two keys agree exactly when the two instants fall in one 60-second bucket; before 1970 whole seconds are cut toward zero. |
| `Telemetry.TwoReadings` | cmd/ingestion/main.go:93-116 | After a reading that made a job, and whatever ran in between, a second one that nothing but the first one's row could stand in the way of makes a job of its own exactly when it is of another device or another 60-second bucket; otherwise it is refused and changes nothing. |
| `Keys.AlertKeyInjective` | internal/handlers/health_check.go:36-46 | Two health checks have one alert key only if they are the same job. |
| `Serial.AlertIsRaised` | internal/handlers/health_check.go:32-46 | An unhealthy device raises one alert job for itself, keyed by the check, with the handler's payload; a healthy one raises nothing. |
| `Keys.OneTelemetryRowPerMinute` | cmd/ingestion/main.go:107-115 | On every run, two telemetry rows under the keys of devices d and e at times x and y are one exactly when d is e and x and y fall in one 60-second bucket, and it is published by the submit path at most once. |
| `Keys.OneAlertPerHealthCheck` | internal/handlers/health_check.go:36-46 | On every run, two alert rows are one exactly when their health checks are, and it is published by the submit path at most once. |
| `Keys.RedeliveryChangesNothing` | cmd/ingestion/main.go:107-115 | A redelivered MQTT message in the same 60-second bucket of the clock is refused and changes nothing. |
| `Keys.SecondAlertIsRefused` | internal/handlers/health_check.go:32-46 | A health check run again after its alert raises none, but fails while the device is unhealthy. |
| `Reaping.ReaperDrainsOldestFirst` | cmd/reaper/main.go:74-97 | With one reaper and no other writers, sweeps enough for the n rows stale at the start requeue exactly those first, each once, oldest heartbeat first, before any row whose heartbeat was null or fresh; nothing else changes. |
| `Reaping.SweepPublishesOnce` | cmd/reaper/main.go:99-120 | A sweep publishes each selected row exactly once if its attempts still fit its budget, and nothing else. |
| `Reaping.SweptRows` | internal/store/db/queries.sql.go:400-409 | A sweep requeues each selected row once and leaves every other row alone. |
| `AtomicReaper.ExhaustedRowStaysQueued` | cmd/reaper/main.go:99-110 | A stale row at or past its budget goes back to QUEUED with one attempt more and no message published; if the job was published, a message still to be dealt with, a dead letter or a recorded success remains. |
| `ReaperLoop.Reaper.Requeue` | cmd/reaper/main.go:99-121 | The row is requeued first; then it is published unless its attempts exceed its budget. |
| `ReaperLoop.Reaper.ScanOnce` | cmd/reaper/main.go:74-97 | Scans a batch and sweeps all of it, in order. |
| `ReaperLoop.Reaper.Run` | cmd/reaper/main.go:59-71 | Enough ticks requeue the whole backlog, each row once. |
| `Postgres.JobStore.ReapStaleJobs` | internal/store/db/queries.sql.go:347-398 | The rows RUNNING with a heartbeat more than 60 seconds old, oldest first, distinct, as many as the limit allows and no others. |
| `Postgres.JobStore.CreateJob` | internal/store/db/queries.sql.go:36-79 | Inserts a row with the columns asked for, an absent payload as `{}`, in ACCEPTED with no attempts of 3, exactly when primary key, unique index and foreign key allow it, and changes nothing otherwise. |
| `Postgres.JobStore.FindByKey` | internal/store/db/queries.sql.go:143-173 | Finds a row with the key and type exactly when there is one. |
| `Postgres.JobStore.UpdateJobState` | internal/store/db/queries.sql.go:461-499 | Writes the state; the start time keeps its first value, the finish time follows terminal states, the error keeps its last message; a missing row is an error. |
| `Postgres.JobStore.RequeueJob` | internal/store/db/queries.sql.go:400-434 | Any row, whatever its state, back to QUEUED with one attempt more and no heartbeat or start time. |
| `Kafka.Cluster.Publish` | internal/kafka/producer.go:34-49 | Appends the message under its key, with the trace headers, to the partition the key chooses. |
| `Kafka.Cluster.PublishWithHeader` | internal/kafka/producer.go:56-70 | As Publish, with the caller's header after the trace headers. |
| `Kafka.Cluster.FetchMessage` | internal/kafka/consumer.go:33-57 | The next unread message and its offset; only the read position moves. |
| `Components.Submit` | internal/jobsubmitter/submitter.go:29-68 | Insert, publish and state write in place have the effect of the serialised submission, errors included; without an error the row has what was asked for. |
| `Serial.SubmitDelivers` | internal/jobsubmitter/submitter.go:29-68 | A submission without an error has left a QUEUED row with what was asked for and one message with that row's content, keyed by the device, at the end of the partition the device chooses on its tier's main topic. |
| `Components.HandleFirmware` | internal/handlers/firmware.go:23-61 | The handler in place has the effect of the serialised one: an undecodable payload leaves nothing, every push leaves an entry, an applied one the version. |
| `Components.HandleHealthCheck` | internal/handlers/health_check.go:19-47 | The same for the health check and the alert it raises. |
| `Components.RunHandler` | internal/handlers/registry.go:10-18 | The registry's handler for the message has the serialised effect. |
| `Components.Worker.SendToRetry` | internal/worker/worker.go:190-220 | Publish with a retry instant in the window of this attempt, then RETRY, then the attempt; a failed publish changes nothing. |
| `Components.Worker.SendToDlq` | internal/worker/worker.go:222-236 | Publish, then FAILED; a failed publish changes nothing. |
| `Components.Worker.ProcessOne` | internal/worker/worker.go:116-188 | One message in place has the effect of the serialised processing, in every branch, and its error. |
| `Components.Worker.Run` | internal/worker/worker.go:51-114 | The loop has the effect of one serialised turn for each readable partition polled. |
| `Components.WorkerLoopIsSchedule` | internal/worker/worker.go:51-114 | What the loop does is a serialised schedule of worker turns. |
| `Components.Router.ReadRetryAt` | cmd/retry-router/main.go:71-79 | The last parseable retry-at header, or the time now. |
| `Components.Router.Poll` | cmd/retry-router/main.go:60-105 | Wait, republish under the same key without the header, commit only if that worked. |
| `Components.Router.Drain` | cmd/retry-router/main.go:50-106 | The loop has the effect of one serialised iteration for each readable partition polled. |
| `Components.RouterLoopIsSchedule` | cmd/retry-router/main.go:50-106 | What the loop does is a serialised schedule of router turns. |
| `Components.HandleMessage` | cmd/ingestion/main.go:93-116 | One MQTT message in place has the effect of the serialised ingestion; without an error its row is keyed by the device its topic names and the minute of the clock. |
| `Serial.RetryWaitsItsDelay` | cmd/retry-router/main.go:71-91 | A retry is republished no earlier than half the base delay less the second lost to truncation, and not held beyond one and a half times it. |
| `Broker.RetryAtRoundTrip` | internal/worker/worker.go:198-205 | The router reads back the retry instant the worker wrote, cut to whole seconds, whatever headers came first. |
| `Text.FormatParse` | cmd/retry-router/main.go:73-78 | Every 64-bit number survives being printed and parsed. |
| `Text.ParseIff` | cmd/retry-router/main.go:73-78 | What is parsed: decimal digits, at least one, with or without a sign, of a value that fits 64 bits. |
| `Heartbeat.LiveRunIsNeverReaped` | internal/worker/worker.go:152-161 | Starting with no heartbeat or one at most 50 seconds old, beaten every 10 seconds and disposed of within 60 seconds of the last beat, a run is selected by no scan at any time. |
| `Heartbeat.ReapedAliveIffOldHeartbeat` | internal/store/db/queries.sql.go:347-355 | Under these timing rules a run can be found stale exactly when it starts with a heartbeat more than 50 seconds old. |
| `Heartbeat.StartHeartbeat` | internal/worker/worker.go:238-256 | The ticker writes only the row's heartbeat, at every interval, and keeps the timing rules. |
| `StaleRuns.TendedIsNeverScanned` | internal/worker/worker.go:238-256 | On every run, with any other writers, crashes and failed calls interleaved, a job is in no scanned batch as long as every scan comes at most 60 seconds after its last beat. |
| `StaleRuns.ScanFindsIff` | internal/store/db/queries.sql.go:347-355 | A scan can pick a job exactly when its row reads RUNNING with a heartbeat more than 60 seconds old, and picks at most 50. |
| `StaleRuns.BeatsIff` | internal/worker/worker.go:144-161 | A worker beats for a message exactly when it is past the load of its row, and writes the present time. |
| `StaleRuns.LeftoverHeartbeatIsScanned` | internal/store/db/queries.sql.go:461-470 | In every deployment with a reaper and for every job, a plain run leads to a moment at which a worker is in the job's handler for the second time and a scan selects the job all the same. |
| `PastBudget.BudgetIsReached` | cmd/reaper/main.go:74-110 | In every deployment with a reaper and for every job, a run without crashes and failed calls leads to a stale row with max_attempts attempts, the only one a scan selects. |
| `PastBudget.RowPassesBudget` | cmd/reaper/main.go:99-110 | And a run after which the row reads QUEUED with one attempt more. |
| `DeviceOrder.FirstRunsInPublishOrder` | internal/kafka/producer.go:22-40 | In every plain run, with handlers failing at will and any number of partitions and workers, the first runs of the jobs of one device and tier are a prefix of their publishes, in order. |
| `DeviceOrder.HandledInPublishOrderIff` | internal/worker/worker.go:190-220 | In every plain run, all runs of these jobs are a prefix of their publishes if and only if each of them has been run at most once. |
| `DeviceOrder.UnfailedInPublishOrder` | internal/kafka/producer.go:22-40 | So they are as long as no handler of that device and tier has failed, whatever other devices' handlers do. |
| `Overtaking.OneFailureOvertakes` | internal/worker/worker.go:190-220 | In every deployment, any two jobs of one device and tier have a plain run with one failed handler call in which the job published first succeeds after the other one. |
| `Placement.MessagesLieWhereKeyed` | internal/kafka/producer.go:22-25 | On every run, every message lies on the partition its key chooses, the key being its device or its job id, and on retry and dead-letter topics its job id; a message in a worker's hands came from there. |
| `Firmware.VersionIsLatestApplied` | internal/handlers/firmware.go:34-58 | Each device's version is the target of its latest APPLIED entry, or its first version. |
| `Firmware.FirmwareAccounting` | internal/handlers/firmware.go:23-61 | A firmware job with a decodable payload has left one entry per run for its device and target: failed ones for its attempts and then one APPLIED in SUCCESS, max_attempts failed ones in FAILED; the history is exactly what the runs left. |
| `Reasons.ErrorIsLatestReason` | internal/handlers/firmware.go:34-58 | In every serialised run, the error message on the row of a decodable update is the reason of the latest failed entry it left, and there is none without one. |
| `Firmware.UndecodableFirmwareFails` | internal/handlers/firmware.go:27-30 | A firmware job with an undecodable payload leaves no entry, never succeeds, and ends dead-lettered once. |
| `Columns.ColumnsTellTheStory` | internal/store/db/queries.sql.go:461-470 | Finish time exactly when terminal, start time exactly when the handler has run, error message exactly when a run failed, times in order. |
| `Sightings.SeenAtLastAnswer` | internal/handlers/health_check.go:19-31 | In every serialised run a device was last seen at its latest answered health check, healthy or not. |
| `Backoff.WindowIffNoWrap` | internal/retry/backoff.go:17-25 | The delay fits 64 bits and lies within half and one and a half times 5^(n-1) seconds for exactly the attempts 1 to 15. |
| `Backoff.DelaysGrow` | internal/retry/backoff.go:10-25 | Delays of successive attempts grow strictly, whatever the jitters. |
| `Backoff.EarlyAttemptsWaitLikeTheFirst` | internal/retry/backoff.go:17-25 | Attempts below one wait like the first. |
| `Backoff.TotalWindow` | internal/retry/backoff.go:17-31 | A job that exhausts m attempts is scheduled to wait between (5^(m-1)-1)/8 and 3(5^(m-1)-1)/8 seconds in all. |
| `Jobs.TerminalIffNoSuccessor` | internal/jobs/state.go:7-32 | A state is terminal exactly when the table gives it no successor. |
| `Jobs.PredecessorsAre` | internal/jobs/state.go:7-16 | The table read backwards: which states may precede each state. |
| `Jobs.RegistryIsTotalOnValid` | internal/handlers/registry.go:10-18 | A type is valid exactly when it has a tier, and exactly when it has a handler. |

## Left out

- Decoding: messages, payloads and ids are records and strings, so the branches for malformed JSON and malformed UUIDs (in `processOne`, `submitJob`, `Acquire` and `handleMessage`) are absent; ids are whatever the caller of a method supplies as drawn, and an insert with a used id is refused.
- Columns `created_at`, `updated_at`, the alerts, metrics and audit tables, and the width of the 32-bit attempt columns.
- The telemetry, alert and remote-command handlers are the success or failure of their external call; at call level so is every handler, its follow-up submission being a submission of its own.
- Redis eviction and the `idem:` prefix; Kafka's own resends; clock skew between processes and database.
- Metrics, tracing, logging, HTTP routing, MQTT sessions, mock servers, the lag cache, backpressure and the lag exporter: no protocol state.
- RetryNamesItsInstant: for jitters in the range the program draws from and clocks that fit 64 bits.
- RerunsWait: the same.
- RerunWaits: the same.
- RequestIsCalls: with every topic there; a publish that fails is a failed call, which `Repeats.AnswersExactly` covers.
- TwoReadings: from 1970 on.
- NoPublishedJobIsLost: excludes the failed calls of `Losses.FailureLosesIff`, each of which loses jobs.
- FailureLosesIff: is about published jobs; a submission whose own publish fails leaves an ACCEPTED row that nobody publishes, as its reply says.
- EveryContinuationEnds: counts neither the passing of time nor heartbeats; a handler's follow-up submission counts as a new submission, and how many of these there are is bounded for serialised runs only.
- RunsBoundedByReassignments: bounds runs by the retries published, which with crashes may exceed the attempt budget.
- SkippedRetryComesBackIff: requires that no other router holds a message of the partition; `Skips.RestartReadsAgainIff` has the general condition.
- EveryPublishIsInOnePlace: excludes failed calls and crashes, which duplicate or lose messages by design.
- JobsObeyTheTable: excludes crashes, reaps and failed calls, after which several messages of one job are on their way at once.
- HandledInPublishOrderIff: excludes crashes, failed calls and reaps, which read or publish a first message again.
- PipelineIsSimpleLoop: serialised runs in which every topic exists, so no publish fails; no crashes and no reaper.
- EveryRunEndsSettled: the same serialised runs; waiting and new submissions are not turns.
- WindowIffNoWrap: over exact reals; floating-point rounding of the power and the product is not modelled, and from attempt 29 on Go leaves the conversion of the power to 64 bits to the implementation.
- ReapStaleJobs: no other transaction holds row locks; the call-level scan may return any stale rows, which covers SKIP LOCKED.
- StartHeartbeat: one ticker by itself; the call-level machine has the beats of all workers interleaved with everything else, and the serialised one has none.
- Run: the loops are given the partitions they poll and stop at the end of that list, which stands for cancellation between messages; cancellation while the router waits is the router's crash.
- SubmitJob: the clock stands still during the request except between the claim and its read.

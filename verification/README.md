# go2rtc-manager, verified

A Dafny model of the actor protocols of go2rtc-manager, with proofs about every run of them.

**Cleaning and counting.** `StreamCleanerActor` runs one cleanup cycle at a time: it fetches the configured
streams, has each checked, checks the ones that look dead again after a delay, removes those that look dead
twice, and finishes when a plain counter reaches zero. `StreamCountActor` runs the same two checks without
removals and gives up at the first error. `MasterActor` broadcasts go2rtc's replies to both; `Go2RTCActor`
answers requests. Both protocol actors are classes that update their fields in place; each method is proved
against a function on field values. Module `System` puts the four actors together, each with one FIFO mailbox,
their half-made sends and their sleeping goroutines, and lets them interleave freely. Its states project onto two
*lanes* (`CleanerLane`, `CounterLane`), one per requester, and every step of the system is proved to be a
step of a lane or to leave the lane alone. What the lanes keep is therefore true of every run of the system.

**Recording.** `RecordActor` keeps a table of jobs that one goroutine per job reports to, admits a bounded
number of active jobs and forgets finished ones after a retention time, whenever a request comes in. The table is
a field of a class; the goroutine is a step machine, and `executeRecord` is also written out as sequential code and
proved to be that machine running alone. Beside the pruned table the model keeps a history that is never pruned.

**Pure parts.** The object key of a recording with the parser that reads it back, and the recursive test that
decides whether a stream has a producer.

| file | content |
|---|---|
| `Messages.dfy`, `Sums.dfy`, `Pipes.dfy` | messages, sends, weighted sums of messages in flight |
| `StreamCleaner.dfy`, `StreamCount.dfy`, `Go2RTC.dfy`, `Master.dfy` | the four actors |
| `CleanerLane.dfy`, `CleanerSafety.dfy`, `CounterLane.dfy`, `CounterSafety.dfy` | the lanes and their invariants |
| `Audit.dfy`, `Promises.dfy`, `CleanerSchedule.dfy`, `CounterSchedule.dfy` | the sequential two-pass audit and what is owed to it |
| `CleanerProgress.dfy` | the work a cycle can still cause |
| `System.dfy`, `SystemLanes.dfy` | the full system and its projections |
| `SystemSafety.dfy`, `SystemSchedule.dfy`, `SystemProgress.dfy` | safety, schedule independence and work on all its runs |
| `SystemConservation.dfy`, `SystemSummaries.dfy` | actions, summaries and Redis updates across the actors |
| `SystemOrigins.dfy` | what summaries and results owe to their triggers, and how long second checks wait |
| `SystemSettling.dfy`, `SystemEnding.dfy`, `SystemReports.dfy` | why every cycle and count ends, and can be reported |
| `Producers.dfy`, `ObjectKey.dfy` | the producer test, the stream list, the object key |
| `RecordJobs.dfy`, `RecordWorker.dfy` | the recording actor and its goroutine |
| `RecordSystem.dfy`, `RecordSafety.dfy`, `RecordPromises.dfy` | all runs of actor and goroutines, and what they keep |
| `RecordRequests.dfy`, `RecordAnswers.dfy` | what each request is answered, and what each recording comes to |

`dafny verify dfyconfig.toml` checks the project.

## Assumptions

- A mailbox loses nothing and is FIFO; an actor handles one message at a time. The sends of one handler are made
  one after the other, and other actors may act in between.
- The clock does not go backwards, and never shows the zero time. A sleeping goroutine wakes at its due time or
  any time later.
- The two protocol actors have different addresses, so their `RequestedBy` texts differ
  (`cfg.cleanerId != cfg.counterId`).
- Count requests carry distinct times: one ticker goroutine makes them. Cleanup cycles may share a time.
- A call of `Go2RTCActor` to go2rtc or the configuration file is one step, at the time it returns, with any outcome. The
  calls of a recording are one step each, with any outcome that depends on what is asked; a timeout is an error of the
  call it hits.
- Error texts are not empty.
- New job ids are fresh, and `max_concurrent_jobs` is not negative (`config/config.go:183` demands more).

## What turned out differently from the promise

- The documented object key `<site>/<group>/<cam_id>_<TYPE>_<time>.mp4` (`README.md:405`) is not what is built when
  the sanitized site or group is a dot name: `path.Join` resolves it. The key is as promised, and can be read back,
  exactly when site and group are not `.` and the group is not `..` after a site other than `..`
  (`ObjectKey.KeyIsAsPromised`, `ObjectKey.KeyRoundTrip`). Exactly the other keys are shared with a recording of
  another site or group (`ObjectKey.KeyIsShared`); `ObjectKey.DotGroupsCollide` is an instance.
- A bare stream info can be misread when one of its fields is taken for the stream, or for the table of streams. It is
  read right for all values of its fields exactly when its keys contain neither the stream's name nor `streams`, or
  are the name alone, which is not `producers` (`Producers.BareInfoIsReadRight`). An ordinary info of a stream called
  `producers` is an instance (`Producers.BareInfoOfProducers`).

## Model

| member | source | states |
|---|---|---|
| SystemSafety.RemovalsAreSafe | actor/StreamCleanerActor.go:130-157 | In every run a name is removed at most once per cycle, lists with repeats included, and only after a dead first reply and a dead second reply for it whose check times differ by at least the confirmation delay |
| SystemSafety.OutstandingIsInFlight | actor/StreamCleanerActor.go:86-180 | In every reachable state of an audit, `outstanding` equals the number of the cleaner's messages in all mailboxes and half-made sends plus its sleepers |
| SystemSafety.QuietBetweenCycles | actor/StreamCleanerActor.go:49-105 | When no cycle runs, nothing the cleaner could accept is in flight and no suspect is left, and each accepted cycle ended once, in a summary or in an abort |
| SystemSafety.ClampNeverActs | actor/StreamCleanerActor.go:175-180 | Every check or removal reply the cleaner accepts finds `outstanding` positive, so the guard never decides |
| SystemSafety.OutcomesPartitionTheList | actor/StreamCleanerActor.go:110-198 | At a cycle's end alive, removed, failed, not removed and skipped entries add up to the list, the summary reports the first two, and their sum is at most the list's length |
| SystemSchedule.CleanupReportsTheAudit | actor/StreamCleanerActor.go:47-198 | For fixed answers every interleaving that ends a cycle reports the counts of the sequential two-pass audit and requests exactly its removals |
| SystemSchedule.CountReportsTheAudit | actor/StreamCountActor.go:43-151 | For fixed answers every interleaving of a count fails exactly when the list or a deciding check fails, and otherwise reports the audit's alive entries |
| SystemSchedule.CleanupAndCountAgree | actor/StreamCountActor.go:90-139 | A cleanup and a count of the same list under the same answers report the same number of alive streams, under any two schedules |
| SystemSafety.CleanerUndisturbed | actor/MasterActor.go:65-72 | The cleaner's part of any run of the full system is a run of its lane alone, with the same states: the counter's traffic does not change it |
| SystemSafety.CounterUndisturbed | actor/MasterActor.go:65-72 | The counter's part of any run is a run of its lane alone |
| SystemSafety.CounterCountsItsOwn | actor/StreamCountActor.go:45-86 | `outstanding` equals the in-flight work stamped with the running count's time, whatever aborted counts left behind |
| SystemSafety.OneResultPerCount | actor/StreamCountActor.go:123-150 | Accepted count requests, in order, get one result each with their own time; only a running one has none yet |
| SystemSafety.RequestsAreAcceptedOnce | actor/StreamCountActor.go:45-57 | No two accepted count requests carry the same stamp |
| SystemSafety.StaleRepliesChangeNothing | actor/StreamCountActor.go:81-84 | A reply that carries the stamp of a count which already has its result changes no field and no part of a running count's own work; that the stamps differ is proved, not assumed |
| SystemConservation.ActionsMatchSummaries | actor/MasterActor.go:73-93 | Whenever the master has handled a cycle summary, the removal actions it has sent are as many as all summaries so far report |
| SystemSummaries.SummariesAreTheCleaners | actor/StreamCleanerActor.go:190-197 | The summaries the master has handled, then those on their way to it, are those of the cleaner's finished cycles, in order |
| SystemSummaries.UpdatesMatchSummaries | actor/MasterActor.go:79-93 | The cleanup-triggered Redis updates are, in order, one per handled summary with a removal, and no others |
| SystemProgress.CycleIsBounded | actor/StreamCleanerActor.go:62-198 | From the arrival of its list on, a cycle takes at most 36 of its own steps per list entry in the full system |
| SystemSettling.WorkFalls | actor/MasterActor.go:41-114 | A lexicographic measure of the whole system, the located weight of triggers, starts, fetches and lists before that of everything else, falls at every step of either protocol that is not a new trigger or a tick, for any answers |
| SystemEnding.CycleCanEnd | actor/StreamCleanerActor.go:47-198 | From every reachable state, without new triggers and with any scripted answers, the run can go on until nothing is on its way, every accepted cycle has its summary or abort, and every accepted count its result |
| SystemEnding.EveryCycleEnds | actor/StreamCleanerActor.go:47-198 | In every endless execution without new triggers that does not idle forever while something can be done, and whose clock advances, cleaner and counter stop for good and nothing stays on its way |
| SystemReports.AnyListCanBeReported | actor/StreamCleanerActor.go:63-95 | Any run can go on to report a cycle and a count of any list under any script |
| SystemProgress.SystemWorkFalls | actor/StreamCleanerActor.go:62-198 | A weighted count of the cycle's work falls with each of its own deliveries, sends, answers and wake-ups, and no other step changes it |
| RecordPromises.WorkersAreBounded | actor/RecordActor.go:187-227 | In every reachable state the goroutines that have not sent their last report are active jobs of the table, and these are at most `max_concurrent_jobs` |
| RecordPromises.AnswersAgree | actor/RecordActor.go:143-170 | Over any run the actor that prunes gives the same responses, in the same order, as one that never deletes a job and only hides expired ones from queries |
| RecordPromises.TableIsLiveHistory | actor/RecordActor.go:390-412 | The table is the never-deleted history up to expired jobs, has its active count, and is exactly its unexpired part after a query |
| RecordRequests.AdmissionIsExact | actor/RecordActor.go:175-238 | In every reachable state a recording that is asked for becomes a job, with just the request in it, and a goroutine, if and only if the constructor had no error, fewer jobs than `max_concurrent_jobs` are accepted or running, and an id could be made; each refusal has its code, its text and the request sent back |
| RecordRequests.JobsStayReadable | actor/RecordActor.go:240-252 | A job is found, with its full record, if and only if it is active or ended no longer ago than the retention time |
| RecordRequests.QueriesAreAnswered | actor/RecordActor.go:240-252 | A status request is answered 200 with the record under that same condition, 404 otherwise, and changes no record |
| RecordRequests.RequestsPrune | actor/RecordActor.go:143-148 | After either request the table holds exactly the jobs that are active or within the retention time, each as the history has it |
| RecordRequests.ReportsTouchOneJob | actor/RecordActor.go:149-170 | A report changes the record of the job it names, in table and history alike, and nothing else |
| RecordAnswers.RecordsAreTold | actor/RecordActor.go:254-350 | Over any run the whole record of a job and its store calls are what the clock and the answers it met make of it: completed if and only if document, bucket name, key, stream, bucket and object all came without error, with bucket, key and times as derived; otherwise failed with text and time of the first error |
| RecordPromises.HistoryMovesForward | actor/RecordActor.go:149-170 | From any point of a run to any later one a job keeps its request, its status only moves on, and an ended record stays as it is |
| RecordPromises.JobsMoveForward | actor/RecordActor.go:149-170 | The same for the table, which only loses jobs that have expired |
| RecordPromises.PrunedStaysGone | actor/RecordActor.go:390-402 | A pruned job never comes back |
| RecordPromises.OneEndPerJob | actor/RecordActor.go:254-350 | A goroutine reports `running`, then exactly one end, and is finished exactly when it has sent both |
| RecordPromises.GoroutinesEnd | actor/RecordActor.go:254-341 | Whatever the world answers, a goroutine takes at most seven steps |
| RecordPromises.EndsAreTrue | actor/RecordActor.go:282-340 | A completed job made exactly two successful store calls, first its bucket ensured, then one object put there under the recorded key, both derived from the looked-up document and recorded start; a failed job has put no object and has an error |
| RecordPromises.KeysTellTheRecording | actor/RecordActor.go:460-476 | The key of a completed job is read back to its site, group, camera, type and start exactly when site and group keep their segments |
| ObjectKey.KeyIsAsPromised | actor/RecordActor.go:460-476 | The built key is site, group and file name joined by slashes if and only if neither is a dot name that Join resolves; the file name is always as documented |
| ObjectKey.KeyRoundTrip | actor/RecordActor.go:474-475 | For a type without slash or underscore, a right-to-left parser recovers all five sanitized parts from the key if and only if the key keeps its promised form, whatever underscores the camera holds |
| ObjectKey.KeyIsShared | actor/RecordActor.go:474-475 | A recording's key is shared by a recording with other sanitized parts if and only if it does not keep its promised form |
| ObjectKey.KeptKeyIsUnique | actor/RecordActor.go:474-475 | A recording with the same key as one whose key keeps its form has the same sanitized parts |
| ObjectKey.KeyTwin | actor/RecordActor.go:474-475 | For every recording whose key does not keep its form, another one with the same key and other parts |
| ObjectKey.DotGroupsCollide | actor/RecordActor.go:474-475 | An instance: sites `a` and `b` with group `..` get the same key |
| Producers.HasProducerMeans | actor/Go2RTCActor.go:297-324 | A payload has a producer exactly when a path that passes through no object with a `producers` field leads to an object whose `producers` are neither null nor the empty list |
| Producers.ConfigIsListed | actor/Go2RTCActor.go:128-145 | The list of any configuration file is the keys of its first `streams` section, in order and with repeats; without one, or with one that is no mapping, it is the error that says so |
| SystemOrigins.SummaryNamesItsTrigger | actor/StreamCleanerActor.go:49-62 | In every reachable state a running cycle, and a summary, carry time and reason of the trigger the cleaner accepted last |
| SystemOrigins.ResultsNameTheirRequests | actor/StreamCountActor.go:45-151 | Every result carries time and reason of its request; the error of a result is that of the last reply of its count, and a result with an error counts nothing |
| SystemOrigins.CleanupChecksWait | actor/StreamCleanerActor.go:130-148 | A dead first reply of the running cycle, and no other check reply, starts one goroutine, which sends the second check for that stream after the configured delay |
| SystemOrigins.CountChecksWait | actor/StreamCountActor.go:101-117 | The same for the counter, with replies of aborted counts in flight |
| Producers.KeyedInfoIsRead | actor/Go2RTCActor.go:281-295 | An info keyed by the stream's name, or else below `streams`, gives its own verdict, whatever stands beside it; without either the payload itself is judged; an empty producer list is a dead stream |
| Producers.BareInfoIsReadRight | actor/Go2RTCActor.go:164-168 | For a set of keys, every bare info with these keys gives its own verdict if and only if no key is taken for the stream or its table, or the name is the only key and not `producers` |
| Producers.BareInfoOfProducers | actor/Go2RTCActor.go:164-168 | An instance: the ordinary bare info of a stream called `producers` is misread |
| StreamCleaner.StreamCleanerActor.constructor | actor/StreamCleanerActor.go:30-45 | The actor starts idle with no suspects |
| StreamCleaner.StreamCleanerActor.Receive | actor/StreamCleanerActor.go:47-108 | Fields, sends in order and sleeping checks after any message; a message that the guards on `running`, requester and time turn away changes nothing |
| StreamCleaner.StreamCleanerActor.HandleStreamList | actor/StreamCleanerActor.go:67-95 | The list branch: an error aborts without a summary, an empty list is a finished cycle, any other has each entry checked |
| StreamCleaner.StreamCleanerActor.HandleStreamHealth | actor/StreamCleanerActor.go:110-160 | The four outcomes of a check reply, and the skipped repeat |
| StreamCleaner.StreamCleanerActor.HandleStreamRemovalCompleted | actor/StreamCleanerActor.go:162-173 | Only a removal that really happened is counted; every reply settles an entry |
| StreamCleaner.StreamCleanerActor.MarkStreamCompleted | actor/StreamCleanerActor.go:175-180 | One entry less outstanding, and the summary when none is left |
| StreamCleaner.StreamCleanerActor.FinishCycleIfDone | actor/StreamCleanerActor.go:182-198 | Nothing unless a running cycle has nothing outstanding; then it stops and sends its summary |
| Messages.SendFirstChecks | actor/StreamCleanerActor.go:86-95 | The loop over a fetched list sends one first check per entry, in list order |
| CleanerSafety.HandleIs | actor/StreamCleanerActor.go:110-180 | A check or removal reply does one of three things: makes a suspect, asks for a removal, or settles an entry |
| CleanerSafety.DeliveryKeepsShape | actor/StreamCleanerActor.go:96-105 | A handled reply keeps `outstanding` equal to the work in flight |
| CleanerSafety.DeliveryKeepsOrder | actor/StreamCleanerActor.go:86-95 | First checks stay ahead of all second checks on their way, and none is left once a removal was sent |
| CleanerSafety.DeliveryKeepsOnce | actor/StreamCleanerActor.go:150-157 | A name that was sent for removal is never a suspect again in its cycle |
| CleanerSafety.DeliveryKeepsEvidence | actor/StreamCleanerActor.go:137-146 | Each second check goes back to a dead first reply at least the delay earlier, and each removal to two dead replies |
| CleanerSafety.DeliveryKeepsTally | actor/StreamCleanerActor.go:122-173 | The counters equal what the handled replies add up to |
| CleanerSafety.StepKeeps | actor/StreamCleanerActor.go:47-198 | Every step of the cleaner's lane keeps all of its invariants |
| CleanerSchedule.StepKeepsAccount | actor/StreamCleanerActor.go:110-198 | What is counted plus what is promised by messages in flight stays equal to the audit of the list |
| CleanerProgress.WorkFalls | actor/StreamCleanerActor.go:62-198 | Each step of an audit in its lane uses up work |
| CleanerProgress.NeverStuck | actor/StreamCleanerActor.go:130-148 | A running cycle's lane can always step, after at most one tick of the clock |
| StreamCount.StreamCountActor.constructor | actor/StreamCountActor.go:28-41 | The actor starts idle with no suspects |
| StreamCount.StreamCountActor.Receive | actor/StreamCountActor.go:43-88 | Fields, sends in order and sleeping checks after any message; a message that the guards turn away changes nothing |
| StreamCount.StreamCountActor.HandleStreamList | actor/StreamCountActor.go:62-80 | The list branch: an error is reported, an empty list counts zero, any other has each entry checked |
| StreamCount.StreamCountActor.HandleStreamHealth | actor/StreamCountActor.go:90-121 | An error ends the count, a producer or a second dead reply settles an entry, a first dead reply is checked again |
| StreamCount.StreamCountActor.MarkStreamCompleted | actor/StreamCountActor.go:123-130 | One entry less outstanding, and the result when none is left |
| StreamCount.StreamCountActor.Finish | actor/StreamCountActor.go:132-139 | The count stops with its alive count |
| StreamCount.StreamCountActor.FinishWithError | actor/StreamCountActor.go:141-151 | The count stops with an error and forgets its suspects and its outstanding work |
| CounterSafety.StepKeeps | actor/StreamCountActor.go:43-151 | Every step of the counter's lane keeps its invariants, with replies of aborted counts in flight |
| CounterSchedule.StepKeepsAccount | actor/StreamCountActor.go:90-139 | What a running count has counted plus what its own messages promise stays equal to the audit |
| Go2RTC.Receive | actor/Go2RTCActor.go:39-126 | A request gets exactly one reply, of its kind, last, with every stamp of the request and every result of the call; its error is that of the call; `StreamRemoved` is sent exactly when a removal succeeded, and first |
| SystemOrigins.TriggersStartCycles | actor/StreamCleanerActor.go:49-62 | A trigger starts a cycle, with all fields fresh and the list asked for, exactly when none is running |
| SystemOrigins.RequestsStartCounts | actor/StreamCountActor.go:45-57 | A count request starts a count exactly when none is running |
| Master.Receive | actor/MasterActor.go:41-114 | Exactly which messages reach the cleaner, the counter, the action actor and Redis; only check and list replies are sent twice |
| SystemLanes.StepIsCleanerStep | actor/MasterActor.go:57-72 | Every step of the system is one step of the cleaner's lane or leaves it as it is |
| SystemLanes.StepIsCounterStep | actor/MasterActor.go:63-72 | Every step of the system is one step of the counter's lane or leaves it as it is |
| SystemLanes.StepKeepsAddresses | actor/StreamCleanerActor.go:62 | Requests carry their own actor's address, and only the cleaner asks for removals |
| SystemLanes.StepKeepsStamps | actor/MasterActor.go:186-203 | Count requests on their way carry times that no earlier request carried |
| SystemLanes.ForwardsAllReplies | actor/MasterActor.go:65-72 | The broadcast passes each requester exactly its own replies, in order |
| SystemSafety.Reachable | actor/MasterActor.go:41-114 | Every reachable state of the system satisfies the invariants of both lanes |
| SystemConservation.StepKeepsConserved | actor/MasterActor.go:73-93 | Actions sent, removal notices on their way and removals still to be counted stay in balance |
| Producers.PayloadHasProducer | actor/Go2RTCActor.go:297-324 | The loops with early return compute the verdict for every order of keys; a `producers` field decides alone, and null and the empty list are none |
| Producers.StreamVerdict | actor/Go2RTCActor.go:147-169 | Exactly which responses give alive, dead and error, and which error |
| Producers.FindStreamsNode | actor/Go2RTCActor.go:257-279 | Of a document node the first node in it is searched, of any other node itself: the value of the first `streams` key if it is a mapping, and exactly when each error is given |
| Producers.ListStreamNames | actor/Go2RTCActor.go:128-145 | The keys of that mapping in order, with repeats, and exactly when each error is given, an unreadable and an empty configuration included |
| ObjectKey.TrimmedOnBothSides | actor/RecordActor.go:479 | Trimming takes off blanks only, and leaves none at either end |
| ObjectKey.Underscored | actor/RecordActor.go:483-484 | Both kinds of slash, and nothing else, become underscores |
| ObjectKey.SanitizedIsSegment | actor/RecordActor.go:478-485 | A sanitized field is not empty and has no slash |
| ObjectKey.SanitizedMeans | actor/RecordActor.go:478-485 | A field of blanks only is an error that names it; any other is the field without its outer blanks, with both kinds of slash, and nothing else, made underscores |
| ObjectKey.BlankFieldIsNamed | actor/RecordActor.go:460-472 | The key cannot be built exactly when site, group or camera is blank, and the error names the first blank one |
| ObjectKey.FormatReads | actor/RecordActor.go:474 | The printed time read as decimal numbers is year, month, day, `T`, hour, minute, second, `Z` |
| ObjectKey.CleanedThree | actor/RecordActor.go:475 | What Join makes of three segments, in every case of dot names |
| ObjectKey.StampRoundTrip | actor/RecordActor.go:474 | The printed time is read back to its fields |
| ObjectKey.FormatRoundTrip | actor/RecordActor.go:474 | Every time the parser accepts is printed back as it was |
| ObjectKey.ParseRoundTrip | actor/RecordActor.go:460-476 | Every key the parser accepts is the print of what it returns |
| RecordJobs.RecordActor.constructor | actor/RecordActor.go:102-128 | The actor starts with an empty table |
| RecordJobs.RecordActor.Receive | actor/RecordActor.go:143-170 | Table, response and new goroutine after any message: requests prune first, reports touch only a job that is in the table |
| RecordJobs.RecordActor.HandleStartRecord | actor/RecordActor.go:175-238 | Refused with 500 for a constructor error, with 429 if and only if the accepted and running jobs have reached the bound, with 500 if no id could be made, each time with the request sent back and the table as it was; otherwise the job with just the request in it, in table, response and goroutine |
| RecordJobs.RecordActor.PruneExpiredJobs | actor/RecordActor.go:390-402 | Deleting while going through the table in any order keeps exactly the jobs that are accepted, running, without a time of their end, or ended no longer ago than the retention time, and changes none |
| RecordJobs.RecordActor.ActiveRecordJobs | actor/RecordActor.go:404-412 | The loop counts exactly the accepted and running jobs |
| RecordWorker.ExecuteRecord | actor/RecordActor.go:254-341 | Under any readings of the clock the sequential code sends `running` and then one end: completed, with both store calls, if document, bucket, key and the three calls are without error, otherwise failed with the first error and its time; and that is what the step machine does when it runs alone |
| RecordWorker.PlaceIsExact | actor/RecordActor.go:273-292 | Bucket and key are found exactly when the document is there, its bucket name is valid and no part of the key is blank; the error is the first of these that fails |
| RecordWorker.FetchAndStore | actor/RecordActor.go:294-340 | From the request to go2rtc on: for each of the three calls that fails, the report with its text and time and the store calls made by then; if none fails, completion with both store calls |
| RecordWorker.NextFits | actor/RecordActor.go:254-350 | Every step keeps phase, reports and store calls what the answers so far make of them |
| RecordWorker.NextAppends | actor/RecordActor.go:254-350 | A step sends at most one report and makes at most one store call, under the job's id |
| RecordWorker.NextBehaves | actor/RecordActor.go:254-350 | Reports and store calls fit the phase: `running` first, then one end, the bucket before the object |
| RecordSystem.SameTurn | actor/RecordActor.go:143-170 | One message gets the same response from the pruned table as from the history, and leaves them related |
| RecordSystem.Standing | actor/RecordActor.go:149-170 | A job's record is its request changed by the reports that have left the mailbox |
| RecordSafety.ReportFindsItsJob | actor/RecordActor.go:149-170 | A report in the mailbox is about a job that is active and still in the table |
| RecordSafety.StepKeeps | actor/RecordActor.go:130-350 | Every step of actor, goroutine, clock or client keeps the invariants |
| RecordSafety.Reachable | actor/RecordActor.go:130-350 | So every reachable state satisfies them |
| RecordPromises.ReportIsNext | actor/RecordActor.go:149-170 | The next report of an accepted job is `running`, that of a running job its end |

## Left out

- Snapshots, HTTP handlers, the address allow-list, YAML and JSON decoding, URLs, backups, logging, and the calls to
  Redis, MongoDB and MinIO: foreign or library work. Where a protocol depends on an answer, the answer is an arbitrary
  input of the step; the checks of `LookupBodycamInfo` for missing fields are part of such an answer.
- The passing-on of record requests through the master (`actor/MasterActor.go:108-111`), which only forwards them.
- Cron, ticker and process life: triggers are arbitrary outside steps; `Started` and `Stopping` are not modelled, nor
  is spawning.
- `normalizeBucketName` and its pattern: a partial function given from outside.
- How job ids are made (`actor/RecordActor.go:432-438`): freshness is assumed, and `RequestedAt`, which only feeds
  the id, is left out.
- The calendar: how an instant reads in UTC is given from outside, with years of four digits.
- Saturation of time differences at 292 years, floating point in rounding a duration up to seconds, the body and its
  size handed to `PutObject`, and what a failed `PutObject` may leave in the store.
- Error texts of go2rtc's answers: an unexpected status is one text, without the status and body the source adds.
- SystemSafety.RemovalsAreSafe: tells entries of a list apart by name only, because messages carry nothing else; two
  entries of one name have interchangeable replies.
- Go2RTC.Receive: the class around it has no field that a message changes, so it is a method without an object; the
  same holds for the master, whose fields are addresses and timers.
- Producers.ListStreamNames: asks for mappings with as many values as keys, which the YAML decoder guarantees.

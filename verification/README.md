# Verified models of the delivery, scheduling, codec and transaction cores

Dafny models of the parts of this repository whose correctness only shows over whole
runs or whole loops, with proofs. `dafny verify dfyconfig.toml` checks everything.

Code that updates state step by step is modelled by classes and loops with the same
branches; each method is proved equal to a function of the old state, and what the code
promises is proved about those functions and about runs of them.

**Delivery** (`IdempotencyStore`, `DeliveryProtocol`, `DeliveryInvariants`,
`DeliverySteps`, `DeliverySafety`, `DeliveryTheorems`, `DeliveryBounds`,
`OutboundEmitter`, `DeliveryRuns`, `Recovery`, `RecoveryTheorems`,
`RecoveryInterleavings`, `RecoveryOutbox`). Two stores hold a turn's answer: the inbound rows and the
outbox. The protocol is a step machine. A step is one SQL statement, one POST with the
adapter's reply, or one synchronous change of volatile state; a crash may fall between any
two and wipes everything volatile. Two redelivery steps join the prepared hook with the insert or update that follows it, which
loses no crash point because the hook then leaves the rows as they are. The
delivery and recovery code itself is modelled imperatively and shown to be a run of the
machine with the same POSTs and replies, so the theorems about runs hold of it. `Inv` is the invariant: siblings of a
correlation agree, an answer in the outbox is the saved response, a saved response is in
the outbox unchanged or ahead of everything there. A finding the code's comments do not
mention: a waiting row whose recorded attempts already use up the schedule is not POSTed
again by recovery but recorded as failed; `RecoveryCompletes` states that as the exact
exception, and `InterleavingsComplete` for conversations recovered at once. Another: a
message sent again is redelivered through whatever entry is active in its conversation;
when that entry is of another correlation its hook refuses the event, the inbound call
fails, and the saved response stays where it is (`RedeliveryFaultsExactly`). And a third:
when a saved answer did not reach the outbox, recovery sends it alone, and rows of its turn
that were waiting before it wait on (`WaitingAfterRecovery`, `StartWaitsOn`).

**Replay detection** (`Canonical`). The canonical payload decides replay or conflict.
Assigning to the key `__proto__` on a fresh object runs a setter and creates no property,
so a payload canonicalizes like itself without that key; `ToldApartExactly` makes this
the exact boundary.

**Cron** (`Calendar`, `CronExpression`, `NextRun`, `CronScheduler`, `CronTheorems`). The
five-field format of the POSIX.1-2017 `crontab` utility, the search through the civil
calendar, and the tick loop with its persisted anchor. The header of the parser describes
`A/M` as a stepped range; the code yields `A` alone, and the model follows the code. Where
the clock goes back, the wall times of the repeated stretch have two instants each and the
search sees one of them; `PassedOver` says which, and `AnswerAcrossChange` that nothing
else is missed.

**Block YAML** (`JsNumber`, `YamlScalars`, `YamlBlocks`, `YamlRoundTrip`, `YamlText`, `YamlConfig`).
Printer and parser of the command line's configuration. `Image` is what comes back of any
printed value, `Printable` the values that come back as they were; the round trip holds
exactly for those. Numbers are whole doubles, read by rounding to the nearest and printed
by the shortest digits, from 10^21 on with an exponent. Not among the printable: strings
of number form, numbers printed with an exponent, list items that read as a key,
keys every object inherits (the duplicate check uses `in`), and list items whose mapping
has several entries and starts with a compound value.

**Stream decoding** (`Base64`, `RpcChild`). Newline framing and chunk reassembly.

**Message machines** (`AdapterRegistry`, `IngestBuffer`, `IngestTheorems`, `TurnTracker`,
`TurnTheorems`, `TurnLive`). The ambient backlog with its engagement window, and the HTTP adapter's
turns with events that arrive before their turn. A replay shows a non-terminal of the same
sequence as the kept terminal too, because the sort is stable and the terminal comes last.

**File plans** (`FileTree`, `FilePlanHistory`, `FilePlanEffects`, `FilePlanDirectories`,
`FilePlanRollback`, `FilePlanOutcomes`, `FilePlan`). Checks, staging, undo stack, artifact paths
that follow renames, rollback and both clean-ups, on files and directories, with a failure
injected at any file-system call. Whether `rm` without
`recursive` removes an empty directory or refuses every directory depends on the platform
and is a parameter, `empties`. `Performable` says of plan and tree what the plan demands, and
`Apply` commits exactly then, unless a call fails or eight transaction names in a row are
taken (`nameless`; with names that differ and are used nowhere, `Fresh`, that does not
happen). Two findings the code does not mention. An installed stage
keeps its clean-up flag, so a rollback loses the files that `Lost` traces: the targets of
overwriting writes, and, after moves over a target's path, an untouched original
(`RollbackDeletesMovedFile`). And a directory once recorded as created stays on record, so
an original file that an undone operation has put back at its path is deleted (`Built`,
`RollbackDeletesReplacedFile`); where `rm` refuses directories it may instead keep the file
from coming back, and the rollback reports an error (`Obstructed`). `Lost`, `Built` and
`Obstructed` are functions of plan and tree, so a caller can tell beforehand whether every
failure would be undone in full and without a failing rename (`RestoredWhereverItStops`);
plans as the builders make them are, but for overwritten targets (`WritesRestored`,
`RemovalsRestored`).

Ids, hashes and error texts are opaque values compared for equality; `uuid`, clocks, the
adapter's replies, JSON parsing of a line and the time zone's offset are parameters.

## Model

| member | source | states |
|---|---|---|
| IdempotencyStore.Store.BeginInbound | packages/core/src/idempotency-store.ts:364-432 | a new key is inserted under the offered or the minted correlation; a known key with the recorded hash is classified by its delivery state and keeps its correlation; another hash is a conflict; a known row never changes |
| IdempotencyStore.RepeatIsTold | packages/core/src/idempotency-store.ts:860-880 | what a repeated message is told follows what happened to its correlation since: pending until an answer is saved, then with that answer until it is sent, also once its delivery failed |
| IdempotencyStore.Store.DiscardPendingInbound | packages/core/src/idempotency-store.ts:444-469 | exactly a row that was not ingested and holds no response is deleted; any other is kept and refused |
| IdempotencyStore.Store.MarkIngestComplete | packages/core/src/idempotency-store.ts:475-489 | the ingest track of one open row is completed; otherwise nothing changes |
| IdempotencyStore.Store.SaveResponseForCorrelation | packages/core/src/idempotency-store.ts:627-681 | the sibling scan and the one guarded UPDATE amount to: every pending sibling takes the response and becomes `saved`, or one mismatching sibling leaves all rows as they were, with the first failing check as the error |
| IdempotencyStore.Store.MarkCorrelationSent | packages/core/src/idempotency-store.ts:684-720 | every saved or failed sibling becomes `sent` and loses its error text, unless one sibling does not hold the event, which refuses the whole move |
| IdempotencyStore.Store.MarkCorrelationFailed | packages/core/src/idempotency-store.ts:723-760 | every saved sibling becomes `failed` and keeps its response, under the same all-or-nothing guard |
| IdempotencyStore.Store.GetEntriesByCorrelation | packages/core/src/idempotency-store.ts:794-810 | the siblings of one correlation, each once and no other row |
| OutboundEmitter.OutboxTable.Insert | packages/core/src/outbound-emitter.ts:1073-1132 | a new event id is appended under the next rowid; the identical row is found again; a different payload under the same id is a conflict |
| OutboundEmitter.OutboxTable.MaxSequence | packages/core/src/outbound-emitter.ts:441-453 | the counter an emitter resumes from is the greatest persisted sequence of its correlation, 0 when there is none |
| OutboundEmitter.Emitter.DeliverPayload | packages/core/src/outbound-emitter.ts:1148-1192 | the retry loop leaves both stores and the list of POSTs as the recursion `DeliverOne` says, which `DeliveryOutcome` describes |
| OutboundEmitter.DeliveryOutcome | packages/core/src/outbound-emitter.ts:1148-1192 | said of the adapter's replies alone: the event is POSTed up to the first reply that acknowledges it and whose hook does not throw, and the row is then delivered with the attempts made and its correlation sent; if the schedule holds none, every POST left in it is made and the row becomes a permanent failure; without a target no POST is |
| OutboundEmitter.Emitter.ResumePending | packages/core/src/outbound-emitter.ts:610-643 | every waiting row of the correlation is delivered from its recorded attempts, in ascending sequence |
| OutboundEmitter.ResumeSettles | packages/core/src/outbound-emitter.ts:610-643 | whatever the adapter replies, resuming leaves no row of the correlation waiting: by sequence each goes on from its recorded attempts and ends delivered by an acknowledged POST or with its schedule used up; no other row changes and nothing else is POSTed |
| OutboundEmitter.Emitter.DeliverDurable | packages/core/src/outbound-emitter.ts:1041-1065 | prepared hook, insert, delivery: a throwing hook or a conflicting insert leaves nothing queued |
| OutboundEmitter.Emitter.RetryPermanentFailure | packages/core/src/outbound-emitter.ts:664-695 | the prepared hook runs first; then the row waits again with no attempts and a whole schedule ahead of it |
| OutboundEmitter.Emitter.RedeliverDurable | packages/core/src/outbound-emitter.ts:726-756 | one saved terminal is repaired from each place a crash can leave it: no row, waiting, permanently failed, delivered but not marked |
| OutboundEmitter.Emitter.DeliveredHook | packages/core/src/supervisor.ts:1162-1171 | only replies and errors settle their correlation |
| OutboundEmitter.Emitter.FailedHook | packages/core/src/supervisor.ts:1172-1182 | only replies and errors are recorded as failed; a throw changes nothing |
| OutboundEmitter.Emitter.PreparedHook | packages/core/src/supervisor.ts:1152-1161 | only replies and errors are saved; the rows change as the correlation-wide save says or not at all |
| DeliverySafety.StepKeepsInv | packages/core/src/supervisor.ts:1118-1185 | every step of the protocol (one statement, one POST, one change of volatile state, or a crash) keeps the two-store invariant |
| DeliverySafety.RunKeepsInv | packages/core/src/supervisor.ts:1118-1185 | so does every run, with crashes anywhere |
| DeliveryTheorems.TerminalAgreement | packages/core/src/idempotency-store.ts:627-760 | in every reachable state a correlation has at most one reply or error in the outbox, it is the saved response of every sibling, siblings share delivery state and response |
| DeliveryTheorems.RunFaults | packages/core/src/idempotency-store.ts:627-760 | along every run the internal errors raised are exactly the redeliveries through another correlation's active entry: no save, no hook and no other redelivery ever finds the stores at odds |
| DeliveryTheorems.RedeliveryFaultsExactly | packages/core/src/supervisor.ts:1036-1097 | redelivering a saved response raises an internal error exactly when another correlation is active in the message's conversation, and the error leaves the whole state as it was |
| DeliveryTheorems.RetryOfAnsweredMessageFaults | packages/core/src/supervisor.ts:1052-1085 | a run to such a state: the first message of a conversation is answered, a second opens a turn, and the adapter sends the first again |
| RecoveryTheorems.ThroughRuns | packages/core/src/outbound-emitter.ts:726-756 | an emitter asked to redeliver for another correlation does what that step says: nothing to either store, and no POST |
| DeliveryTheorems.RunIsFinal | packages/core/src/idempotency-store.ts:664-760 | along every run a saved response never changes, `sent` is never left, and no outbox payload changes, even with several emitters delivering one event |
| DeliveryTheorems.SentMeansAcknowledged | packages/core/src/outbound-emitter.ts:1170-1191 | in every run that leads to a `sent` row, an emitter of its correlation POSTed exactly the saved response, payload and all, and the adapter answered 2xx |
| DeliveryTheorems.AckHasPost | packages/core/src/outbound-emitter.ts:1148-1192 | an event becomes acknowledged only by a POST of it that the adapter acknowledged |
| DeliveryTheorems.SequenceOrder | packages/core/src/outbound-emitter.ts:961-964 | in every reachable state, across restarts, rows of a correlation were inserted in the order of their sequences, and delivery chains are queued in that order |
| DeliveryTheorems.PostsAscend | packages/core/src/outbound-emitter.ts:1021-1027 | without a crash in between, an emitter POSTs the same event again or a later one, never an earlier one, live and resumed alike |
| DeliveryBounds.BoundedPosts | packages/core/src/outbound-emitter.ts:1148-1192 | with one deliverer per event, a delivery round costs at most one POST more than there are retry delays, plus one for each crash since it began; without a crash the recorded attempts are the POSTs made |
| DeliveryBounds.ExhaustedMeansAllTried | packages/core/src/outbound-emitter.ts:1185-1192 | when the schedule is exhausted every configured POST was made, plus those whose outcome a crash erased |
| DeliveryRuns.SettleRuns | packages/core/src/outbound-emitter.ts:1148-1192 | the retry loop, from any attempt on, is a run of the protocol machine ending in the same stores, whose POSTs, in order and with their replies, are the ones the loop made and got |
| DeliveryRuns.DeliverRuns | packages/core/src/outbound-emitter.ts:1148-1192 | so is one delivery, with or without a registered adapter |
| DeliveryRuns.DeliverAllRuns | packages/core/src/outbound-emitter.ts:610-643 | so is a whole queue of deliveries |
| Recovery.CoreSupervisor.ListRecoverable | packages/core/src/supervisor.ts:228-256 | the work list holds exactly the correlations with a waiting row or a saved response and some inbound row, each once, with a saved terminal exactly when a sibling is `saved` |
| Recovery.CoreSupervisor.RecoverPending | packages/core/src/supervisor.ts:228-294 | every listed correlation is recovered once: its saved terminal is redelivered, or its waiting rows are resumed in sequence order |
| RecoveryTheorems.InvSound | packages/core/src/supervisor.ts:228-294 | every state the protocol can leave behind meets what recovery relies on |
| RecoveryTheorems.RecoveryRuns | packages/core/src/supervisor.ts:228-294 | whatever the adapter answers, recovery is a run of the protocol machine whose POSTs and replies are recovery's own, so the run-level theorems hold of what it leaves |
| RecoveryTheorems.RecoverySendsAcknowledged | packages/core/src/supervisor.ts:228-294 | whatever the adapter answers: a row that recovery leaves `sent` and whose response was not acknowledged before has a POST of exactly that response among recovery's, and the adapter acknowledged that POST |
| RecoveryTheorems.ItemCompletes | packages/core/src/outbound-emitter.ts:726-756 | with an acknowledging adapter one correlation is completed: every saved row is sent, or recorded as failed when its waiting row has no attempt left |
| RecoveryTheorems.NoNewEvent | packages/core/src/supervisor.ts:228-294 | recovery adds no outbox row but those of terminals saved before it |
| RecoveryTheorems.RecoveryCompletes | packages/core/src/supervisor.ts:228-294 | after a crash at any point and with an acknowledging adapter: every saved row is sent, except exactly those whose outbox row still waits with the schedule used up, which become `failed`; responses never change; only payloads stored before are POSTed; no event is created; and the whole is a run of the machine with the same POSTs |
| RecoveryOutbox.WaitingAfterRecovery | packages/core/src/supervisor.ts:228-294 | whatever the adapter answers, a row that was waiting is still waiting after recovery exactly when no message of its correlation is stored, or a saved answer of it was not itself waiting; rows that were not waiting change only if they are a saved answer's |
| RecoveryOutbox.StartWaitsOn | packages/core/src/supervisor.ts:262-278 | a run to such a state: a turn starts, its answer is saved, and the process dies before the answer is in the outbox; recovery then delivers the answer and leaves the start waiting |
| RecoveryInterleavings.InterleavingsComplete | packages/core/src/supervisor.ts:228-294 | with the recoveries of all correlations interleaved step by step in any way, the outcome is the same: every saved row is sent, or failed exactly when its schedule was already used up, and responses never change |
| RecoveryInterleavings.NeverStuck | packages/core/src/supervisor.ts:228-294 | wherever such an interleaving has got to, everything is recovered or some step can follow |
| RecoveryInterleavings.InterleavingsEnd | packages/core/src/supervisor.ts:249-293 | and it takes no more steps than a bound computed from the work list and the outbox, so it ends |
| Canonical.CanonDecides | packages/core/src/idempotency-store.ts:238-262 | two payloads canonicalize alike exactly when they are equal up to key order at every depth, once the key `__proto__` is struck out of both |
| Canonical.ToldApartExactly | packages/core/src/idempotency-store.ts:238-251 | payloads equal up to key order are recognized and all others told apart exactly when the payload does not use the key `__proto__` at any depth; one that does canonicalizes like itself without it |
| Canonical.Canonicalize | packages/core/src/idempotency-store.ts:238-251 | sorting the keys and assigning them one by one builds the canonical value |
| Canonical.BeginInbound | packages/core/src/idempotency-store.ts:364-432 | against a recorded payload, a payload equal to it up to key order is a replay that gets the original correlation, every other payload is a conflict, and the row stays as it is |
| CronExpression.ReadPartSound | packages/core/src/cron-expression.ts:56-72 | what the element pattern captures is what the element says |
| CronExpression.ReadPartComplete | packages/core/src/cron-expression.ts:56-72 | every text of that form is captured, with those groups and no others |
| CronExpression.CountUp | packages/core/src/cron-expression.ts:76-80 | a plain range holds exactly the values a whole number of steps from its start |
| CronExpression.CountAround | packages/core/src/cron-expression.ts:76-84 | a wrap-around range is stepped along the rotated sequence |
| CronExpression.ParsePart | packages/core/src/cron-expression.ts:60-84 | an element yields exactly the values it denotes, or its first problem |
| CronExpression.ElementMeans | packages/core/src/cron-expression.ts:50-84 | what an element denotes, read off its text: `*` every value, `A` or `A/N` itself alone, `A-B` the range, or round from `A` by the greatest and least value to `B`, every `N`-th counted from the first |
| CronExpression.SevenIsSunday | packages/core/src/cron-expression.ts:87-87 | in the weekday field `7` denotes what `0` does |
| CronExpression.ParseField | packages/core/src/cron-expression.ts:56-90 | a field is a strictly increasing non-empty list of exactly the values denoted by some element, 7 folded to 0 for day-of-week, or the first problem of its elements in order |
| CronExpression.ParseCronExpression | packages/core/src/cron-expression.ts:101-116 | five fields parse to a schedule whose lists hold exactly what the fields denote; a macro, another field count, or the first bad field is the error |
| Calendar.CivilOfDayNumber | packages/core/src/cron-expression.ts:158-165 | the closed day-number formula and the calendar counted out day by day are inverse on every valid date |
| Calendar.DayNumberOfCivil | packages/core/src/cron-expression.ts:158-165 | and the other way round, for every day before and after 1970 |
| Calendar.NextDayNumber | packages/core/src/cron-expression.ts:204-252 | the day after a date has the next number, across months, leap years and centuries |
| Calendar.DayAfter | packages/core/src/cron-expression.ts:240-252 | advancing by one through an overflowing day of month is the next calendar day |
| NextRun.WallToEpoch | packages/core/src/cron-expression.ts:158-165 | the two guesses at an instant for a wall time, compared by their formatted parts |
| NextRun.GapExactly | packages/core/src/cron-expression.ts:142-165 | with one transition nearby there is no instant exactly for wall times inside the gap, and then no offset shows them; in an overlap the instant is the one stated |
| NextRun.SearchDay | packages/core/src/cron-expression.ts:217-240 | one matching day is searched through its listed hours and minutes in order, skipping what is past on the first |
| NextRun.NextRunAfter | packages/core/src/cron-expression.ts:183-253 | the loop over days with its running weekday returns the first candidate that fires and fails exactly when none in the 366 days does |
| NextRun.AnswerIsSound | packages/core/src/cron-expression.ts:217-249 | in any time zone the answer is a whole minute strictly after the reference at which the local wall clock matches |
| NextRun.AnswerIsNamed | packages/core/src/cron-expression.ts:217-249 | the answer's wall clock has a listed minute, hour and month and a listed day: both day fields full, or the one that is not, or, when both are restricted, either; at a fixed offset no earlier minute does |
| NextRun.DayFieldsAreAlternatives | packages/core/src/cron-expression.ts:227-228 | with both day fields restricted the search finds the first of what it finds with either field alone, and nothing exactly when neither finds anything |
| NextRun.LesserOfTwo | packages/core/src/cron-expression.ts:227-228 | at a fixed offset the answer is then the lesser of those two answers |
| NextRun.KnownWeekdays | packages/core/src/cron-expression.ts:211-211 | 1970-01-01 is a Thursday, 2000-01-01 a Saturday, 2024-01-05 a Friday, and each day has the weekday after that of the day before |
| NextRun.AnswerIsLeast | packages/core/src/cron-expression.ts:204-252 | at a fixed offset no matching minute lies between the reference and the answer |
| NextRun.FailsExactly | packages/core/src/cron-expression.ts:204-252 | at a fixed offset the search fails exactly when nothing matches in the 366 local days scanned |
| NextRun.AnswerAcrossChange | packages/core/src/cron-expression.ts:183-253 | with one offset change around, the answer is the earliest matching instant that is not passed over, so the earliest of all exactly when no match before it is; where the clock does not go back none ever is |
| NextRun.FailsAcrossChange | packages/core/src/cron-expression.ts:183-253 | and the search fails exactly when every match in the 366 local days scanned is passed over |
| CronScheduler.ComputeDueFires | packages/core/src/cron-scheduler.ts:612-643 | a skip job is due exactly once when its next match is not after now, for the one match whose successor is, and otherwise not at all; a catch-up job is due for the matches since its anchor in turn, at most five |
| CronScheduler.WhatIsDue | packages/core/src/cron-scheduler.ts:612-643 | the same of the function the loop is proved to compute |
| CronScheduler.Scheduler.VisitJob | packages/core/src/cron-scheduler.ts:557-576 | a first visit anchors, a later one fires what is due, each fire before its record |
| CronScheduler.Scheduler.Fire | packages/core/src/cron-scheduler.ts:646-664 | the run happens before its last-run record, and a crash between them loses the record only |
| CronScheduler.Scheduler.Tick | packages/core/src/cron-scheduler.ts:526-585 | boot runs, then every job; the sleep ends at the soonest next match or after a minute, whichever comes first, and is a minute after a tick cut short |
| CronScheduler.Scheduler.Restart | packages/core/src/cron-scheduler.ts:688-701 | files survive a crash, boot marks do not |
| CronScheduler.Scheduler.Retry | packages/core/src/cron-scheduler.ts:586-597 | a tick that failed is followed by another in the same process, which keeps its boot marks |
| CronTheorems.CatchUpNeverSkips | packages/core/src/cron-scheduler.ts:557-585 | whatever the clock does and wherever a tick fails or the process dies, a catch-up job walks the matches after its anchor one by one; such a failure can repeat one |
| CronTheorems.WalkSkipsNothing | packages/core/src/cron-scheduler.ts:612-643 | such a walk holds every match up to where it stands and nothing else |
| CronTheorems.CatchUpFiresEachOnce | packages/core/src/cron-scheduler.ts:526-585 | when nothing fails the fires are exactly a prefix of the matches after the anchor, each once and in order, despite the cap |
| CronTheorems.FirstVisitAnchors | packages/core/src/cron-scheduler.ts:557-566 | the first visit of a job anchors it at the clock and fires nothing |
| CronTheorems.SkipFiresLatest | packages/core/src/cron-scheduler.ts:612-643 | when nothing fails the fires of a skip job strictly advance and each is the latest match not after its tick |
| CronTheorems.SkipIsSettled | packages/core/src/cron-scheduler.ts:526-585 | after any run, a tick in which nothing fails leaves an anchored skip job with no match due: its record moves exactly if one was, to the one fire the tick logs |
| CronTheorems.CatchUpIsSettled | packages/core/src/cron-scheduler.ts:526-585 | and a catch-up job has fired five more matches or has none left that is due |
| CronTheorems.BootKeepsAnchors | packages/core/src/cron-scheduler.ts:674-685 | boot runs leave every anchor where it was and fire no match |
| CronTheorems.BootsOnce | packages/core/src/cron-scheduler.ts:545-556 | over any run of ticks, retries and restarts a job boots at most once in each process, and only if it asks to |
| CronTheorems.BootsRun | packages/core/src/cron-scheduler.ts:545-556 | after any run, a tick in which nothing fails boots once exactly the jobs that ask to boot and have not booted in this process |
| CronTheorems.OrbitIsEveryMatch | packages/core/src/cron-scheduler.ts:612-643 | at a fixed offset the iterated next match enumerates exactly the matching minutes: firing them all leaves no gap |
| CronTheorems.LatestMatch | packages/core/src/cron-scheduler.ts:612-643 | at a fixed offset what a skip job fires is the last matching minute not after its tick |
| YamlScalars.UnquoteQuote | packages/cli/src/config.ts:243-253 | unquoting a quoted string gives it back, for every string |
| YamlScalars.UnquoteSingle | packages/cli/src/config.ts:244-244 | so does unquoting a single-quoted string in which each quote is doubled |
| YamlScalars.ScalarRoundTrip | packages/cli/src/config.ts:191-219 | a scalar survives printing and parsing exactly when it is neither a string of number form within the finite range nor a number printed with an exponent |
| JsNumber.SafeIsExact | packages/cli/src/config.ts:322-327 | a whole number below 2^53 is printed as its own digits |
| YamlRoundTrip.BlockReads | packages/cli/src/config.ts:63-163 | the lines of a compound value, at any depth and followed by any line further left, parse to the value's image and take nothing of what follows |
| YamlRoundTrip.MapReads | packages/cli/src/config.ts:63-99 | the lines of a mapping add the images of its entries in order, or fail as the first failing entry does |
| YamlRoundTrip.ItemReads | packages/cli/src/config.ts:101-163 | one list item, flat, nested or sharing the dash's line, adds its image or fails as stated |
| YamlRoundTrip.ImageIsSame | packages/cli/src/config.ts:63-219 | the image of a value is the value itself exactly when it is printable |
| YamlText.LexSource | packages/cli/src/config.ts:17-38 | comment stripping, trimming and indentation give back the printed lines exactly |
| YamlText.CommentedTextReads | packages/cli/src/config.ts:17-38 | a printed value reads as its image whatever comments without tabs are added to its text, after its lines or on lines of their own; a hash inside quotes starts none |
| YamlText.HashInsideWord | packages/cli/src/config.ts:270-270 | only white space before it, or the start of the line, makes a hash start a comment |
| YamlText.TextReads | packages/cli/src/config.ts:17-57 | what the parser makes of printed text, for every value with plain distinct keys: its image, a value or a named error |
| YamlText.TextRoundTrip | packages/cli/src/config.ts:17-57 | `parseYaml(stringifyYaml(v))` is `v` exactly for the printable values, of any depth |
| YamlText.NumberFormIsLost | packages/cli/src/config.ts:322-327 | a string of number form within the finite range comes back as the number, rounded to the nearest double |
| YamlText.LargeNumberIsLost | packages/cli/src/config.ts:210-219 | a number printed with an exponent comes back as that text, which the number pattern refuses |
| YamlText.ColonItemIsLost | packages/cli/src/config.ts:101-163 | a plain list item ending in a colon comes back as a mapping |
| YamlText.InheritedKeyIsRefused | packages/cli/src/config.ts:63-99 | a key every object inherits is refused as a duplicate |
| YamlText.CompoundFirstIsRefused | packages/cli/src/config.ts:101-163 | a list item's mapping of several entries whose first value spans lines does not parse |
| YamlText.ArrayNameIsRefused | packages/cli/src/config.ts:128-158 | a list item that begins with an empty list under `__proto__` takes an array for its prototype, so its key `length` is refused as a duplicate |
| YamlConfig.Parse | packages/cli/src/config.ts:17-38 | the line loop computes the parser the theorems are about |
| YamlConfig.Stringify | packages/cli/src/config.ts:55-57 | the printing loops compute the printed text |
| YamlConfig.ReadMapping | packages/cli/src/config.ts:63-99 | the loop over the lines of a mapping |
| YamlConfig.ReadSequence | packages/cli/src/config.ts:101-163 | the loop over the lines of a list |
| YamlConfig.SplitAtColon | packages/cli/src/config.ts:165-189 | the scan for a separating colon outside quotes |
| YamlConfig.CutComment | packages/cli/src/config.ts:255-275 | the scan for a comment outside quotes |
| YamlConfig.WriteYamlValue | packages/cli/src/config.ts:277-320 | the recursive printer |
| Base64.CanonicalExactly | packages/core/src/rpc-child.ts:820-838 | the decode and re-encode check accepts exactly the encodings, and decodes them to their bytes (section 4 of RFC 4648) |
| RpcChild.FramedAppend | packages/core/src/rpc-child.ts:686-695 | the complete lines of a stream and what stays buffered do not depend on a cut |
| RpcChild.CutsDoNotMatter | packages/core/src/rpc-child.ts:686-718 | however the output is cut into data events, what is dispatched and what stays buffered depend on the concatenation alone |
| RpcChild.Independent | packages/core/src/rpc-child.ts:725-886 | in any interleaving, well formed or not, the outcomes for one chunk id are those of its own chunks alone |
| RpcChild.PayloadOnce | packages/core/src/rpc-child.ts:725-886 | a payload sent within the limits comes out once, whole, with its last chunk, however it is interleaved, and leaves nothing pending |
| RpcChild.StepKeepsSound | packages/core/src/rpc-child.ts:840-860 | received bytes are the sum of the stored pieces and never pass the declared length |
| RpcChild.Child.OnStdoutData | packages/core/src/rpc-child.ts:686-695 | the line loop handles the complete lines in order and keeps the rest |
| RpcChild.LinesComeThrough | packages/core/src/rpc-child.ts:686-695 | the complete lines of a stream are those that end in it, trimmed, without the blank ones |
| RpcChild.OneNonEmpty | packages/core/src/rpc-child.ts:686-695 | a line is handled without the white space around it, and a blank one not at all |
| RpcChild.StreamIsTaken | packages/core/src/rpc-child.ts:697-718 | from what the lines parse to: the frames handed on are, in order and each once, those of exactly the lines that hold a frame which is no chunk, the parse errors are exactly the malformed lines, and chunks are handled as if they came alone |
| RpcChild.NextLineAdds | packages/core/src/rpc-child.ts:697-718 | and line by line: the next line adds its own event at the end of the log, a line that is no object adds nothing, and only a chunk changes what is pending |
| RpcChild.PayloadIsLogged | packages/core/src/rpc-child.ts:725-886 | a payload sent within the limits is handed on, whole, by the line that brings its last chunk |
| RpcChild.OutcomesWithinLimits | packages/core/src/rpc-child.ts:725-886 | what comes out was declared, within the limits, in more than one chunk and by the last of them; a chunk that fails drops its sequence, unless its metadata does not even pass |
| RpcChild.Child.ProcessChunk | packages/core/src/rpc-child.ts:725-886 | one chunk changes the entry of its own id only, as the checks in their order say |
| AdapterRegistry.StorageKeyReads | packages/core/src/adapter-registry.ts:398-403 | the storage key gives back adapter id and conversation key, whatever characters they hold |
| AdapterRegistry.StorageKeyInjective | packages/core/src/adapter-registry.ts:398-403 | distinct conversations have distinct keys |
| IngestBuffer.IngestBuffer.Ingest | packages/core/src/ingest-buffer.ts:307-368 | addressed arrivals flush and open the window, ambient ones inside it flush or are held, ambient ones outside it are kept and prune a stale deadline |
| IngestBuffer.IngestBuffer.SweepSettled | packages/core/src/ingest-buffer.ts:383-405 | the loop over all conversations releases exactly the due backlogs, in insertion order of the keys, and renews their windows |
| IngestBuffer.IngestBuffer.Dismiss | packages/core/src/ingest-buffer.ts:415-430 | the window is closed, and true is returned exactly when it was open |
| IngestBuffer.IngestBuffer.RecordInteraction | packages/core/src/ingest-buffer.ts:439-448 | an open window is extended; a closed one stays closed |
| IngestBuffer.IngestBuffer.Inspect | packages/core/src/ingest-buffer.ts:456-471 | a deadline is reported exactly while the window is open |
| IngestTheorems.Isolated | packages/core/src/ingest-buffer.ts:258-478 | over any calls, the replies a conversation gets and the state it ends in are those of its own calls alone |
| IngestTheorems.Conservation | packages/core/src/ingest-buffer.ts:307-405 | all records a conversation was handed, in order, followed by its backlog, are exactly its arrivals in order, each with the parts of its message, its adapter and its time; sweeps are counted under the identity they read off their first record |
| IngestTheorems.EngagementSafety | packages/core/src/ingest-buffer.ts:320-395 | every activation, release and renewal descends from an addressed arrival through renewals less than the window apart, with no dismissal in between |
| IngestTheorems.LazyIsEager | packages/core/src/ingest-buffer.ts:484-486 | with a clock that does not go back, the lazily pruned machine and one that closes its window exactly at the deadline give the same replies |
| IngestTheorems.ExpiryIsExact | packages/core/src/ingest-buffer.ts:336-484 | the same for the whole buffer, seen from any conversation |
| TurnTracker.HttpAgentAdapter.HandleCoreEvent | packages/http-adapter/src/server.ts:495-502 | a remembered event id is answered as a duplicate and changes nothing |
| TurnTracker.HttpAgentAdapter.AcceptEvent | packages/http-adapter/src/server.ts:505-536 | an event goes to the active turn of its correlation, or is kept within the limits for a turn to come |
| TurnTracker.HttpAgentAdapter.RememberEvent | packages/http-adapter/src/server.ts:633-639 | the set and the queue of remembered ids agree and hold the last thousand |
| TurnLive.RecentIsTail | packages/http-adapter/src/server.ts:495-502 | over any run the remembered ids are the last thousand accepted, so an event is accepted exactly when its id is not among those, and none twice within a thousand |
| TurnTracker.HttpAgentAdapter.Begin | packages/http-adapter/src/server.ts:397-458 | the replay loop delivers what was kept, sorted, until the turn is settled |
| TurnTracker.HttpAgentAdapter.DeliverEvent | packages/http-adapter/src/server.ts:556-578 | conversation check, sequence check, push or completion, in that order |
| TurnTracker.HttpAgentAdapter.CompleteTurn | packages/http-adapter/src/server.ts:580-605 | the tracker goes, the last frame is written, the turn resolves |
| TurnTracker.HttpAgentAdapter.FailTurn | packages/http-adapter/src/server.ts:607-631 | the tracker goes, the failure is written, the turn rejects |
| TurnTheorems.EarlyRun | packages/http-adapter/src/server.ts:505-536 | before a turn, its tracker gathers the events accepted for it, those whose id is not among the remembered ones when they come, whatever else the adapter does and however often events are sent again |
| TurnTheorems.TerminalKept | packages/http-adapter/src/server.ts:521-527 | no limit loses a terminal: the first of the least sequence is kept |
| TurnTheorems.ShownIs | packages/http-adapter/src/server.ts:447-449 | what a replay shows rises strictly and is exactly the first arrival of every sequence up to the terminal's |
| TurnTheorems.ShownAllIs | packages/http-adapter/src/server.ts:447-449 | with no terminal a replay shows exactly the first arrival of every sequence, rising |
| TurnTheorems.MismatchRejects | packages/http-adapter/src/server.ts:559-562 | an event of another conversation rejects the turn after what was shown before it |
| TurnTheorems.EarlyReplay | packages/http-adapter/src/server.ts:397-458 | events that come before their turn, in any order, each sent any number of times, and within the limits: the stream gets those up to the sequence of the kept terminal, each sequence once, in increasing order, then that terminal, which settles the turn |
| TurnTheorems.EarlyStream | packages/http-adapter/src/server.ts:437-454 | the frames an attached client receives, in full |
| TurnTheorems.FloodStillSettles | packages/http-adapter/src/server.ts:521-535 | however much of a flood is dropped, a terminal in it settles the turn as it begins |
| TurnTheorems.TurnsAreOrderly | packages/http-adapter/src/server.ts:556-631 | over any run pushed sequences rise strictly, nothing follows a settlement, so each turn settles at most once, and a begun turn is settled or still being played |
| TurnTheorems.FramesTell | packages/http-adapter/src/server.ts:556-631 | over any run each frame has the name of its event's kind, and a turn's last frame is followed at once by its settlement with that event or for that reason |
| TurnLive.LiveRun | packages/http-adapter/src/server.ts:495-578 | a turn under way, whatever other turns begin, end or go on beside it and however often events are sent again: what it adds to the log is what the events accepted for it would make of it alone |
| TurnLive.LiveStream | packages/http-adapter/src/server.ts:556-605 | its client is sent, of those events in the order they arrive, each delta and progress beyond all before it, up to the first terminal; then that terminal, which settles the turn, and nothing after |
| FileTree.RenameBack | packages/cli/src/file-plan.ts:341-373 | renaming a subtree to a free place and back is the identity |
| FileTree.RenameWithout | packages/cli/src/file-plan.ts:341-373 | renaming commutes with files already missing |
| FileTree.MoveReverts | packages/cli/src/file-plan.ts:353-366 | undoing a move restores files and artifact paths as before it |
| FileTree.ParkReverts | packages/cli/src/file-plan.ts:300-330 | bringing a backup back restores files and artifact paths as before it |
| FileTree.InstallReverts | packages/cli/src/file-plan.ts:276-292 | removing an installed file restores the tree, with its stage gone and its artifact still at the target |
| FilePlan.Transaction.RewriteArtifacts | packages/cli/src/file-plan.ts:455-468 | every artifact at or under a renamed path follows it |
| FilePlan.Transaction.Preflight | packages/cli/src/file-plan.ts:181-202 | the checks pass exactly when each operation's demands hold of the tree before the plan, unless a call fails |
| FilePlan.Transaction.StageWrites | packages/cli/src/file-plan.ts:204-241 | each write has one stage under a fresh name; the original files are untouched, also when staging fails |
| FilePlan.Transaction.EnsureDirectory | packages/cli/src/file-plan.ts:408-435 | exactly the missing directories at and above a path are recorded as created, before they are made; a file in the way makes it fail and records nothing |
| FilePlan.Transaction.ApplyMkdir | packages/cli/src/file-plan.ts:243-255 | a directory operation makes what it needs and pushes the undo entry that removes it, or fails with nothing to undo, perhaps having recorded directories it did not make |
| FilePlan.Transaction.ApplyWrite | packages/cli/src/file-plan.ts:257-339 | a write succeeds, or stops at a point its undo entry describes |
| FilePlan.Transaction.ApplyMove | packages/cli/src/file-plan.ts:341-373 | a move succeeds, or stops at a point its undo entry describes |
| FilePlan.Transaction.ApplyRemove | packages/cli/src/file-plan.ts:375-406 | a removal succeeds, or stops at a point its undo entry describes |
| FilePlan.Transaction.Rollback | packages/cli/src/file-plan.ts:470-480 | the loop runs the undo entries last to first, a failed rename back not stopping it, as the recursion on files, directories and artifacts says |
| FilePlanRollback.Unwinds | packages/cli/src/file-plan.ts:470-480 | from wherever a plan halted, a rename back fails exactly when `rm` refuses directories and one made by a later operation is in the way; if none fails, files, artifacts and directories are those of the staged tree again, but for stages taken and directories left over |
| FilePlanRollback.ReturnsUnlessBlocked | packages/cli/src/file-plan.ts:347-366 | a rename can be undone exactly when no directory left over stands where a file was, nor one that holds something where a directory was |
| FilePlanRollback.SweepMade | packages/cli/src/file-plan.ts:508-524 | removing the directories made for an operation, deepest first, removes all of them where `rm` removes empty directories, and none where it refuses |
| FilePlanDirectories.DirsAgree | packages/cli/src/file-plan.ts:98-137 | seen from ordinary paths the directories along a history are those the plan alone determines |
| FilePlan.Transaction.CleanupArtifacts | packages/cli/src/file-plan.ts:482-506 | exactly the files the outcome owns are removed |
| FilePlan.Transaction.CleanupCreatedDirectories | packages/cli/src/file-plan.ts:508-524 | every file that stands at a path on record as a created directory is removed |
| FilePlan.Transaction.Fail | packages/cli/src/file-plan.ts:128-135 | rollback and both clean-ups: stuck exactly when `Obstructed` where `rm` refuses directories; otherwise the original files without those at the paths in `Lost` and in `Built` |
| FilePlan.Transaction.Apply | packages/cli/src/file-plan.ts:98-144 | a rejected plan changes no file; a committed plan leaves exactly its effect and no transaction file; a failed plan gets stuck in its rollback exactly when `rm` refuses directories and `Obstructed` holds, and otherwise leaves the original files but for exactly those in `Lost` and `Built`, wherever it stopped. When no call failed and a free name was found each time, the plan is rejected exactly when some operation's demands do not hold of the tree before it, commits exactly when it is `Performable`, and otherwise stops at the first operation whose demands do not hold of the tree it meets. Twelve calls for each operation are enough, and fresh names always are free |
| FilePlanOutcomes.OneOperationCommits | packages/cli/src/file-plan.ts:98-144 | a plan of one operation commits, in terms of what is there: a move when its source is and its target is not, does not lie in the source and has no file above it; a write when its target is no directory, has no file above it, and is no file either unless it may overwrite; and so on |
| FilePlanOutcomes.NeverOverwrites | packages/cli/src/file-plan.ts:98-144 | a write that may not overwrite never commits over a file, one that was there or one that the plan put there |
| FilePlanOutcomes.AdditionsCommit | packages/cli/src/file-plan.ts:31-66 | a plan of new directories and of writes to different targets commits, in whatever order they come, exactly when each fits the tree and no write's target is a directory that another operation needs |
| FilePlanOutcomes.AdditionsLand | packages/cli/src/file-plan.ts:31-66 | it leaves each target with its content and every other file as it was |
| FilePlanEffects.HistoryOnCourse | packages/cli/src/file-plan.ts:98-137 | operations carried out on the staged tree are the plan's effect on the visible one |
| FilePlanEffects.RolledBackFiles | packages/cli/src/file-plan.ts:128-130 | rollback and clean-up of artifacts: the original files without `Lost` |
| FilePlanEffects.CommittedFiles | packages/cli/src/file-plan.ts:482-506 | the clean-up of a committed plan removes exactly what was hidden |
| FilePlanOutcomes.RestoredWhereverItStops | packages/cli/src/file-plan.ts:98-137 | from plan and tree, before the call: from every point at which the plan can stop it is rolled back to the original files without a failing rename, exactly when none of them is at a path in `Lost` or `Built` of its last stop and, where `rm` refuses directories, the last stop is not `Obstructed` |
| FilePlanOutcomes.WritesRestored | packages/cli/src/file-plan.ts:31-66 | a plan of directories and writes, stopped anywhere and on either platform, is restored without a failing rename exactly when no write it completed found a file at its target |
| FilePlanOutcomes.RemovalsRestored | packages/cli/src/file-plan.ts:68-96 | a plan of removals, and one move, is restored wherever it stops and on either platform |
| FilePlanEffects.LostAreTargets | packages/cli/src/file-plan.ts:257-339 | when no move lands at or above a later target, `Lost` is exactly the set of targets of the completed writes |
| FilePlanEffects.RollbackDeletesMovedFile | packages/cli/src/file-plan.ts:353-366 | a plan without overwriting writes completes three operations from a tree with one file, step by step, fails at the fourth, and its rollback deletes that file |
| FilePlanOutcomes.RollbackDeletesReplacedFile | packages/cli/src/file-plan.ts:131-131 | a plan without writes moves a file away, makes a directory in its place, removes another file and fails: `Lost` is empty, yet the moved file is deleted where `rm` removes empty directories, and cannot come back where it refuses |
| FilePlanOutcomes.StuckRollbackDeletesBackup | packages/cli/src/file-plan.ts:128-130 | with the file removed instead of moved and `rm` refusing directories, the stuck rollback leaves its only copy in a backup that the clean-up then deletes |

## Left out

- `discardPendingInbound` is modelled as a method but is no step of the protocol machine: the supervisor calls it only for a row nothing was accepted for.
- Error texts are not curated and `last_error` is not kept: they are written, never read by the protocol.
- Single-row `saveResponse`, `markSent` and `markFailed`: the supervisor does not use them.
- `turn.cancelled` in the cross-store claims: the hooks skip it; the machine emits and delivers it.
- Database errors: every SQL statement succeeds and is atomic.
- The per-conversation promise chains are guards of the machine's steps; in the machine several emitters may deliver at once.
- Recovery.CoreSupervisor.RecoverPending: recovers its correlations one after another, while the code lets different conversations proceed at once; that is the subject of `RecoveryInterleavings`, whose steps are the machine's.
- The agent process, leases and follow-ups of the supervisor: only the life of an active correlation is kept.
- `Date.UTC` for years 0 to 99, historical offsets with seconds, and calendar eras of the formatter.
- A failing `nextRunAfter` inside a tick: `CronTheorems` takes a next match that always exists; schedule reload, `stop` and the child processes of a run are not part of this model.
- Inline YAML collections (`[a, b]`, `{a: b}`) parse to a named error here; only the empty ones are ever printed.
- Decimal fractions are kept as their literal, not rounded, and are never printed; minus zero is zero.
- Keys that look like array indices change their place in a JavaScript object: the YAML theorems exclude them.
- Lone surrogates: YAML strings are sequences of Unicode scalar values.
- UTF-8 decoding and JSON parsing of a reassembled payload: `RpcChild` stops at the bytes; the ready frame fixes the limits before any chunk.
- Rendering of records into a prompt, and validation of the buffer's options.
- The adapter's HTTP routes, signatures and shutdown; a stream write that does not fit is an arbitrary function of what was written before.
- FilePlan.Transaction.Fail: says nothing of the files once a rename back has failed. They may have come back all the same, by way of another entry, or be lost (`StuckRollbackDeletesBackup`).
- What directories a failed plan leaves behind: the closing claims are about files.
- A rename is that of POSIX.1-2017 `rename()`, and whether it or a `mkdir` fails otherwise is the injected failure; a failed call has no effect, so a partly written stage and a `mkdir` that makes only some directories are not modelled. The calls of a rollback and of the clean-ups fail only where the file system's state makes them.
- FilePlanOutcomes.RestoredWhereverItStops: also counts the stops beyond an operation that the tree at hand would always refuse.
- Symbolic links, the root check, file modes and dry runs are not modelled.
- The clean-up visits artifacts in list order instead of longest path first: each removes its own path, so the files left are the same.
- FilePlan.Transaction.Apply: asks for ordinary paths, because a plan that names the transaction's own temporary files is not modelled.
- Resource pools, OAuth, other adapters, Docker and the command line's checks.

# Verified model of the Uniden R8 collector

This project models the part of the collector that promises to lose nothing and to show nothing
false, and proves those promises for every input, every run and every interleaving. It follows one
alert notification from the radio callback to each of the places it ends up in:

- **Queue** (`Queues`, `Ingest`): the bounded hand-off from the radio callback. It drops its oldest
  records when it is full and accounts for them in a gap record held outside the queue.
- **Wire format** (`Text`, `Wire`, `WireRoundTrip`): one alert payload, split into slots and fields.
  A slot is empty, a detection, or unreadable; which of the three, and what a detection says, is also
  characterised over the text alone.
- **Matching** (`Alerts`, `Matching`, `Scores`): scoring a slot against an open track, how scores
  compare, and the greedy assignment.
- **Tracker** (`Tracks`, `Tracker`): full snapshots turned into start, update and end events.
  `Runs`, `Encounters`, `RunTheorems` and `Histories` prove what any run leaves in the event log,
  `Transitions` exactly what each snapshot adds to it; `Notifications` states it for raw payloads.
- **Session** (`Sessions`, `SessionTheorems`, `LinkSession`, `Screens`, `CutTeardown`): one held link,
  from connect to release, and what it shows.
- **Reconnect** (`Reconnect`): the outer loop, its health gate and its backoff.
- **State files** (`Publish`, `Writing`): ticketed atomic writes by threads that outlive the
  coroutines that asked for them.
- **History** (`Writers`, `HistoryWriter`, `Retention`, `History`): the batching writer thread and the
  retention sweep.
- **Points of interest** (`Layouts`, `Ambiguity`, `PoiDiff`): two walkers over one type-tagged record
  code, the verdict on which layout fits, when that verdict is in doubt, and the diff of two reads.

## How it is built

An operation the program runs step by step is a method of a class (or a loop over a value), proved
equal to a function of the state before; the theorems about whole runs are lemmas about that function.
So `Ingest`, `AlertTrack`, `AlertTracker`, `LinkSession`, `StateDirectory`, `HistoryWriter` and
`History` are classes, and `Queues`, `Tracks`, `Sessions`, `Publish`, `Writers` and `Retention` hold
the functions and the theorems.

Concurrency is modelled as transition systems. `Publish` has one program counter for each writer
thread and a step for each file operation, any of which can fail. `Writers` interleaves every queue
operation of the collector's loop with every operation of the writer thread. `Sessions` moves from
await to await, with the notification callback allowed between any two steps and a cancellation
allowed at any await. A run is an arbitrary sequence of such steps.

What comes from outside is a parameter: clocks and arrival times, the probe's answer, whether each
file or database operation works, jitter draws, decimal parsing, text decoding, coordinate decoding
and distance. Costs, frequencies and seconds are `real`.

## What the proofs found

- The retention reference is the eleventh newest timestamp, not the tenth as the prose of
  `src/uniden_r8/storage.py:590-594` says: `Retention.ElevenBadStampsMoveTheReference` gives the exact count.
- Two layouts can both account for the same blob, so "at most one entry should come back exact"
  (`src/uniden_r8/inspection.py:327-328`) is not a law (`Layouts.BothLayoutsCanBeExact`). It is one for
  exactly the blob lengths under 36 bytes and 37, 41, 46, 47, 49 and 61:
  `Ambiguity.LengthDecidesExactly`.
- A row offered after `stop` began can be accepted, counted as queued and then left behind:
  `Writers.LateRowsCanBeLost`. An accepted row is handed over if and only if, at its offer, the thread
  had not decided to stop and no sentinel was queued: `Writers.HandedOverExactlyWhenStillTaking`.
- A cancellation that lands while the teardown is undoing its subscriptions skips the ends and the
  clearing of the screen: `CutTeardown.ACutTeardownLosesEnds`. That is the only way:
  `SessionTheorems.ReleaseDischargesUnlessCut`.
- The schema-2 file can fall behind the schema-1 file. A schema-1-only publish can overtake it from
  every reachable state (`Writing.APlainPublishOvertakes`), so every interleaving of a list of publishes
  keeps schema 2 at or ahead if and only if each of them writes both documents, as one collector's
  configuration makes it: `Writing.NeverBehindExactlyWhenAllDetail`.

## Model

| member | source | states |
|---|---|---|
| Queues.NothingIsLostUnaccounted | src/uniden_r8/events.py:339-425 | for every sequence of offers, pops and drains, the delivered records (a gap standing for its range), then the pending gap, then the queue, are exactly 1, 2, ..., up to the last number handed out |
| Queues.MetricsAreExact | src/uniden_r8/events.py:265-282 | in every run the length is at most `maxsize`, `depth` is the length, `high_water` the greatest length reached, `accepted` the offers, `dropped` the sum of all gap counts and `gaps` the number of gap records |
| Queues.WhatArrivesIsGenuine | src/uniden_r8/events.py:348-394 | every delivered notification is one that was offered, unchanged; every gap keeps both clocks of the offer that caused its first loss; `latest` is the newest of each kind ever offered |
| Queues.DeliveredAsTheyArrived | src/uniden_r8/events.py:339-394 | a delivered notification carries the number, kind, payload, source and both clocks of the arrival it is numbered for; a gap carries both clocks of the arrival that pushed out the first record it lost |
| Queues.OfferCases | src/uniden_r8/events.py:363-370 | from a reachable queue an offer drops at most one record, and only when the record slots are full |
| Queues.OfferShape | src/uniden_r8/events.py:339-394 | an offer keeps queued numbers consecutive, leaves the oldest undelivered number where it was, and charges each loss to the pending gap |
| Queues.PendingHead | src/uniden_r8/events.py:411-425 | a pop hands over the front of what is pending, the gap first, and what it covers is what the oldest undelivered number moves by |
| Queues.StepHolds | src/uniden_r8/events.py:339-425 | every single operation keeps the accounting and the genuineness of every record |
| Ingest.Ingest.Open | src/uniden_r8/events.py:315-325 | a size below two is refused, and only that |
| Ingest.Ingest.MakeRoom | src/uniden_r8/events.py:363-367 | the eviction loop drops the oldest records into the gap until one more fits |
| Ingest.Ingest.Offer | src/uniden_r8/events.py:339-371 | the queue object after an offer is the specified one, and the returned record is the one enqueued |
| Ingest.Ingest.WidenGap | src/uniden_r8/events.py:373-394 | the gap opens at the first loss and then only widens, keeping both clocks |
| Ingest.Ingest.Pop | src/uniden_r8/events.py:411-425 | the object's pop is the specified one |
| Ingest.Ingest.Drain | src/uniden_r8/events.py:396-409 | the object's drain is the specified one |
| Matching.ToleranceIsPerFamily | src/uniden_r8/events.py:433-439 | bands of one family share one frequency tolerance, so reclassifying a signal does not change it |
| Matching.MatchCostMeaning | src/uniden_r8/events.py:442-497 | a pair is refused exactly on one of four hard disagreements; a score lies between 0 and 2.7, does not depend on which reading came first, and is zero exactly when nothing changed |
| Matching.AssignmentIsStable | src/uniden_r8/events.py:800-824 | a scored pair is left out only when a smaller chosen pair already holds its slot or its track |
| Matching.StableIsUnique | src/uniden_r8/events.py:800-824 | any injective pairing with that property is the greedy one |
| Matching.OrderOfTracksIrrelevant | src/uniden_r8/events.py:807-816 | so the assignment does not depend on the order in which the tracks are visited |
| Matching.GreedyWithinTwo | src/uniden_r8/events.py:817-824 | the assignment is maximal, and any pairing of accepted pairs has at most twice as many |
| Matching.AmbiguousMeaning | src/uniden_r8/events.py:826-832 | a slot is flagged exactly when it is assigned and its two cheapest tracks are within the margin |
| Matching.ScoreOneSlot | src/uniden_r8/events.py:808-814 | the inner scoring loop appends exactly the accepted pairs of its slot, and keeps their costs |
| Matching.TakeGreedily | src/uniden_r8/events.py:817-824 | the greedy loop computes the specified assignment |
| Matching.Assign | src/uniden_r8/events.py:800-833 | the assignment and the ambiguous slots the method returns are the specified ones |
| Scores.TurningCosts | src/uniden_r8/events.py:483-498 | all else equal, a bearing costs nothing if unchanged, 0.3 to an adjacent position, 0.5 if either is unknown and 0.8 from end to end, and never refuses |
| Scores.DriftingCosts | src/uniden_r8/events.py:461-466 | a drift in frequency costs the part of the family's tolerance it uses up |
| Scores.NoFrequencyCosts | src/uniden_r8/events.py:467-471 | a frequency missing on either side costs a half |
| Scores.JumpingCosts | src/uniden_r8/events.py:475-479 | each step of strength costs a tenth |
| Scores.ReclassifyingCosts | src/uniden_r8/events.py:457-459 | another band of the same family costs a half |
| Scores.NearerIsCheaper | src/uniden_r8/events.py:442-498 | what is nearer in bearing, frequency, strength or band, and the same in all else, scores strictly less |
| Scores.CheapestIsTaken | src/uniden_r8/events.py:800-824 | one slot is assigned the track that accepts it for less than any other |
| Scores.NearerIsTaken | src/uniden_r8/events.py:800-824 | of two tracks that differ in one such respect a slot is assigned the nearer, in whichever order they are visited |
| Tracker.AlertTrack.constructor | src/uniden_r8/events.py:549-555 | a new track holds its first sighting in every aggregate |
| Tracker.AlertTrack.Absorb | src/uniden_r8/events.py:560-595 | folding in a sighting updates every aggregate as specified, and reports a change exactly when the publishable view changed |
| Tracker.AlertTracker.OpenTrack | src/uniden_r8/events.py:835-847 | a start takes the next id and leaves the other tracks alone |
| Tracker.AlertTracker.EndTrack | src/uniden_r8/events.py:849-872 | an end removes exactly its track and reports that track's aggregates at the last moment it was seen |
| Tracker.AlertTracker.ObserveSlots | src/uniden_r8/events.py:747-773 | the slot loop over the tracker's objects is the specified fold, and the claimed ids are the matched and the started ones |
| Tracker.AlertTracker.EndQuiet | src/uniden_r8/events.py:780-785 | the end pass charges each unclaimed track one miss and ends exactly those past the tolerance |
| Tracker.AlertTracker.Observe | src/uniden_r8/events.py:719-787 | the tracker object after a snapshot, and the events returned, are the specified ones |
| Tracker.AlertTracker.Close | src/uniden_r8/events.py:789-798 | closing ends every open track, in order, and leaves none |
| Tracks.AssignedAreHeld | src/uniden_r8/events.py:739-761 | an assigned slot always names an open track |
| Encounters.SummarisesAbsorbed | src/uniden_r8/events.py:560-595 | folding in a sighting keeps the track the exact summary of its sightings |
| Encounters.DriftIsBounded | src/uniden_r8/events.py:442-480 | a track's key is that of its latest alert, and with frequencies throughout its spread is at most (samples - 1) tolerances |
| Encounters.CollapseAfter | src/uniden_r8/events.py:569-570 | the direction history is the directions seen, with repeats collapsed |
| Runs.LivesAbsorb | src/uniden_r8/events.py:761-773 | folding a slot into its track keeps the life of every id |
| Runs.LivesEnd | src/uniden_r8/events.py:849-872 | ending a track keeps the life of every id, and ends exactly one |
| RunTheorems.FeedGood | src/uniden_r8/events.py:719-787 | every snapshot keeps the whole invariant: lives, currency, conservation and summaries |
| RunTheorems.ShutGood | src/uniden_r8/events.py:789-798 | so does every loss of the link |
| Histories.EachThreatLivesOnce | src/uniden_r8/events.py:719-798 | in every run ids are issued 1, 2, 3, ...; each has a START, then UPDATEs, then at most one END; and the open tracks are those started and not ended |
| Histories.NothingPublishableIsLost | src/uniden_r8/events.py:560-569 | in every run the last event about an open track shows the band name, strength, frequency, bearing and muting it has now, so suppressed updates lose nothing |
| Histories.EveryAlertIsASample | src/uniden_r8/events.py:719-787 | in every run the alerts fed in are the samples of the open tracks and of the END events |
| Histories.EndsReportTheirSightings | src/uniden_r8/events.py:849-872 | every END reports the peaks, directions, count and duration of exactly the sightings matched to its track, and is ambiguous exactly when one of those matches was close |
| Histories.OpenTracksSummarise | src/uniden_r8/events.py:507-595 | every open track summarises its sightings, keeps one identity, and has drifted at most one tolerance a match |
| Histories.MissesCountReadableSnapshots | src/uniden_r8/events.py:778-785 | an open track's misses are the fully read snapshots since its last match, and are within the tolerance |
| Histories.TimesOutExactly | src/uniden_r8/events.py:778-785 | a snapshot ends a track exactly when it was fully read, did not match it, and the misses now exceed the tolerance |
| Histories.HoldChargesNothing | src/uniden_r8/events.py:778-779 | a held snapshot leaves every unmatched track as it was and resets every matched one |
| Transitions.SnapshotReports | src/uniden_r8/events.py:719-787 | every event of a snapshot in any run, field by field: an unassigned slot starts a track under the next id, an assigned one reports an update exactly when something published changed, and then every track that goes quiet is ended at the last moment it was seen |
| Transitions.SnapshotIsSeen | src/uniden_r8/events.py:747-773 | a snapshot adds to the track of each slot exactly that slot's alert with the snapshot's clocks, and nothing to any other track |
| Transitions.CloseReports | src/uniden_r8/events.py:789-798 | a loss of the link ends every open track, in order, with its number and wall clock, ambiguous if a match of the track ever was, and leaves the next id as it was |
| Alerts.ViewsAreLooks | src/uniden_r8/telemetry.py:900-920 | two alerts are published alike exactly when band name, strength, frequency, bearing and muting agree |
| Text.SplitUndoesJoin | src/uniden_r8/telemetry.py:1056 | splitting undoes joining when no part holds the separator |
| Text.SplitCounts | src/uniden_r8/telemetry.py:1186 | a split gives one part more than there are separators |
| Text.IntRoundTrip | src/uniden_r8/telemetry.py:315-319 | a printed integer reads back |
| Text.IntMeaning | src/uniden_r8/telemetry.py:315-319 | an integer is read from exactly the numerals, with at most one sign and underscores only between digits, at its value from the left |
| Text.StripTakesTheEnds | src/uniden_r8/telemetry.py:285-295 | stripping takes nothing but dropped characters off the two ends, and all of them |
| Wire.ParseAlertSnapshot | src/uniden_r8/telemetry.py:1179-1202 | one slot for each `&` segment, each read as its text says; `rejected_slots` and `unknown_mute_codes` count the unreadable slots and the odd mute codes; recognised exactly when the payload is not blank and every segment is "0" or a readable detection |
| Wire.EverySegmentIsRead | src/uniden_r8/telemetry.py:1046-1198 | for any payload, a slot is empty exactly when its stripped text is "0"; it is a detection exactly when the text has eight fields, the active marker, a strength of 1 to 8 and a band that is documented or a short word; it then says what each field says; and otherwise it is unreadable |
| Wire.TextIsBetweenThePadding | src/uniden_r8/telemetry.py:285-288 | the text of a payload is what is left between its NUL padding, without the whitespace around it |
| Wire.PaddingIsBlank | src/uniden_r8/telemetry.py:1179-1183 | a payload that is nothing but padding is blank, and so never read as "nothing detected" |
| Wire.UncertainMeaning | src/uniden_r8/telemetry.py:1179-1202 | a payload is uncertain exactly when it is blank or some segment is not legible |
| Wire.DecodedInOrder | src/uniden_r8/telemetry.py:1001-1004 | the decoded alerts are those of the active slots, all of them, in slot order |
| WireRoundTrip.SlotRoundTrip | src/uniden_r8/telemetry.py:1046-1145 | a printed canonical alert parses back to itself, field by field |
| WireRoundTrip.WhatIsParsedIsSafe | src/uniden_r8/telemetry.py:1046-1145 | whatever text arrives, a detection read from it has a strength of 1 to 8, only bounded alphanumeric text, and a frequency or a gun identifier only on the bands that carry one |
| WireRoundTrip.PayloadRoundTrip | src/uniden_r8/telemetry.py:1179-1202 | printing any non-empty list of canonical slots and parsing the text gives the same slots, recognised |
| Notifications.UnreadableEndsNothing | src/uniden_r8/collector.py:1203-1211 | in every run, a payload that is blank or has a segment that is not legible ends no track |
| Notifications.UnreadableChargesNothing | src/uniden_r8/collector.py:1203-1211 | nor does it charge a miss: unmatched tracks stay as they were, matched ones are reset |
| Notifications.OnlyReadablePayloadsEnd | src/uniden_r8/collector.py:1190-1211 | a payload ends a track exactly when it is not blank, every segment is legible, no slot matched the track, and the misses now exceed the tolerance |
| SessionTheorems.NoWakeupIsLost | src/uniden_r8/collector.py:1420-1448 | wherever callbacks fire, the streaming loop never sleeps on a queued record with the wake flag down |
| SessionTheorems.AnEmptyQueueIsSleptOn | src/uniden_r8/collector.py:1420-1448 | with nothing queued and nothing arriving, a turn of the loop goes to sleep with the wake flag down |
| SessionTheorems.StreamsOnlySubscribed | src/uniden_r8/collector.py:1343-1371 | a session that got no subscription never enters the streaming loop |
| SessionTheorems.EveryNotificationIsAccountedFor | src/uniden_r8/collector.py:1150-1190 | at every await, records consumed as telemetry or alerts, losses named by consumed gaps, the pending gap and the queued records add up to the notifications offered |
| SessionTheorems.TheTeardownUndoesEverySubscription | src/uniden_r8/collector.py:1372-1394 | in every run the teardown undoes one subscription a step, and releases the link exactly when all are undone |
| SessionTheorems.ConsumedCounts | src/uniden_r8/collector.py:1166-1180 | consuming empties the queue into those counts |
| SessionTheorems.StepInv | src/uniden_r8/collector.py:1300-1488 | every step of a session, at every await and for every outcome, keeps the session's invariant |
| SessionTheorems.EveryStartIsEnded | src/uniden_r8/collector.py:1343-1394 | a released session dispatched an END for every START and left the screen clear, unless a cancellation landed inside its teardown |
| SessionTheorems.ReleaseDischargesUnlessCut | src/uniden_r8/collector.py:1372-1394 | the step that releases the link leaves nothing owed if and only if it does not cut the teardown short, or nothing was owed already |
| SessionTheorems.TheScreenIsClearBetweenSessions | src/uniden_r8/collector.py:508-522 | across any sequence of reconnects, if every session was released without a cancellation inside its teardown, `alerts` and `open_tracks` are empty between sessions |
| Screens.ScreenShowsTheLastPayload | src/uniden_r8/collector.py:504-506 | at every await before release, `alerts` is the first eight detections of the last alert notification consumed, `seq` the number of the last notification, and the tracker is as one snapshot for each alert notification leaves it; telemetry and gaps change none of it |
| Screens.TheSessionRunsTheQueue | src/uniden_r8/collector.py:1150-1180 | over any run the session's queue is a run of the hand-off queue, offered exactly what was heard and delivering exactly what was consumed |
| Screens.ScreenShowsWhatArrived | src/uniden_r8/collector.py:1150-1211 | so the screen never shows anything but detections of a payload that arrived in this session |
| Screens.ReleaseTellsOfTheLoss | src/uniden_r8/collector.py:1386-1394 | the last step of the teardown consumes everything that arrived, tells the tracker of the loss under the last number, and clears the screen |
| Screens.PublishedTracksAreOpen | src/uniden_r8/collector.py:1262-1275 | whenever a session publishes, `open_tracks` is the tracker's open tracks at that moment |
| Screens.OnlyAPublishChangesThem | src/uniden_r8/collector.py:508-522 | and nothing but a publish or the release changes them |
| CutTeardown.ACutTeardownLosesEnds | src/uniden_r8/collector.py:1372-1382 | for any payload that decodes to an alert, a run whose one cancellation is its last act, inside the teardown, and that releases the link with a started track never ended |
| LinkSession.LinkSession.OnNotification | src/uniden_r8/collector.py:1150-1164 | the callback enqueues and wakes, and nothing else |
| LinkSession.LinkSession.Apply | src/uniden_r8/collector.py:1182-1211 | applying a notification over the queue and tracker objects is the specified step, and returns exactly the events it caused |
| LinkSession.LinkSession.Consume | src/uniden_r8/collector.py:1166-1180 | the consuming loop drains the queue in order, as specified, and returns exactly the events it caused |
| LinkSession.LinkSession.Release | src/uniden_r8/collector.py:1386-1394 | the end of the teardown consumes, ends every open track and clears the screen |
| Reconnect.BackoffIsBounded | src/uniden_r8/collector.py:944-955 | every wait is between 4 and 72 seconds |
| Reconnect.BackoffIsMonotone | src/uniden_r8/collector.py:944-955 | for one jitter draw the wait never shrinks as failures mount |
| Reconnect.BackoffIsCentred | src/uniden_r8/collector.py:944-955 | the wait is 5, 10, 20, 40 and then 60 seconds, spread evenly by a fifth either way |
| Reconnect.EveryStartIsGated | src/uniden_r8/collector.py:1585-1617 | in every run each session start directly follows a healthy probe of the gate |
| Reconnect.StartsAreRationed | src/uniden_r8/collector.py:1585-1683 | any window of T seconds holds at most floor(T / 4) + 1 session starts |
| Reconnect.WaitsAreForTheFailures | src/uniden_r8/collector.py:1599-1655 | the backoff is always taken for exactly the consecutive failures since the last session that held |
| Reconnect.EverySleepIsTheWait | src/uniden_r8/collector.py:1599-1683 | in every run a sleep lasts exactly that wait for the consecutive failures so far, cut off at the trial deadline |
| Reconnect.NoStartPastTheDeadline | src/uniden_r8/collector.py:1585-1630 | no session starts at the trial deadline or after it |
| Reconnect.NoStartAfterTheStop | src/uniden_r8/collector.py:1585-1592 | once it is set to stop no session starts, unless the gate had already passed for one |
| Publish.StepKeeps | src/uniden_r8/collector.py:794-836 | every file operation of every thread, failing or not, keeps the protocol's invariant |
| Publish.ReadersSeeWholeDocuments | src/uniden_r8/collector.py:794-836 | in every reachable state a target is absent or holds one whole document, of the highest ticket that landed on it |
| Publish.TargetsNeverGoBack | src/uniden_r8/collector.py:820-826 | no interleaving replaces a document by one with an older ticket |
| Publish.FinishedIsShown | src/uniden_r8/collector.py:882-888 | a publish that finished is what each of its targets shows, unless a newer one is |
| Publish.TheLastTicketStays | src/uniden_r8/collector.py:820-826 | once the last ticket has landed on a target, nothing an older thread still does replaces it there, whatever becomes of its own publish on the other target |
| Publish.TheLastWordStays | src/uniden_r8/collector.py:861-888 | so once the last publish has finished, all of its targets keep showing it |
| Publish.DetailIsNeverBehind | src/uniden_r8/collector.py:861-888 | when every publish writes both documents, the schema-2 ticket is at least the schema-1 ticket, in every reachable state |
| Publish.BehindOnlyAfterAPlainPublish | src/uniden_r8/collector.py:914-941 | if the schema-1 file is ahead, the publish it shows wrote schema 1 only |
| Publish.TemporariesAreOwned | src/uniden_r8/collector.py:811-836 | every temporary belongs to a thread at work on it, cleaning up, or that could not clean up |
| Publish.NothingIsLeftBehind | src/uniden_r8/collector.py:820-836 | a publish that finished, or failed and could unlink, left no temporary |
| Writing.StateDirectory.WriteAtomic | src/uniden_r8/collector.py:794-836 | the write of one document, whichever operation fails, does to the disk and to `_last_written` what is specified |
| Writing.StateDirectory.WriteDocuments | src/uniden_r8/collector.py:882-888 | a directory that cannot be made raises before anything is written; otherwise the targets are written in turn, giving up at the first that raises |
| Writing.WriteIsARunOfItsThread | src/uniden_r8/collector.py:812-836 | that write is an uninterrupted run of its thread in the interleaved protocol |
| Writing.APlainPublishOvertakes | src/uniden_r8/collector.py:861-888 | from any reachable state, a schema-1-only publish issued next can leave the schema-2 file behind, by steps of threads alone |
| Writing.NeverBehindExactlyWhenAllDetail | src/uniden_r8/collector.py:861-888 | for any list of publishes, every interleaving of them keeps the schema-2 file at or ahead of the schema-1 file if and only if each of them writes both documents |
| Writing.Schema2IsOnlyFromDetail | src/uniden_r8/collector.py:861-875 | the schema-2 file shows only a publish that was asked to write it, and stays absent if none was |
| Writing.FinishedShowsWhatWasAsked | src/uniden_r8/collector.py:861-888 | a finished publish, or a newer one, is shown by both files if it asked for both, and by schema 1 in any case |
| Writers.StepKeeps | src/uniden_r8/storage.py:1062-1109 | every operation of the loop and of the thread keeps order, batch sizes, counters and the stop discipline |
| Writers.RowsKeepTheirOrder | src/uniden_r8/storage.py:920-928 | under every interleaving batches handed over, then the batch in hand, then the queue, are the accepted rows in order; batches hold 1 to 64 rows |
| Writers.CountersAreExact | src/uniden_r8/storage.py:1088-1109 | `written` counts rows that landed; `errors` counts rows that did not and prunes that failed; all accepted rows are accounted for |
| Writers.EveryOfferIsCounted | src/uniden_r8/storage.py:920-928 | in every run each offer made is counted once, as queued if the queue had room and as dropped if not |
| Writers.StopCostsNothingQueued | src/uniden_r8/storage.py:876-887 | an exited thread handed over every row accepted before the stop began, even when a full queue swallowed the sentinel |
| Writers.BeforeIsWhenStopBegan | src/uniden_r8/storage.py:880-884 | those are the rows accepted when the stop flag was first set |
| Writers.HandedOverExactlyWhenStillTaking | src/uniden_r8/storage.py:1066-1096 | whatever happens after an accepted offer, a thread that then exits has handed the row over if and only if, at the offer, it had not decided to stop and no sentinel was queued |
| Writers.TurnIsSteps | src/uniden_r8/storage.py:1066-1109 | one turn of the thread's loop is a sequence of steps of the interleaved system |
| Writers.StopEndsTheLoop | src/uniden_r8/storage.py:1066-1096 | from every reachable state with the flag set, the thread left to itself exits within one turn for each queued item, whatever fails, and has handed over every row accepted before the stop |
| Writers.TurnHandsOverWhenDue | src/uniden_r8/storage.py:1082-1096 | from every reachable state a turn hands over the rows in hand as one batch when they are old enough, when there are 64 and when it leaves the loop, and otherwise keeps them |
| Writers.LateRowsCanBeLost | src/uniden_r8/storage.py:876-928 | a run in which a row offered after the stop began is accepted and left behind |
| HistoryWriter.HistoryWriter.FailOpen | src/uniden_r8/storage.py:851-874 | an open that fails or takes too long makes every later offer refused |
| HistoryWriter.HistoryWriter.Offer | src/uniden_r8/storage.py:920-928 | an offer enqueues and counts, drops and counts when full, and is ignored after a failed open or once the thread is gone |
| HistoryWriter.HistoryWriter.Stop | src/uniden_r8/storage.py:876-885 | stopping sets the flag, then queues a sentinel if there is room |
| HistoryWriter.HistoryWriter.RunTurn | src/uniden_r8/storage.py:1066-1109 | one turn of the object's loop is the turn that `Writers.TurnIsSteps` takes apart |
| HistoryWriter.HistoryWriter.RunOut | src/uniden_r8/storage.py:1066-1109 | after the stop flag the loop ends |
| Retention.BudgetKeepsTheNewestKeys | src/uniden_r8/storage.py:616-623 | the row budget keeps exactly the rows with the highest ids |
| Retention.BudgetBoundsEveryTable | src/uniden_r8/storage.py:613-628 | after a prune with a budget every table holds at most that many rows, all from its highest ids |
| Retention.RankCounts | src/uniden_r8/storage.py:531-543 | the rank statistic reaches a stamp exactly when more than ten rows do |
| Retention.NeverMoreThanAQuarter | src/uniden_r8/storage.py:650-660 | no window sweep takes more than a quarter of a table of twenty rows or more, whatever the clocks say |
| Retention.RefusalsAreRecorded | src/uniden_r8/storage.py:650-655 | a table's refusal is recorded exactly when its sweep would have taken too much |
| Retention.FewBadStampsCostNothing | src/uniden_r8/storage.py:570-665 | with more than ten rows, at most ten of them stamped after a limit, no row within the window before that limit is removed |
| Retention.ElevenBadStampsMoveTheReference | src/uniden_r8/storage.py:531-543 | the reference passes a limit exactly when at least eleven rows are stamped after it |
| Retention.ReferenceSurvives | src/uniden_r8/storage.py:632-635 | the rows that define the reference survive the sweep measured against it |
| Retention.PruneIsIdempotent | src/uniden_r8/storage.py:570-668 | with the clock standing still a second prune removes nothing and refuses the same tables |
| Retention.PruneLeavesExactly | src/uniden_r8/storage.py:570-668 | exactly what a prune leaves, in key order: the rows within the budget that are not before min(now, reference) less the days kept, and all of them, refused, where more than a quarter of twenty or more would go; the reference is a stamp that ten others can exceed |
| Retention.NoWindowNoSweep | src/uniden_r8/storage.py:632-635 | without a window a prune leaves exactly the rows within the budget |
| History.History.TrimToBudget | src/uniden_r8/storage.py:613-628 | the budget transaction trims every table or, failing at any statement, none |
| History.History.SweepWindow | src/uniden_r8/storage.py:639-665 | the window transaction sweeps or refuses every table or, failing at any statement, changes none |
| History.History.Prune | src/uniden_r8/storage.py:570-668 | a prune that does not raise is the specified one and returns the rows removed; one that raises changed nothing, or left exactly the committed budget |
| Layouts.WalkWithOffsets | src/uniden_r8/poi_diff.py:228-239 | the offset walker's loop yields the specified records |
| Layouts.RecordBoundaries | src/uniden_r8/inspection.py:269-318 | the boundary walker's loop gives the specified entries |
| Layouts.WalkersAgree | src/uniden_r8/inspection.py:289-318 | for any table of positive lengths the two walkers find the same records at the same offsets |
| Layouts.WalkCovers | src/uniden_r8/poi_diff.py:228-239 | the records found are well formed and their concatenation is the prefix consumed |
| Layouts.UniquelyDecodable | src/uniden_r8/poi_diff.py:228-244 | a blob is a concatenation of well-formed records in at most one way |
| Layouts.ExactMeansParses | src/uniden_r8/inspection.py:338-364 | `exact`, `complete`, and being a non-empty concatenation of well-formed records are one condition |
| Layouts.EvaluateLayouts | src/uniden_r8/inspection.py:321-370 | one verdict for each layout, exact ones first, then by bytes consumed, ties in order |
| Layouts.TiesKeepTheirOrder | src/uniden_r8/inspection.py:369-370 | verdicts that tie stay in the order of their layouts |
| Layouts.VerdictMeaning | src/uniden_r8/inspection.py:338-368 | `bytes_consumed` is where the records found end and nothing more can be read, `records` counts them and one more that runs past the end, `all_fit` denies that one, and `stopped_at` is that place unless all of a blob that is not empty was read |
| Layouts.BothLayoutsCanBeExact | src/uniden_r8/inspection.py:119-130 | one blob that both candidate layouts account for entirely |
| Ambiguity.AmbiguityNeedsThreeRecords | src/uniden_r8/inspection.py:119-130 | a blob that both candidate layouts account for holds at least three records under the longer one, and at least 36 bytes |
| Ambiguity.AtMostOneExactUnlessBothParse | src/uniden_r8/inspection.py:321-370 | at most one reported verdict is exact if and only if the blob is not a concatenation of records under both layouts |
| Ambiguity.LengthDecidesExactly | src/uniden_r8/inspection.py:321-370 | at most one verdict is exact on every blob of n bytes if and only if n is under 36, or is 37, 41, 46, 47, 49 or 61 |
| PoiDiff.CompareBytes | src/uniden_r8/poi_diff.py:260-266 | the first difference is none exactly when the blobs are equal, and otherwise is where they first part |
| PoiDiff.DiffPayloads | src/uniden_r8/poi_diff.py:247-336 | first difference, append, verdicts, records added and the condition of every note are each what the two blobs determine |
| PoiDiff.AddedIsByContent | src/uniden_r8/poi_diff.py:313-330 | between two concatenations of records, a layout's added records are exactly those of the later one that the earlier one did not hold, each with its offset, length, type byte, kind, layout, decoding and distance, and the bytes there are that record |
| PoiDiff.AddedInOrder | src/uniden_r8/poi_diff.py:313-330 | under one layout they are reported once each, in the order they lie in the blob |
| PoiDiff.ReorderingAddsNothing | src/uniden_r8/poi_diff.py:313-316 | writing the same records back in any order adds nothing |
| PoiDiff.AddedComesFromExactLayouts | src/uniden_r8/poi_diff.py:284-330 | records are read only under layouts that account for the whole later blob |

## Left out

- `parse_telemetry` and the GPS and POI groups of a telemetry packet: field lookups with no property across functions.
- `_describe_unreadable` and `_safe_group`: the sanitised text kept with an unreadable slot; the slot's state is modelled.
- Decimal parsing (`_float`), UTF-8 decoding, `decode_point` and great-circle distance: parameters of the model, any total function.
- IEEE rounding: costs, frequencies, durations and backoffs are reals, so a score that differs by rounding alone is not modelled.
- Non-ASCII whitespace, digits and letters in `strip`, `int`, `isalnum` and `upper`: the model's text classes are ASCII.
- An alert's `direction` is one character, as the parser produces it; the tracker of the original would also take a longer string.
- `_apply` and `_dispatch` are taken not to raise, as their documentation promises; an exception inside them is not modelled.
- A callback whose enqueue raises: the queue's `offer` never does, so the count of such failures is not modelled.
- The history, broker and feed copies of a dispatched event: thin clients behind the same call.
- Timing of real sleeps and joins: a sleep lasts at least its length, and a join may give up at any time (`Detach` in `Writers`).
- The outer loop and the streaming loop are transition systems over their awaits, not methods with a loop, because other tasks run between their steps.
- Several processes writing one state directory: tickets and `_last_written` live in one process's memory, and the publish theorems are about one process.
- `umask`, file modes and directory tightening: making the directory and the mode change are operations that can fail, their effect is not modelled.
- Migrating and securing the database, and the SQL text of each row: an open works or fails, a table is a sequence of ids and timestamps, a transaction lands or rolls back whole.
- Recording a prune's outcome in `meta`, and the `pruned` counter of the writer.
- The silence timeout, the health probe's schedule and the heartbeat of the streaming loop: each is one of the arbitrary choices to leave, to publish or to go on.
- `latest_at`, ages, rendering, JSON layout, MQTT, feed, GNSS, pairing, discovery and privacy code.

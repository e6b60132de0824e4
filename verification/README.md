# Verified model of the lead-to-CRM integration

The integration takes lead webhooks from three providers, stores every delivery, normalizes it
into a lead, creates one HubSpot contact for the lead, and mails operators about what failed. This
project models its durable state machines in Dafny and proves what they promise over every run:
crashes between any two steps, requests that take effect late, duplicate deliveries, operator
commands and other people's edits in HubSpot included.

`dafny verify dfyconfig.toml` checks the whole project.

## How it is built

- `Schema` holds the rows and their CHECK constraints. `CrmDelivery`, `HubSpot`, `Normalization`
  and `Notifications` hold the branching as functions of a row and an answer, and each database
  transaction as a relation between two databases. `Reference` and `Queries` hold the reference
  printer and the meaning of `ORDER BY ... LIMIT`.
- `Verdicts`, `Selections`, `IntakeVerdicts` and `NotificationVerdicts` say the same things a second
  time and independently: what each raw answer, stored payload or send does to which columns, and
  which row each transaction picks, without the functions above.
- `Store.Database` is the database as an object. Each method is one transaction and is proved to
  perform exactly the transaction relation; every ordered query is a scan over the rows in
  arbitrary order.
- `System` is a step relation around those same relations: the worker thread with what it holds in
  memory, any number of stalled normalizers, the web process, the operator, HubSpot and the mail
  server. `Valid(site, r)` says that `r` is a finite run. A run is a datatype, so each invariant is
  proved by structural induction, one lemma per kind of step.
- `Worker`, `WorkerCycle` and `NotificationCheck` are the worker's own control flow as methods over
  `Store.Database`. Each returns, as a ghost, the stretch of steps it took, so
  `Worker.StretchProlongsRun` carries every theorem about runs over to the control flow.
  `WorkerLoop` is the cadence of the outer loop.
- `DeliverySafety` has the inductive invariant of delivery; `DeliveryProgress` the measures;
  `DeliveryTheorems`, `Endings`, `DeadEnds`, `ClaimQueue`, `Overtaking`, `RecordSoundness`,
  `EndToEnd`, `LeadContents`, `Finishing`, `PauseAlerts`, `FailureBatches`, `FailureReports`,
  `MailedRows`, `ReportQueue`, `ClusterAlerts` and `ClusterCoverage` the promises. `Scenarios` and `SameInstant` build concrete runs that show a
  condition to be needed.

## What is assumed of the surroundings

- One worker process (docs/06_worker_and_retries.md:3-7); a wall clock that never goes back;
  transactions that either commit or change nothing; no initial pause; an initially empty database.
- From docs/06_worker_and_retries.md:111-130: a create answered with 400, 401, 403, 404, 405, 409,
  423, 429 or 477, or ended by ConnectError, ConnectTimeout or PoolTimeout, has made no contact and
  never will. About every other outcome, a crash included, nothing is assumed: the request may take
  effect at any later moment, or never.
- The provider models, the e-mail rule and the HTTP-date reader are deterministic. Nothing is
  assumed about what they return; a provider model may also let an exception escape. Converting a
  timestamp to UTC is part of the model and raises outside the years 1 to 9999. Where a theorem
  takes `ValidSite`, the settings are positive, as declared.
- `RecordSoundness` alone assumes truthful answers (`Truthful`): a found read quotes an existing
  contact, and a successful create names the contact it made. Contact references are never edited;
  e-mails are, and `everEmails` remembers them.
- Contact ids fit their 64-character column, and configured delays do not leave the range of
  timestamps.

## Where the code and its documentation differ

The model follows the code.

- docs/06_worker_and_retries.md:35 says a SENDING lead is recovered once it reaches the lease.
  The code recovers it only when it is strictly older; at exactly the lease it still blocks.
- docs/06_worker_and_retries.md:236 and :264 say a completed found read resets the error counter. A
  found read that does not match pauses CRM work and leaves both counters alone.
- A due batch with nothing to report is recorded as a success, so the next failure waits a whole
  batch interval.
- Recovering a stale SENDING lead while CRM work is paused is reported as no work
  (`Worker.ProcessOneCrmWork`).

## What turned out not to hold

- Normalization demands names of 1 to 100 characters; the CRM boundary also demands that
  `str.strip` leaves something of them. Nothing makes the provider models refuse a name that only
  `str.strip` regards as blank, U+001C for one. One such lead at the head of the queue stops every
  create for good: `DeadEnds.TransactionsFailIff`, `DeadEnds.BlankNameBlocksForever` and
  `DeadEnds.OneBlankNameIsEnough`.
- Normalization does not always end an event. Converting the timestamp to UTC is outside every
  handler, and `0001-01-01T00:00:00+01:00` is one hour before the first instant UTC can represent.
  Such an event goes round between claim and recovery for good and is never reported:
  `Finishing.CanFinishIff` says that exactly the events whose payload raises are lost in this way,
  `Normalization.BeforeTimeRaises` and `Finishing.OneTimestampIsEnough` give the input and a run.
- A result can be lost although HubSpot has answered. A `Retry-After` date that UTC cannot
  represent, `Fri, 31 Dec 9999 23:59:59 -0100` for one, raises inside the transaction that writes
  the result. A create refused with 429 then ends as UNKNOWN, and a reconciliation read is repeated
  without being counted. Together with the blank names this is all that ever fails:
  `DeadEnds.TransactionsFailIff`.
- The cycle samples its time once, but normalization reads the wall clock anew. A fresh lead can
  therefore be claimable before its own creation time and be overtaken by a retry of a lead that
  was ahead of it: `Overtaking.RetryCutsInIff` says exactly when, `Overtaking.OvertakingNeedsCuts`
  is a run, and `ClaimQueue.SafePlacesAreKept` says which leads are immune.
- Not every technical failure gets into an episode. One that stays below the threshold, or behind
  an open episode, until it is older than the window is never reported
  (`ClusterCoverage.AgedFailuresNeverQualify`); and one that falls on the very instant of a freeze
  which already holds its lead for an earlier failure is passed over
  (`SameInstant.FailureCanMeetItsFreeze` is a run). `ClusterCoverage.FailuresAreAccountedFor` shows
  that there is no third way.

## Model

| member | source | states |
|---|---|---|
| `DeliveryTheorems.AtMostOneEffectiveCreate` | src/project3_crm/crm_delivery.py:97-208 | In every run, of all create requests ever sent for one lead at most one has taken effect or still can. |
| `DeliveryTheorems.NoCreateAfterUncertainty` | src/project3_crm/crm_delivery.py:255-324 | Once a lead is UNKNOWN or finished it stays so, and no create request is ever issued for it again. |
| `DeliveryTheorems.GateSafety` | src/project3_crm/crm_delivery.py:97-130 | At most one lead is SENDING; from claim to commit a create's lead is that one, nothing is paused and no UNKNOWN was due; a reconciliation read runs only while nothing is SENDING. |
| `Endings.SendingEndsAsAnswered` | src/project3_crm/crm_delivery.py:1110-1339 | In every run a lead leaves SENDING exactly as the answer to its own last request prescribes, or for what the reads after a 400 or 409 decided, or because its lease is over; each way with its whole new row. |
| `Endings.UncertainAnswersAreReconciled` | src/project3_crm/crm_delivery.py:1211-1231 | A lead whose last request broke off or was answered with neither a contact nor a 4xx leaves SENDING only for UNKNOWN, due after the initial delay, or at once by recovery after the lease. |
| `Endings.FailuresAreShown` | src/project3_crm/integrations/hubspot.py:316-335 | In every run a lead is FAILED_ESCALATED only if all its requests are known to have made no contact, or its last one was answered with a 4xx outside the nine that have a treatment. |
| `Endings.LeasesAreHonoured` | src/project3_crm/crm_delivery.py:255-324 | A lead claimed at some time leaves SENDING by anything but a result of its own create only when more than the lease has passed since, and then as UNKNOWN due at once. |
| `DeadEnds.NoDeadEnds` | src/project3_crm/db/schema.py:195-243 | No run violates a CHECK constraint of any table; and as long as no stored payload gives a name that `str.strip` empties, the only delivery transactions that fail are those lost to a `Retry-After` date. |
| `DeadEnds.TransactionsFailIff` | src/project3_crm/crm_delivery.py:132-230 | A delivery transaction of a run fails if and only if it is a claim behind an open gate whose lead has a blank name, or writes a result whose `Retry-After` date UTC cannot represent while a retry is left to schedule; no consistency error is ever raised. |
| `DeadEnds.BlankNameBlocksForever` | src/project3_crm/crm_delivery.py:132-206 | Once a lead with a blank name is first in the queue and nothing is under way, no lead is ever claimed and no create is ever sent again, in any continuation. |
| `DeadEnds.OneBlankNameIsEnough` | src/project3_crm/normalization/models.py:41-49 | A run with a single delivery reaches that state. |
| `DeliveryTheorems.ReconciliationIsBounded` | src/project3_crm/crm_delivery.py:775-988 | UNKNOWN is entered at most once, its counters stay at most 2, and nine committed reads that do not pause always resolve it. |
| `DeliveryTheorems.NineReadsCanBeNeeded` | src/project3_crm/crm_delivery.py:818-977 | The bound of nine is tight: a miss forgets the errors before it, so some nine reads keep a lead UNKNOWN until the last. |
| `DeliverySafety.RunsAreSafe` | src/project3_crm/crm_delivery.py:1110-1290 | The inductive invariant: a lead that may be sent again has only refused requests; attempts, retries, pauses and counters balance. |
| `DeliverySafety.EvidenceRowOk` | src/project3_crm/crm_delivery.py:775-977 | A reconciliation result leaves UNKNOWN only for SUCCESS or UNKNOWN_ESCALATED, spends patience, and when it pauses leaves counters and due time alone. |
| `DeliverySafety.CreateRowOk` | src/project3_crm/crm_delivery.py:1110-1290 | A create result always leaves SENDING, returns to PENDING exactly when it pauses, and makes a lead sendable again only after an outcome that proves no contact. |
| `DeliveryProgress.CommittedTransitionsAreBounded` | src/project3_crm/crm_delivery.py:1140-1279 | Termination: N leads and C effective clears allow at most 17 N + 2 C + 2 committed transitions, in any interleaving. |
| `DeliveryProgress.CrmMoves` | src/project3_crm/crm_delivery.py:797-977 | Every CRM step commits nothing or exactly one row, and then strictly decreases that row's rank plus the pause credit. |
| `DeliveryProgress.AttemptsAreAccountedFor` | src/project3_crm/crm_delivery.py:178-191 | Attempts equal automatic retries plus returns from a pause plus one for a lead not waiting; in all at most 4 N + C + 1 requests. |
| `ClaimQueue.BoundedOvertaking` | src/project3_crm/crm_delivery.py:132-191 | While any claimable lead waits, the other claims number at most the leads ahead of it at that moment, the pause returns since and the retries that cut in since; new leads never count. |
| `ClaimQueue.SafePlacesAreKept` | src/project3_crm/crm_delivery.py:1189-1208 | Before a lead whose place is less than the shortest retry delay ahead of the worker's clock no retry ever cuts in, in any run. |
| `Overtaking.RetryCutsInIff` | src/project3_crm/crm_delivery.py:1189-1208 | In any run with a create in flight, its lead can come back before another claimable lead if and only if the request can still be refused, a retry is left and its configured delay ends before the other lead's place. |
| `Overtaking.OvertakingNeedsCuts` | src/project3_crm/worker.py:234-243 | A run in which a waiting lead sees more claims than there were leads ahead of it and pause returns. |
| `ClaimQueue.RetrySchedule` | src/project3_crm/crm_delivery.py:211-230 | The k-th retry waits its own configured delay or longer on Retry-After; a fourth never happens; writing it raises if and only if a retry is left and the Retry-After date cannot be converted. |
| `Verdicts.CreateVerdicts` | src/project3_crm/crm_delivery.py:1110-1290 | Answer by answer, what writing the result of a create does to the lead, the pause row and nothing else: status, due time, failure columns, reported action and errors. |
| `Verdicts.BadRequestVerdicts` | src/project3_crm/crm_delivery.py:492-529 | After a 400, by the raw read: a contact with the reference stops CRM work (collision if it is the lead's own, else data integrity), a 404 or an empty answer fails the lead, 401 and 400/403/405 pause. |
| `Verdicts.ConflictOutcomes` | src/project3_crm/crm_delivery.py:532-614 | After a 409, by the two raw reads: the same for the reference, and for the e-mail an existing contact exactly when it quotes the e-mail asked for. |
| `Verdicts.EvidenceVerdicts` | src/project3_crm/crm_delivery.py:775-988 | By the raw read, what reconciliation does: SUCCESS exactly for a contact that quotes the reference and the e-mail (null for a lead without one), a CONFIG pause for any other, and the counters, due times and escalations of misses and errors. |
| `Verdicts.RetryAfterMeaning` | src/project3_crm/crm_delivery.py:211-230 | A header of at most 128 printable characters asks for so many seconds from now, ignored past the last timestamp, or for the date that is read in it, in UTC, which raises when UTC cannot hold it; any other header asks for nothing, and white space around it does not matter. |
| `Selections.ClaimVerdicts` | src/project3_crm/crm_delivery.py:97-208 | A claim takes the first lead in line by due time or creation and id; there is none exactly when the gate is closed, CRM work paused, a reconciliation due or the line empty; an invalid contact leaves everything as it was. |
| `Selections.PrepareVerdicts` | src/project3_crm/crm_delivery.py:646-693 | A read goes to the due UNKNOWN lead that has waited longest, exactly when the gate is not blocked and nothing is paused. |
| `RecordSoundness.RecordsAreSound` | src/project3_crm/crm_delivery.py:565-603 | A SUCCESS lead's record id names a contact with its reference that carried its e-mail, if it has one; an EXISTING_CONTACT lead's names one that carried its e-mail. |
| `RecordSoundness.SuccessRecordsAreDistinct` | src/project3_crm/crm_delivery.py:1140-1161 | No two SUCCESS leads share a record id. |
| `CrmDelivery.ConflictVerdicts` | src/project3_crm/crm_delivery.py:532-614 | After a 409: existing contact exactly when the reference is unknown and the e-mail names its bearer; failed exactly when the deciding read finds or says nothing; otherwise paused, for AUTH exactly on a 401. |
| `HubSpot.ResendableIffNoContactMade` | src/project3_crm/integrations/hubspot.py:225-344 | A category that lets a lead be sent again is reported if and only if the raw outcome establishes that nothing was created; success if and only if a 2xx names a contact. |
| `HubSpot.CreateCategories` | src/project3_crm/integrations/hubspot.py:225-344 | Which raw answers each of the nine categories of a create stands for, both ways; uncertain exactly when the request broke off or was answered with neither a contact nor a 4xx. |
| `HubSpot.ReadCategories` | src/project3_crm/integrations/hubspot.py:347-392 | Which raw answers each category of a read stands for, both ways, and what is kept of the requested properties. |
| `HubSpot.ValidContactIff` | src/project3_crm/integrations/hubspot.py:27-47 | The boundary takes a contact exactly when names and reference hold a character that is no white space and every field keeps its length. |
| `HubSpot.FoundNamesAContact` | src/project3_crm/integrations/hubspot.py:347-392 | A read is FOUND if and only if it is a 200 with a usable body, and then it names a contact by a trimmed id. |
| `EndToEnd.OneEffectiveCreatePerDelivery` | src/project3_crm/db/webhook_events.py:12-39 | End to end: of all requests ever made for one (source, event_id) at most one has taken effect or still can. |
| `EndToEnd.OneLeadPerDelivery` | src/project3_crm/normalization/adapters.py:203-231 | No two leads share source and source event id, although no constraint says so. |
| `EndToEnd.EveryRequestIsForADelivery` | src/project3_crm/crm_delivery.py:1293-1339 | Every create request belongs to a stored event that is NORMALIZED, and carries what normalization makes of that event's payload. |
| `EndToEnd.LeadIffNormalized` | src/project3_crm/normalization/service.py:46-92 | In every reachable state an event has a lead if and only if it is NORMALIZED. |
| `LeadContents.LeadsCarryTheirPayload` | src/project3_crm/normalization/service.py:46-92 | In every run each column of a lead is the field that the provider model reads in the payload of its own event, contacts normalized, timestamp in UTC; a lead that was offered contacts has a good one. |
| `LeadContents.FailedEventsSayWhy` | src/project3_crm/normalization/adapters.py:72-92 | A failed event records CONTACT_VALIDATION if and only if its payload is readable and offers only bad contacts. |
| `EndToEnd.NormalizationIsConfluent` | src/project3_crm/normalization/service.py:46-205 | In any two runs, equal stored events end in the same status, with the same fault or with leads that agree in every column but the ids and the creation time. |
| `EndToEnd.RepairsAreNeverNeeded` | src/project3_crm/worker.py:85-163 | The repair branches are never taken and no unique constraint fires, with any number of stalled normalizers. |
| `EndToEnd.SequentialNormalizationFollowsItsVerdict` | src/project3_crm/normalization/service.py:114-205 | With one sequential worker a normalization ends exactly as its payload dictates: a lead, a recorded fault, or one of the two errors (the payload raises, the sequence is exhausted). |
| `Finishing.CanFinishIff` | src/project3_crm/worker.py:85-217 | From any moment of any run a stored event can still be finished if and only if its payload does not make normalization raise. |
| `Finishing.OneTimestampIsEnough` | src/project3_crm/normalization/models.py:23-32 | A run with a single delivery dated 0001-01-01T00:00:00+01:00 raises while normalizing it and can never finish it. |
| `Normalization.BeforeTimeRaises` | src/project3_crm/normalization/adapters.py:217-225 | A payload with that timestamp makes normalization raise, whatever the rest of it is. |
| `EndToEnd.StoredDeliveriesAreFinal` | src/project3_crm/db/webhook_events.py:21-39 | No duplicate, crash or re-claim overwrites a stored delivery or reopens a finished event. |
| `EndToEnd.ReferencesLeadBack` | src/project3_crm/normalization/service.py:42-92 | Every lead's reference satisfies the column check and its digits are the lead's id. |
| `Reference.ReferenceRoundTrip` | src/project3_crm/normalization/service.py:42-43 | The printed reference is well formed, and parsing its digits gives the id back, for every id. |
| `Reference.ReferencesAreUnique` | src/project3_crm/db/schema.py:191-194 | Different ids print different references. |
| `Reference.ReferenceFitsItsColumn` | src/project3_crm/db/schema.py:118 | Every BIGINT id prints at most 22 characters. |
| `Normalization.NormalizedContactIsValidIff` | src/project3_crm/integrations/hubspot.py:27-47 | What normalization accepts passes the validators of the CRM boundary if and only if `str.strip` empties neither name. |
| `Normalization.BlankNameIsAccepted` | src/project3_crm/normalization/models.py:41-49 | A submission whose first name is U+001C is accepted, and its lead is refused at the CRM boundary. |
| `IntakeVerdicts.PayloadVerdicts` | src/project3_crm/normalization/adapters.py:203-231 | How normalization ends for every payload: rejected by the model or for its contacts, raised, or accepted with exactly these data. |
| `IntakeVerdicts.NormalizeVerdicts` | src/project3_crm/normalization/service.py:114-205 | A claimed event without a lead gets its PENDING lead, column by column, or its recorded fault, or an error that leaves no trace but a used id. |
| `IntakeVerdicts.PersistVerdicts` | src/project3_crm/db/webhook_events.py:12-39 | A delivery that the table admits is stored once, as a RECEIVED row with its payload; an id is used up in every case. |
| `Normalization.NormalizePhone` | src/project3_crm/normalization/adapters.py:51-69 | The counting loop accepts a phone exactly when it has only phone characters, a plus sign at most in front and 7 to 15 digits, and returns it unchanged. |
| `FailureReports.OnlyMailedRowsAreMarked` | src/project3_crm/notifications/service.py:144-269 | A row is marked as notified only with the time of an accepted message that listed it. |
| `MailedRows.AcceptedRowsAreMarked` | src/project3_crm/notifications/service.py:217-258 | Conversely, in every run, when an accepted batch is finished every row that its message listed carries the time of the attempt. |
| `FailureReports.MarksAreFinal` | src/project3_crm/notifications/service.py:272-381 | A mark is set at most once in a run. |
| `ReportQueue.RowsAreReportedInTurn` | src/project3_crm/notifications/service.py:173-269 | Each successful batch that leaves a row unreported takes the full batch size from the rows ahead of it, except a batch that was already under way; k rows ahead delay it by at most floor(k / max) further successful batches. |
| `FailureBatches.AttemptsAreSpaced` | src/project3_crm/notifications/service.py:92-141 | In every run a mail attempt of a stream comes at least the batch interval after one that was reported and at least the failure retry after one that failed or was abandoned. |
| `FailureBatches.DueIffRested` | src/project3_crm/notifications/service.py:92-112 | A stream is due if and only if the batch interval is over since each of its successes, empty checks included, and the failure retry since each of its other attempts. |
| `FailureBatches.StreamsAreIndependent` | src/project3_crm/notifications/service.py:119-141 | No step but a stream's own changes when that stream is due. |
| `PauseAlerts.AlertsAreAttributed` | src/project3_crm/notifications/service.py:384-492 | A pause carries an alert time only if a message about exactly this pause was accepted; an unpaused row carries nothing. |
| `PauseAlerts.AlertsMeetTheirEpisode` | src/project3_crm/notifications/service.py:420-440 | An alert in hand was captured for the last pause there has been, and it is stale if and only if the operator has cleared that pause. |
| `PauseAlerts.CapturedAlertMarksALaterPauseIff` | src/project3_crm/notifications/service.py:430-492 | The guard by itself tells two pauses apart if and only if they differ in reason or instant. |
| `PauseAlerts.FirstReasonIsKept` | src/project3_crm/crm_delivery.py:617-643 | Until the operator clears it, a pause keeps its first reason and its start. |
| `ClusterAlerts.SingleOpenEpisode` | src/project3_crm/notifications/service.py:529-659 | All open cluster marks are one episode, a message lists exactly the pending leads, and the stale outcome never occurs. |
| `ClusterAlerts.EachFailureIsReportedOnce` | src/project3_crm/notifications/service.py:529-597 | Two freezes that hold the same lead hold different failures: the later one is newer than the earlier freeze. |
| `ClusterAlerts.OpenUntilSent` | src/project3_crm/notifications/service.py:600-659 | A pending lead stays pending until its episode is sent, and the report time only ever moves forward. |
| `ClusterCoverage.FailuresAreAccountedFor` | src/project3_crm/notifications/service.py:529-659 | In every run the last technical failure of a lead is in the open or a sent episode, or fell on the instant of a freeze that held its lead for an earlier failure, or every cluster check since it was recorded found an episode open, the failure older than the window, or too few leads. |
| `ClusterCoverage.AgedFailuresNeverQualify` | src/project3_crm/notifications/service.py:555-575 | A failure that has left the window never qualifies again. |
| `SameInstant.FailureCanMeetItsFreeze` | src/project3_crm/notifications/service.py:555-597 | A run in which the second failure of a lead meets the freeze that took the first, and is in no episode. |
| `ClusterAlerts.FreezeCoversEveryQualifyingLead` | src/project3_crm/notifications/service.py:529-597 | An episode is frozen if and only if none is open and enough leads qualify, and it takes every one of them. |
| `ClusterAlerts.EligibleAgainIffStrictlyNewer` | src/project3_crm/notifications/service.py:555-575 | After its episode closes a lead qualifies again if and only if it failed strictly after the freeze. |
| `Queries.SelectLeast` | src/project3_crm/crm_delivery.py:132-176 | Scanning in any order returns the row that sorts first by time (nulls last) and id. |
| `Queries.SelectPrefix` | src/project3_crm/notifications/service.py:173-200 | Returns the first rows in that order, and fewer than the limit only when there are no more. |
| `Queries.LeastIsUnique` | src/project3_crm/worker.py:98-112 | The order is total: the query determines the row. |
| `Store.Database.PersistWebhookEvent` | src/project3_crm/db/webhook_events.py:12-39 | Inserts a new delivery once; a duplicate inserts nothing, and a value that a CHECK refuses is reported as a violation. |
| `Store.Database.ClaimOneReceived` | src/project3_crm/worker.py:166-217 | Claims the oldest RECEIVED event, or reports that there is none. |
| `Store.Database.RecoverOneStaleProcessing` | src/project3_crm/worker.py:85-163 | Resets or repairs the oldest event whose lease has run out. |
| `Selections.EventClaimVerdicts` | src/project3_crm/worker.py:166-217 | The RECEIVED event that came first is claimed with its stored columns; none is claimed exactly when there is none. |
| `Selections.RecoveryVerdicts` | src/project3_crm/worker.py:85-163 | The event longest in PROCESSING beyond the lease is reset, or repaired exactly when it has a lead; none exactly when no lease is over. |
| `Store.Database.NormalizeWebhookEvent` | src/project3_crm/normalization/service.py:114-205 | Normalization and its transaction with all branches and errors, building the lead data included. |
| `Store.Database.CheckOrRecoverSending` | src/project3_crm/crm_delivery.py:255-343 | The gate: clear when nothing is SENDING, blocked exactly while the lease of every SENDING lead runs, and otherwise the oldest claim, strictly older than the lease, recovered as UNKNOWN due now. |
| `Store.Database.ClaimOneCrmCreate` | src/project3_crm/crm_delivery.py:97-208 | Claims the first claimable lead through an open gate; a contact that fails its validators rolls the claim back. |
| `Store.Database.PrepareUnknownReconciliation` | src/project3_crm/crm_delivery.py:646-693 | Selects the first due UNKNOWN lead behind the gate. |
| `Store.Database.ActivatePauseRow` | src/project3_crm/crm_delivery.py:617-643 | Starts a pause, or leaves an active one as it is. |
| `Store.Database.ApplyCreateResult` | src/project3_crm/crm_delivery.py:1110-1290 | Writes the result to the expected SENDING lead and the pause row together, or fails and writes nothing. |
| `Store.Database.ApplyDeferredDecision` | src/project3_crm/crm_delivery.py:1024-1107 | The same for what the reads after a 400 or 409 decided. |
| `Store.Database.ApplyReconciliationResult` | src/project3_crm/crm_delivery.py:775-988 | The same for the evidence of a reconciliation read. |
| `Store.Database.ClearCrmPause` | src/project3_crm/operator.py:32-77 | Returns the pause row to its unpaused state and reports what it was. |
| `Store.Database.StartFailureBatch` | src/project3_crm/notifications/service.py:144-216 | The first transaction of a batch: nothing when not due, a success when empty, else the oldest rows and a recorded attempt. |
| `Store.Database.FinishFailureBatch` | src/project3_crm/notifications/service.py:217-269 | The second one: marks exactly the listed unnotified rows on success, records the error otherwise. |
| `Store.Database.FinishCrmPauseAlert` | src/project3_crm/notifications/service.py:430-492 | Marks the alert only while the captured pause is still in force and unalerted. |
| `Store.Database.StartClusterAlert` | src/project3_crm/notifications/service.py:529-597 | Retries the open episode as it was frozen, or freezes a new one. |
| `Store.Database.FinishClusterAlert` | src/project3_crm/notifications/service.py:600-659 | Closes exactly the leads of the episode after a successful send. |
| `Worker.ReconcileOneUnknown` | src/project3_crm/crm_delivery.py:991-1021 | Blocked exactly while a SENDING lead is fresh; no work exactly when paused or nothing is SENDING or due; otherwise the lead due longest is read and written as the read says; an error only for a lost date. |
| `Worker.DeliverOneCrmCreate` | src/project3_crm/crm_delivery.py:1293-1339 | No work exactly when no lead is next to be sent; otherwise exactly one request goes out, for that lead and with its contact, and is written as answered; an invalid contact exactly when the next lead has one. |
| `Worker.WriteCreateOutcome` | src/project3_crm/crm_delivery.py:1308-1339 | Returns the reads it makes: the reference after a 400 or 409, the e-mail only after a 409 whose reference is unknown; and ends in the transaction these decide. |
| `Worker.ProcessOneCrmWork` | src/project3_crm/crm_delivery.py:1342-1364 | Blocked and no work are both characterized by the database; a reconciliation comes first; an open gate with a valid lead next in line always sends exactly one request, for it; work means a committed transition; each error has its one cause. |
| `Worker.StretchProlongsRun` | src/project3_crm/worker.py:220-261 | What the control flow does is a run, so every theorem about runs holds of it. |
| `WorkerCycle.RunWorkerCycle` | src/project3_crm/worker.py:220-261 | Intake, then one unit of CRM work, then the alert of a pause it activated, each in full, as a stretch of the step relation with at most one create; an unpaused cycle that reports nothing useful has changed nothing. |
| `WorkerCycle.RunIntake` | src/project3_crm/worker.py:235-243 | The event stuck longest is recovered, the RECEIVED event that came first is claimed and normalized; not useful exactly when nothing was received or stuck, and then nothing changed. |
| `NotificationCheck.RunNotificationCheck` | src/project3_crm/worker.py:279-321 | All four operations run once each, in order and each in full, whatever any of them raises; whether the check was useful is decided by the database it began with. |
| `NotificationCheck.ProcessFailureBatch` | src/project3_crm/notifications/service.py:144-381 | When the stream is due its oldest unreported rows, up to the limit, are mailed: an accepted message marks exactly these and records the success, a refused one records its error and marks none. |
| `NotificationCheck.ProcessCrmPauseAlert` | src/project3_crm/notifications/service.py:384-492 | Sends exactly when an unalerted pause is in force; an accepted message leaves its time, a refused one its error, and nothing else changes. |
| `NotificationCheck.ProcessClusterAlert` | src/project3_crm/notifications/service.py:600-659 | Reports the oldest open episode, or one of every reportable lead when these are enough: accepted, all its leads carry the report time; otherwise they stay pending; no other column changes. |
| `WorkerLoop.RunWorkerLoop` | src/project3_crm/worker.py:324-379 | Checks happen on the first turn and then on exactly the first turn an interval after the last; the worker rests exactly when nothing was useful, and longer after an error. |

## Left out

- DeliverySafety.RunsAreSafe: several workers delivering at once are outside the documented design and outside the model; several normalizers are inside it.
- ReportQueue.RowsAreReportedInTurn: starts once the worker's clock is past the row's failure time; until then a row that fails at the same instant may still sort before it.
- WorkerLoop.RunWorkerLoop: an interrupt in the middle of a turn is not modelled; the loop ends between turns.
- Worker.ProcessOneCrmWork: an exception out of the HubSpot client itself is no branch of the worker's methods; in the step relation it is the `Abandon` step, so every theorem about runs covers it.
- NotificationCheck.RunNotificationCheck: the exceptions modelled are those of the sender and of an inconsistent pause row; a failure of the database itself is a step that changes nothing.
- HTTP, SMTP, TLS, routing, authentication, signatures, request streaming, logging, command-line parsing, settings loading and schema migration: only their outcomes appear, as arbitrary answers.
- Row locks and isolation levels: each transaction is one atomic step.
- Message texts, recipients, diagnostics, error codes, correlation ids and `updated_at`: nothing branches on them.
- E-mail syntax, ISO timestamps and HTTP-date parsing: opaque deterministic functions.
- The per-field copying of the three provider adapters: it would only add easy members.
- The order in which a cluster message lists its leads: an episode is a set.
- Liveness: that enabled steps eventually happen is not stated; the bounds say how many can.

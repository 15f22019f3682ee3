# Verified model of planning, uploads and dashboard delivery

A Dafny model of three systems of the web application, and of a few smaller ones beside them. Each has a
simple meaning that a harder implementation must keep; the project states the meaning, models the
implementation with its branches, limits and failures, and proves that they agree.

`dafny verify dfyconfig.toml` checks everything.

## Order acceptance

`Text`, `Calendar` and `Sequences` hold what the search computes with: texts compared as strings, a
proleptic Gregorian calendar behind ISO date texts, and stable sorting. `Proposal` is one planner attempt for
one line. `PlainSearch` is the search as one would explain it: finish every trial of the four candidate orders,
ask the planner every time, put nothing off, then repair by family. `FastSearch` is the search as it is
written: trials are pruned, planner answers are kept in a table of at most 4096 entries keyed by the identity of
schedule and line, and failures are certified from reservations without asking the planner
(`CertifiedFailure`) and their reasons filled in at the end. `FastSearch.CalculateProposal` returns exactly the
plan of `PlainSearch`, for every planner that keeps the contract `CertifiedFailure.HonestPlanner`: rows only
for requested setups, on machines of the family of the setup, starting neither before RM-ready nor on a
reserved date. `PlanPromises` says what every plan guarantees: hours that add up, and deadlines kept.

## Resumable uploads

`ResumableStore` is the storage provider and its client: a session that keeps a growing beginning of the
bytes, answers with byte ranges (section 14.1.2 of RFC 9110) to chunks placed by Content-Range (section 14.4 of
RFC 9110), and may act although its answer is lost. `UploadServer` is the record under a row lock; each
operation is a function of record, provider and fate, and the class `Server` runs it, saving into a transaction
that commits or rolls back. `UploadRuns` interleaves all of it: calls, consumers, cleanup, requests that
arrive late, between calls or between the requests of one, sessions and objects the provider forgets.
`UploadForm` is what a form asks to upload and `UploadClient` the browser, against a server that may answer
anything; `UploadDelivery` puts the two halves together. `ProviderOutcomes` and `UploadOutcomes` say outcome by
outcome what every request and every call comes to, and `IntentFields` what an intent is read from. `CleanupJob` is the job over all records, `RetainedStore`
the write-once files, and `UploadIntent` the parser of what an upload is for.

What is taken from outside, as contracts: a throw inside the lock rolls the saves back; storing an artifact
binds its pending upload in one statement that finds the record ready with the same size and hash, or fails;
the provider's held bytes only grow and bytes it already holds are ignored; a cancellation that is confirmed ends
the session; a fault is reported with a status that carries no progress.

## Dashboard delivery

`Json` and `DashboardMerge` are the records of the server and how a response is merged with the state
retained. `DashboardState` is the reducer with its selectors. `DashboardHook` is the hook: refs, effects and
callbacks, with an awaited call split into the part before and after its answer, and with the state last rendered
beside the newest one. `DashboardRuns` composes it with a server that publishes one payload per scope, floor and
version, `DashboardPolling` shows when polling goes on, and `MergeOutcomes` and `DashboardOutcomes` say what every
answer and action comes to. `ConditionalRecords` is the smaller loop of the registers.

## Workbooks and times

`RmWorkbook` carries RM dates out of a proposal and back, `RmOutcomes` says in plain terms which workbooks those are;
`IstTime` is the input of dates and times in
Indian Standard Time.

## Where the code does less than it seems to

Each is proved with its exact condition and a concrete case.

- A proposal that starts on 9997-12-31 passes validation, but the loop over its planning dates never ends: its
  horizon is 9999-12-31, and the day after that is the text `+010000-01`, which sorts below it and stops moving.
  Every other validated start is fine (`Proposal.ValidatedPeriod`, `Calendar.PlanningLoopEnds`,
  `Proposal.EndlessProposal`).
- Dashboard polling stops when its timeout fires while the clock still reads less than the deadline, by a
  clock set back or by timer rounding, unless a refresh is pending or running: the reducer returns the
  state it was given, so the effect does not run again (`DashboardPolling.StopsExactly`,
  `DashboardPolling.EarlyTimerStopsPolling`).
- It also stops when the effect runs after a refresh failure that was reported before any request of the scope
  completed. A page mounted on show is safe from that, since it asks at once; but the state after a change of scope may
  have to be rendered before it asks, and a failure reported before that overtakes it (`DashboardState.SilentExactly`,
  `DashboardPolling.MountingAsks`, `DashboardPolling.EarlyFailureStopsPolling`).
- A refetch asked for during a request that then fails is not made at once but waits for the backoff
  (`DashboardState.EndServesRefetch`, `DashboardState.FailedRequestDelaysRefetch`).
- An RM date in the year 0000 is valid in a proposal but cannot be imported from the workbook that exports it
  (`RmWorkbook.ExportIsAcceptable`, `RmWorkbook.YearZeroIsRefused`).

## Model

| member | source | states |
|---|---|---|
| `Calendar.CivilOf` | apps/web/lib/order-acceptance.ts:98-102 | every day number has a real calendar date, and that date has that number |
| `Calendar.DayNumberKeepsOrder` | apps/web/lib/order-acceptance.ts:91-102 | day numbers order dates as year, month and day do, and no two dates share one |
| `Calendar.TextOrderIsDayOrder` | apps/web/lib/order-acceptance.ts:91-97 | for valid dates, the order of the texts is the order of the days, and equal days are equal texts |
| `Calendar.AddDaysShifts` | apps/web/lib/order-acceptance.ts:98-102 | adding days moves the day number by exactly that many, as long as the year keeps four digits |
| `Calendar.AddDaysComposes` | apps/web/lib/order-acceptance.ts:98-102 | adding days twice is adding the sum |
| `Calendar.PlanningDates` | apps/web/lib/order-acceptance.ts:187-196 | the loop lists, in strictly increasing order, exactly the working dates from the start to the horizon |
| `Calendar.CutOffStays` | apps/web/lib/order-acceptance.ts:98-102 | past the last four-digit date the text is cut off, sorts before every later bound and stops moving |
| `Calendar.PlanningLoopEnds` | apps/web/lib/order-acceptance.ts:187-196 | the loop over the planning dates ends if and only if its horizon is not 9999-12-31 |
| `Calendar.WeekdaysTurn` | apps/web/lib/order-acceptance.ts:190-193 | weekdays follow one another in turn, anchored at a Monday |
| `Calendar.WorkedDates` | apps/web/lib/order-acceptance.ts:189-195 | a holiday is never worked, a working date always, any other date unless it falls on the weekly holiday |
| `Calendar.MonthsAsTheyAre` | apps/web/lib/order-acceptance.ts:91-102 | the months have the lengths they have, leap years and centuries included |
| `Proposal.ValidatedPeriod` | apps/web/lib/order-acceptance.ts:103-111 | a validated period has a valid two-year horizon at or after its deadline, and its planning loop ends if and only if it does not start on 9997-12-31 |
| `Proposal.EndlessProposal` | apps/web/lib/order-acceptance.ts:103-111 | a concrete proposal that starts on 9997-12-31: it passes validation and its planning loop does not end |
| `Proposal.ValidExactly` | apps/web/lib/order-acceptance.ts:103-156 | a proposal passes validation if and only if every field keeps the limits named |
| `Text.TrimExactly` | apps/web/lib/order-acceptance.ts:104 | trimming takes what is blank off both ends and leaves no blank at either |
| `Text.Last` | apps/web/lib/order-acceptance.ts:272-296 | the greatest text in string order, and the empty text for none |
| `Text.First` | apps/web/lib/order-acceptance.ts:297-302 | the least text in string order, and the empty text for none |
| `Sequences.SortIsStable` | apps/web/lib/order-acceptance.ts:370-378 | by a comparison that agrees with an order, the sort leaves no element before one it should come after, and elements that compare equal keep their order |
| `Sequences.StableSortIsUnique` | apps/web/lib/order-acceptance.ts:370-378 | any ordered arrangement of the elements that keeps ties in order is this one, so nothing depends on how the sort works |
| `Sequences.SortPutsFirstBestFirst` | apps/web/lib/order-acceptance.ts:595 | the first element after a stable sort is the one a left-to-right scan keeps when it gives way only to a strictly better one |
| `Sequences.SortOrdersKeys` | apps/web/lib/order-acceptance.ts:374-376 | a sort by a numeric key leaves the keys ascending |
| `Proposal.AcceptedFinishesInTime` | apps/web/lib/order-acceptance.ts:217-291 | an attempt without a reason has rows for every operation, and each row ends inside the limit |
| `Proposal.AttemptFails` | apps/web/lib/order-acceptance.ts:269-291 | one operation that cannot be promised is enough for a reason |
| `Proposal.OperationReported` | apps/web/lib/order-acceptance.ts:270-290 | an operation is reported if and only if it has no rows, a row without an end or an end after the limit |
| `Proposal.ReasonWords` | apps/web/lib/order-acceptance.ts:277-290 | what it is reported with: the status of its first row blocked by tooling, or the end that is too late and what it is too late for |
| `Proposal.AttemptAsks` | apps/web/lib/order-acceptance.ts:217-268 | the planner is asked for the line neither before the start nor before its raw material, on top of all that is committed, up to the deadline of a proposed line or the horizon |
| `Proposal.AttemptCommits` | apps/web/lib/order-acceptance.ts:292-312 | completion is the last end, raw material is needed for the first start of the first setup, and what is committed is the rows and the machines they name on the days they take |
| `PlainSearch.ExistingLineReserved` | apps/web/lib/order-acceptance.ts:316-334 | one line of existing work: from which date it is planned, when it blocks and with which words, and what it commits |
| `PlainSearch.ProposedLineDecided` | apps/web/lib/order-acceptance.ts:530-572 | one proposed line of a trial: from which date it is attempted, that it is selected exactly when nothing blocks and nothing is objected, what it commits and what its result says |
| `PlainSearch.LoadIsASum` | apps/web/lib/order-acceptance.ts:335-355 | load and available hours are sums over dates |
| `PlainSearch.LoadOfADate` | apps/web/lib/order-acceptance.ts:335-355 | a date up to the deadline counts with its hours, and as load exactly under a reservation of the machine, once |
| `PlainSearch.HoursAddUp` | apps/web/lib/order-acceptance.ts:356-369 | the hours of a line are the sum over its operations, those of a family over the operations of the family |
| `PlainSearch.MachinesAddUp` | apps/web/lib/order-acceptance.ts:573-578 | the utilisation of a trial is the sum of the loads of the machines |
| `PlainSearch.DominantIsGreatest` | apps/web/lib/order-acceptance.ts:356-369 | what dominates a line is the greatest share of an operation among the machines of its family |
| `PlainSearch.CounterIsSelected` | apps/web/lib/order-acceptance.ts:521-546 | the counter of a trial is the number of ids selected in its results, also when an id is overwritten |
| `PlainSearch.RemainingBound` | apps/web/lib/order-acceptance.ts:525-529 | from any point of a trial the final counter is at most the counter so far plus the lines left: the bound that pruning relies on |
| `PlainSearch.TrialAppends` | apps/web/lib/order-acceptance.ts:379-383 | a trial only appends to the plans and reservations committed before it |
| `PlainSearch.TrialDecides` | apps/web/lib/order-acceptance.ts:544 | every line of an order has a decision when its trial ends |
| `PlainSearch.Candidates` | apps/web/lib/order-acceptance.ts:370-378 | there is a candidate order, and each is a permutation of the lines |
| `PlainSearch.CandidatesAreArranged` | apps/web/lib/order-acceptance.ts:370-378 | in deadline mode an arrangement is the first, second or third candidate if and only if it orders the lines by hours, by dominant family or by falling hours and keeps ties in place; the fourth is the given order |
| `PlainSearch.CandidateOrders` | apps/web/lib/order-acceptance.ts:370-378 | those are the orders of rising hours, of rising dominant shares and of falling hours |
| `PlainSearch.QueueIsArranged` | apps/web/lib/order-acceptance.ts:613-615 | the queue of a repair is the only arrangement of the family by falling hours, whatever stable sort makes it |
| `PlainSearch.QueueFalls` | apps/web/lib/order-acceptance.ts:604-615 | it holds exactly the lines with hours in the family, and their hours fall |
| `PlainSearch.RefillFills` | apps/web/lib/order-acceptance.ts:616-620 | the places of the family hold the queue, in order, afterwards |
| `PlainSearch.InTurnIsArranged` | apps/web/lib/order-acceptance.ts:315-320 | where the comparison of the planner agrees with an order, existing work is taken in the only arrangement by it |
| `PlainSearch.RepairPermutes` | apps/web/lib/order-acceptance.ts:613-620 | a repaired order holds the same lines, with every line outside the family in its place |
| `PlainSearch.BestOfIsBest` | apps/web/lib/order-acceptance.ts:585-595 | the best of some orders is the trial of one of them; every other selects fewer lines, or as many without more hours, and every earlier one strictly fewer lines or hours |
| `PlainSearch.RepairTurn` | apps/web/lib/order-acceptance.ts:596-624 | one turn of the repair tries the refilled order exactly when a line of the family was rejected, and keeps it only with more lines selected, or as many and more hours |
| `PlainSearch.RepairsInTurn` | apps/web/lib/order-acceptance.ts:596-624 | the turns are taken one after another, each on what the one before left |
| `PlainSearch.SearchRepairs` | apps/web/lib/order-acceptance.ts:596-624 | the best candidate is repaired for every family of an operation, once each, in string order |
| `PlainSearch.RepairImproves` | apps/web/lib/order-acceptance.ts:596-624 | the whole repair ends with the trial of a permutation that selects more lines than the one it began with, or as many in no fewer hours |
| `PlainSearch.SearchIsBest` | apps/web/lib/order-acceptance.ts:585-624 | the search ends with the trial of a permutation of the lines: every candidate order selects fewer lines, or as many in no more hours; planned by dates it is the trial of the order given |
| `PlainSearch.EveryLineDecided` | apps/web/lib/order-acceptance.ts:634 | every proposed line has a decision in the final result |
| `PlainSearch.PlanShows` | apps/web/lib/order-acceptance.ts:629-657 | the plan has the decision of each line in order and every family of machines once, in string order |
| `PlainSearch.FamilyShows` | apps/web/lib/order-acceptance.ts:635-656 | what it shows of a family: hours offered, hours of existing work, hours added, and their quotient |
| `PlainSearch.SettingShows` | apps/web/lib/order-acceptance.ts:165-196 | the daily hours, the two-year horizon and the dates between |
| `CertifiedFailure.CoveredDates` | apps/web/lib/order-acceptance.ts:470-473 | one window, or two that touch or overlap, leave no date from RM-ready to the deadline free |
| `CertifiedFailure.CertifiedMeansReserved` | apps/web/lib/order-acceptance.ts:438-473 | when a failure is certified every date from RM-ready to the deadline is reserved on the machine |
| `CertifiedFailure.IsolatedFacts` | apps/web/lib/order-acceptance.ts:489-511 | a prepared line has a single machine that any master row of its first family names |
| `CertifiedFailure.FirstRowsEndLate` | apps/web/lib/order-acceptance.ts:513-519 | under the planner contract, a row of the first setup of a certified line that has an end ends after the deadline |
| `CertifiedFailure.CertifiedIsSound` | apps/web/lib/order-acceptance.ts:513-519 | a certified failure is a failure: asking the planner would give a reason |
| `FastSearch.EntrySettles` | apps/web/lib/order-acceptance.ts:534-571 | an entry put off or not, once its reason is filled in, is the decision of the plain trial, and whether it is selected never waits for that |
| `FastSearch.Remember` | apps/web/lib/order-acceptance.ts:389-411 | adding an answer keeps every remembered answer what the planner would answer, and the table grows by at most one |
| `FastSearch.ProposalSearch.ScheduleProposed` | apps/web/lib/order-acceptance.ts:389-411 | whether remembered or not, the answer is the one a fresh attempt gives; the table stays true and at most 4096 entries large, resets included |
| `FastSearch.ProposalSearch.Prepare` | apps/web/lib/order-acceptance.ts:480-512 | a line is prepared if and only if certification is on and the line is isolated to one machine that is reserved from RM-ready to the deadline |
| `FastSearch.ProposalSearch.Consult` | apps/web/lib/order-acceptance.ts:530-538 | a line is asked about exactly when it would be in the plain trial and is not put off; what is put off is a failure |
| `FastSearch.ProposalSearch.Consider` | apps/web/lib/order-acceptance.ts:534-571 | one turn of the fast trial is one step of the plain trial, reasons filled in |
| `FastSearch.ProposalSearch.RunPruned` | apps/web/lib/order-acceptance.ts:521-583 | a finished trial equals the plain trial; an abandoned one would have ended with strictly fewer selected lines than required |
| `FastSearch.ProposalSearch.BestCandidate` | apps/web/lib/order-acceptance.ts:587-595 | pruned trials and a stable sort find the best that finishing every trial would find |
| `FastSearch.AnySortBeginsWithBest` | apps/web/lib/order-acceptance.ts:585-595 | whatever stable sort arranges the completed trials, it begins with the one a scan keeps |
| `FastSearch.ProposalSearch.Repair` | apps/web/lib/order-acceptance.ts:596-624 | the pruned repair equals the plain repair |
| `FastSearch.ProposalSearch.FillReasons` | apps/web/lib/order-acceptance.ts:625-628 | after the last loop every result has the reason the planner gives |
| `FastSearch.ReserveExistingWork` | apps/web/lib/order-acceptance.ts:314-334 | the loop over existing work, sorted as the planner asks, leaves the commitments and blockers of the plain definition |
| `FastSearch.FindBest` | apps/web/lib/order-acceptance.ts:474-628 | target and results of the fast search are those of the plain search |
| `FastSearch.CalculateProposal` | apps/web/lib/order-acceptance.ts:159-657 | a valid proposal gets exactly the plan of the plain search, an invalid one its validation error |
| `PlanPromises.LoadIsBounded` | apps/web/lib/order-acceptance.ts:335-355 | more reservations never mean less load, and no machine is loaded beyond what it offers |
| `PlanPromises.FamilyAddsUp` | apps/web/lib/order-acceptance.ts:635-656 | 0 <= committed <= used <= available for a family, so proposed hours are not negative and utilisation is between 0 and 1 |
| `PlanPromises.PlanAddsUp` | apps/web/lib/order-acceptance.ts:629-657 | the same for every family of every plan |
| `PlanPromises.SelectedMeetsDeadline` | apps/web/lib/order-acceptance.ts:281-290 | in deadline mode a line is selected only with a machine plan that covers every operation it has and ends by the deadline, and with its completion, which is not empty unless it has no operations |
| `PlanPromises.PlanMeetsDeadline` | apps/web/lib/order-acceptance.ts:629-657 | the same for every line of every plan |
| `ResumableStore.DecimalRoundTrip` | apps/web/lib/google-cloud-artifact-provider.ts:286-293 | a decimal text reads back as its number |
| `ResumableStore.RangeRoundTrip` | apps/web/lib/google-cloud-artifact-provider.ts:284-300 | the byte-range text of what is held (section 14.1.2 of RFC 9110) reads back as its length |
| `ResumableStore.AnswerIsTrue` | apps/web/lib/google-cloud-artifact-provider.ts:276-301 | what the client reads from a session answer is the truth about the session |
| `ResumableStore.StatusIsTrue` | apps/web/lib/google-cloud-artifact-provider.ts:324-343 | a reported progress is the length held, complete exactly when the whole file is |
| `ResumableStore.ReceiveKeeps` | apps/web/lib/google-cloud-artifact-provider.ts:433-477 | a chunk that arrives, early, late or in part, only extends what is held, and no generation ever changes its bytes |
| `ResumableStore.ChunkIsTrue` | apps/web/lib/google-cloud-artifact-provider.ts:433-477 | whatever answers are lost, a chunk leaves a longer beginning of the same bytes, and any progress that comes back is true |
| `ProviderOutcomes.GuardExactly` | apps/web/lib/google-cloud-artifact-provider.ts:433-450 | which chunks are sent: up to 4 MiB inside the file, in units of 256 KiB unless the last |
| `ProviderOutcomes.RangeSays` | apps/web/lib/google-cloud-artifact-provider.ts:276-300 | the Range header names the last byte held, in decimal digits |
| `ProviderOutcomes.TurnedAway` | apps/web/lib/google-cloud-artifact-provider.ts:433-450 | a chunk that is turned away is never sent |
| `ProviderOutcomes.ArrivalOutcomes` | apps/web/lib/google-cloud-artifact-provider.ts:433-477 | what a chunk that arrives adds: just the bytes that follow on those held, and the object with the last of them |
| `ProviderOutcomes.OnTheWay` | apps/web/lib/google-cloud-artifact-provider.ts:451-477 | a chunk that does not arrive at once may arrive at any later time, and nothing else does |
| `ProviderOutcomes.StatusOutcomes` | apps/web/lib/google-cloud-artifact-provider.ts:276-343 | what asking for the status gives for every answer, fault and silence |
| `ProviderOutcomes.HeaderOutcomes` | apps/web/lib/google-cloud-artifact-provider.ts:276-300 | which Range headers are read as a position |
| `ProviderOutcomes.AnsweredChunk` | apps/web/lib/google-cloud-artifact-provider.ts:451-477 | an answered chunk reports what is held then |
| `ProviderOutcomes.UnansweredChunk` | apps/web/lib/google-cloud-artifact-provider.ts:451-477 | after silence and server errors the status is asked for, other faults are the result |
| `ProviderOutcomes.ObjectOutcomes` | apps/web/lib/google-cloud-artifact-provider.ts:344-402 | reading, deleting one generation, and cancelling |
| `UploadServer.Server.Reconcile` | apps/web/lib/pending-artifact-upload-server.ts:233-278 | what a record still uploading becomes: the progress the session reports, the whole stored object when the session is gone, found after requests that arrive meanwhile, or the error; binding and cleanup stay, and any other record is left as it is |
| `UploadServer.Server.Get` | apps/web/lib/pending-artifact-upload-server.ts:458-474 | a read either saves what reconciling finds and reports it, or changes nothing |
| `UploadServer.Server.Append` | apps/web/lib/pending-artifact-upload-server.ts:476-542 | a chunk is taken only at the confirmed offset of an uploading record; a last chunk whose answer is lost is recovered from the stored object; what the provider did stays when the save rolls back |
| `UploadServer.Server.Complete` | apps/web/lib/pending-artifact-upload-server.ts:544-617 | a record becomes ready only from an object of its size that the content policy accepts, one that it refuses is rejected, and a rejection is saved although the caller gets an error |
| `UploadServer.Server.Abandon` | apps/web/lib/pending-artifact-upload-server.ts:619-686 | an upload not finalized ends abandoned, cleaned exactly when cancelling and deleting were both confirmed |
| `UploadServer.Server.Cleanup` | apps/web/lib/pending-artifact-upload-server.ts:971-1027 | an eligible record is cleaned or marked failed, a finalized one stays finalized, any other is skipped untouched, and a turn that does not commit leaves the record as it was |
| `UploadOutcomes.DeniedExactly` | apps/web/lib/pending-artifact-upload-server.ts:89-177 | a call is let in exactly for the owner in time, with permission for the organization and the intent on record, and who else sees what |
| `UploadOutcomes.DeniedFinalExactly` | apps/web/lib/pending-artifact-upload-server.ts:153-177 | the final action is let in by the same checks without the expiry |
| `UploadOutcomes.Shown` | apps/web/lib/pending-artifact-upload-server.ts:179-193 | what each status is shown as |
| `UploadOutcomes.ReconcileOutcomes` | apps/web/lib/pending-artifact-upload-server.ts:233-278 | what reading an uploading record finds, by what the session answers and what is stored |
| `UploadOutcomes.FaultOutcomes` | apps/web/lib/pending-artifact-upload-server.ts:216-278 | a fault of the provider means gone or try again |
| `UploadOutcomes.GetOutcomes` | apps/web/lib/pending-artifact-upload-server.ts:458-474 | what a read returns and saves |
| `UploadOutcomes.ChunkRefused` | apps/web/lib/pending-artifact-upload-server.ts:476-502 | which chunks are turned away before they are sent, and with which error |
| `UploadOutcomes.ChunkTaken` | apps/web/lib/pending-artifact-upload-server.ts:503-542 | a chunk that is kept and answered moves the record to its end; the last makes it uploaded |
| `UploadOutcomes.SessionlessChunk` | apps/web/lib/pending-artifact-upload-server.ts:503-516 | without a session a chunk succeeds only as the last of an object that is there |
| `UploadOutcomes.ChunkLost` | apps/web/lib/pending-artifact-upload-server.ts:517-542 | a last chunk whose answer is lost is recovered from the whole object, any other fails |
| `UploadOutcomes.CompletionOutcomes` | apps/web/lib/pending-artifact-upload-server.ts:576-617 | a record with the whole file becomes ready if and only if the object is readable, of its size and acceptable; broken and refused ones are rejected, an unreadable or missing one changes nothing |
| `UploadOutcomes.UnfinishedCompletion` | apps/web/lib/pending-artifact-upload-server.ts:559-617 | completing a record still uploading: incomplete is a conflict, broken is rejected, whole is checked |
| `UploadOutcomes.CompletedAgain` | apps/web/lib/pending-artifact-upload-server.ts:544-575 | a record that is ready already is reported as it is |
| `UploadOutcomes.CompletionRefused` | apps/web/lib/pending-artifact-upload-server.ts:544-617 | any other record is not completed, and nothing is saved without a commit |
| `UploadOutcomes.RemovalOutcomes` | apps/web/lib/pending-artifact-upload-server.ts:641-666 | cancelling, finding the generation and deleting, each only after the one before succeeded |
| `UploadOutcomes.AbandonOutcomes` | apps/web/lib/pending-artifact-upload-server.ts:619-686 | abandoning: refused for a finalized record, else abandoned, clean or to be cleaned |
| `UploadOutcomes.CleanupOutcomes` | apps/web/lib/pending-artifact-upload-server.ts:971-1024 | which records the job works on and what it makes of them |
| `UploadOutcomes.PrepareOutcomes` | apps/web/lib/pending-artifact-upload-server.ts:857-898 | bytes are handed out for binding if and only if the record is ready in time and the object is the acceptable one it was ready with |
| `UploadOutcomes.RecoverOutcomes` | apps/web/lib/pending-artifact-upload-server.ts:835-910 | a finalized record hands out its binding while the artifact is retained |
| `UploadOutcomes.BindOutcomes` | packages/db/src/artifacts.ts:319-361 | storing an artifact finalizes exactly a record ready in time with its size and hash, or one with this binding already |
| `UploadRuns.ReconcileKeeps` | apps/web/lib/pending-artifact-upload-server.ts:233-278 | reconciling keeps the record true to the provider, also when late requests arrive between its two requests, and never touches a binding or a cleanup |
| `UploadRuns.AppendKeeps` | apps/web/lib/pending-artifact-upload-server.ts:476-542 | a chunk, with any answer lost, rolled back or overtaken by late requests, keeps the record true to the provider |
| `UploadRuns.CompleteKeeps` | apps/web/lib/pending-artifact-upload-server.ts:544-617 | completion keeps it, so a record becomes ready only with the size, hash and generation of the whole object |
| `UploadRuns.AbandonKeeps` | apps/web/lib/pending-artifact-upload-server.ts:619-686 | abandoning keeps it and never leaves finalized |
| `UploadRuns.CleanupKeeps` | apps/web/lib/pending-artifact-upload-server.ts:971-1024 | cleaning keeps it and never leaves finalized |
| `UploadRuns.RemovalMeetsNothing` | apps/web/lib/pending-artifact-upload-server.ts:641-666 | after a confirmed cancellation, or when there was no session left, no late request changes what a removal finds |
| `UploadRuns.WholeFileMeetsNothing` | apps/web/lib/pending-artifact-upload-server.ts:576-594 | nor what the check of a record with the whole file finds |
| `UploadRuns.StepIsSound` | apps/web/lib/pending-artifact-upload-server.ts:199-960 | every step keeps the invariant over record, provider and consumers, and takes nothing back |
| `UploadRuns.StepIsFaithful` | apps/web/lib/pending-artifact-upload-server.ts:476-542 | every step of an honest client keeps what is held, and what is on its way, slices of the file |
| `UploadRuns.RunsAreSound` | apps/web/lib/pending-artifact-upload-server.ts:199-1027 | over every run: finalized and abandoned are never left, nothing returns to uploading, a binding and a completed cleanup stay, held bytes only grow, written generations never change |
| `UploadRuns.HonestRuns` | apps/web/lib/pending-artifact-upload-server.ts:384-542 | every run of an honest client from a fresh upload is sound and faithful |
| `UploadRuns.UploadedFilesAreExact` | apps/web/lib/pending-artifact-upload-server.ts:199-278 | what the provider holds is a beginning of the file that reaches at least the confirmed offset, and a ready or finalized record has the whole file with its size, hash and generation |
| `UploadRuns.ChunksLeaveNoGap` | apps/web/lib/pending-artifact-upload-server.ts:503-516 | a chunk sent from the confirmed offset extends what is held to its own end, or changes nothing |
| `UploadRuns.OneBinding` | apps/web/lib/pending-artifact-upload-server.ts:777-960 | all consumers that return, are confirmed or recover name one binding, and it stays on record however the run goes on |
| `UploadRuns.PreparedConsumer` | apps/web/lib/pending-artifact-upload-server.ts:777-913 | the first part of consuming changes neither record nor provider and gives the call the bytes or the binding found |
| `UploadRuns.FinalizedConsumer` | apps/web/lib/pending-artifact-upload-server.ts:914-920 | storing the artifact finalizes the record exactly under the conditions of the one statement, and a binding that fails ends the call |
| `UploadRuns.ConfirmedConsumer` | apps/web/lib/pending-artifact-upload-server.ts:921-938 | the second part goes on exactly with the binding on record |
| `UploadRuns.FinishedConsumer` | apps/web/lib/pending-artifact-upload-server.ts:940-960 | in the end the generation bound is deleted and that noted, or its failure, and the call returns exactly if one of the two is |
| `UploadRuns.LaterCallsRecover` | apps/web/lib/pending-artifact-upload-server.ts:835-913 | once a call has returned, a later call that is permitted and finds the artifact, and no other, recovers with the same binding, however the run went on |
| `UploadRuns.ReturnsWereConfirmed` | apps/web/lib/pending-artifact-upload-server.ts:917-940 | every consumer confirmed or returned at the end of a run passed, in it, the check that found the record finalized with exactly what it claims |
| `UploadRuns.CleanedOnce` | apps/web/lib/pending-artifact-upload-server.ts:974-980 | after any run a cleaned record is skipped by every later cleanup |
| `UploadRuns.CleanedLeavesNothing` | apps/web/lib/pending-artifact-upload-server.ts:619-686 | once an upload is cleaned, by abandoning, by the job or after its final action, there is no object left and no session that could still make one, however the run goes on |
| `CleanupJob.CleanedIsNotCleanedAgain` | apps/web/lib/pending-artifact-upload-server.ts:974-1018 | a candidate the job cleaned is skipped the next time |
| `CleanupJob.TallyCounts` | apps/web/lib/pending-artifact-upload-server.ts:1003-1026 | a tally is the number of candidates with that outcome |
| `CleanupJob.Job.Run` | apps/web/lib/pending-artifact-upload-server.ts:962-1029 | every record up to the first commit that fails is as its own turn leaves it and every other one unchanged; when all commit, the counts are those of the outcomes and add up to the candidates |
| `UploadClient.RetainedUploadClient.SendChunk` | apps/web/lib/pending-retained-upload-client.ts:189-212 | one turn: a chunk, the status after an answer that asks for another try, and how many setbacks are spent |
| `UploadClient.RetainedUploadClient.SendChunks` | apps/web/lib/pending-retained-upload-client.ts:186-213 | the loop ends against every server; it sends full slices of the file from the position last reported, after a lost answer, "provider_unavailable" or "state_conflict" the status unless two setbacks are used up, and ends with any other code |
| `UploadClient.RetainedUploadClient.Verify` | apps/web/lib/pending-retained-upload-client.ts:214-225 | the requests are exactly: verify; after a lost answer, "provider_unavailable" or "state_conflict" the status; and verify again when that reports the upload still uploading; the last answer is the outcome |
| `UploadClient.RetainedUploadClient.Carry` | apps/web/lib/pending-retained-upload-client.ts:186-231 | sending and verifying end with a usable upload or with an error that says why |
| `UploadClient.RetainedUploadClient.Upload` | apps/web/lib/pending-retained-upload-client.ts:157-239 | an id is returned only when an answer of this call reported it ready or finalized; the error is the last answer or has the reason named; an API error with a code other than "provider_unavailable" and "state_conflict" forgets exactly the selection in hand, and any other error forgets none |
| `UploadClient.RetainedUploadClient.Keep` | apps/web/lib/pending-retained-upload-client.ts:145-153 | exactly the unsubmitted uploads given up are deleted on the server, in order |
| `UploadClient.RetainedUploadClient.AbandonUnused` | apps/web/lib/pending-retained-upload-client.ts:62-78 | exactly the uploads of files the form still holds are kept, and without a form the running request is aborted |
| `UploadClient.DeletesExactly` | apps/web/lib/pending-retained-upload-client.ts:62-78 | the uploads deleted are exactly the unsubmitted ones that are not kept |
| `UploadClient.RetainedUploadClient.MarkSubmitted` | apps/web/lib/pending-retained-upload-client.ts:80-82 | all uploads become submitted, their progress unchanged |
| `UploadClient.RetainedUploadClient.ResolveFields` | apps/web/lib/pending-retained-upload-client.ts:91-111 | the loops give every field of the form its registration: the last one that adds its row, else the last one by its name |
| `UploadClient.RetainedUploadClient.Prepare` | apps/web/lib/pending-retained-upload-client.ts:84-155 | each file that is not empty and registered is replaced, under its id field and if its intent parses, by an id reported ready or finalized during the call; only uploads in use are kept, each chunk belongs to a file of the form, and only unsubmitted uploads are ever deleted |
| `UploadClient.ForwardLeavesLess` | apps/web/lib/pending-retained-upload-client.ts:186-213 | an offset that moves forward leaves fewer bytes to send |
| `UploadClient.GoodRequestsAreHonest` | apps/web/lib/pending-retained-upload-client.ts:199-203 | what the client sends is what the protocol asks of an honest client |
| `UploadDelivery.ReturnedIdsAreDelivered` | apps/web/lib/pending-retained-upload-client.ts:157-239 | browser and server together: when the client returns an id and its answers are those of a run, the record was ready or finalized with exactly the bytes, size and hash of the file selected |
| `UploadForm.RowsTell` | apps/web/lib/pending-retained-upload-client.ts:92-111 | a field added for a file field belongs to a row of the bill of materials if and only if it is the one named after that row |
| `UploadForm.PhotosDiffer` | apps/web/lib/pending-retained-upload-client.ts:122-143 | two files of one photo field are uploaded for different intents, each for its position |
| `UploadForm.RowsAdded` | apps/web/lib/pending-retained-upload-client.ts:92-111 | which fields a registration adds: the rows of its own file field, for a design attachment that asks for them |
| `UploadForm.LastAdded` | apps/web/lib/pending-retained-upload-client.ts:92-111 | such a field takes the last registration that adds it, with the number of its row |
| `UploadForm.RowsFirst` | apps/web/lib/pending-retained-upload-client.ts:91-111 | and goes before a registration by its name |
| `UploadForm.AskedFields` | apps/web/lib/pending-retained-upload-client.ts:122-137 | the record asked for is the registered one, with the item type and supplier the form selects and the position of a photo |
| `UploadForm.LastNamed` | apps/web/lib/pending-retained-upload-client.ts:91 | the last registration of a name counts |
| `UploadForm.FirstOfField` | apps/web/lib/pending-retained-upload-client.ts:122-127 | a selected field is read from its first entry; a file is no text |
| `UploadForm.LeftAlone` | apps/web/lib/pending-retained-upload-client.ts:112-120 | fields that are not registered and texts stay, an empty file control is left out |
| `UploadForm.SentUnder` | apps/web/lib/pending-retained-upload-client.ts:112-143 | a file that is not empty is sent for that record, under the field named for it or its own name followed by _upload_id |
| `RetainedStore.StepKeepsBytes` | apps/web/lib/google-cloud-artifact-provider.ts:515-564 | no step but a delete at the key replaces bytes stored there |
| `RetainedStore.SuccessesWereReadBack` | apps/web/lib/google-cloud-artifact-provider.ts:533-561 | every upload that a run stores was read back in it, when its object held exactly its bytes |
| `RetainedStore.WriteOnce` | apps/web/lib/google-cloud-artifact-provider.ts:515-564 | over any run of concurrent uploads without a delete at the key, stored bytes stay and all successes carried the bytes the key holds |
| `RetainedStore.SuccessesAgree` | apps/web/lib/google-cloud-artifact-provider.ts:515-564 | from an empty store, two successes at one key with no delete carried equal bytes |
| `RetainedStore.DeleteLetsBytesChange` | apps/web/lib/google-cloud-artifact-provider.ts:479-494 | with a delete between them they need not: a concrete run |
| `RetainedStore.SavingOutcomes` | apps/web/lib/google-cloud-artifact-provider.ts:515-533 | what each fate of an attempt to save does to the objects and to the upload |
| `RetainedStore.ReadingOutcomes` | apps/web/lib/google-cloud-artifact-provider.ts:534-563 | and what reading the object back does |
| `RetainedStore.UploadOutcomes` | apps/web/lib/google-cloud-artifact-provider.ts:515-564 | an upload succeeds when its key is free or holds its bytes already, and is refused when it holds others, also when the first attempt arrived and its answer was lost |
| `DashboardMerge.UnchangedIsCoherent` | apps/web/lib/dashboard-view-model.ts:64-84 | an honest "not modified" answer merges and leaves the dashboard record exactly as it was, the one published for the known version |
| `DashboardMerge.PatchIsCoherent` | apps/web/lib/dashboard-view-model.ts:86-98 | an honest patch merges: the control state is the retained one overwritten by the patch, every other field the one published, coverage in its normal form |
| `DashboardMerge.FullIsCoherent` | apps/web/lib/dashboard-view-model.ts:100-145 | an honest full answer leaves every field published for its own version, control state exactly and coverage in its normal form, and is turned away exactly when it is older than the state retained |
| `DashboardMerge.MergeIsCoherent` | apps/web/lib/dashboard-view-model.ts:36-145 | the three together: merging an honest answer with a version leaves, in every field but the live control state, the payload published for that version, coverage in its normal form |
| `DashboardMerge.UnversionedStaysSo` | apps/web/lib/dashboard-view-model.ts:100-145 | an answer in full without a version never merges into data with one |
| `MergeOutcomes.FloorRead` | apps/web/lib/dashboard-view-model.ts:24-52 | which floor an answer is of |
| `MergeOutcomes.VersionRead` | apps/web/lib/dashboard-view-model.ts:30-62 | which version it has |
| `MergeOutcomes.CoverageRead` | apps/web/lib/dashboard-view-model.ts:159-168 | where its coverage is read |
| `MergeOutcomes.WrongFloorExactly` | apps/web/lib/dashboard-view-model.ts:36-52 | it is turned away for its floor exactly when that is another |
| `MergeOutcomes.UnchangedOutcomes` | apps/web/lib/dashboard-view-model.ts:64-84 | a "not modified" answer merges exactly with the version held of the floor, and leaves these fields |
| `MergeOutcomes.PatchOutcomes` | apps/web/lib/dashboard-view-model.ts:86-98 | a patch merges exactly with the version held of the floor, and lays its control state over the one held |
| `MergeOutcomes.FullOutcomes` | apps/web/lib/dashboard-view-model.ts:100-130 | which full answers are turned away, and for which reason first |
| `MergeOutcomes.FullShows` | apps/web/lib/dashboard-view-model.ts:131-145 | what a full answer that is taken leaves in every field |
| `DashboardState.StaysTidy` | apps/web/lib/dashboard-delivery-state.ts:129-329 | every action keeps: no payload exactly without data, no data under access denied, data only with version and deadline, settled only with data |
| `DashboardState.StepKeepsOrder` | apps/web/lib/dashboard-delivery-state.ts:129-329 | unless the floor changes, an action never lowers the version, clears a pending refetch only by a start, and forgets a rejection only by an accepted answer |
| `DashboardState.RunsKeepOrder` | apps/web/lib/dashboard-delivery-state.ts:129-329 | the same over every sequence of actions |
| `DashboardState.SilentExactly` | apps/web/lib/dashboard-delivery-state.ts:331-341 | in a visible state with nothing in flight the poll delay is null if and only if the request is in error without a deadline |
| `DashboardState.DueStarts` | apps/web/lib/dashboard-delivery-state.ts:202-220 | when polling says now, a request is described and its start accepted, or the safety refresh makes one describable |
| `DashboardState.RejectionForgetsVersion` | apps/web/lib/dashboard-delivery-state.ts:249-327 | after a rejected answer no request names a known version until an answer is accepted or the floor changes |
| `DashboardState.EndServesRefetch` | apps/web/lib/dashboard-delivery-state.ts:221-327 | a pending refetch is due at once when the request ends, or after the backoff when it failed |
| `DashboardState.FailedRequestDelaysRefetch` | apps/web/lib/dashboard-delivery-state.ts:221-248 | a concrete state in which a refetch waits five seconds behind a request that fails |
| `DashboardState.RefetchIsServed` | apps/web/lib/dashboard-delivery-state.ts:140-188 | so a refetch asked for during a request is served after it, within thirty seconds of a failure |
| `DashboardState.Backoff` | apps/web/lib/dashboard-delivery-state.ts:233-239 | the wait after a failure is longer than the safety refresh and at most thirty seconds |
| `DashboardOutcomes.Waits` | apps/web/lib/dashboard-delivery-state.ts:221-248 | the wait after a failure doubles from five seconds on and stays at thirty |
| `DashboardOutcomes.TakenShows` | apps/web/lib/dashboard-delivery-state.ts:260-329 | a taken answer shows its data, as stale with its reason when the recalculation failed |
| `DashboardOutcomes.TurnedDown` | apps/web/lib/dashboard-delivery-state.ts:249-327 | an answer older than the data held, or "not modified" for a version not held, is turned down with its reason |
| `DashboardOutcomes.RefreshActions` | apps/web/lib/dashboard-delivery-state.ts:140-156 | what asking for a refresh, its start and its failure do |
| `DashboardOutcomes.AskingActions` | apps/web/lib/dashboard-delivery-state.ts:157-201 | which actions ask again, and that a hidden page only asks on a retry |
| `DashboardOutcomes.AbortedAsksAgain` | apps/web/lib/dashboard-delivery-state.ts:242-248 | an aborted request that was in flight is over and asked again |
| `DashboardOutcomes.DenialStays` | apps/web/lib/dashboard-delivery-state.ts:129-329 | a denial ends only with an answer taken or a change of scope |
| `DashboardOutcomes.Described` | apps/web/lib/dashboard-delivery-state.ts:343-366 | a request names the version held unless everything is asked for |
| `DashboardHook.AnswerAction` | apps/web/hooks/use-dashboard-delivery.ts:122-180 | every answer, error or abort becomes an action that ends exactly the request it answers |
| `DashboardOutcomes.RefusalDecides` | apps/web/hooks/use-dashboard-delivery.ts:122-136 | for the request in flight the statuses 401 and 403 deny access and drop the data, and no other does |
| `DashboardOutcomes.BreakDecides` | apps/web/hooks/use-dashboard-delivery.ts:157-180 | a request that breaks, or is answered without a version, denies nothing and keeps the data |
| `DashboardOutcomes.UnmergedDecides` | apps/web/hooks/use-dashboard-delivery.ts:157-180 | an answer that does not merge asks again for everything when the request named a version, and is a failure otherwise |
| `DashboardOutcomes.AbortedIsForgotten` | apps/web/hooks/use-dashboard-delivery.ts:157-180 | an aborted request answered late changes nothing |
| `DashboardOutcomes.AnswerSays` | apps/web/lib/dashboard-delivery-client.ts:70-116 | what an answer that merges says: version, state of the recalculation and completeness |
| `DashboardOutcomes.StatusWords` | apps/web/lib/dashboard-delivery-client.ts:33-45 | which words say that a recalculation is pending, running or failed |
| `DashboardOutcomes.PartialExactly` | apps/web/lib/dashboard-delivery-client.ts:46-51 | coverage is partial exactly when a section is truncated |
| `DashboardHook.Delivery.RequestCanonicalState` | apps/web/hooks/use-dashboard-delivery.ts:79-99 | before its fetch the callback changes refs and state as one step of the hook machine, whichever of its guards stops it |
| `DashboardHook.Delivery.Settled` | apps/web/hooks/use-dashboard-delivery.ts:102-189 | after the answer it changes them as another, reading the state of that later moment |
| `DashboardHook.Delivery.ScopeEffect` | apps/web/hooks/use-dashboard-delivery.ts:199-205 | a change of scope aborts the request, forgets its controller and starts the state over; the same scope changes nothing |
| `DashboardHook.Delivery.PollEffect` | apps/web/hooks/use-dashboard-delivery.ts:230-252 | the effect reads the state rendered while its callbacks read the newest, and leaves a request, a new state, a timeout for the deadline of the rendered state, or nothing |
| `DashboardHook.Delivery.Timeout` | apps/web/hooks/use-dashboard-delivery.ts:243-250 | a timeout that fires asks for a poll while a refresh is pending or running, and for the safety refresh otherwise |
| `DashboardHook.Delivery.Handle` | apps/web/hooks/use-dashboard-delivery.ts:79-273 | the hook object moves exactly as the machine whose runs are proved below: the poll effect runs once for every state rendered, and again, on the state rendered before, after a change of scope; one request at most is begun, under the next number |
| `DashboardRuns.StaleChangesNothing` | apps/web/hooks/use-dashboard-delivery.ts:137-189 | the answer to a request that is not the one in flight changes nothing but that it is answered |
| `DashboardRuns.ActionIsCoherent` | apps/web/lib/dashboard-delivery-client.ts:70-116 | an honest response becomes an action exactly when it merges, and the action carries its version and coherent data |
| `DashboardRuns.UnversionedIsNoAction` | apps/web/lib/dashboard-delivery-client.ts:86-92 | an answer in full without a version becomes a failure, never an action |
| `DashboardRuns.StartIs` | apps/web/hooks/use-dashboard-delivery.ts:79-99 | a call starts a request exactly when delivery is on, the scope is its own, none is running and one is due |
| `DashboardRuns.SettleIs` | apps/web/hooks/use-dashboard-delivery.ts:122-189 | the answer to the request in flight is always owned, ends it and frees the controller |
| `DashboardRuns.StepIsSound` | apps/web/hooks/use-dashboard-delivery.ts:79-252 | every event keeps the invariant over state, requests and timer, and lowers the version only by a change of scope |
| `DashboardRuns.RunsAreSound` | apps/web/hooks/use-dashboard-delivery.ts:38-252 | in every run against a server with one payload per scope, floor and version: data held is, in every field but the live control state, the payload published for them, coverage in its normal form, comes from a request started since the last change of scope (A to B to A included), and at most one request is neither answered nor aborted |
| `DashboardRuns.VersionsNeverFall` | apps/web/lib/dashboard-delivery-state.ts:260-292 | between changes of scope the version never falls |
| `DashboardRuns.HonestAnswerIsTaken` | apps/web/lib/dashboard-delivery-client.ts:70-116 | the honest answer to the request in flight is taken if and only if it is not older than the version held; "not modified" and patches always are |
| `DashboardRuns.RejectionForgets` | apps/web/hooks/use-dashboard-delivery.ts:157-180 | an answer that does not merge, or that the reducer turns down, leaves nothing that would name a version |
| `DashboardRuns.RejectedNamesNoVersion` | apps/web/lib/dashboard-delivery-state.ts:343-366 | after such an answer no request names a known version, whatever happens until an answer is taken |
| `DashboardOutcomes.DenialLasts` | apps/web/hooks/use-dashboard-delivery.ts:38-252 | over every run, after a denial no data is shown until an answer is taken or the scope changes |
| `DashboardPolling.StopsExactly` | apps/web/hooks/use-dashboard-delivery.ts:230-252 | polling that goes on stops by one event in exactly two ways: the effect runs in the silent state, or the timeout of the newest state fires while the clock reads less than its deadline and no refresh is pending or running |
| `DashboardPolling.StoppedLasts` | apps/web/hooks/use-dashboard-delivery.ts:230-252 | once stopped, effects, timeouts and callbacks alone never start it again |
| `DashboardPolling.PollingLasts` | apps/web/hooks/use-dashboard-delivery.ts:230-252 | in every run without those two events polling never stops |
| `DashboardPolling.PollingComesRound` | apps/web/hooks/use-dashboard-delivery.ts:230-252 | while polling goes on a visible page makes another request: at once, after the safety refresh, or when the timeout fires on time |
| `DashboardPolling.EarlyTimerStopsPolling` | apps/web/hooks/use-dashboard-delivery.ts:243-250 | a concrete run in which a timeout one millisecond early ends polling |
| `DashboardPolling.MountingAsks` | apps/web/hooks/use-dashboard-delivery.ts:207-252 | a page mounted on show has its first request out when its effects have run |
| `DashboardPolling.EarlyFailureStopsPolling` | apps/web/hooks/use-dashboard-delivery.ts:199-252 | a concrete run in which a refresh failure between a change of scope and the next render ends polling |
| `ConditionalRecords.RecordLoop.Loading` | apps/web/hooks/use-conditional-records.ts:53-70 | a load clears the timeout, then stops, queues itself behind the fetch that is out, or fetches naming the revision held |
| `ConditionalRecords.RecordLoop.Settled` | apps/web/hooks/use-conditional-records.ts:70-138 | an answer changes rows, revision, failures and denial as its kind says and sets the next timeout, or nothing once unmounted |
| `ConditionalRecords.RecordLoop.Handle` | apps/web/hooks/use-conditional-records.ts:140-157 | the loop object moves exactly as the machine whose runs are proved below; only an answer changes rows, and an event begins one fetch at most, none once unmounted |
| `ConditionalRecords.AnswerOutcomes` | apps/web/hooks/use-conditional-records.ts:70-138 | what every answer does to rows, revision, denial and failures; the statuses 401 and 403 deny |
| `ConditionalRecords.WaitOutcomes` | apps/web/hooks/use-conditional-records.ts:129-138 | how long the next load waits, by the failures in a row |
| `ConditionalRecords.LoadOutcomes` | apps/web/hooks/use-conditional-records.ts:53-70 | when a load fetches, and which revision it names |
| `ConditionalRecords.EventOutcomes` | apps/web/hooks/use-conditional-records.ts:139-158 | a page hidden or left sets no timeout, shown again it loads at once, and only a timeout that is set fires |
| `ConditionalRecords.LateAnswer` | apps/web/hooks/use-conditional-records.ts:70-138 | an answer after the page was left changes nothing shown and starts nothing |
| `ConditionalRecords.StepKeepsGoing` | apps/web/hooks/use-conditional-records.ts:49-138 | every event keeps one fetch and one timeout at most, and a page on show with one of the two |
| `ConditionalRecords.RunsKeepGoing` | apps/web/hooks/use-conditional-records.ts:40-158 | the same over every run, and what a refresh asked for is still owed or served |
| `ConditionalRecords.RefreshIsNeverLost` | apps/web/hooks/use-conditional-records.ts:53-59 | a refresh asked for at any point is served by a later fetch, or will be by the fetch out, a timeout of no delay, or the page being shown again |
| `ConditionalRecords.RunsStayCurrent` | apps/web/hooks/use-conditional-records.ts:98-106 | against a server with one set of rows per revision, the rows held are those of the revision held |
| `RmWorkbook.DateRoundTrip` | apps/web/lib/csv-date.ts:3-32 | a calendar date written to the sheet reads back exactly when it is not in the year 0000 |
| `RmWorkbook.Import` | apps/web/lib/order-acceptance-workbook.ts:124-165 | exactly which workbooks are accepted, each row standing for a line of the same id, product and quantity; the error is that of the first row that cannot be taken; and where every row writes its date |
| `RmOutcomes.AcceptableExactly` | apps/web/lib/order-acceptance-workbook.ts:124-165 | a workbook is accepted if and only if its rows are of this proposal, dated, each about its own line with the same product and quantity, and as many as there are lines |
| `RmOutcomes.DatesLand` | apps/web/lib/order-acceptance-workbook.ts:157-160 | the date of each row is with the line or the existing work it names, and every other field is as it was |
| `RmOutcomes.DatesRead` | apps/web/lib/csv-date.ts:3-32 | a date of the sheet is empty, or day, month and year of a calendar date from the year 1 on |
| `RmOutcomes.DatesShown` | apps/web/lib/csv-date.ts:8-11 | how dates are written there |
| `RmOutcomes.ExportLists` | apps/web/lib/order-acceptance-workbook.ts:95-123 | a row for each existing work without an RM date, then one for each line, in order, with these fields |
| `RmWorkbook.CountMeansCover` | apps/web/lib/order-acceptance-workbook.ts:158-163 | rows with distinct keys that all match are as many as the lines if and only if every line has its row |
| `RmWorkbook.ImportDatesEveryLine` | apps/web/lib/order-acceptance-workbook.ts:132-164 | an accepted workbook gives every proposed line and every existing line without a date exactly the date of its row and changes nothing else |
| `RmWorkbook.ExportIsAcceptable` | apps/web/lib/order-acceptance-workbook.ts:95-123 | the exported workbook is accepted as it is if and only if none of its dates is in the year 0000 |
| `RmWorkbook.YearZeroIsRefused` | apps/web/lib/order-acceptance-workbook.ts:95-123 | a concrete proposal with a date in the year 0000: it passes validation and its export is refused |
| `RmWorkbook.ExportedComesBack` | apps/web/lib/order-acceptance-workbook.ts:95-165 | importing the exported rows gives the proposal back, with missing existing dates now empty |
| `IstTime.InputTextReads` | apps/web/lib/date-time.ts:88-91 | a local date and time reads back from its own text if and only if its year has four digits |
| `IstTime.InputComesBack` | apps/web/lib/date-time.ts:88-97 | under clocks less than a day off UTC, an input comes back from its stored instant if and only if its year is 1000 or later and the clocks were five and a half hours ahead then |
| `IstTime.ModernInputComesBack` | apps/web/lib/date-time.ts:88-97 | from 1946 on every input survives storing and showing, whatever UTC day it falls on |
| `IstTime.ModernInstantComesBack` | apps/web/lib/date-time.ts:30-48 | and every stored whole minute survives showing and storing |
| `IstTime.StoredText` | apps/web/lib/date-time.ts:88-91 | what is stored is the same clock five hours and thirty minutes earlier, on the day before where it falls there |
| `UploadIntent.ParsedIsNormal` | apps/web/lib/artifact-upload-contract.ts:83-228 | parsing a parsed intent returns it unchanged, for every kind |
| `IntentFields.ParsedExactly` | apps/web/lib/artifact-upload-contract.ts:83-228 | which records the parser accepts, kind by kind, and which field of the record each field of the result is read from |
| `IntentFields.NumbersRead` | apps/web/lib/artifact-upload-contract.ts:128-185 | which values count as which number |
| `UploadIntent.WrittenTells` | apps/web/lib/artifact-upload-contract.ts:234-242 | two intents with the same JSON text are the same intent, escapes, quotes, numbers and absent fields included |
| `UploadIntent.EqualsIsSameNormalForm` | apps/web/lib/artifact-upload-contract.ts:234-242 | comparing the JSON texts of parsed intents compares their normal forms: an intent equals its own, and equality is symmetric and transitive |

## Left out

- The production planner, the upload repository, the artifact service and the storage service themselves:
  they enter through the contracts above.
- React components and pages, navigation, labels and view-model formatting: no property beyond the functions
  they call.
- Authorization, sessions, SQL and environment parsing: a caller is permitted or not. Database constraints are
  not used.
- HTTP bodies, form encoding and the reading of workbook files: offsets, byte sequences, generations, answers and rows are kept.
- SHA-256 is an uninterpreted function of the bytes, and the policy on file contents one of name, media type, intent and
  bytes.
- Floating point: hours and utilisation are real numbers, so rounding and values that are not finite are not modelled.
- FastSearch.CalculateProposal: does not model the start 9997-12-31, on which the program does not return.
- The comparison of existing work is a function of the planner parameter; a stable sort by it is part of the model, and
  PlainSearch.InTurnIsArranged needs it to agree with an order.
- Structural guards on plain objects, field-name probing, cycle and tooling facts in the preparation of certified
  failures: one predicate of a line, `plainFacts`, stands for them; the cache of snapshots, a pure function of a
  schedule, is not modelled.
- The machine type, cycle and tooling masters passed to the planner are part of the planner.
- Letter case is that of ASCII.
- Dates of legacy labels: a function of the planner parameter; a date out of the range of JavaScript dates is the empty text.
- preparePendingArtifactUploadForFinalAction: reads like the first part of consuming and changes nothing.
- Reading an object and its metadata is one request, and so are deleting it after a final action and noting that.
- Uploads of a dishonest client: for these only size, hash and generation are proved, not the bytes.
- UploadClient.RetainedUploadClient.Prepare: does not model progress messages; an aborted request is one that breaks.
- Aliasing of the upload record with other records: one record and its object are modelled at a time.
- JSON numbers read from texts other than decimal digits: such a text counts as no number.
- The normal form of coverage records belongs to another package: here it is any function of the record.
- DashboardRuns.RunsAreSound: does not model the unmounting of the page; agreement leaves out the live control state, which
  patches replace without a new version.
- UploadIntent.WrittenTells: characters are Unicode scalar values, so a text with half of a surrogate pair is not modelled.
- RetainedStore.WriteOnce: does not model the checksum validation of the storage client.
- IstTime.ModernInputComesBack: only texts of the form the program stores are read back, and a clock offset is whole minutes rounded down.
- Paged histories of the register loop are read whole; its result record repeats data and denial.

# Scientific Radar: verified models of the stateful cores

This project models the parts of Scientific Radar whose correctness depends on what several workers,
requests and outside services do in any order, and proves what every run of them keeps. It is plain
Dafny: `dafny verify dfyconfig.toml` checks everything.

## How the models are built

- One database transaction is one atomic step. A crash is a step that did not happen, so histories may
  stop between any two commits. Unique constraints are modelled explicitly.
- The payment provider, clocks, the network and other services are whatever the model's events or `*`
  choices say: replies can be lost or late, and clocks of different processes need not agree unless a
  rule says so.
- Every core has a *specification* (states, a step function or step relation, and lemmas about all
  histories) and a *class or method* with the program's own branches that is proved to take exactly the
  steps of the specification. A ghost `events` result of a method is the history it produced.
- Methods for whole requests take what the world answers as parameters: they say what holds whatever it answers,
  and also what is achieved when it cooperates.
- Times are integers (microseconds for schedules and checkouts, seconds elsewhere), identifiers are
  natural numbers or strings, and amounts of money are reals or integers of minor units.

| file | what it models |
|---|---|
| `Calendar.dfy`, `Timelines.dfy`, `Recurrence.dfy` | month arithmetic, ordered timelines, schedule occurrences and the guess-then-correct search |
| `Dispatch.dfy` | the compare-and-swap schedule cursor, any number of dispatchers, and the preview |
| `CheckoutProtocol.dfy`, `Checkout.dfy` | purchase attempts, the idempotent replay window, and the durable replacement of an unfinished checkout |
| `RunLedger.dfy` | the research run queue, leases, retries and the monthly usage ledger |
| `RunStages.dfy`, `SummaryBatches.dfy` | checkpointed stages, recovery, and batched summaries |
| `ReportingPeriod.dfy`, `AcceptancePipeline.dfy` | the mandatory date rule, the stage validators, and the independent quality gate |
| `ClosureMarkers.dfy`, `OffsiteVault.dfy` | closure manifests and their retention across two streams of off-site snapshots |
| `ClaimReview.dfy`, `CostCeiling.dfy` | paid review ticks under a daily budget, and the reservation that dominates measured cost |
| `InvoiceCoverage.dfy`, `InvoiceHistory.dfy`, `PriceHistory.dfy` | payment evidence chains, bounded invoice pagination, and the replayed price history |
| `BillingInbox.dfy` | the durable billing inbox: fences, backoff and exactly-once effects |
| `Adjudication.dfy` | append-only benchmark reviews, disputes and publications |
| `Prelude.dfy` | `Option` and `Result` |

## Where the code does not do what a reader might expect

Each of these names a theorem that says exactly when the code keeps the promise, or a history in which it does not,
next to the result that does hold.

- **A failure inside the final transaction of a run is permanent.** The briefing stage, already saved, is
  marked failed; a retry must insert the briefing a second time, which its unique key refuses
  (`CompletionErrorIsPermanent`, `FinalTransactionIsReached`). A failed run can be completed by retrying exactly
  when neither trends nor briefing would be inserted twice (`RetryCanCompleteIff`).
- **An error while reading back an earlier checkpoint breaks the stage order** unless that checkpoint is
  the last completed one and nothing after it was started (`CheckpointErrorKeepsOrderIff`,
  `CheckpointErrorBreaksTheOrder`).
- **The first submission of a new attempt has no age check.** The other two senders refuse after 23 hours.
  23 hours is exactly the window that rules out a second session (`WindowIsExact`, `OneSessionIff`); a first
  request sent later can give a new account two live purchases (`LateRequestDuplicates`). `Deliver`, `Start`,
  `Replace` and `Resume` say when one was sent late, and the safety theorems are about histories without any.
- **An overtaken replacement withdraws somebody else's consent**, although its error path means never to touch
  a different one: the identifier is read only after the lock was free, and the terms are compared later still.
  A consent withdrawn is the request's own exactly if the one found after re-locking is the one it saved
  (`CarryOut`); one of other terms on an expired attempt is always withdrawn (`Handoff`), as
  `OvertakenReplacement` shows from every such state.
- **The claim-review worker's second transaction is not fenced**, so after a takeover a stalled tick, or the one
  that took over, can pay for a call of a review the other has finished. Exactly the takeovers named in
  `CallForAFinishedReviewIff` allow that; without them every call is for an active review
  (`CallsAreForActiveReviews`). Such a call stays within the reservation and its response is never recorded.
- **Calls are charged to the day their tick started.** A tick that runs past midnight calls on a day that may
  have reserved nothing; the calls made on a day stay within its reservation exactly under rules that let a tick
  call only on the day it started (`CallsStayReservedIff`).
- **An admission that read its clock before midnight but got its lock after a later day's admission resets the
  counter**, and that later day can then reserve its whole limit again. Exactly the admissions that are not
  overtaken keep the limits (`LimitsSurviveIff`, `AdmissionIsOvertaken`).
- **An author who first agrees can then overturn a decision alone**, because only the most recent final
  record is compared (`AgreeingFirstAvoidsTheDispute`, `DissentIsDisputedIff`).
- **At equal effective times an upgrade overrides a later change**, and two events of one table are read in no
  particular order. Prices are faithful exactly if two events of one instant are always a change followed by an
  upgrade (`FaithfulIff`, `TieFavoursTheUpgrade`). The commands that save upgrades refuse such instants
  (`backend/app/services/subscription_upgrade_service.py:130-134`); the rule itself does not check.
- **A zone that skips a calendar day makes two daily occurrences coincide**; offsets that differ by less
  than 24 hours never do (`DateLineJumpRepeatsAnInstant`, `InOrderIff`).
- **A closure marker dropped by retention returns with the next backup** as long as the live database
  still records the closure (`DroppedMarkerReturns`). `docs/account-closure.md` says manifests omit older
  markers; the model follows the code.
- `docs/research-orchestration.md` says trend and briefing references may name any discovered paper; the
  code requires a summarised one, and the model follows the code.

## Model

| member | source | states |
|---|---|---|
| Calendar.MonthOf | backend/app/scheduler/recurrence.py:36 | the month index of a local date: the unique month whose first day is at or before it and whose successor starts after it |
| Calendar.Clamped | backend/app/scheduler/recurrence.py:19-21 | the day-of-month of a monthly occurrence is the anchor's if the month has that day, and the last day of the month if not |
| Calendar.GregorianYears | backend/app/scheduler/recurrence.py:19-21 | years have 365 or 366 days by the Gregorian rule, and 400 years have 146097 |
| Calendar.GregorianMonths | backend/app/scheduler/recurrence.py:19-21 | the months of every year have their Gregorian lengths |
| Calendar.ClampedGap | backend/app/scheduler/recurrence.py:19-21 | clamped dates of consecutive months are at least 28 days apart, leap years included |
| Recurrence.OccurrenceFollowsTheCalendar | backend/app/scheduler/recurrence.py:12-23 | occurrence i is at the anchor's local time of day, i days, weeks, months or quarters after the anchor's local date, on its day of the month or else the last day of that month; the first is the anchor itself |
| Recurrence.LocalDayGap | backend/app/scheduler/recurrence.py:12-23 | local dates of consecutive occurrences are at least 1, 7, 28 or 84 days apart, and exactly 1 or 7 for daily and weekly schedules |
| Recurrence.InOrderIff | backend/app/scheduler/recurrence.py:12-23 | two consecutive occurrences are in order exactly when the zone offset does not advance by as much as the dates do |
| Recurrence.Increasing | backend/app/scheduler/recurrence.py:12-23 | occurrences strictly increase for every frequency and every zone whose offsets differ by less than a day |
| Recurrence.DateLineJumpRepeatsAnInstant | backend/app/scheduler/recurrence.py:12-23 | the bound on offsets is sharp: a schedule and zone exist for which two occurrences are the same instant |
| Recurrence.GuessIsClose | backend/app/scheduler/recurrence.py:31-36 | the calendar guess is within two places of the answer, on both sides |
| Recurrence.FindIndex | backend/app/scheduler/recurrence.py:37-40 | both correction loops together move at most two places and end at the index whose occurrence is the last one not after now |
| Recurrence.Around | backend/app/scheduler/recurrence.py:26-46 | returns exactly the greatest occurrence at or before now and the least one after it, both before the exclusive end, and nothing once the schedule ended |
| Recurrence.FirstDispatch | backend/app/scheduler/recurrence.py:49-51 | a saved schedule starts at the least future occurrence, without a catch-up run |
| Timelines.LatestDueExact | backend/app/scheduler/recurrence.py:37-42 | the due occurrence is at or before now, none lies between, and there is none exactly before the first |
| Timelines.UpcomingExact | backend/app/scheduler/recurrence.py:43-45 | the next occurrence is the least one after now that the end does not exclude |
| Timelines.DueUntilNext | backend/app/scheduler/recurrence.py:26-46 | from one occurrence until the next one or the end, that occurrence is the one due |
| Dispatch.Digest.constructor | backend/app/scheduler/recurrence.py:49-51 | saving a schedule sets the cursor to its first future occurrence, with nothing queued: an orderly state, from which every history theorem starts |
| Dispatch.Digest.Dispatch | backend/app/scheduler/dispatch.py:34-91 | one dispatcher transaction, case by case: nothing before the cursor is due, a pause is noted and holds, a cursor moved by somebody else or an inactive owner leaves the row alone; otherwise an admitted occurrence is queued and the cursor moves on, a refusal waits a minute and a conflict changes nothing |
| Dispatch.Tick | backend/app/scheduler/dispatch.py:24-92 | a pass reads the due digests and gives every selected one exactly its own step, so a refusal holds back nobody else; all others stay as they were, and the queued runs are counted |
| Dispatch.SelectDue | backend/app/scheduler/dispatch.py:27-30 | selects up to a hundred eligible digests in order of their due times, ties broken by identifier; one is left out only if a full batch has been due longer |
| Dispatch.DeniedWaits | backend/app/scheduler/dispatch.py:27-30 | a digest whose run was denied is not selected again for exactly one minute |
| Dispatch.StepAdvances | backend/app/scheduler/dispatch.py:49-91 | a step either leaves the queue alone or queues one occurrence not before the cursor and moves the cursor strictly past it; the cursor never moves back |
| Dispatch.RefusalKeepsTheOccurrenceDue | backend/app/scheduler/dispatch.py:83-91 | a denied or conflicting admission leaves cursor and queue as they were |
| Dispatch.DispatchNeverRepeats | backend/app/scheduler/dispatch.py:24-92 | in every run of any dispatchers with any clocks, queued times are strictly increasing occurrences and the cursor is null or a later occurrence |
| Dispatch.OnlyOlderOccurrencesAreSkipped | backend/app/scheduler/dispatch.py:49-82 | before the cutoff, every occurrence the cursor passed was queued or is older than a queued one |
| Dispatch.SchedulePreview | backend/app/services/schedule_preview_service.py:20-32 | the loop computes the specified preview: up to three dates from the coalesced due date or the cursor |
| Dispatch.PreviewPredictsDispatch | backend/app/services/schedule_preview_service.py:21-35 | a dispatcher that succeeds once in each interval queues exactly the previewed dates in order |
| Dispatch.PreviewIsConsecutive | backend/app/services/schedule_preview_service.py:21-35 | the preview is empty only without a cursor or after the cutoff; otherwise it starts at the cursor, or at the latest occurrence by now if that is due, and lists consecutive occurrences below the cutoff, fewer than three only if there are no more |
| CheckoutProtocol.WorldKeepsInv | backend/app/services/stripe_sandbox_service.py:212-304 | whatever the provider, the network and time do keeps the account invariant: one session per attempt, all but the newest dead, saved rows truthful |
| CheckoutProtocol.CommitKeepsInv | backend/app/services/stripe_sandbox_service.py:212-304 | every permitted commit keeps the account invariant |
| CheckoutProtocol.OneLivePurchase | backend/app/services/stripe_sandbox_service.py:212-304 | at every moment of every history without late first requests two sessions that could still take money are one and the same |
| CheckoutProtocol.OneSuccessorPerConsent | backend/app/services/checkout_replacement_service.py:74-79 | a carried-out consent names the same successor, with exactly the agreed terms, for ever |
| CheckoutProtocol.PendingFencesCreation | backend/app/services/stripe_sandbox_service.py:225-234 | while a consent is pending, the only attempt that can be added is the one it agreed to, linked in the same commit |
| CheckoutProtocol.ConsentLifecycle | backend/app/services/checkout_replacement_service.py:57-134 | a consent moves only from none or stopped to waiting and from waiting to stopped or carried out, the latter exactly when its successor is added |
| CheckoutProtocol.ReachableIsSafe | backend/app/services/stripe_sandbox_service.py:212-304 | every state that any sequence of requests and events without late first requests can reach from a new account has at most one live purchase |
| CheckoutProtocol.RollbackIsATransaction | backend/app/services/stripe_sandbox_service.py:212-304 | a transaction that fails at any point is a permitted one that commits nothing |
| CheckoutProtocol.WindowIsExact | backend/app/services/stripe_sandbox_service.py:249-253 | a send can leave two sessions under one key exactly when it happens more than 23 hours after the attempt was saved |
| CheckoutProtocol.OneSessionIff | backend/app/services/stripe_sandbox_service.py:249-304 | an attempt with a session keeps that single one whatever happens next, its own request sent once more included, exactly while it is no older than 23 hours |
| CheckoutProtocol.LateRequestDuplicates | backend/app/services/stripe_sandbox_service.py:283-300 | at any moment after the window a new account can have a saved attempt whose answer was lost, and sending its first request then can give it two live purchases |
| Checkout.NextAttempt | backend/app/services/stripe_sandbox_service.py:256-283 | saving a successor next to a finished attempt, with its consent carried out if one was pending, is a permitted commit |
| Checkout.Account.GetSession | backend/app/services/stripe_sandbox_service.py:165-168 | a retrieved session was true when served; what it says is final still holds, and what is open or unsold afterwards was so reported |
| Checkout.Account.PostSession | backend/app/services/stripe_sandbox_service.py:298-299 | the creation request is sent now, only inside the replay window; its answer may be an older snapshot, and a provider that answers has the session |
| Checkout.Account.ObserveSubscription | backend/app/services/stripe_sandbox_service.py:98-145 | records whether the subscription is terminal, truthfully for some moment in between, or leaves the row as it was; an expired session has none |
| Checkout.Account.ObserveCheckout | backend/app/services/stripe_sandbox_service.py:148-162 | takes over the session status; a completion without its subscription is not accepted |
| Checkout.Account.Sync | backend/app/services/stripe_sandbox_service.py:165-177 | refreshes the row from whatever identifier it holds; an expired attempt stays expired and free of subscriptions; a provider that answers has an unsold session taken over as it is and a finished purchase with its subscription |
| Checkout.Account.Save | backend/app/services/stripe_sandbox_service.py:148-162 | commits a truthful row as one permitted transaction |
| Checkout.Account.Add | backend/app/services/stripe_sandbox_service.py:260-283 | commits one new attempt after a finished one, together with the predecessor's linkage |
| Checkout.Account.Submit | backend/app/services/stripe_sandbox_service.py:298-304 | sends the saved request and keeps its answer; a page is offered only for an open session, and always if the provider answers with one |
| Checkout.Account.Decide | backend/app/services/stripe_sandbox_service.py:236-283 | refuses for a live subscription, other terms or an attempt too old; shows an open page again; resends otherwise, with a page if the provider answers; adds an attempt exactly after a finished one |
| Checkout.Account.StartWith | backend/app/services/stripe_sandbox_service.py:212-283 | is closed exactly to forbidden changes, an unexpected newest attempt and pending consents; otherwise the newest attempt serves the request: its open page for the same terms, a new attempt after one that is over, a refusal for a live subscription |
| Checkout.Account.StartFirst | backend/app/services/stripe_sandbox_service.py:212-283 | first transaction of a start, as one permitted transaction with the same answers, by what the provider held before and after |
| Checkout.Account.Deliver | backend/app/services/stripe_sandbox_service.py:284-304 | second transaction of a start: refuses without any change unless the attempt is the newest and no consent is pending, and never adds one; its page is shown if the provider answers and the session is open; the request is sent late exactly if it must be sent and the lock was granted after the replay window |
| Checkout.Account.GetCanonical | backend/app/services/checkout_replacement_service.py:35-54 | establishes an unpaid open or expired session, or stops, or fails without concluding anything; if the provider answers, an unsold session is established exactly if it is unpaid and without recovery, an unanswered one recovered first; a known expiry is never forgotten |
| Checkout.Account.Expire | backend/app/services/checkout_replacement_service.py:105-119 | an open session is asked to expire and looked at again: with a provider that grants it the expiry is confirmed, unless something was bought; nothing is concluded without answers |
| Checkout.Account.Consent | backend/app/services/checkout_replacement_service.py:57-95 | an exact retry of a pending consent goes on under that consent and saves nothing; one that was carried out by the newest attempt starts that attempt; other terms while a consent is pending, or any while the newest attempt is another, are refused; a new consent is saved exactly for an unfinished attempt without subscription, other terms and a plan that can be bought |
| Checkout.Account.Handoff | backend/app/services/checkout_replacement_service.py:96-134 | the consent found pending leads to a successor exactly if the expiry was confirmed, its terms are the requested ones, and billing and plan permit it; a confirmed expiry is true; with a provider that answers, a session that has expired or expires on request is confirmed exactly if reported unpaid and without recovery, else the consent is withdrawn; never confirmed without answers; on an attempt known to have expired the consent is otherwise withdrawn, and nothing else changes |
| Checkout.Account.CarryOut | backend/app/services/checkout_replacement_service.py:93-134 | the consent acted on is the one found after the lock was free; one withdrawn is the request's own exactly if that is the one it saved, and one of other terms on an expired attempt is always withdrawn; an exact retry keeps the lock and finds its own |
| Checkout.Account.Unblock | backend/app/services/checkout_replacement_service.py:123-133 | withdraws exactly the pending consent with the given identifier on an expired newest attempt, else changes nothing |
| Checkout.Account.CleanUp | backend/app/services/checkout_replacement_service.py:123-133 | after a failure, once the lock was free, one transaction that withdraws the consent with the identifier found and is otherwise empty |
| Checkout.Account.OvertakenReplacement | backend/app/services/checkout_replacement_service.py:96-134 | for every expired attempt and any two other terms: an overtaken replacement takes the consent another window has saved for its own, and withdraws it |
| Checkout.ExpiredAttempt | backend/app/services/stripe_sandbox_service.py:148-162 | a new account can reach the state in which that happens |
| Checkout.Account.HandleEvent | backend/app/services/stripe_sandbox_service.py:378-418 | an event only triggers a fresh look at the provider and changes nothing but observations of its attempt; if the provider answers, a purchase, an expiry or an open session is saved |
| Checkout.Account.Refresh | backend/app/services/stripe_sandbox_service.py:307-314 | changes nothing but observations of the newest attempt; if the provider answers, an expiry, an open session or a finished purchase is saved |
| Checkout.Account.Start | backend/app/services/stripe_sandbox_service.py:212-304 | a whole start, with anything in between: a page is that of the newest attempt with the requested terms, and a named attempt never leads to a new one; the page of a named attempt that is open is shown; an account without attempts, or whose newest one has expired, gets a new one, and its page if left alone; the one exception is named, a first request sent more than 23 hours late |
| Checkout.Account.Replace | backend/app/services/checkout_replacement_service.py:57-134 | a whole replacement, re-entry included, terminates; its page is the successor the source consented to, and an exact retry adds nothing. With billing, plan and a provider that answers, an exact retry of a pending consent ends with the successor saved if the session has expired or expires on request and nothing was bought; so does a new request that is left alone, with the successor's page; asking again shows that page |
| Checkout.Account.Resume | backend/app/services/checkout_replacement_service.py:137-153 | resumes the pending replacement, and then its page is the successor that consent led to with the terms it agreed to, which is saved under the same conditions; or the pending attempt itself, whose open page is shown, and then no attempt is added; nothing else |
| RunLedger.Queue.StartDigest | backend/app/radar/submission.py:63-115 | run and reservation commit together, exactly when the owner has no active run and access is granted |
| RunLedger.Queue.RetryDigest | backend/app/radar/submission.py:117-152 | only a failed run of an idle owner is queued and reserved again |
| RunLedger.NextCandidate | backend/app/repositories/run_state_repository.py:110-124 | finds the queued or running run of an open account, without a lease or with one that is over, that was started first, ties broken by identifier; or that there is none |
| RunLedger.Queue.ClaimNext | backend/app/repositories/run_state_repository.py:127-149 | a conditional claim: true exactly if the run is queued or running, its owner is not closing, and it has no lease or one before now; then it names the worker and the new lease |
| RunLedger.Queue.RenewLease | backend/app/repositories/run_state_repository.py:151-164 | extends the lease exactly if the worker still owns the running run and the account is not closing |
| RunLedger.Queue.ReserveUsage | backend/app/services/subscription_observation_service.py:107-134 | reserves a new or released entry, counting the attempt and keeping its month, and never a reserved or charged one |
| RunLedger.Queue.SettleUsage | backend/app/services/subscription_observation_service.py:137-147 | charges or releases a reserved entry and leaves every other alone |
| RunLedger.Queue.CompleteRun | backend/app/radar/lifecycle.py:83-98 | fence, charge and completion are one step of the current owner |
| RunLedger.Queue.FailRun | backend/app/radar/lifecycle.py:103-123 | only the current owner records a failure and releases the reservation |
| RunLedger.StepKeepsInv | backend/app/radar/lifecycle.py:74-123 | every transaction keeps: every admitted run has its ledger row, active is reserved, completed is charged, failed is free; a worker is set exactly on running runs; one active run per owner |
| RunLedger.HistoryKeepsInv | backend/app/radar/lifecycle.py:74-123 | every history of any workers, clocks and retries keeps that correspondence |
| RunLedger.LedgerFollowsTheRun | backend/app/radar/lifecycle.py:74-123 | in every history a run admitted since the ledger exists has its row, reserved exactly while queued or running, charged exactly when completed, released exactly when failed; a worker is named exactly on running runs |
| RunLedger.LedgerKeepsTheBookings | backend/app/services/subscription_observation_service.py:107-134 | in every history the ledger holds exactly the runs that were admitted, each under the owner and month of its first admission |
| RunLedger.UsageIsConserved | backend/app/services/subscription_observation_service.py:80-89 | in every history a month's completed plus reserved count equals the runs admitted for it that did not fail |
| RunLedger.SupersededWorkerIsFenced | backend/app/radar/lease.py:24-43 | after another worker's takeover, whatever the superseded one still tries on the run, the history is the one without its attempts, until it claims the run again |
| RunLedger.LiveLeaseIsRespected | backend/app/repositories/run_state_repository.py:107-164 | in every step a running run whose lease is not over by the acting clock keeps its worker and lease, unless that worker gives it up or renews it |
| RunLedger.WorkerKeepsItsRun | backend/app/repositories/run_state_repository.py:107-164 | the same over every history |
| RunLedger.AbandonedRunIsRecovered | backend/app/repositories/run_state_repository.py:107-149 | a run left running by a dead worker is taken over by the first claim after its lease, whatever happened to other runs meanwhile |
| RunLedger.ChargedOnce | backend/app/services/subscription_observation_service.py:107-147 | a charged entry never changes again |
| RunLedger.PeriodIsKept | backend/app/services/subscription_observation_service.py:107-134 | retries keep the month, owner and size of the first admission |
| RunStages.Record.ExecuteStage | backend/app/radar/runner.py:135-294 | one stage extends the history so far by exactly the specified steps, with a crash or failure at any commit; undisturbed it ends completed, unless its rows would have to be inserted twice, and if what it asks for fails the stage and the run are failed |
| RunStages.Record.ExecuteRun | backend/app/radar/runner.py:102-133 | the four stages in order and the final transaction are a history of specified steps; done means all four are completed; undisturbed it is done exactly if no stage that is not completed would insert a unique row twice |
| RunStages.Record.MarkFailed | backend/app/radar/lifecycle.py:74-81 | marks one stage and the run failed and ends the execution |
| RunStages.Record.RequeueFailed | backend/app/repositories/run_state_repository.py:166-204 | resets the first failed stage and queues the run, exactly if there is one |
| RunStages.OrderSurvives | backend/app/radar/runner.py:102-133 | through any claims, crashes, failures and retries completed stages form a prefix, only the first incomplete one is running or failed |
| RunStages.CompletedRunHasAllStages | backend/app/radar/lifecycle.py:83-98 | in every history a completed run has all four stages completed, even if errors while reading checkpoints broke the stage order |
| RunStages.CheckpointErrorKeepsOrderIff | backend/app/radar/lifecycle.py:103-123 | exactly when an error while reading a saved checkpoint keeps the order |
| RunStages.CheckpointErrorBreaksTheOrder | backend/app/radar/lifecycle.py:103-123 | a history from a new run in which it does not |
| RunStages.RetryCanCompleteIff | backend/app/repositories/run_result_repository.py:129-175 | a failed run can be completed by some continuation exactly when no unique result row would be inserted twice |
| RunStages.CompletionErrorIsPermanent | backend/app/radar/lifecycle.py:83-123 | after a failure inside the final transaction no continuation completes the run |
| RunStages.FinalTransactionIsReached | backend/app/radar/runner.py:102-133 | an undisturbed history of a new run leads to the final transaction, where that failure can happen |
| SummaryBatches.RemainingIsTheRest | backend/app/radar/runner.py:188-191 | what is left after a prefix was summarised in any order is the rest, in discovery order |
| SummaryBatches.AcceptKeepsValid | backend/app/repositories/run_result_repository.py:94-115 | saving an accepted batch extends the summarised prefix by exactly that batch, without repeats |
| SummaryBatches.SummaryStage.Request | backend/app/radar/request_execution.py:21-51 | whatever is asked, lost or interrupted, a saved response belongs to the next batch; an answer that arrives is handed on unchanged |
| SummaryBatches.SummaryStage.ExecuteBatch | backend/app/radar/runner.py:192-217 | a batch is saved whole or not at all, exactly if the answer has one summary for each of its papers and no other; a rejected response is not kept for reuse |
| SummaryBatches.SummaryStage.Execute | backend/app/radar/runner.py:171-220 | one execution from any earlier state keeps the row valid, progress equal to the saved summaries, and loses nothing saved; left alone with a provider that answers as asked it finishes |
| SummaryBatches.CompletedExactly | backend/app/repositories/run_result_repository.py:117-127 | a completed stage has exactly one summary per selected paper and the rounded-up number of accepted batches |
| SummaryBatches.RunWithRetries | backend/app/radar/runner.py:171-220 | however often it was interrupted, a finished stage has one summary per paper, the least number of accepted batches and no pending response; it finishes at the latest with the first undisturbed execution |
| ReportingPeriod.RejectOne | backend/app/radar/validation.py:88-93 | rejects one assessment in place; the reason becomes a caveat and leads the rationale, once |
| ReportingPeriod.ExcludeOutOfPeriod | backend/app/radar/validation.py:69-95 | the in-place rule marks exactly the papers dated outside the interval and their assessments, or refuses an invalid interval unchanged |
| ReportingPeriod.RuleIsExact | backend/app/radar/validation.py:69-95 | a paper without a date, or dated in the period with its first and last day, stays unchanged with its assessment; any other is rejected, and both carry the reason once |
| ReportingPeriod.RuleKeepsIdentities | backend/app/radar/validation.py:69-95 | identities, order, dates and the one-assessment-per-paper contract survive the rule |
| ReportingPeriod.RuleIsIdempotent | backend/app/radar/validation.py:69-95 | applying the rule twice is applying it once |
| ReportingPeriod.SelectedAreInPeriod | backend/app/radar/validation.py:69-95 | no selected paper has a known date outside the period |
| AcceptancePipeline.SummaryInputIsSelection | backend/app/radar/stage_inputs.py:12-27 | the summary input names exactly the selected papers |
| AcceptancePipeline.SummaryInputKeepsOrder | backend/app/radar/stage_inputs.py:12-27 | the summary input keeps the discovery order and names no paper twice |
| AcceptancePipeline.ReferencesAreListed | backend/app/radar/validation.py:18-47 | the references are exactly what the items of the seven trend groups and the four briefing groups list |
| AcceptancePipeline.ConstrainSummaries | backend/app/radar/evidence.py:29-51 | overwrites every summary from its approved document, or refuses one without a usable document |
| AcceptancePipeline.Summarise | backend/app/radar/runner.py:192-217 | accepts exactly complete, sourced batches; the result covers the selected papers, holds only what is kept of the provider's summaries, and never claims full text |
| AcceptancePipeline.BatchesAcceptedIff | backend/app/radar/runner.py:192-217 | all batches are accepted exactly if each, counted from the start, gets one summary for each of its papers and no other, with an approved document for each, linked if its text is used |
| AcceptancePipeline.Discover | backend/app/radar/runner.py:158-168 | saved discovery is capped, contract-conforming and selects nothing known to be out of period |
| AcceptancePipeline.SelectedExactly | backend/app/radar/runner.py:158-168 | exactly the papers recommended for a summary and not known to be out of period are selected |
| AcceptancePipeline.RunStages | backend/app/radar/runner.py:135-294 | accepts exactly what all validators pass, and then the saved stages satisfy every identity rule |
| AcceptancePipeline.PassesIff | backend/app/radar/runner.py:135-294 | a fresh run is accepted exactly with discovery within its cap for a valid period, every batch accepted, and trends and a briefing that refer only to papers recommended and not known to be out of period |
| AcceptancePipeline.EvaluateQuality | backend/app/radar/quality.py:43-121 | reports each identity, date and source finding exactly if some paper is concerned, and names exactly the papers concerned |
| AcceptancePipeline.AcceptedStagesAreNeverHeld | backend/app/radar/quality.py:43-121 | on accepted stages no paper is concerned by a hold for summary coverage, unknown or unselected references, reporting period or inconsistent source basis |
| AcceptancePipeline.RunAndGate | backend/app/radar/quality.py:28-128 | a fresh run followed by the gate yields none of those holds, for any provider output |
| ClosureMarkers.MergeMarkers | infra/scripts/offsite_backup.py:177-185 | merging lists each user once, in order, and reads back as the join of all groups |
| ClosureMarkers.MergeKeepsEarliest | infra/scripts/offsite_backup.py:177-185 | the merge holds exactly the earliest known request of every user named in any group |
| ClosureMarkers.MergeIdempotent | infra/scripts/offsite_backup.py:177-185 | merging again adds nothing |
| ClosureMarkers.MergeAssociative | infra/scripts/offsite_backup.py:177-185 | checkpoints can be merged in any grouping |
| ClosureMarkers.MergeCommutes | infra/scripts/offsite_backup.py:177-185 | merging commutes exactly when no instant is written in two ways; the instants always agree |
| ClosureMarkers.RetainedMarkers | infra/scripts/offsite_backup.py:188-203 | keeps exactly the markers that are young or that some surviving snapshot predates |
| ClosureMarkers.RetentionHorizon | infra/scripts/offsite_backup.py:188-203 | with only 35 days of database snapshots left, exactly the last 65 days of markers stay |
| OffsiteVault.Latest | infra/scripts/offsite_backup.py:124-126 | picks a snapshot with the greatest time |
| OffsiteVault.Vault.SavedMarkers | infra/scripts/offsite_backup.py:257-266 | reads the newest closure checkpoint, or says there is none |
| OffsiteVault.Vault.Backup | infra/scripts/offsite_backup.py:283-301 | commits the closure checkpoint, joining the newest one with what is staged, before the database snapshot with the same manifest; a success means exactly one snapshot was added to each stream concerned; an invalid manifest changes nothing, and a failed upload no database |
| OffsiteVault.Vault.ApplyRetention | infra/scripts/offsite_backup.py:304-318 | prunes databases first, then rewrites the newest checkpoint to what the survivors still need, then prunes checkpoints |
| OffsiteVault.Vault.Fetch | infra/scripts/offsite_backup.py:321-348 | merges the chosen database's own manifest with the newest checkpoint, or refuses for the stated reason |
| OffsiteVault.Vault.BackUpAndFetch | infra/scripts/offsite_backup.py:283-348 | what was just backed up is what a recovery of the newest or of that snapshot gets, with its own checkpoint and manifest |
| OffsiteVault.RetainOutcome | infra/scripts/offsite_backup.py:304-318 | retention leaves the newest manifest alone or cuts it to exactly the needed markers |
| OffsiteVault.DatabasesComeAndGo | infra/scripts/offsite_backup.py:283-318 | a complete database backup adds one snapshot with everything known by then, and only a retention that does not keep it removes one |
| OffsiteVault.DatabaseStays | infra/scripts/offsite_backup.py:283-318 | in every history a database snapshot stays until a retention leaves it out |
| OffsiteVault.NoClosureIsLost | infra/scripts/offsite_backup.py:283-348 | through any backups, failed uploads, rollbacks and retention, every user ever checkpointed is in the newest checkpoint with the earliest request or older than every surviving database |
| OffsiteVault.FetchNamesEveryClosure | infra/scripts/offsite_backup.py:321-348 | recovering a snapshot dated at or before a closure yields that user's earliest request |
| OffsiteVault.DroppedMarkerReturns | infra/scripts/offsite_backup.py:283-301 | a closure still staged by the live database is checkpointed again by the next backup |
| ClaimReview.Desk.StartReview | backend/app/services/claim_review_service.py:70-144 | admits a review exactly as specified, within the day's counter and only while none is active; asking again under the same identifier reserves nothing and returns the same review, or is refused if the request differs |
| ClaimReview.Desk.ClaimLease | backend/app/services/claim_review_worker.py:55-69 | takes the active review if its lease is absent or over |
| ClaimReview.Desk.DecideNext | backend/app/services/claim_review_worker.py:70-108 | finishes the review, or saves the request for the first open case before any call |
| ClaimReview.Desk.RecordResponse | backend/app/services/claim_review_worker.py:118-162 | keeps a response only for the token holder of an active review, and then exactly as reported; the review goes on only after an accepted one, if nothing stops it and it was not the last |
| ClaimReview.Desk.RunTick | backend/app/services/claim_review_worker.py:54-162 | a whole tick, with anything in between and a crash anywhere, is a history of specified steps; left alone it calls for the case that is next, exactly once, and saves what came back |
| ClaimReview.OneCallPerCase | backend/app/services/claim_review_worker.py:98-113 | in every history no case of a review is called for twice |
| ClaimReview.RequestsFollowAcceptance | backend/app/services/claim_review_worker.py:72-75 | a request is saved only while every earlier one of its review was accepted |
| ClaimReview.OnlyTheHolderRecords | backend/app/services/claim_review_worker.py:118-127 | only the current token holder on an active review changes an outcome |
| ClaimReview.ResponseIsRecorded | backend/app/services/claim_review_worker.py:118-162 | what the token holder of an active review reports is what is saved, and anything but an accepted response ends the review |
| ClaimReview.BadResponseStopsItsReview | backend/app/services/claim_review_worker.py:118-162 | after a response that was missing or invalid the review gets no further request and no further call, in every continuation |
| ClaimReview.UncertainCallStopsItsReview | backend/app/services/claim_review_worker.py:72-75 | after an abandoned uncertain or invalid request its review gets no further request and no further call |
| ClaimReview.CallsWithinReservation | backend/app/services/claim_review_service.py:129-136 | the calls charged to a day never exceed the calls reserved that day |
| ClaimReview.DailyLimitHolds | backend/app/services/claim_review_service.py:115-136 | when admissions take their lock in day order, no day's reserved calls and money pass their limits |
| ClaimReview.AdmissionKeepsBudgetIff | backend/app/services/claim_review_service.py:115-136 | an admission keeps the counter equal to what its day has reserved exactly when it is not overtaken by one of a later day |
| ClaimReview.OvertakenAdmissionForgets | backend/app/services/claim_review_service.py:115-130 | after every overtaken admission the later day can reserve its whole limit once more |
| ClaimReview.LimitsSurviveIff | backend/app/services/claim_review_service.py:115-136 | every day stays within its limits whatever admissions follow in day order, exactly when the admission was not overtaken |
| ClaimReview.AdmissionIsOvertaken | backend/app/services/claim_review_service.py:115-136 | under any limits that allow a call, a history of a new desk leads to an overtaken admission |
| ClaimReview.PunctualCallsAreReserved | backend/app/services/claim_review_worker.py:92-113 | if ticks do not run past midnight, the calls made on a day stay within its reservation |
| ClaimReview.CallOnAnotherDay | backend/app/services/claim_review_worker.py:92-113 | for any two moments on different days a tick that starts at one can call at the other, on a day that reserved nothing |
| ClaimReview.CallsStayReservedIff | backend/app/services/claim_review_worker.py:92-113 | the calls made on a day stay within its reservation in every history that follows a rule about when a tick may call, exactly if the rule lets ticks call only on the day they started |
| ClaimReview.CallsAreForActiveReviews | backend/app/services/claim_review_worker.py:55-113 | in every history without dangerous takeovers every provider call is for an active review |
| ClaimReview.CallForAFinishedReviewIff | backend/app/services/claim_review_worker.py:55-113 | exactly a takeover from a tick that may still call, when one of the two has saved or may still save a request, can be followed by a call for a finished review |
| ClaimReview.StalledTickIsTakenOver | backend/app/services/claim_review_worker.py:55-69 | a tick that stalls for longer than its lease is enough for such a takeover |
| CostCeiling.ReserveCeiling | backend/app/services/claim_review_service.py:54-67 | sums the case ceilings, rounded up to whole millionths, exactly when rates are positive and every case fits the limits |
| CostCeiling.KnownIff | backend/app/services/radar_cost_service.py:8-43 | a cost is known exactly if the request ran on the standard tier, its counters are present, make sense together and stay within the tariff, and every kind of token used has a rate |
| CostCeiling.EachUnitAtItsRate | backend/app/services/radar_cost_service.py:8-43 | one token or search call more raises a known cost by exactly the rate of its kind |
| CostCeiling.CostsAdd | backend/app/services/claim_review_worker.py:155-156 | costs of parts add up, and a case without a request or with one of unknown cost adds nothing |
| CostCeiling.HighestRateDominates | backend/app/services/radar_cost_service.py:33-43 | charging all input at the highest rate dominates every split into uncached, cached and cache-write tokens |
| CostCeiling.OneRequestWithinCeiling | backend/app/services/radar_cost_service.py:8-43 | a request within its token limits is estimated at no more than its case ceiling |
| CostCeiling.CeilingIsAttained | backend/app/services/claim_review_service.py:54-67 | no smaller ceiling would do: some request within the limits of a case costs exactly that much |
| CostCeiling.CeilingDominates | backend/app/services/claim_review_service.py:54-67 | the sum of all estimates is at most the exact ceiling, for all non-negative rates |
| CostCeiling.ReservationIsNeverExceeded | backend/app/services/claim_review_worker.py:155-156 | the stop for measured cost above the reservation is unreachable while requests keep to their limits |
| InvoiceCoverage.SettledChain | backend/app/services/billing_invoice_service.py:235-247 | true exactly when a settled chain of at most 16 different invoices exists |
| InvoiceCoverage.SettledPathIff | backend/app/services/billing_invoice_service.py:235-247 | a settled chain is one of different unreviewed invoices, each billing an upgrade of the next that was applied and paid as quoted, or expired unapplied with its invoice void, down to an ordinary one paid in full |
| InvoiceCoverage.HasSettledPrior | backend/app/services/billing_invoice_service.py:211-220 | true exactly when the previous period's latest upgrade, or else one of its 16 newest paid invoices, is settled |
| InvoiceCoverage.CandidatesAre | backend/app/services/billing_invoice_service.py:211-220 | a candidate is an unreviewed invoice of the checkout, paid in full, for a period that ended when the present one began |
| InvoiceCoverage.NewestAreConsidered | backend/app/services/billing_invoice_service.py:211-220 | every candidate is considered unless sixteen newer ones are, and nothing else is |
| InvoiceCoverage.AssessOrdinary | backend/app/services/billing_invoice_service.py:184-226 | covered exactly when the invoice pays the checkout's period at that time; grace exactly when an attempted renewal may borrow it |
| InvoiceCoverage.Assess | backend/app/services/billing_invoice_service.py:149-183 | terminates; covered exactly when a chain within the hop limit exists; grace exactly that of the invoice reached past unapplied upgrades |
| InvoiceCoverage.AssessCheckout | backend/app/services/billing_invoice_service.py:149-155 | coverage of a checkout starts at its latest invoice; covered and grace are never both set |
| InvoiceCoverage.CoverageRestsOnPayment | backend/app/services/billing_invoice_service.py:149-194 | every applied upgrade of a covering chain was paid exactly its quote for the same period, and the chain ends in a fully paid ordinary invoice of that period |
| InvoiceCoverage.PaymentCovers | backend/app/services/billing_invoice_service.py:149-194 | every chain of upgrades that were applied and paid as quoted, reached past unapplied ones from the plan in force, down to an ordinary invoice paid in full, does cover the checkout |
| InvoiceCoverage.RefreshEvidence | backend/app/services/billing_upgrade_observation.py:41-67 | refreshes a chain oldest first, and refuses exactly a cyclic one or one longer than 16 |
| InvoiceCoverage.FullChainIff | backend/app/services/billing_upgrade_observation.py:41-67 | a chain is one of different invoices, each billing an upgrade of the next, up to the first that bills none, and is read oldest first |
| InvoiceCoverage.RefreshedChainsAreShortEnough | backend/app/services/billing_upgrade_observation.py:41-67 | once evidence was refreshed the hop limit never decides coverage |
| InvoiceHistory.Reconcile | backend/app/services/billing_invoice_service.py:107-146 | verifies again the latest invoice, the newest page and the preceding settled period in every pass, and reads one page further back; its cursor always advances, and it makes at most four requests |
| InvoiceHistory.ReverifiedIs | backend/app/services/billing_invoice_service.py:107-136 | what every pass looks at includes the latest invoice, the newest hundred and the preceding settled period |
| InvoiceHistory.ReconciledIs | backend/app/services/billing_invoice_service.py:137-145 | a pass reads the hundred behind its cursor; it is complete exactly when no more are left, and otherwise its cursor is the last one read |
| InvoiceHistory.HistoryIsReadCompletely | backend/app/services/billing_invoice_service.py:126-146 | once the history is reported complete, every invoice that existed at the first reconciliation was observed; each reconciliation before reads one full page further |
| PriceHistory.ExpectedInvoicePrice | backend/app/services/billing_payment_rules.py:71-101 | sorting and scanning once computes the specified price, decided as stated below, and without a period the current one |
| PriceHistory.ExpectedIsDecided | backend/app/services/billing_payment_rules.py:94-101 | the price is the target of the binding in force at the period's start, else the earliest source, else the current price; at one instant upgrades prevail and changes come first |
| PriceHistory.SortingRestoresIff | backend/app/services/billing_payment_rules.py:77-94 | for events that change the price, sorting the tables as written gives back the run, at every point of its history, exactly if no change takes effect at the instant of an upgrade before it |
| PriceHistory.SortedScanIsReplay | backend/app/services/billing_payment_rules.py:71-101 | for every lawful history that can be told apart, in whatever order its tables are read, the fast form equals replaying the events up to the period's start |
| PriceHistory.FaithfulIff | backend/app/services/billing_payment_rules.py:71-101 | for events that change the price, that holds at every point of a history exactly if two events of one instant are always a change followed by an upgrade |
| PriceHistory.LaterEventKeepsThePast | backend/app/services/billing_change_observation.py:117-140 | a later event leaves earlier periods alone and yields its target from its effective time on |
| PriceHistory.EventTakesEffectIff | backend/app/services/billing_payment_rules.py:94-101 | the target of an applied event is the expected price from its effective time on exactly if it is not a change at the instant of an earlier upgrade, or both set the same price |
| PriceHistory.OrderDoesNotMatter | backend/app/services/billing_payment_rules.py:77-94 | as long as no table has two bindings for one instant, the order in which the tables are read is irrelevant |
| PriceHistory.TieFavoursTheUpgrade | backend/app/services/billing_payment_rules.py:77-101 | for any three prices, an upgrade and then a change at one instant are a lawful history whose replayed price is the change's, while the fast form gives the upgrade's |
| BillingInbox.Inbox.ReceiveEvent | backend/app/services/billing_sync_service.py:71-74 | persists an event once; a duplicate resets nothing |
| BillingInbox.NextDue | backend/app/services/billing_sync_service.py:96-102 | finds the job that has been due longest |
| BillingInbox.Inbox.ClaimJob | backend/app/services/billing_sync_service.py:103-107 | a conditional claim sets token and deadline together |
| BillingInbox.Inbox.Apply | backend/app/services/billing_sync_service.py:114-146 | staged effects are kept only if the claim still holds at the end |
| BillingInbox.Inbox.NoteFailure | backend/app/services/billing_sync_service.py:147-164 | only while the claim holds, counts a failure and either gives up at the maximum or plans the next attempt the stated delay after the time of the second check |
| BillingInbox.Inbox.Retry | backend/app/services/billing_sync_service.py:226-239 | queues again exactly failed, waiting, abandoned or finished reconciliation jobs |
| BillingInbox.StepKeepsInv | backend/app/services/billing_sync_service.py:91-164 | every transaction keeps: processing exactly when a token is set; failures never pass the maximum, and reaching it is the failed state; markers and effects agree |
| BillingInbox.EffectsExactlyOnce | backend/app/services/billing_sync_service.py:114-146 | in every history an event's effects were committed exactly once if its webhook was processed and not put away with a closing account, and otherwise never; its marker says which |
| BillingInbox.EffectsCommitWithTheJob | backend/app/services/billing_sync_service.py:114-146 | for a webhook, observation, marker and processed state change together or not at all, in a success of the token holder within its deadline at both checks; the one exception is putting a job away with its closing account |
| BillingInbox.ProcessedWebhookIsFinal | backend/app/services/billing_sync_service.py:226-239 | duplicates, late workers and manual retries never change a processed webhook |
| BillingInbox.ReplacedTokenIsFenced | backend/app/services/billing_sync_service.py:110-111 | a worker whose token was replaced changes nothing any more |
| BillingInbox.BackoffGrows | backend/app/services/billing_sync_service.py:157-161 | delays start at 30 seconds, double up to an hour, never shrink and never pass it |
| BillingInbox.FailuresExhaust | backend/app/services/billing_sync_service.py:157-161 | without success or manual retry failures only accumulate, and the job is failed exactly at the maximum |
| Adjudication.Desk.FindFinal | backend/app/services/benchmark_review_service.py:148-151 | the most recent final record, no matter what drafts lie after it |
| Adjudication.Desk.SaveReview | backend/app/services/benchmark_review_service.py:130-171 | appends exactly one record, disputed if it overturns another author's latest final decision, or refuses for the stated reason and changes nothing |
| Adjudication.AcceptedIff | backend/app/services/benchmark_review_service.py:130-171 | a review is accepted exactly if it was made against the current version, its evidence is distinct and from the case, a dispute is explained and ended only by a super-admin's final resolution, and a final decision is attested |
| Adjudication.Desk.PublishReviews | backend/app/services/benchmark_review_service.py:226-246 | publishes exactly when every case is decided, one is approved, the criteria are approved and something changed |
| Adjudication.PublishesIff | backend/app/services/benchmark_review_service.py:226-246 | a publication is added exactly if the client has seen the current revision, every case is decided, one is approved, the criteria are approved and something changed; it holds the last record of each case |
| Adjudication.AdjudicationHolds | backend/app/services/benchmark_review_service.py:130-171 | in every history versions are contiguous, disputes end only by a super-admin's explicit final decision, and other final records agree with the most recent earlier one or share its author |
| Adjudication.DisagreementIsDisputed | backend/app/services/benchmark_review_service.py:147-155 | overturning another author's decision opens a dispute |
| Adjudication.AgreeingFirstAvoidsTheDispute | backend/app/services/benchmark_review_service.py:147-155 | agreeing first lets the same author overturn the decision without one |
| Adjudication.DissentIsDisputedIff | backend/app/services/benchmark_review_service.py:147-155 | exactly when a dissenting final decision is disputed |
| Adjudication.PublicationsAreDecided | backend/app/services/benchmark_review_service.py:226-246 | publications never contain a pending or disputed case, are numbered without gaps, differ from the one before and never change |
| Adjudication.PublishTakesTheReviewedRevision | backend/app/services/benchmark_review_service.py:47-55 | a publication holds the latest decisions of exactly the revision its author had seen |
| Adjudication.ImportIsDrafts | backend/app/services/benchmark_review_service.py:259-281 | an import changes something exactly if it names, at the current revision, only cases without records, and gives each one draft |

## Left out

- Assumed of the outside world: one transaction is atomic; provider keys are remembered for at least a day
  and requests delivered within an hour; expired sessions and terminal subscriptions stay so, and an expired
  session has no subscription; attempts are saved at increasing times; repository uploads get increasing
  times, no closure is requested in the future, and pruning keeps the newest closure checkpoint; lease tokens are
  never reused; the provider's invoice list only grows in front.
- Checkout.Account.Deliver: what an account does after a request was sent outside the replay window is not modelled
  further; `CheckoutProtocol.LateRequestDuplicates` shows what the provider may then have done.
- CheckoutProtocol.OneLivePurchase: for histories without late first requests, because with one it is false;
  `CheckoutProtocol.OneSessionIff` says exactly from when on.
- CheckoutProtocol.ReachableIsSafe: likewise for states reached without late first requests.
- RunStages.OrderSurvives: takes checkpoint read errors only where `CheckpointErrorKeepsOrderIff` allows
  them, and one executing worker at a time, because saving a stage is not fenced by the lease.
- SummaryBatches.SummaryStage.Execute: one executing worker at a time and a fixed batch size, for the same reason.
- ClaimReview.DailyLimitHolds: for admissions that are not overtaken across midnight; `ClaimReview.LimitsSurviveIff`
  proves that exactly these keep the limits.
- ClaimReview.Desk.StartReview: case identifiers of one review are taken to be distinct.
- Checkout.Account.Handoff: what it achieves is stated for a provider that answers every request while it runs, or
  none; with answers that come and go only the limits of the outcome are.
- Checkout.Account.Replace: what it achieves is stated for attempts whose session is known; `Handoff` also for those
  whose first request was never answered.
- AcceptancePipeline.EvaluateQuality: only the identity, date and source-basis findings; blank content,
  theme evidence, duplicates and title, DOI and URL normalisation are not modelled.
- AcceptancePipeline.RunStages: fresh runs only; checkpoints accepted by older releases are not re-validated.
- OffsiteVault.Vault.Backup: staging is instantaneous, so the gap between a dump and its snapshot time is not modelled.
- RunLedger.Queue.StartDigest: request-rate budgets, history context and the allowance assessment are not modelled;
  access may simply deny.
- Plan access, subscription changes and upgrades as commands: they appear as steps that may deny and as given rows.
- Validation of upgrade invoice lines and totals, and of the JSON shapes providers return.
- Deletion of users, benchmarks and their cascades; deletion of finished runs is modelled in `RunLedger`.
- Transport, signatures, hashing, e-mail, prompts, reports, the front end, deployment, monitoring and plain
  record keeping: nothing in them depends on the order in which workers and requests act.
- The real time zone database: zones are arbitrary offset functions whose values differ by less than a day.

# Solventa: verified models of its protocols

A Dafny model of the parts of Solventa where money, consent and evidence are at
stake, with proofs over every input, every interleaving or every run:

- the idempotent attempt (claim under a lease, call a provider, record), and the
  two machines built on it: the premium charge and the indemnity payout;
- the consent whose status is folded from an append-only log, its revocation and
  the notices to the entities;
- the support matcher of the web filing, the contractual issuance, the triage
  record, the outbox relay and the paged list of the compliance portal.

| file | what it holds |
|---|---|
| `Common.dfy`, `Text.dfy`, `Lists.dfy` | optional values, instants, text order and trimming, filtering and stable sorting |
| `Retry.dfy` | the growing wait, in 64 bits, and its two unguarded copies |
| `Lease.dfy` | the attempt, its store, the runner, and every interleaving of workers |
| `Charge.dfy`, `ChargeProtocol.dfy` | the premium charge, its repository, and every run against the gateway |
| `Decision.dfy`, `PayoutProtocol.dfy` | the decision of a claim, its store, and every run of its payout |
| `Consent.dfy`, `ConsentLaws.dfy` | the folds over the log, and what holds of every log |
| `ConsentService.dfy`, `NoticeProtocol.dfy` | verifying and revoking, and every run of the notices |
| `Supports.dfy` | the support matcher |
| `Issuance.dfy`, `IssuanceProtocol.dfy` | one attempt with rollback, and overlapping tasks |
| `Triage.dfy` | the level, its record, and racing tasks |
| `Outbox.dfy`, `ComplianceList.dfy` | the relay; the list and its pages |

`dafny verify dfyconfig.toml` checks the whole project.

## How to read the models

A protocol is a state, an `Enabled` predicate and a `Do` function over labelled
steps. `Legal` and `Run` give the runs. Each result is an invariant kept by every
step, lifted to every run. Where the source promises something that its code
does not do in every configuration, the configuration is a parameter and the
result is an equivalence: the promise holds exactly when a condition on the
configuration holds, with the failing run built step by step.

What the models take as given:

- One global nondecreasing clock. A claim, a resumption, an attachment and a
  sweep use the clock of the instant their statement runs. The instant of a
  recorded result is the one read when the answer arrived, so it may lie before
  the write.
- The zero time of the source is `None`, and no clock reads it: no event occurs at it.
- A request that left may be processed by the gateway any number of times and at
  any later time, also after its worker gave up. The gateway keeps one first
  answer per charge key; a payout key is bound only by a payment, and each key is
  paid once.
- A rejection that reaches the charge worker is the stored answer of the key or a
  refusal of another body when the configuration is `binding`. Otherwise it may
  also be a final error that binds nothing, such as the 400, 401, 403 and 404
  that the client takes for a decline
  (`pkg/adapters/payments/client.go:296-306`).
- A charge key sent again with another body is answered with the stored answer
  (`Replays`) or with a refusal (`Refuses`), which the client takes for a
  rejection. The stub gateway refuses
  (`stubs/payment-gateway/cmd/pasarela-pagos/main.go:328-366`); the comment at
  `services/origination/internal/domain/charge.go:361-366` allows both.
- The only law of the calendar: adding a number of months leads to a later
  instant exactly when the number is positive.
- The details of consent events come decoded, and the text search of the
  compliance list is a function of the consent.

## Where the code and its documentation disagree

- **Charge.** `charge.go:364-366` says that issuing a new key only after a
  definitive decline keeps the no-duplicate guarantee. Resuming a charge whose
  window ended sets its attempts to zero, so the pending charge takes another
  card under the old key. A gateway that refuses a reused key then produces a
  rejection for a key it charged, and the next card gets a new key and is charged
  again. A final error that binds no key does the same to a request that is still
  on its way. `ChargeProtocol.NeverChargesTwiceExactlyWhenSafe` gives the exact
  condition.
- **Charge window.** Retries and resumptions stay inside the retry window; a
  payment method attached after the window ended does not
  (`ChargeProtocol.DueTooLateExactlyWhen`).
- **Payout.** When a payment to the old account arrives after the destination was
  corrected, a refusing gateway leaves the claim unpaid until that account is
  restored, and a replaying one records the wrong account
  (`PayoutProtocol.NeverMisrecordsExactlyWhenRefusing`,
  `PayoutProtocol.AlwaysSettlesExactlyWhenReplaying`).
- **Consent.** `revocation.go:261-266` says that out of deadline is not undone.
  An answer dated inside the window and written after it undoes it
  (`NoticeProtocol.NeverRevertsExactlyWhenPrompt`). `consent_view.go:228-231`
  says that the history is chronological; before the expiry it is not when an
  event precedes the grant (`ConsentLaws.HistoryInOrderExactlyWhen`).
- **Issuance.** `adapters/postgres/contracts.go:15-18` says that a batch never
  loses its claim halfway, and `contract.go:92-97` that no finished step is
  repeated. A batch of 50 attempts of 10 s outlives the lease of 2 minutes, and
  the write of the document releases the claim while the same task still
  notifies. Besides, the updates of an attempt run under its deadline
  (`contract.go:306`, `contract.go:351`): one may commit while its caller is told
  that it failed, or after, and the failure is then written over the document or
  the completion (`contract.go:234`). `IssuanceProtocol.NeverReplacesExactlyWhen` and
  `IssuanceProtocol.NeverUncompletesExactlyWhen` give the exact conditions.
- **Outbox.** `pkg/outbox/outbox.go:52-54` says that a lease longer than one
  publication keeps a publication from outliving it. The publications of a batch
  follow one another, so the lease has to cover the whole batch, and the default
  one does not (`OutboxProtocol.NeverOutlivesExactlyWhen`).
- **Waits.** The two copies of the doubling loop without the overflow guard agree
  with the guarded one for every base exactly when their maximum is at most 2^62
  (`Retry.UnguardedSafeMaximum`). In an issuance the overflow would schedule an
  attempt in the past (`Issuance.RetriesAreLaterExactlyWhen`).

## Model

| member | source | states |
|---|---|---|
| `Retry.Backoff` | pkg/resilience/retry.go:53-66 | the loop never leaves 64 bits and equals min(base * 2^(n-1), max) for every valid policy and count |
| `Retry.WaitMonotone` | pkg/resilience/retry.go:53-66 | more failures never wait less |
| `Retry.Next` | pkg/resilience/retry.go:77-94 | exhausted iff the window ended at or before the instant; otherwise strictly later, exactly at min(now + min(base * 2^(n-1), max), window end) |
| `Retry.UnguardedBackoff` | services/origination/internal/issuance/contract.go:374-382 | the copy without the guard, with 64-bit wrap-around, equals its recursive reading |
| `Retry.UnguardedAgreesExactlyWhen` | services/origination/internal/issuance/processor.go:195-203 | the unguarded copies agree with min(base * 2^(n-1), max) on every count iff no doubling of the base lands in [2^62, max) |
| `Retry.UnguardedSafeMaximum` | services/origination/internal/issuance/contract.go:374-382 | the copies are right for every base iff the maximum is at most 2^62 |
| `Lease.Decide` | pkg/idempotency/runner.go:119-139 | confirmed iff the call succeeded, failed as rejected iff it was rejected; without a definitive answer failed as window expired iff the window ended or the count is reached, and otherwise rescheduled at min(now + min(base * 2^failures, max), window end) |
| `Lease.Store.Claim` | pkg/idempotency/attempt.go:87-92 | a claim succeeds iff the attempt is pending and due or held by an expired lease, and changes only that attempt |
| `Lease.Store.Record` | pkg/idempotency/attempt.go:82-99 | a result is recorded iff the claim is still held; otherwise nothing changes |
| `Lease.Process` | pkg/idempotency/runner.go:104-146 | the whole turn of a worker in terms of the error of its call, whatever the others left in the table meanwhile: outcome, status, reason and every field of the stored row |
| `LeaseProtocol.ExclusiveKept` | pkg/idempotency/attempt.go:82-99 | every step keeps: at most one worker holds the claim, it sees exactly the stored attempt, and any other live worker's lease is over |
| `LeaseProtocol.ClaimTakesOver` | pkg/idempotency/attempt.go:87-92 | a claim leaves every other live worker without the attempt |
| `LeaseProtocol.LostForever` | pkg/idempotency/attempt.go:82-99 | a worker that lost its claim never holds the attempt again along any run in which it neither records nor stops, whatever claims, records, crashes and requeues under other keys come between |
| `LeaseProtocol.StaleRecordChangesNothing` | pkg/idempotency/attempt.go:82-99 | once another worker claimed the attempt or its result was recorded, the record of a worker that was at it changes nothing, at the end of any run |
| `LeaseProtocol.TokenGrowsExactlyWhen` | pkg/idempotency/attempt.go:87-92 | a claim outgrows the previous token iff it does not follow a requeue in the instant of the previous claim |
| `LeaseProtocol.TokensGrowExactlyWhen` | pkg/idempotency/attempt.go:87-92 | over any run the tokens strictly grow iff no claim follows a requeue in the instant of the claim before |
| `LeaseProtocol.RepeatedToken` | pkg/idempotency/attempt.go:87-92 | the run that hands out one token twice |
| `LeaseProtocol.FailuresFitInWindow` | pkg/resilience/retry.go:77-94 | a windowed round records at most ceil((end - first failure) / base) + 1 failures, however often claims crash |
| `LeaseProtocol.RoundsFailExactlyWhen` | pkg/idempotency/runner.go:128-139 | over every run: a round with failures has failed iff the last one was a rejection, came at or after the end of the window, or reached the cap; while it waits, its due date is exactly the doubled wait after the last failure, within the maximum and the window |
| `LeaseProtocol.EveryRunIsSafe` | pkg/idempotency/runner.go:104-146 | over every run: one possible recorder, ordered tokens, failures within the window bound and the cap, and no retry scheduled past the window |
| `Charges.KeysOfOneAcceptance` | services/origination/internal/domain/charge.go:388-398 | two ordinals of an acceptance share a key iff they are equal or both at most 1 |
| `Charges.KeysOfTwoAcceptances` | services/origination/internal/domain/charge.go:388-398 | for ids of any length, two charges share a key iff they are the same charge with the same (or both a first) ordinal, or one id is the other with a dash and an ordinal appended |
| `Charges.StatementMatchesDomain` | services/origination/internal/adapters/postgres/charges.go:383-407 | the attach statement and the domain rule build the same charge iff the charge is not a decline without any payment method |
| `Charges.ValidAtOnceValidAlways` | services/origination/internal/domain/charge.go:298-303 | the activation is valid at the start iff it is valid at any confirmation instant |
| `Charges.ActivatesExactlyWhen` | services/origination/internal/domain/contract.go:46-60 | a charge can be activated iff its snapshot is complete, its amount and its term are positive, and its acceptance id fits in a policy id |
| `Charges.ChargeRepository.CreatePending` | services/origination/internal/ports/billing.go:33-35 | one charge per acceptance; a second returns the first and writes nothing |
| `Charges.ChargeRepository.AttachPaymentMethod` | services/origination/internal/ports/billing.go:53-58 | succeeds iff the charge takes a method, leaves what the domain rule says of every charge a run can store, and names the error otherwise |
| `Charges.ChargeRepository.Resume` | services/origination/internal/ports/billing.go:43-51 | succeeds iff the charge failed; same key, new window, due only with a payment method |
| `Charges.ChargeRepository.ExpireWithoutPaymentMethod` | services/origination/internal/ports/billing.go:67-73 | fails exactly the pending charges without a due date whose window ended, for want of a method, and changes nothing else |
| `ChargeProtocol.InvKept` | services/origination/internal/domain/charge.go:329-398 | every step of workers, gateway, customer and analyst keeps the invariants of keys, answers, methods and activation |
| `ChargeProtocol.OnlyTheCurrentKeyIsCharged` | services/origination/internal/domain/charge.go:329-398 | in a safe configuration, at most one key is charged in any run: the current one; every other used key was declined |
| `ChargeProtocol.NewKeyOnlyAfterADecline` | services/origination/internal/domain/charge.go:358-386 | in a safe configuration, only attaching after a decline changes the key, and the new key is fresh |
| `ChargeProtocol.NeverChargesTwiceExactlyWhenSafe` | services/origination/internal/domain/charge.go:329-398 | no run charges two keys iff every rejection is bound to its key and the gateway replays, or a resumed charge keeps its method, or the retries have no window |
| `ChargeProtocol.CarefulRunChargesOnce` | services/origination/internal/domain/charge.go:329-398 | for the code as written, with rejections bound to their keys: a run in which no method replaces one that an analyst resumed charges one key at most |
| `ChargeProtocol.DueTooLateExactlyWhen` | services/origination/internal/adapters/postgres/charges.go:383-407 | in any run a charge becomes due after its window iff a method is attached after the window |
| `ChargeProtocol.LateMethodMissesTheWindow` | services/origination/internal/adapters/postgres/charges.go:383-407 | a run in which that happens |
| `ChargeProtocol.PolicyOnlyIfCharged` | services/origination/internal/billing/worker.go:182-232 | in every run a charge carries a policy iff it is confirmed, and then the gateway charged its current key |
| `ChargeProtocol.OneEventIsPublished` | services/origination/internal/domain/charge.go:252-296 | over all retries and workers consumers receive one event: ids, holder, premium, insured amount, coverages and renewal of the acceptance and its snapshot, activated during the run, covering from the later of the activation and the end of the cover before, for the term; valid if the snapshot was valid at the start |
| `ChargeProtocol.StoredChargeIsAttachable` | services/origination/internal/adapters/postgres/charges.go:383-407 | every reachable charge is one the attach statement treats as the domain does |
| `Decisions.DeductibleExactlyWhenItFits` | services/claims/internal/domain/decision.go:65-69 | the 64-bit deductible is the share rounded half up iff the product with its rounding fits |
| `Decisions.DeductibleWithinGross` | services/claims/internal/domain/decision.go:65-69 | with 0 to 10000 basis points the deductible lies within the gross and half a cent of the share |
| `Decisions.PayoutMonotone` | services/claims/internal/domain/decision.go:65-69 | approving more never pays less |
| `Decisions.ApprovedAmount` | services/claims/internal/domain/decision.go:181-211 | for every 64-bit amount: an approved payout plus the exact deductible is the gross iff the product fits in 64 bits; while it fits, approved iff the gross is in range, something is left to pay and the account is not blank, with the payout in (0, insured value] |
| `Decisions.ApprovalAnswers` | services/claims/internal/domain/decision.go:181-211 | each of the four refusals iff its condition on the input, 64-bit overflow included; the payout of an approval carries the account, the key of the claim, no failures and no window, and is due at once |
| `Decisions.DecisionStore.Decide` | services/claims/internal/ports/decision.go:31-34 | the first decision of a claim that is active or in evaluation is recorded and makes it rejected or approved; any other changes nothing |
| `Decisions.DecisionStore.RecordPayout` | services/claims/internal/ports/decision.go:23-29 | a result moves payout and claim together (paid, payment exception or approved), only while the claim of the payout is held |
| `Decisions.DecisionStore.RetryPayout` | services/claims/internal/ports/decision.go:42-46 | only a payment exception returns to approved: same key, no failures counted, due at once, to the corrected account if one is given |
| `PayoutProtocol.OneDecisionOneDisbursement` | services/claims/internal/decision/worker.go:136-162 | over every run, against a gateway that pays each key once: at most one decision, one disbursement because every request carries the one key of the claim, three failures per round, and paid implies disbursed |
| `PayoutProtocol.PaidOnlyWhereNamed` | services/claims/internal/decision/worker.go:136-162 | in every run money goes only to an account that the approval or a correction named |
| `PayoutProtocol.ApprovalStartsThePayout` | services/claims/internal/domain/decision.go:198-211 | the payout of an approval is the one its run starts with |
| `PayoutProtocol.PaidIsAbsorbing` | services/claims/internal/domain/decision.go:244-256 | a paid claim stays paid, with the same decision and disbursement |
| `PayoutProtocol.WaysToApproved` | services/claims/internal/ports/decision.go:42-46 | a claim becomes approved only by its approval or by the retry of a payment exception |
| `PayoutProtocol.NeverMisrecordsExactlyWhenRefusing` | services/claims/internal/adapters/postgres/decisions.go:287-322 | no run shows a claim paid to another account than the one that got the money iff the gateway refuses a paid key with another destination |
| `PayoutProtocol.StrandedAlways` | services/claims/internal/adapters/postgres/decisions.go:287-322 | with a refusing gateway a payment to the old account stays unconfirmed along any run that does not restore that account |
| `PayoutProtocol.AlwaysSettlesExactlyWhenReplaying` | pkg/adapters/payments/client.go:168-172 | a disbursed claim can always be closed without changing its destination iff the gateway replays |
| `Consents.NoticeRule` | services/audit/internal/domain/revocation.go:311-355 | the fold over an entity's events is the declarative rule: confirmed iff some confirmation, unresolved iff a denial without one, current window that of the last retry |
| `Consents.DeriveNotices` | services/audit/internal/domain/revocation.go:318-355 | the nested loops return each notice of the fold under the name or the code of its entity, and partial iff some entity has no confirmation and a denial or an ended window |
| `Consents.OutOfDeadline` | services/audit/internal/domain/revocation.go:269-309 | true iff some entity has a denial or no confirmation before the end of its first window |
| `Consents.DeriveRevocation` | services/audit/internal/domain/consent_view.go:197-226 | the filtering loops build the revocation view; its summary is partial iff some entity has no confirmation and a denial or an ended window (iff partially revoked), and completed iff every entity confirmed |
| `Consents.DeriveStatus` | services/audit/internal/domain/consent_view.go:145-195 | the loops derive status, end, receipt and revocation of the specification |
| `Consents.BuildView` | services/audit/internal/domain/consent_view.go:228-259 | the view of the specification, history included, with the entity named; current and revocable iff active |
| `Lists.SortIsStable` | services/audit/internal/domain/consent_view.go:128-143 | elements that the order does not tell apart keep the order they came in |
| `ConsentLaws.ViewForgetsOrder` | services/audit/internal/domain/consent_view.go:128-143 | with distinct event ids, every permutation of the log gives the same view |
| `ConsentLaws.ReadInOrder` | services/audit/internal/domain/consent_view.go:128-143 | the log is read by instant, then by the instant it was recorded, then by id |
| `Text.LessIsDictionaryOrder` | services/audit/internal/domain/consent_view.go:128-143 | ids compare by their first difference, a proper prefix coming first |
| `ConsentLaws.HistoryLosesNothing` | services/audit/internal/domain/consent_view.go:228-247 | every entry is in the history as often as the log has events of the consent with its status, instant, receipt, channel and entity, plus the grant and the expiry |
| `ConsentLaws.HistoryInOrderExactlyWhen` | services/audit/internal/domain/consent_view.go:228-247 | the history is chronological iff the consent expired or no event precedes its grant |
| `ConsentLaws.ExpiryGoesLast` | services/audit/internal/domain/consent_view.go:243-247 | the expiry follows every entry of its own instant |
| `ConsentLaws.RevokedExactlyWhen` | services/audit/internal/domain/consent_view.go:145-195 | revoked or partially revoked iff a whole-consent revocation before the expiry is in the log; it ended no later than any of them |
| `ConsentLaws.UnrevokedExactlyWhen` | services/audit/internal/domain/consent_view.go:185-195 | without a revocation: expired iff the expiry passed, pending revocation iff the last event of the whole consent says so, active otherwise |
| `ConsentLaws.RevocationIsIrreversible` | services/audit/internal/domain/consent_view.go:145-195 | every larger log at every instant shows the consent withdrawn, not current and not revocable |
| `ConsentLaws.OnlyTimePasses` | services/audit/internal/domain/consent_view.go:169-226 | with the log fixed, time only turns revoked into partially revoked, pending into not confirmed, and a consent that is not withdrawn into expired |
| `ConsentLaws.SummaryExactlyWhen` | services/audit/internal/domain/revocation.go:357-368 | for every log and instant: shown partial iff some entity has no confirmation and a denial or an ended current window, iff the status is partially revoked; completed iff every entity confirmed; in progress otherwise |
| `ConsentLaws.CompletedIsAbsorbing` | services/audit/internal/domain/revocation.go:318-368 | with one revocation in the log, completed survives any further events at any instant |
| `ConsentLaws.MissedRule` | services/audit/internal/domain/revocation.go:269-309 | lateness stated without the order of the events |
| `ConsentLaws.LatenessRevertsExactlyWhen` | services/audit/internal/domain/revocation.go:261-266 | a late entity stops being late iff nothing denies the notice and an appended confirmation is dated inside the first window |
| `ConsentLaws.LatenessStays` | services/audit/internal/domain/revocation.go:261-266 | events dated no earlier than the last read never undo lateness |
| `ConsentLaws.PartialMeansLateExactlyWhen` | services/audit/internal/domain/revocation.go:269-355 | the two folds agree on an entity at every instant iff it is confirmed, denied, or no retry left it a shorter window |
| `ConsentLaws.PartialWithoutBeingLate` | services/audit/internal/domain/revocation.go:269-355 | a log that is partial and not late |
| `ConsentServices.Service.Verify` | services/audit/internal/consents/service.go:98-129 | active iff the record is and, once events are wired, the derived status is; never with a revocation in the log; sources only when active |
| `ConsentServices.RevocationStore.Record` | services/audit/internal/ports/ports.go:89-99 | one transaction: the revocation with its two events and the first step of each notice, or nothing, and the answer the contract names |
| `ConsentServices.RecordedIsShown` | services/audit/internal/adapters/postgres/revocations.go:101-144 | what a revocation records is what every later read shows: receipt, both instants, channel, device, and each entity with its deadline, pending before it and not confirmed from it on |
| `ConsentServices.NoticeKeysTellApart` | services/audit/internal/consents/revocation.go:153-162 | each entity of a revocation has its own key |
| `ConsentServices.ExactlyOneCreates` | services/audit/internal/adapters/postgres/revocations.go:40-157 | in any sequence of requests exactly one creates the record of a recorded consent, it is never replaced, and a request with an unused id gets it recorded |
| `ConsentServices.Revoke` | services/audit/internal/consents/revocation.go:123-187 | the answer to every request is exact, whatever others do between its read and its write: also for a consent that is not active, and for the repetition of the request that revoked it |
| `ConsentServices.AnswersExactlyWhen` | services/audit/internal/consents/revocation.go:123-187 | each refusal and each success iff its condition on the request, the status read and what the store holds when it writes |
| `ConsentServices.SuccessMeansWithdrawn` | services/audit/internal/consents/revocation.go:123-187 | a successful answer shows the consent withdrawn and recorded by this very request, and says created iff nobody had recorded it |
| `NoticeProtocol.PartialMeansOutOfDeadline` | services/audit/internal/adapters/postgres/notices.go:124-269 | in every run, at every instant, a partially revoked consent is out of deadline |
| `NoticeProtocol.ShownIsWhatTheNoticeKeeps` | services/audit/internal/adapters/postgres/notices.go:206-269 | in every run, at every instant, an entity is shown as confirmed iff its notice is, and otherwise with the end of the window its notice keeps |
| `NoticeProtocol.RetriedExactlyWhenShown` | services/audit/internal/adapters/postgres/notices.go:206-232 | in every run a waiting notice without a denial is shown as not confirmed iff an operator may retry it |
| `NoticeProtocol.RetriedIsDue` | services/audit/internal/adapters/postgres/notices.go:247-262 | a retried notice can be taken at once, for a whole new window |
| `NoticeProtocol.NoticesFailExactlyWhen` | services/audit/internal/adapters/postgres/notices.go:139-157 | in every run a notice with failed attempts has failed iff the last one was a rejection or ended its window; while it waits, its due date is the doubled wait after the last one |
| `NoticeProtocol.RecordedStarts` | services/audit/internal/adapters/postgres/revocations.go:75-99 | a recorded revocation is where the runs of its notices start: each entity due at once, until the deadline |
| `NoticeProtocol.ConfirmedIsFinal` | services/audit/internal/ports/ports.go:164-170 | no step adds an event of a confirmed entity or resumes its notice |
| `NoticeProtocol.RunsForgetOrder` | services/audit/internal/adapters/postgres/notices.go:159-176 | in every run the ids of the events stay distinct, so its log gives the same view in any order |
| `NoticeProtocol.LatenessUndoneExactlyWhen` | services/audit/internal/adapters/postgres/notices.go:124-137 | in any state of any run, one step undoes the lateness of an entity iff it is the holder's write of a confirmation dated before the first deadline and nothing denies the notice |
| `NoticeProtocol.NeverRevertsExactlyWhenPrompt` | services/audit/internal/domain/revocation.go:261-266 | lateness never reverts along any run iff answers are written in the instant they are dated, or nobody is notified |
| `Text.TrimStrips` | services/claims/internal/domain/web_filing.go:225-225 | nothing remains of a text iff it is blank, and what remains neither starts nor ends with a space |
| `Text.TrimTakesTheEnds` | services/claims/internal/domain/web_filing.go:225-225 | trimming takes blanks only, from the ends only |
| `Supports.CheckSupports` | services/claims/internal/domain/web_filing.go:211-298 | the loops over shared maps return exactly the errors and the files of the specification |
| `Supports.GroupByCode` | services/claims/internal/domain/web_filing.go:221-230 | groups with the same code become one, in order of first appearance |
| `Supports.ScanFiles` | services/claims/internal/domain/web_filing.go:232-250 | files in order, the one problem of the group, and the ids seen so far |
| `Supports.ReportsNothingExactlyWhen` | services/claims/internal/domain/web_filing.go:211-298 | nothing is reported iff the request meets the catalog rule |
| `Supports.ReportedExactlyWhen` | services/claims/internal/domain/web_filing.go:207-298 | exactly which errors are reported: too many files in all; for each requirement not found, then format, then missing, too few or too many; for each code nobody asked for, not found or not applicable |
| `Supports.AttachedIsWhatWasAsked` | services/claims/internal/domain/web_filing.go:252-271 | then the attached files are the requested ids, each once, all usable and of a format their requirement takes, within the counts of each requirement, in catalog order with positions 0..n-1, and every id sent is attached under its code |
| `Supports.OrderOfGroupsIsIrrelevant` | services/claims/internal/domain/web_filing.go:221-230 | any reordering that keeps the groups of each code in order changes neither the files nor whether anything is reported |
| `Supports.SwapIsIrrelevant` | services/claims/internal/domain/web_filing.go:221-230 | in particular, swapping neighbouring groups of different codes |
| `Issuance.Repository.Create` | services/origination/internal/issuance/contract.go:126-146 | one issuance per policy; a redelivered activation changes nothing |
| `Issuance.IssueDocument` | services/origination/internal/issuance/contract.go:273-327 | the document is persisted, or the copy is rolled back; the row then holds what the update applied, also when it committed and reported an error |
| `Issuance.Notify` | services/origination/internal/issuance/contract.go:329-364 | the notice is recorded, or the copy is rolled back up to its next attempt; the row then holds what the update applied |
| `Issuance.Attempt` | services/origination/internal/issuance/contract.go:197-246 | the row an attempt leaves under any faults, unseen commits included: well-shaped, with the document it was claimed with, every audited notice with its document |
| `Issuance.KeptExactlyWhen` | services/origination/internal/issuance/contract.go:197-246 | what an attempt wrote (document or completion) is in the row it leaves iff its update did not commit unseen or the failure was not written over it |
| `Issuance.NextAttemptRule` | services/origination/internal/issuance/contract.go:217-230 | a failed attempt is counted and followed by one after min(base * 2^failures, max), or fails the issuance at the maximum of attempts, while no doubling overflows |
| `Issuance.RetriesAreLaterExactlyWhen` | services/origination/internal/issuance/contract.go:374-382 | every attempt but the last is followed by a later one iff no doubling that the maximum of attempts allows overflows |
| `IssuanceProtocol.EveryRowIsWellShaped` | services/origination/internal/issuance/contract.go:197-364 | in every interleaving: completed implies document and notice, attempts within the maximum, next attempt unset iff completed or failed, no audit without a document |
| `IssuanceProtocol.ReopenedIsDue` | services/origination/internal/adapters/postgres/contracts.go:254-283 | a reopened issuance can be taken at once, with its document and a new count |
| `IssuanceProtocol.NeverReplacesExactlyWhen` | services/origination/internal/adapters/postgres/contracts.go:186-226 | no run replaces or loses a persisted document iff no task writes past the end of its lease and no update commits while its caller is told it failed |
| `IssuanceProtocol.DefaultsMayReplace` | services/origination/internal/adapters/postgres/contracts.go:15-19 | with the batch, timeout and lease of the code a run replaces it |
| `IssuanceProtocol.NeverUncompletesExactlyWhen` | services/origination/internal/adapters/postgres/contracts.go:186-226 | completed is final iff a task keeps its claim until its last write, never writes past its lease, and no update commits unseen |
| `Triage.ListCauses` | services/claims/internal/domain/triage.go:132-149 | the causes are empty iff the inputs are equal |
| `Triage.StaleExactlyWhenSomethingChanged` | services/claims/internal/ports/triage.go:25-29 | the three-field test selects exactly the claims whose five-field difference is not empty |
| `Triage.TriageStore.Record` | services/claims/internal/ports/triage.go:33-35 | a place in the history is taken once |
| `Triage.AssessClaim` | services/claims/internal/triage/service.go:41-65 | records iff the claim is active or in evaluation, something changed and nobody recorded since the read; the record has level 1 iff the first rule for its line and type says high or the amount is above the upper threshold, level 3 iff that rule says low and the amount is known and below the lower one, level 2 otherwise |
| `Triage.LargerIsNoLessUrgent` | services/claims/internal/domain/triage.go:50-61 | under every policy a larger amount never gets a less urgent level |
| `Triage.ThresholdsExactlyWhen` | services/claims/internal/domain/triage_policy.go:76-87 | the upper threshold alone decides a high amount iff the two thresholds do not cross |
| `Triage.FirstPolicyLevels` | services/claims/internal/domain/triage_policy.go:40-63 | the levels of theft, glass and collision under the first policy, for every amount |
| `Triage.Sweep` | services/claims/internal/triage/service.go:67-92 | each candidate that is due, and that nobody recorded since it was handed out, gets one calculation with the level of its claim and is then current; the count is exact and no other history changes |
| `TriageProtocol.ChainAlways` | services/claims/internal/domain/triage.go:201-218 | under racing tasks the history is one gap-free chain with previous levels and non-empty causes, and only grows |
| `TriageProtocol.AtMostTwoMore` | services/claims/internal/triage/service.go:41-65 | once the claim and the policy are stable, at most two more calculations are recorded, whatever the tasks in flight had read |
| `TriageProtocol.SettlesAfterOneExactlyWhen` | services/claims/internal/triage/service.go:41-65 | at most one more in every stable run iff no task that saw the whole history is about to record an old claim or policy that leaves the present one due |
| `TriageProtocol.TwoMore` | services/claims/internal/triage/service.go:41-65 | from any state with such a task, the stable run that records two |
| `TriageProtocol.QuietForever` | services/claims/internal/triage/service.go:41-65 | none when the last calculation is current and no task that saw it wants to record |
| `Outbox.Store.Publish` | pkg/outbox/outbox.go:158-194 | one message: marked only if the broker got it, else due again after the wait, only while its claim is held |
| `Outbox.Store.ProcessBatch` | pkg/outbox/outbox.go:144-156 | every message of a batch is handled on its own, whatever happens to the others |
| `OutboxProtocol.NeverLostNeverStuck` | pkg/outbox/outbox.go:33-45 | over every run of relays: published implies delivered; an unpublished event is claimable at an instant iff it is past the later of its lease end and its due date, which is at most the longest wait after the failure |
| `OutboxProtocol.WaitsDouble` | pkg/outbox/outbox.go:158-194 | in every run an event that failed and nobody claimed since is due min(base * 2^(claims-1), max) after the failure |
| `Outbox.BatchEndsWithin` | pkg/outbox/outbox.go:147-156 | the publications of a batch end within a limit of its claim, however long each takes, iff batch times timeout does |
| `OutboxProtocol.NeverOutlivesExactlyWhen` | pkg/outbox/outbox.go:47-58 | no run lets a relay publish an event it no longer holds iff batch times timeout is at most the lease |
| `OutboxProtocol.DefaultsMayOutlive` | pkg/outbox/outbox.go:66-76 | with the default configuration a run does |
| `ComplianceList.FilterForCompliance` | services/audit/internal/domain/compliance_list.go:300-311 | the loop returns the filtered, sorted list |
| `ComplianceList.ListedIsTheMatchingViews` | services/audit/internal/domain/compliance_list.go:286-311 | each view with the status, interval, entity and search asked for, as often as it came and nothing else, the most recently granted first and those of one instant by id |
| `ComplianceList.ListForgetsOrder` | services/audit/internal/domain/compliance_list.go:288-298 | with distinct consents the list does not depend on how the views came |
| `ComplianceList.OffsetFits` | services/audit/internal/domain/compliance_list.go:101-102 | no valid query overflows its offset or the end of its page |
| `ComplianceList.PagesAreTheList` | services/audit/internal/domain/compliance_list.go:313-334 | for any list and valid query: the pages that can be asked for are the list iff its last page number can be asked for (a prefix otherwise), all but the last full, the last not empty unless the list is, later ones empty |

## Left out

- ChargeProtocol.OneEventIsPublished: the lease on publishing an activation is over-approximated (any worker may hand over at any time), so what is proved holds with it too.
- Charges.ValidAtOnceValidAlways: premiums are exact reals, not binary floating point.
- Charges.ChargeRepository.AttachPaymentMethod: the extra window check of renewals is not modelled.
- ConsentServices.Revoke: the field-by-field validation of the request is one boolean; receipt numbers and event ids are parameters; that a failed read or write of the database fails the request is not modelled.
- Issuance.Attempt: writes to the audit trail always succeed; in the source a failed one is only logged.
- The loops of the charge and payout workers over their due ids, the wake channel and the polling: each turn is `Lease.Process`, and their interleavings are the steps of the protocols.
- Errors of the database other than a lost claim: a failed write is the crash of the worker in the lease protocols and a fault in the issuance and the outbox.
- The claim of a confirmed payout is not cleared in the model, which changes nothing because a confirmed attempt is final.
- HTTP clients, SNS and SQS, S3, Redis, Cognito, the circuit breaker, token verification, logging, metrics and configuration.
- The acceptance processor, registration, quotes, formalization, renewals, wallet and underwriting.
- The indicators of the compliance portal, the name folding of its search and the rendering of receipts.
- The notice e-mail of a rejected claim, the fingerprints of filings and the other fields of the web filing.
- The gateway mode that ignores idempotency keys.

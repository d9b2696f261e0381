# Fare Radar: verified models of its state machines and algorithms

Fare Radar is a Cloudflare Worker over a SQL store. Its modules are state machines over tables, driven
by concurrent invocations that may crash between any two statements. This project models the hardest of
them and proves what they keep over every run:

- **The live-offer cache** (`ProviderResults`, `OfferLifecycle`, `CacheAgreement`, `SupportRevival`, `LaneProgress`,
  `LaneRuns`, `ProviderStore`): verdicts stored with the offers that justify them, re-evaluated only when one of
  those expires, against the specification that runs `verifyMultiProvider` (`Verification`, `Promotion`) over all
  linked offers at every instant.
- **What a demotion does to notifications** (`StaleDeals`, `FirstRecorder`, over `Outbox` and `LeaseQueue`,
  with the tables in `NotificationStore`): which older DEALs can still go out, and when a correction is sent.
  `LaneScenarios` holds concrete runs of the cache and the notifications.
- **Leased retry queues** (`LeaseQueue`, `LeaseExclusion`, `RetryBounds`) and **the search budget circuit**
  (`ProviderPricing`), both with several workers interleaving statement by statement.
- **Search algorithms**: the bounded strategy search (`Strategy`), the search planner (`SearchPlanner`) and
  the canonical printer behind job fingerprints (`StableJson`).
- **The agency offer lifecycle** (`Agency`), **the release driver** (`Release`) and **the access review
  client** (`AccessReview`) against adversarial environments, **fetch scheduling** (`Scheduler`) and
  **policy readiness facets** (`PolicyRegistry`).

How the models are built: the tables are a value (`Tables`, `Box`, `Queue`, `Window`, `Case`) with one step
function per statement or batch; an `Action` names one step of some invocation and `Run` folds steps, so
interleavings and crashes are just action sequences. What an invocation remembers between its statements is a
record of its own: an expiry call looks for pending events, for a due result and for its supports, recomputes,
counts and writes its batch in six steps, an acknowledgement or a projection takes two or three. Every step
brings a time of its own, and nothing orders these times: invocations read their clocks when they start, or are
given the minute they were scheduled for, and act later. Results that need an order say which. Where the program
updates tables in place there is a class holding them as maps, and each method's `ensures` says its new state is
exactly that step. Times are integers in milliseconds, prices are reals, ids are natural numbers, clocks and
replies of the outside world are parameters or unconstrained choices. Auxiliary variables that no statement
reads (lease logs, grant logs, operations in flight, `unsynced`) are marked as such where they are declared.

Some properties the documentation suggests do not hold of the code. The model follows the code; a lemma gives
a concrete run in which each fails, and the exact condition is proved beside it:

- A stored CONFIRMED is wrong, until something else recomputes it, after a projection that read its clock before an
  offer expired recomputes after that offer's demotion: the offer is a support again, and never due, for its event
  (`LaneScenarios.ConfirmedRevived`). Exactly when a quiet CONFIRMED is right: `CacheAgreement.QuietLaneAgrees`;
  exactly which steps revive an offer: `SupportRevival.StepRevivesIff`. An expired support with an event does not
  always make the verdict wrong, since other offers can sustain it (`LaneScenarios.RevivedButSustained`); that the
  supports alone still confirm it does exactly mean that there is none (`CacheAgreement.QuietSupportsLastIff`).
- A recomputation that lands between an expiry call's own recomputation and its batch is overwritten: the lane is
  quiet, the stored verdict PROBABLE, a fresh one CONFIRMED (`LaneScenarios.BatchOverwritesConfirmed`; exactly when:
  `CacheAgreement.ProbableAgreesIff` with `CacheAgreement.BatchOverwritesIff`).
- A projection that crashes between linking and recomputing leaves a PROBABLE behind new evidence
  (`LaneScenarios.CrashedProjectionLags`; such keys are the `unsynced` ones in `CacheAgreement.QuietLaneAgrees`).
- A call that replies that it found nothing does not prove the lane quiet: the supports of the result it chose can
  be replaced before it reads them, while another result is due (`LaneScenarios.NothingFoundWhileDue`).
- A DEAL goes out after its demotion without a correction, although it was visible when the demotion counted, when
  another call recorded the same expiry first, as a rotation or with a count of none: the demotion's event is
  ignored (`LaneScenarios.RotationRecordsFirst`; whose count an event carries: `FirstRecorder.FirstCountDecides`; for
  a rotation in between: `FirstRecorder.RotationHidesIff`). And it goes out uncorrected when nothing was visible at
  the count and either a projection had read it and inserts it later (`LaneScenarios.InFlightDealEscapes`), or it is
  leased between the count and the batch (`LaneScenarios.LeasedDealEscapes`). Exactly when, over both:
  `StaleDeals.StaleDealUncorrectedIff`.
- Two workers hold live leases of one row when a call that began earlier than the release of the row claims it
  after (`LeaseExclusion.BackdatedClaimOverlaps`; exactly when a step does so: `LeaseExclusion.StaysExcludedIff`).
- A notification can be retried more than four times when one worker acknowledges it twice at once, because
  the guard compares the worker and not the lease (`RetryBounds.OverlappingAcksRetryForever`; exactly when a step
  repeats an attempt: `RetryBounds.ReadsStayDistinctIff`). A failure can be reported for a notification that is being
  sent (`Outbox.LostLeaseRaisesFalseAlert`; exactly when: `Outbox.AlertsStep`).
- A refusal computed before an order confirmation can open the budget circuit after it, with searches left
  (`ProviderPricing.StaleRefusalOpensCircuit`; exactly when: `ProviderPricing.MisleadsIff`).
- A recheck or checkout that passed its checks before an expiry still writes after it
  (`Agency.LateRecheckRevives`; exactly when: `Agency.ExpiryFreezesIff`). An offer whose deadline is extended after
  the expiry read it is expired all the same (`Agency.ExtendedYetExpired`; what it takes: `Agency.StaysOverdueIff`).
- A due fetch is lost when its interval grew and the bucket numbers meet (`Scheduler.DownshiftLosesFetch`;
  exactly when: `Scheduler.LostOnlyAfterGrowth`). A completion that brings a time before the last fetch lets the next
  one come too soon (`Scheduler.RegressedFetchTooSoon`; exactly which steps do: `Scheduler.StaysOkIff`).
- A release that reports ROLLED_BACK after an unconfirmed activation can still end up on the candidate, when the
  activation command takes effect late (the last clauses of `Release.DeployProduction` say when it cannot).
- POLICY_FRESH outlives a watch window shorter than the TTL (`PolicyRegistry.ShortWatchExpiresEarly`; exactly
  when: `PolicyRegistry.FreshUntilExpiryIff`).

## Model

| member | source | states |
|---|---|---|
| Verification.VerifyMultiProvider | src/verification.ts:11-25 | the filter and the nested loops with early return compute the specified verdict, supports included |
| Verification.VerdictMeaning | src/verification.ts:13-24 | CONFIRMED if and only if the live evidence, as a set, holds an airline-direct offer or an agreeing pair |
| Verification.VerdictIgnoresOrder | src/verification.ts:11-25 | state and reason depend neither on order nor on repetition of the evidence |
| Verification.VerdictMonotone | src/verification.ts:13-22 | more evidence never demotes and a later time never promotes |
| Verification.SupportsCertify | src/verification.ts:15-24 | the evidence a verdict names is live and confirms on its own; a PROBABLE verdict names none |
| Promotion.OfferMatchesEligibleFlights | src/provider_results.ts:11-29 | the counting loops decide exactly: no restriction, or a flown structure all of whose segments are on eligible flights |
| Promotion.PassMeansAllMet | src/provider_results.ts:31-48 | the constraint chain passes if and only if every stated constraint is met by what was observed |
| ProviderResults.Cheapest | src/provider_results.ts:92 | the head of the sorted pool: least total, then least id |
| ProviderResults.ConfirmedAtIsVerify | src/provider_results.ts:62-88 | the set predicate used in invariants is the verdict of verifyMultiProvider over the linked eligible rows in any order |
| ProviderResults.RecomputeCertifies | src/provider_results.ts:88-98 | after a recomputation the verdict is the fresh one, and the recorded supports certify it, are fresh, and have exactly one PRIMARY: the cheapest support and the stored best offer |
| ProviderResults.AssessIgnoresOrder | src/provider_results.ts:63-97 | stored state and reason do not depend on the order in which the rows come back |
| ProviderResults.AssessColumns | src/provider_results.ts:89-97 | the counts are those of the fresh eligible offers and their providers, and while PROBABLE the best offer is the cheapest of them |
| ProviderStore.Store.IngestOfferSnapshot | src/offers.ts:6-21 | an offer is accepted exactly when valid, allowed and small enough, and under a known id only with the same hash and query; it is never rewritten |
| ProviderStore.Store.SelectLinked | src/provider_results.ts:63-65 | the join of links and live offers yields each linked live offer exactly once |
| ProviderStore.Store.WriteVerificationSupports | src/provider_results.ts:56-60 | the old supports are replaced by one row per distinct id, PRIMARY for the best offer only |
| ProviderStore.AssessRows | src/provider_results.ts:66-98 | the branches of the recomputation produce exactly the specified row and supports |
| ProviderStore.Store.RecomputeCandidateVerification | src/provider_results.ts:62-101 | the tables become exactly the specified recomputation over the linked rows |
| ProviderStore.Store.LinkJobOffers | src/provider_results.ts:107-108 | inserts the links of one consumer, ignoring those that exist |
| ProviderStore.Store.ProjectProviderJobResults | src/provider_results.ts:103-115 | every consumer's key ends up linked to the job's offers and holding the verdict over all its links, each key once, other keys untouched |
| ProviderStore.ChooseRepricePlans | src/offer_lifecycle.ts:23-24 | the ranking and the loop with a break pick the specified plans |
| ProviderStore.RepricePlansAreBest | src/offer_lifecycle.ts:23-24 | at most two plans of different providers, each best ranked of its provider and ahead of every provider left out |
| ProviderStore.Store.Reprice | src/offer_lifecycle.ts:20-35 | a reprice tries the best stored plans of the key, preferring the providers the event names, and records how many got a job |
| ProviderStore.Store.FinishLifecycleEvent | src/offer_lifecycle.ts:18-46 | an uninterrupted call does exactly what its event still asks for |
| ProviderStore.Store.Demote | src/offer_lifecycle.ts:77-86 | the batch of a demotion: one event, the result PROBABLE without supports, unsent DEALs cancelled, unprojected DEAL intents marked |
| ProviderStore.Store.ExpireSupport | src/offer_lifecycle.ts:64-90 | recompute, then preserve and record, or count, demote and finish |
| ProviderStore.Store.ExpireLiveProviderOffers | src/offer_lifecycle.ts:48-91 | one call does one item, pending events before due expiries, both in the documented order, and nothing else |
| CacheAgreement.StepKeepsLane | src/offer_lifecycle.ts:48-91 | every statement of ingest, link, recompute and expiry, in any interleaving, with any times, crashed or not, keeps the cache invariant and what the calls in flight know |
| CacheAgreement.QuietLaneAgrees | src/offer_lifecycle.ts:48-60 | cache agreement: in every reachable state where a call finds nothing to do, a stored CONFIRMED equals a fresh verification over all linked eligible offers if and only if none of its supports expired after its event or other offers sustain it; a stored PROBABLE equals it from the last recomputation of its key on unless the key has an unread link or was overwritten |
| CacheAgreement.QuietSupportsLastIff | src/offer_lifecycle.ts:52-60 | at a quiet time the supports on record still confirm on their own if and only if none of them expired after its event |
| CacheAgreement.SupportsLastIff | src/provider_results.ts:88-98 | the supports of a CONFIRMED confirm on their own exactly as long as none of them has expired: none can be spared |
| CacheAgreement.ProbableAgreesIff | src/offer_lifecycle.ts:70-80 | a synced PROBABLE agrees at all times from the last recomputation of its key on if and only if no batch overwrote that recomputation's answer |
| CacheAgreement.BatchOverwritesIff | src/offer_lifecycle.ts:70-81 | a batch overwrites if and only if a promoting recomputation of the key landed between the call's own recomputation and it |
| CacheAgreement.OnlyBatchesOverwrite | src/offer_lifecycle.ts:77-81 | no other step overwrites a verdict |
| LaneScenarios.BatchOverwritesConfirmed | src/offer_lifecycle.ts:70-81 | concretely: a quiet lane, a synced key, PROBABLE stored and CONFIRMED fresh |
| LaneScenarios.CrashedProjectionLags | src/provider_results.ts:106-110 | concretely: a key linked by a crashed projection lags as PROBABLE |
| CacheAgreement.SupportsConfirmUntilExpiry | src/provider_results.ts:88-98 | in every reachable state the supports of a CONFIRMED result, alone, confirm at every time before the first of them expires, and are well formed |
| SupportRevival.StepRevivesIff | src/provider_results.ts:88-98 | a step makes an offer with an event support that result again if and only if it is a recomputation that reads at a time before the offer's expiry and whose verdict names it, or the rotation event of an offer such a recomputation named since |
| SupportRevival.EventsRetireSupports | src/offer_lifecycle.ts:52-59 | over every run without such a step an offer with an event is never again a support of that result |
| SupportRevival.EventsAreNew | src/offer_lifecycle.ts:56-64 | and the support a call selects has no event |
| SupportRevival.QuietConfirmedAgrees | src/offer_lifecycle.ts:48-60 | and at a quiet time every stored CONFIRMED equals a fresh verification |
| SupportRevival.OrderedNeverRevives | src/provider_jobs.ts:48-56 | runs that recompute each result in the order of the times read have no such step, whatever the order of everything else |
| LaneScenarios.ConfirmedRevived | src/provider_results.ts:103-110 | concretely: a projection with an earlier time revives an expired support, and the CONFIRMED is wrong at every later quiet time |
| LaneScenarios.RevivedButSustained | src/provider_results.ts:88-98 | concretely: a revived support beside an offer that sustains the result |
| LaneScenarios.NothingFoundWhileDue | src/offer_lifecycle.ts:52-64 | concretely: a call finds no expired support of the result it chose, while another result is due |
| LaneProgress.CallMakesProgress | src/offer_lifecycle.ts:50-90 | at one time, whatever times came before, every uninterrupted call that reports work leaves strictly fewer pending events plus due pairs, over an existing event as well |
| LaneProgress.LaneGoesQuiet | src/offer_lifecycle.ts:50-90 | so the lane goes quiet within that many calls |
| LaneRuns.CallIsRun | src/offer_lifecycle.ts:48-91 | an uninterrupted call is a run of the lane's statements, so run theorems hold of calls |
| StaleDeals.RotationIsFresh | src/offer_lifecycle.ts:67-71 | with redundant evidence the recomputation of an expiry leaves CONFIRMED on supports that are all fresh |
| StaleDeals.RotationIsSilent | src/offer_lifecycle.ts:71-74 | recording that expiry moves nothing in the outbox, changes no verdict and asks for nothing |
| StaleDeals.SuppressSparesOthers | src/offer_lifecycle.ts:84-85 | a demotion changes no intent or row but the unsent DEALs of its itinerary |
| StaleDeals.StaleDealIff | src/offer_lifecycle.ts:76-86 | after the batch of a demotion an older DEAL can still be delivered if and only if it was SENDING or DELIVERED then, or an interrupted projection held it |
| StaleDeals.BatchDemotes | src/offer_lifecycle.ts:76-80 | the batch demotes; an event recorded first stays as it is, else the new one says what the count saw, with its offer's end and providers |
| StaleDeals.CorrectedIffRecorded | src/offer_lifecycle.ts:37-44 | in every reachable state, once an event is settled its correction exists if and only if the event on record says a DEAL was visible, however often finishing was cut short and resumed |
| StaleDeals.CorrectedAfterBatch | src/offer_lifecycle.ts:76-90 | after any batch, in every later state: the event says for good what its first recorder wrote, and the settled correction exists if and only if that is that a DEAL was visible |
| FirstRecorder.FirstCountDecides | src/offer_lifecycle.ts:71-79 | in every run an event says so if and only if the call that recorded it first was a demotion that counted a SENDING or DELIVERED DEAL; a rotation never says so |
| FirstRecorder.RotationHidesIff | src/offer_lifecycle.ts:71-79 | with a rotation of the same expiry between count and batch, a DEAL can go out uncorrected if and only if it is delivered or can still be sent at the count, visible or not |
| LaneScenarios.RotationRecordsFirst | src/offer_lifecycle.ts:71-79 | concretely: a DEAL visible at the count is delivered and never corrected, because a rotation recorded the event first |
| StaleDeals.StaleDealUncorrectedIff | src/offer_lifecycle.ts:76-90 | a stale DEAL can be delivered without a correction if and only if, with an earlier record, that says nothing was visible and the DEAL is sent, delivered or held by a projection at the batch; else nothing was visible at the count, and by the batch a projection held it or it had been leased since |
| StaleDeals.DeliveredStaleDealIsCorrected | src/offer_lifecycle.ts:76-90 | otherwise, for a delivered older DEAL, the event on record says visible and its correction exists once the lane is quiet |
| LaneScenarios.InFlightDealEscapes | src/outbox.ts:10-18 | concretely: a DEAL read by a projection before the batch is delivered after it without a correction |
| LaneScenarios.LeasedDealEscapes | src/offer_lifecycle.ts:76-85 | concretely: a DEAL queued at the count is leased before the batch, delivered and never corrected |
| StaleDeals.CountMissesIff | src/offer_lifecycle.ts:76-85 | judged at the count, where the call's own batch records the event: a DEAL can be delivered uncorrected after the demotion if and only if nothing was visible and that DEAL could still be sent |
| LeaseQueue.PickOldest | src/outbox.ts:23 | selection of at most the limit, oldest first, ties broken arbitrarily |
| LeaseQueue.LeaseRows | src/outbox.ts:20-25 | reclaim what ran out, then grant exactly what the subquery picks |
| LeaseExclusion.StaysExcludedIff | src/outbox.ts:20-34 | a step makes two leases of one row live at one time if and only if it grants into the interval of an earlier lease |
| LeaseExclusion.LeasesExclude | src/outbox.ts:20-34 | over every run without such a grant the live lease intervals of one row are pairwise disjoint |
| LeaseExclusion.ClockedNeverBackdates | src/outbox.ts:20-25 | runs whose calls bring times in order have no such grant |
| LeaseExclusion.OneOpenLease | src/outbox.ts:20-34 | in every run, whatever the times, exactly the last lease of a leased row is open |
| LeaseExclusion.BackdatedClaimOverlaps | src/outbox.ts:42-55 | concretely: a claim that began before a release is live together with the lease it follows |
| LeaseQueue.AckIsFenced | src/outbox.ts:31-34 | an acknowledgement changes only its row, and only while its worker holds the last lease |
| LeaseQueue.SettledForever | src/outbox.ts:20-34 | DELIVERED, DEAD and CANCELLED rows never change, and held rows are never leased, whatever is inserted later |
| RetryBounds.ReadsStayDistinctIff | src/outbox.ts:27-33 | the attempts that recorded retries name stay distinct in a step if and only if it is not a retry whose attempt is recorded already |
| RetryBounds.RetriesBounded | src/outbox.ts:32-33 | in every run without such a step: at most 4 retries, 450 seconds of backoff and no delay over 240 |
| RetryBounds.SerialNeverRepeats | src/outbox.ts:27-34 | no step repeats as long as no worker holds two acknowledgements of one row at once, however different workers, lost leases and reclaims interleave |
| RetryBounds.DeadAfterFive | src/outbox.ts:32-34 | in every run without a repeated attempt, a row that died of retryable failures was leased exactly 5 times, and a notification waited exactly 450 seconds |
| RetryBounds.OverlappingAcksRetryForever | src/outbox.ts:27-33 | concretely: without that condition a row is retried any number of times |
| Outbox.QueueSimulates | src/outbox.ts:4-40 | every step of the outbox is a step of its lease queue |
| Outbox.SilentForever | src/outbox.ts:10-34 | an intent that cannot be sent stays so, and its delivery does not change, under every run |
| Outbox.DeliverableIff | src/outbox.ts:10-34 | an intent can end up DELIVERED if and only if it is, or is pending, being sent, unprojected or in a projection |
| Outbox.AlertsStep | src/outbox.ts:34-38 | delivery-failure alerts stay backed by DEAD rows in a step if and only if its terminal failure was written under its lease |
| Outbox.AlertsBounded | src/outbox.ts:34-38 | they never outnumber dead DEAL rows and are never about each other, in runs of such steps |
| Outbox.LostLeaseRaisesFalseAlert | src/outbox.ts:34-38 | concretely: an alert about a notification that is being sent |
| NotificationStore.Store.EnqueueAlertIntent | src/outbox.ts:4-7 | inserts an intent unless its id exists |
| NotificationStore.Store.ProjectAlertIntents | src/outbox.ts:10-19 | reads the oldest unprojected intents, inserts their rows held or pending, marks them |
| NotificationStore.Store.LeaseNotifications | src/outbox.ts:20-25 | the tables become exactly the lease step over what was picked |
| NotificationStore.Store.AckNotification | src/outbox.ts:26-40 | the replies and the tables of an acknowledgement in every branch |
| NotificationStore.DomainEvents.AppendDomainEvent | src/offers.ts:18 | an event of a known type and entity is ignored; a new one comes last in the order of claims and changes no other |
| NotificationStore.DomainEvents.ClaimDomainEvents | src/outbox.ts:42-46 | reclaim, then claim the due events with the smallest ids |
| NotificationStore.DomainEvents.AckDomainEvent | src/outbox.ts:47-55 | immediate retry below five attempts, then DEAD with one alert; without a live lease, the settled state for the worker that settled it and an error for others |
| ProviderPricing.LimitMeaning | src/provider_pricing.ts:34 | a number of searches is within the limit if and only if within the ratio, the budget and the cap that apply |
| ProviderPricing.LimitMonotone | src/provider_pricing.ts:34 | more confirmed orders never lower the limit |
| ProviderPricing.BudgetNeverExceeded | src/provider_pricing.ts:35-53 | under every interleaving the counter equals the grants, each grant was within the limit at its order count, and jobs never exceed grants |
| ProviderPricing.MisleadsIff | src/provider_pricing.ts:41-45 | a confirmation can be followed by an open circuit with searches left if and only if the new limit leaves room and a stale request is in flight |
| ProviderPricing.StaleRefusalOpensCircuit | src/provider_pricing.ts:43-52 | concretely: such a run |
| ProviderPricing.CleanRunIsHonest | src/provider_pricing.ts:41-53 | in runs without such a confirmation the circuit is open only if the limit is reached, whatever else interleaves |
| ProviderPricing.SerialRefusesExactlyAtLimit | src/provider_jobs.ts:28-33 | one request at a time: refused if and only if the job is new and the limit is reached |
| ProviderPricing.Usage.EnqueueProviderSearch | src/provider_pricing.ts:35-47 | the window and the jobs become exactly the specified request |
| ProviderPricing.OrderReopensIff | src/provider_pricing.ts:48-53 | after a confirmed order the circuit is clear, and the next new search is granted if and only if the limit at the new order count leaves room |
| Strategy.TruncationIsSound | src/strategy.ts:40-56 | returned if and only if in the sorted prefix and undominated among all eligible items, cut off or not |
| Strategy.MissingOnlyBehindBudget | src/strategy.ts:52-54 | an undominated eligible item is missing only behind max_nodes others |
| Strategy.PrefixIsCovered | src/strategy.ts:52-55 | every item of the prefix is returned or dominated by a returned one |
| Strategy.CheapestIsReturned | src/strategy.ts:52-56 | the cheapest eligible cash value is present |
| Strategy.SearchIgnoresInputOrder | src/strategy.ts:52-56 | with distinct ids the result is the same for every permutation of the input |
| Strategy.ExpandIsParetoFront | src/strategy.ts:2-5 | boundedExpand returns exactly the undominated items within the ticket limit |
| SearchPlanner.ValidCampaign | src/search_planner.ts:24-35 | an accepted campaign keeps its members, each once, within the limits, dates and lengths ascending |
| SearchPlanner.Enumerate | src/search_planner.ts:65-71 | the triple loop with continue and break computes the first queries of the filtered product |
| SearchPlanner.PlanSearchesForQueue | src/search_planner.ts:46-71 | the planned queries are those of the declarative enumeration |
| SearchPlanner.CandidatesAreAllowed | src/search_planner.ts:50-69 | the candidates are exactly the trips that meet route, campaign, window, weekday, blackout and stay rules |
| SearchPlanner.PlanIsExact | src/search_planner.ts:65-71 | every planned trip is allowed, the plan is complete below the budget, and no allowed trip left out sorts before a planned one |
| SearchPlanner.QueryTellsTrip | src/search_planner.ts:67-70 | different trips give different queries |
| StableJson.EscapeInjective | src/provider_jobs.ts:8 | escaped strings before their closing quote are prefix-free and injective (section 7 of RFC 8259) |
| StableJson.StableInjective | src/provider_jobs.ts:8 | equal text, inside any larger text, means equal values up to key order and equal rest |
| StableJson.StableIsCanonical | src/provider_jobs.ts:8 | two values print the same if and only if they are equal up to the order of object keys |
| Agency.AgencyOfferExpiryReason | src/agency_expiry.ts:6-12 | the push loop and the sort compute the specified reason |
| Agency.ExpiryMeaning | src/agency_expiry.ts:8-11 | an offer expires if and only if seats are exhausted or a deadline passed; seats win, else the earliest deadline, ties in listed order |
| Agency.ExpiryFreezesIff | src/agency_expiry.ts:19-29 | after the batch of an expiry no step but an ingest changes offer, queue or job state, if and only if no armed completion or projection is in flight |
| Agency.QuietExpiryFreezes | src/agency_expiry.ts:19-29 | with nothing in flight the freeze is unconditional |
| Agency.StaysOverdueIff | src/agency_expiry.ts:15-23 | between the selection of an overdue offer and its batch a step lifts it if and only if it is an ingest or a confirming completion whose seats and deadlines leave nothing overdue |
| Agency.ExpiredWhileOverdue | src/agency_expiry.ts:15-23 | so what the batch expires is still overdue in every run without such a step |
| Agency.ExtendedYetExpired | src/agency_expiry.ts:15-23 | concretely: a deadline extended in between, and the offer expired all the same |
| Agency.UnknownSeatsNeverRechecked | src/ingest.ts:54-60 | an offer whose seats no ingest states is never queued, rechecked or checked out |
| Agency.LateRecheckRevives | src/agency_recheck.ts:24-35 | concretely: a recheck checked before the expiry confirms the offer after it |
| Agency.ConfirmationNotOverdue | src/agency_recheck.ts:28-35 | a confirmed offer is not overdue as it is written, except with exhausted stored seats that were not read back |
| Agency.ConfirmationIsBacked | src/agency_checkout.ts:42-74 | SELLER_CONFIRMED, a checkout job and CHECKOUT_REPRODUCED need a recheck that ended SELLER_CONFIRMED, and the last a reproducing checkout, over every run with ingests |
| Agency.Rows.ExpireAgencyOffer | src/agency_expiry.ts:13-34 | one offer, its queue row and its job after an expiry |
| Agency.Rows.LeaseAgencyRecheck | src/agency_recheck.ts:11-18 | reclaim, then lease unless the offer is over |
| Agency.Rows.CompleteAgencyRecheck | src/agency_recheck.ts:20-40 | the refusals in their order, repeated evidence and conflicts, and the rows of an uninterrupted recheck |
| Agency.JobNeverRestarts | src/agency_checkout.ts:11-16 | the checkout job of an offer is created once: no later step of any run resets it or its attempts |
| Agency.Rows.LeaseAgencyCheckout | src/agency_checkout.ts:18-26 | reclaim, then lease unless the offer is over |
| Agency.RetryWaits | src/agency_checkout.ts:28-33 | an acknowledged job can be leased again if and only if its failure was retryable below five attempts and the backoff, of 30 to 240 seconds, is over |
| Agency.Rows.CompleteAgencyCheckout | src/agency_checkout.ts:42-74 | the refusals in their order, repeated evidence and conflicts, and the rows of an uninterrupted checkout |
| Agency.Rows.IngestAgencyOffer | src/partner_ingest.ts:15-24 | a repeated ingest keeps a confirmed state unless what it brings is over, else restarts |
| Release.DiscoverSingleNewVersion | scripts/cloudflare_release.py:88-106 | returns the one version that became visible; several, or none after five polls, is an error |
| Release.UploadVersionCandidate | scripts/cloudflare_release.py:109-149 | one upload at most, the active version untouched, the candidate new to what was visible |
| Release.DeployVersion100 | scripts/cloudflare_release.py:152-188 | one command at most; normal return means active and nothing of its own outstanding; NOT_APPLIED means unchanged but for earlier commands |
| Release.RollbackToVersion | scripts/cloudflare_release.py:191-228 | one command at most; normal return means the version is active |
| Release.RollbackAndVerify | scripts/deploy_production.py:65-106 | normal return or a failed validation means the previous version is active, but for commands that take effect late |
| Release.DeployProduction | scripts/deploy_production.py:109-225 | the command protocol, what each kind of return says about the active version, and for which of them it is final although commands may take effect late |
| AccessReview.MutateOnceThenReconcile | scripts/access_review.py:328-354 | one mutation; normal return means exact; a transport error with absent state means not applied |
| AccessReview.ProcessRecord | scripts/access_review.py:357-385 | one audit and one review mutation at most, review only after an exact audit readback, normal return means both exact, exact items are never sent again |
| Scheduler.StaysOkIff | src/scheduler.ts:17-46 | a step keeps fetches spaced and the last attempt no older than them if and only if it is not a completion that brings a time before a fetch |
| Scheduler.FetchRateBounded | src/scheduler.ts:17-31 | in runs without such a completion a window of length W holds at most W / interval + 1 fetches, whatever the order of times |
| Scheduler.RegressedFetchTooSoon | src/scheduler.ts:19-46 | concretely: two fetches one second apart after such a completion |
| Scheduler.RateUnderAnyHealth | src/scheduler.ts:6 | whatever the health action, a source stored at `base` is fetched no more often than boosting allows |
| Scheduler.LostOnlyAfterGrowth | src/scheduler.ts:5-6 | a due fetch loses its job id if and only if an earlier fetch with a shorter interval had the same bucket |
| Scheduler.DownshiftLosesFetch | src/scheduler.ts:19-27 | concretely: a downshift that loses a due fetch |
| PolicyRegistry.SelectLatest | src/policy_registry.ts:46 | a record of the code and document class with the latest observation |
| PolicyRegistry.EnrichItineraryPolicy | src/policy_registry.ts:39-60 | the loop's flags and running minimum give exactly the specified facets, and the errors |
| PolicyRegistry.FreshUntilExpiryIff | src/policy_registry.ts:24-28 | POLICY_FRESH stays true until expires_at if and only if no short watch window has lapsed at the last instant |
| PolicyRegistry.FreshUntilExpiry | src/policy_registry.ts:54-59 | so it does for policies without a watch window or with one at least as long as the TTL |
| PolicyRegistry.ShortWatchExpiresEarly | src/policy.ts:9 | concretely: a facet that outlives its watch window |

## Left out

- HTTP routing, authentication, nonces, network clients, SQL text, JSON parsing and calendar arithmetic: I/O plumbing; records are typed, dates are day numbers, times are integers.
- SQLite compares expiries rounded to seconds where the program compares milliseconds: one comparison is modelled.
- Ids are natural numbers in their natural order; `safe()` mapping two ids to one event or result id, and evidence without an id, are not modelled.
- ProviderStore.Store.RecomputeCandidateVerification: one atomic step, although it is several statements; the itinerary and facet rows it projects to are not modelled.
- StaleDeals.CountMissesIff: only continuations in which the call's own batch records the event; for the others `StaleDeals.StaleDealUncorrectedIff` and `FirstRecorder.RotationHidesIff` say what happens.
- ProviderStore.Store.Demote: the itinerary and facet rows of the batch are left out.
- ProviderStore.Store.ExpireSupport: specifies the call when nothing comes between its statements; what may come between them is proved of the steps.
- ProviderStore.Store.ExpireLiveProviderOffers: the same; a crash between a demoting recomputation and its batch, and a demotion by a provider job, record no event.
- ProviderStore.Store.FinishLifecycleEvent: the provider jobs of a reprice are counted, not inserted.
- ProviderStore.Store.Reprice: the same.
- ProviderStore.Store.IngestOfferSnapshot: the text of the carrier rule and the domain event of an offer are left out.
- ProviderStore.Store.ProjectProviderJobResults: the acknowledgement of a confirmed signal in the priority queue is left out.
- ProviderPricing.Usage.EnqueueProviderSearch: the checks on query, provider access and mode are one condition; the payload of the job is not modelled.
- SearchPlanner.ValidCampaign: the checks that the identity is given and that dates and the expiry are readable are left out.
- Release.DeployProduction: nothing else changes the active version besides this run and deploy commands outstanding from earlier ones.
- AccessReview.ProcessRecord: no other writer; the classification of a response into absent, exact or mismatch is taken as given.
- Agency.Rows.ExpireAgencyOffer: specifies the call when nothing comes between its selection and its batch; one offer at a time, without the choice of which due offers a call takes, and without its notification rows, which are treated as in the live-offer lane.
- Agency.Rows.CompleteAgencyRecheck: partner readiness and the URL rule are conditions given from outside, the shape of the input is not checked, and the alert is left out; a deadline given but unreadable counts as absent. Acknowledgements of the priority queue are atomic.
- Agency.Rows.CompleteAgencyCheckout: the same.
- Agency.Rows.IngestAgencyOffer: the registry and shape checks and the domain event are left out.
- SearchPlanner.PlanSearchesForQueue: the single-branch checks before the enumeration (campaign active, sale window, market, entitlement) and the plan inserts after it are left out; the baggage query depends on the number of slices only and is not carried.
- SearchPlanner.PlanIsExact: the order part assumes a validated campaign and a scope that names each route once; a repeated route repeats its trips.
- ProviderPricing.BudgetNeverExceeded: policy parameters are fixed within a window; a snapshot or budget changed in mid-window can put the limit below the counter.
- StableJson.StableIsCanonical: undefined members, which only in-memory values can have, and the hash over the text are left out.
- PolicyRegistry.EnrichItineraryPolicy: document rows and evidence ids are left out; lengths of time are exact reals, rounded down to the millisecond.
- The leases of provider and verification jobs, the upsert of the candidate priority queue, direct-candidate projection, plan dispatch, source health and the remaining validators: the same protocols again, or single-branch facts.

# A verified model of the market data and billing core

This Dafny project models the parts of the Albion market API whose correctness is about whole
runs and not about single calls, and proves what they keep. It is checked with
`dafny verify dfyconfig.toml`.

- **Ingest of prices and histories.** A batch is registered in a ledger, copied into a raw trail,
  reduced to one row per key and merged into a hot table by a conditional upsert. `IngestRuns` is the
  theory of the ledger and of redelivered, aborted and unacknowledged requests, for any kind of
  entries; `ConditionalUpsert` that of the upsert; `LatestWins` that of "latest observation wins"
  registers. Prices (two registers a row) and histories are instances: their hot tables are proved to
  be a query over the whole raw trail, after every run.
- **Billing webhooks.** Orders, subscriptions, payments and notifications behind a leased queue,
  with any number of workers, crashes, expired leases, lost acknowledgements and retries. The queue
  is a system of steps (`WebhookQueue`); the worker's code (`WebhookWorker`, `BillingDatabase`) is
  proved to take steps of that system only.
- **Rate limiting.** Token buckets with eviction of idle clients, compared with a private bucket per
  client that is never evicted.
- **Trade arithmetic.** Tax, profit, break-even price and history averages in int64, compared with
  exact arithmetic.
- **History queries and the ingest endpoint.** Grouping, ranking, the market catalog, and the
  balance of the endpoint's counters while calls overlap.

Each imperative component is a class or a method that updates its state in place. It is tied to a
specification on values (`PriceIngest`, `HistoryIngest`, `Billing`, `WebhookQueue`, `TokenBucket`),
about which the theorems are proved (`PriceTheorems`, `HistoryTheorems`, `BillingTheorems`,
`BillingEffects`, `BillingOrigins`, `BillingConvergence`, `QueueSafety`, `QueueOverrun`, `QueueFailures`,
`QueueRecovery`, `QueueLiveness`, `QueueStarvation`, `LimiterTheorems`, `LimiterAnswers`). `BillingEffects`
says field by field what one webhook does, and `Text` what normalised text and decimal notation mean. A
database transaction is one atomic step; the fault that hits a call is one of its inputs.

## What the proofs show about the code

Most properties hold as intended. These do not, or only under a condition that the code does not check:

- **An effect can commit twice.** The finaliser of a failed webhook checks neither the owner nor the
  status of the event (`internal/billing/webhook_queue.go:251-260`), and the job timeout, which ends the
  processing call before the lease, does not cover it. Over all runs, effects commit at most once iff
  there is a single worker or an event is attempted at most twice (`QueueOverrun.AtMostOnceIff`). With
  more workers and attempts they do so if workers that finalise a failure finish, or die, before their
  leases expire (`QueueSafety.EffectAtMostOnce`), or if the finaliser left finished events alone
  (`QueueOverrun.SparingFinishedSuffices`).
- **A crash in the last attempt strands the event** in `processing`: it can be claimed again iff it has
  attempts left (`QueueRecovery.CrashIsRecoveredIff`), and this is reachable in every configuration
  (`QueueRecovery.StrandingIsReachable`).
- **A late finaliser can postpone a waiting event**, so that a later event overtakes it. Over all runs,
  the bound on the claims before an event is claimed holds without lease discipline iff there is a single
  worker or an event is attempted at most twice (`QueueStarvation.NoStarvationIff`), and with it always
  (`QueueLiveness.NoStarvation`).
- **A late finaliser can bury an event**, so that it has failed with its attempts used up, is never claimed
  again, and is not among the dead letters either. Over all runs, used-up attempts always end in the dead
  letters iff there is a single worker or a single attempt (`QueueFailures.NeverStuckIff`), and under the
  lease discipline always (`QueueFailures.NoFailedEventIsUsedUp`).
- **A transient fault can give a healthy event up.** The lookup of a named user reports a failed query
  as an invalid webhook (`internal/billing/webhook_user.go:21`), and an invalid webhook is dead-lettered
  at once. Over all runs, an event that is never invalid by itself is given up only when its attempts are
  used up, or its effect has committed, iff it is a payment or names no user
  (`QueueRecovery.HealthyEventFailsForGoodIff`, `QueueRecovery.LookupFaultGivesUp`).
- **A subscription's final row can depend on the order of its events.** It does not iff the newest event
  carries a creation date or no event does, even if others are rejected on the way
  (`BillingConvergence.OrderDoesNotMatterIff`,
  `BillingConvergence.MissingCreationDateBreaksConvergence`).
- **Eviction of idle rate-limit buckets can be observed.** Answers are those of a private bucket, windows
  are bounded, and a call is allowed exactly when it exceeds no window, iff a bucket refills within one
  TTL; the reported wait is right iff one token does (`LimiterTheorems.EvictionIsInvisibleIff`,
  `LimiterTheorems.WindowsAreBoundedIff`, `LimiterAnswers.AllowsAllThatFitsIff`,
  `LimiterTheorems.RetryAfterIsExactIff`). No code relates rate, TTL and burst. These theorems take the
  calls in the order of their times. The code reads the clock before it takes the mutex
  (`internal/server/security.go:133`, `168-170`), so a call can arrive with a time that is already past;
  after a sweep it can then see the eviction, in every configuration
  (`LimiterTheorems.LateCallShowsEviction`). Without eviction, clients stay isolated in any order
  (`LimiterTheorems.ForeverIsPrivate`).
- **Profit and break-even are computed in int64 without a guard.** `Trade.ProfitIsExactIff` and
  `Trade.ReportedBreakEvenIsThresholdIff` say exactly when they are right;
  `Trade.HugeLossReportedAsProfit` is an input for which a loss is reported as a profit.
- **The overflow guard of the weighted average covers each product, but not the sums**
  (`HistoryAverages.AverageIsExactIff`, `HistoryAverages.GuardedTermsCanStillOverflow`,
  `HistoryAverages.OverflowingUnits`).
- **Read models can depend on the order of requests.** They do not iff the newest observations of each
  key agree (`PriceTheorems.CurrentIsFixedIff`, `HistoryTheorems.BucketsAreFixedIff`).

## Model

| member | source | states |
|---|---|---|
| LatestWins.LatestIn | internal/repository/market_repository.go:174-191 | The one row of a key that `distinct on` keeps: observed, and not before any other row of the key by timestamp, tie-breaker and position; none iff the key was not observed |
| LatestWins.ViewIsLatest | internal/repository/market_repository.go:151-298 | Reducing each batch and merging the winners one after the other gives the row that a query over the whole trail finds: the greatest by timestamp, batch, tie-breaker and position |
| LatestWins.OrderIndependentIff | internal/repository/market_repository.go:235-298 | The register depends on the set of rows alone, under every order and batching, iff the newest rows of the key agree on the value |
| LatestWins.TieShowsOrder | internal/repository/market_repository.go:240-244 | Of two newest rows with different values, the one that is delivered once more wins |
| ConditionalUpsert.CountIsExact | internal/repository/market_repository.go:235-301 | If the WHERE clause lets through only updates that change the row, the count of the statement is the number of keys whose row is new or differs afterwards |
| ConditionalUpsert.UpsertOneMore | internal/repository/market_repository.go:211-298 | Upserting the proposed rows one by one, in any order, is upserting them together |
| IngestRuns.RunAgrees | internal/repository/market_repository.go:74-336 | After every run of deliveries with faults: ledger, raw trail and hot table are those of the requests in the order of their first commits; every ledger row is completed and has exactly its raw rows |
| IngestRuns.AtLeastOnceIsOnce | internal/repository/market_repository.go:108-146 | Repeated, aborted and unacknowledged deliveries leave the same tables as each request delivered once, at its first commit |
| IngestRuns.AnswerToRepeat | internal/repository/market_repository.go:383-415 | A registered id changes nothing: the same payload gets the stored counts with `duplicate` set, another payload a conflict |
| IngestRuns.RepeatRepeatsAnswer | internal/repository/market_repository.go:403-409 | An accepted request that is repeated later, whatever happened in between, is answered with the counts of its first answer |
| IngestRuns.LedgerRowsAreFinal | internal/repository/market_repository.go:307-324 | A committed ledger row never changes again |
| IngestRuns.LedgerCountsRawRows | internal/repository/market_repository.go:108-146 | Every ledger row is completed, names the server of its request, and counts exactly the raw rows of its request |
| IngestRuns.AnswerCountsThePayload | internal/repository/history_repository.go:228-290 | In every run the counts of a successful answer, first or repeated, are those of the payload; no delivery sees an unfinished ledger row |
| IngestRuns.AnswerSaysWhatHappened | internal/repository/market_repository.go:74-336 | In every run: an answer is a success iff the request is in the ledger afterwards with this payload and no statement or acknowledgement failed, and a duplicate iff it was there before; each error says what it names; failures before the commit leave the tables alone |
| PriceTheorems.WhereIffChanged | internal/repository/market_repository.go:237-297 | The WHERE clause holds exactly when the CASE expressions change the row |
| PriceTheorems.TouchedIsExact | internal/repository/market_repository.go:235-301 | The reported row count is the number of keys whose row is new or differs afterwards |
| PriceTheorems.AnswerCountsChanges | internal/repository/market_repository.go:299-335 | In every run, a first success reports the entries of its payload and the number of keys whose current price is new or different, and adds one raw row per entry |
| PriceTheorems.TimestampsNeverDecrease | internal/repository/market_repository.go:247-273 | Over any continuation of a run, rows stay, and a side's timestamp never decreases or returns to null |
| PriceTheorems.UpsertMergesSide | internal/repository/market_repository.go:174-273 | On each side, the upsert of a request is one merge of the request's latest observation into the register of that side; the sides do not disturb each other |
| PriceTheorems.RunAgrees | internal/repository/market_repository.go:151-298 | After every run, the hot table agrees with the log of first commits: its keys, and on each side the register of all observations |
| PriceTheorems.CurrentIsLatestObservation | internal/repository/market_repository.go:151-298 | After every run, each side of each current price is the price and the time of that side in the entry about the key that is latest by (side time, commit order, observation time, position), null if no entry has the side; a key has a row iff an entry is about it |
| PriceTheorems.RawTrailRecordsEntries | internal/repository/market_repository.go:133-145 | After every run, the raw trail is the entries of the committed requests, one row each and in order; each row has the id and the server of its request, and article, observation time, sell side and buy side of its entry |
| PriceTheorems.CurrentDependsOnObservationsOnly | internal/repository/market_repository.go:166-298 | Runs that recorded the same observations, without contradicting newest ones, end with the same hot table, whatever the order and the batches |
| PriceTheorems.CurrentIsFixedIff | internal/repository/market_repository.go:166-298 | Every run that recorded the same observations, in whatever requests, order and batches, has the same hot table iff the newest observations of each key and side agree |
| Deliveries.OnceCommitsAll | internal/repository/market_repository.go:108-131 | Delivering a log of distinct requests once commits exactly that log, in its order |
| Deliveries.ServersAreToldApart | internal/repository/market_repository.go:513-537 | A stored server id reads back as the one server that was mapped to it, so that servers share no rows |
| PriceRepository.RawPriceCopySource.Next | internal/repository/market_repository.go:354-360 | Moves to the next entry, and says whether there is one |
| PriceRepository.RawPriceCopySource.Values | internal/repository/market_repository.go:362-377 | The reused array holds request id, server and, column by column, what the entry that Next moved to tells; an error before the first |
| PriceRepository.Repository.CopyFrom | internal/repository/market_repository.go:134-142 | The raw trail grows by one row per entry, in order, and each row tells what its entry tells; the count is the number of entries |
| PriceRepository.Repository.UpsertCurrent | internal/repository/market_repository.go:211-301 | Row by row in any order, the statement yields the upserted table and the number of affected keys |
| PriceRepository.Repository.Transact | internal/repository/market_repository.go:108-325 | All of the transaction, or none of it, for every fault |
| PriceRepository.Repository.ExistingIngestResult | internal/repository/market_repository.go:383-415 | The answer from the stored row: conflict, duplicate with the stored counts, or still processing |
| PriceRepository.Repository.IngestPrices | internal/repository/market_repository.go:74-336 | The new tables and the answer are those of the specified delivery, for every fault |
| HistoryTheorems.FlattenedAt | internal/repository/history_repository.go:333-369 | Row b of entry e stands in the flattening right after all rows of earlier entries, and tells what bucket b and entry e tell |
| HistoryTheorems.FlattenedCount | internal/repository/history_repository.go:301-307 | The flattening has exactly as many rows as there are buckets, all of the request |
| HistoryTheorems.TouchedIsExact | internal/repository/history_repository.go:183-202 | The reported row count is the number of buckets whose row is new or differs afterwards |
| HistoryTheorems.BucketIsLatestObservation | internal/repository/history_repository.go:121-199 | After every run, each bucket's row has the count, the average and the observation time of the bucket that is latest by (observation time, commit order, entry, position); it is absent iff no committed request has such a bucket |
| HistoryTheorems.RawTrailRecordsBuckets | internal/repository/history_repository.go:103-119 | After every run, the raw trail is the buckets of the committed requests, one row each and in order; each row has the id and the server of its request, and what its entry and its bucket tell |
| HistoryTheorems.AnswerCountsBuckets | internal/repository/history_repository.go:228-290 | In every run a successful answer, first or repeated, counts the entries and buckets of the payload; a first one adds as many raw rows and reports how many buckets are new or different |
| HistoryTheorems.BucketsDependOnObservationsOnly | internal/repository/history_repository.go:121-199 | Runs that recorded the same observations without contradictions end with the same buckets |
| HistoryTheorems.BucketsAreFixedIff | internal/repository/history_repository.go:121-199 | Every run that recorded the same observations has the same buckets iff the newest observations of each bucket agree |
| HistoryTheorems.RunAgrees | internal/repository/history_repository.go:34-238 | After every run, the raw trail is that of the log of first commits, and each bucket the register of all its observations |
| HistoryRepository.CountHistoryBuckets | internal/repository/history_repository.go:301-307 | The number of buckets of all entries |
| HistoryRepository.RawHistoryCopySource.Next | internal/repository/history_repository.go:333-348 | Hands out the flattening row by row, skipping empty histories, and stops after exactly all buckets |
| HistoryRepository.RawHistoryCopySource.Values | internal/repository/history_repository.go:350-369 | The reused array holds the columns of the row of the flattening that Next moved to, column by column from its entry and bucket; an error when it stands on none |
| HistoryRepository.Repository.CopyFrom | internal/repository/history_repository.go:103-111 | The raw trail grows by exactly the flattening; the count is the number of buckets |
| HistoryRepository.Repository.UpsertBuckets | internal/repository/history_repository.go:161-202 | Row by row in any order, the statement yields the upserted table and the number of affected buckets |
| HistoryRepository.Repository.IngestHistory | internal/repository/history_repository.go:34-238 | The new tables and the answer are those of the specified delivery, for every fault |
| LimiterTheorems.ForeverIsPrivate | internal/server/security.go:181-201 | Without eviction, each client's bucket is the one fed that client's calls only, for every interleaving |
| LimiterTheorems.EvictionIsInvisibleIff | internal/server/security.go:172-185 | For monotone clocks, every answer of the limiter equals that of a private, never evicted bucket iff rate times TTL is at least the burst |
| LimiterTheorems.LateCallShowsEviction | internal/server/security.go:133-185 | In every configuration, a call whose time is before the last sweep is allowed by a new bucket where the private bucket rejects it |
| LimiterTheorems.RemainingIsExact | internal/server/security.go:187-197 | In every run, `remaining` is exactly how many further calls of the client at that instant pass, whatever other clients call in between |
| LimiterTheorems.RetryAfterIsExactIff | internal/server/security.go:172-201 | In all runs, a rejected client that is silent while others call is rejected before the reported wait, allowed after it, and allowed at it iff the exact wait is whole nanoseconds; this holds iff one token is refilled within a TTL |
| LimiterTheorems.BucketRetryAfter | internal/server/security.go:187-201 | The same for a bucket that is left alone, unconditionally |
| LimiterTheorems.AllowedInWindow | internal/server/security.go:187-197 | If a bucket refills within one TTL: in every window, a client is allowed at most burst plus rate times the window's length |
| LimiterTheorems.WindowsAreBoundedIff | internal/server/security.go:172-197 | That bound holds in all windows of all runs iff a bucket refills within one TTL |
| LimiterTheorems.RetainedWereSeenRecently | internal/server/security.go:172-179 | Every retained client was seen less than two TTLs ago |
| LimiterAnswers.AllowedIffItFits | internal/server/security.go:187-197 | The same for one call of one run, under the refill condition |
| LimiterAnswers.AllowsAllThatFitsIff | internal/server/security.go:172-197 | In all runs, a call is allowed exactly when, with the calls allowed before, it exceeds no window that ends with it; this holds iff a bucket refills within one TTL |
| LimiterAnswers.SilenceIsPaidOut | internal/server/security.go:172-197 | In all runs and configurations, a client that is silent while others call finds at least what its last answer left plus the whole tokens refilled since, up to the burst |
| RateLimiter.ClientBucket.TakeToken | internal/server/security.go:187-201 | In place, the bucket and the answer become those of the specification |
| RateLimiter.IpRateLimiter.constructor | internal/server/security.go:111-124 | No clients; a TTL that is not positive becomes ten minutes |
| RateLimiter.IpRateLimiter.Cleanup | internal/server/security.go:172-179 | Exactly the clients idle for a TTL are dropped, and only when a TTL has passed since the last time; the other buckets stay the same objects |
| RateLimiter.IpRateLimiter.Serve | internal/server/security.go:181-201 | The client's bucket, created full if there is none, is refilled and used; no other bucket changes |
| RateLimiter.IpRateLimiter.Allow | internal/server/security.go:168-202 | On shared bucket objects, the new contents and the answer are those of the specified call: eviction first, then the client's bucket |
| RetryDelay.NothingOverflows | internal/billing/webhook_queue.go:281-296 | In the configured ranges no intermediate value leaves int64 |
| RetryDelay.ShiftCutIsHarmless | internal/billing/webhook_queue.go:277-284 | Cutting the shift at 20 never changes the capped delay |
| RetryDelay.DelayIsJitteredBackoff | internal/billing/webhook_queue.go:273-297 | The delay is the exact capped backoff plus as many hundredths of it as the digest byte modulo 21, cut at the maximum |
| RetryDelay.DelayIsMonotone | internal/billing/webhook_queue.go:273-297 | A later attempt never waits less, whatever the two jitters |
| BillingTheorems.RunKeepsSound | internal/billing/webhook_subscription.go:28-56 | In every reachable state: Pro iff the configured variant, access always ends, provisional access ends 15 minutes after it was granted, no order has two rows |
| BillingTheorems.OrderKeepsSound | internal/billing/webhook_order.go:65-83 | Order events keep all of these |
| BillingTheorems.OrderKeepsProvisionalRows | internal/billing/webhook_order.go:65-83 | An order event leaves every provisional row as it is, and adds one only for an order that has no row |
| BillingTheorems.PaymentKeepsSound | internal/billing/webhook_payment.go:33-72 | Payment events keep all of these |
| BillingTheorems.OrderHasExactlyOneRow | internal/billing/webhook_order.go:68-83 | If subscription events carry their order, a processed order has exactly one row for ever: provisional until its subscription is confirmed, that subscription's row afterwards |
| BillingTheorems.GrantedAtMostOnce | internal/billing/webhook_order.go:65-83 | If subscription events carry their order, an order is granted provisional access at most once in any run |
| BillingTheorems.ProvisionalRowNeverChanges | internal/billing/webhook_order.go:65-83 | As long as an order has a provisional row, in any continuation, it is the row that was granted: access is never extended |
| BillingTheorems.OrderAndSubscriptionCommute | internal/billing/webhook_subscription.go:40-52 | The two events of a purchase give the same tables in either order and at any times: one confirmed row, none provisional (creation bookkeeping aside) |
| BillingEffects.SubscriptionLaw | internal/billing/webhook_subscription.go:13-158 | Refused for good iff the user or the status is unknown or the date that the status needs is missing, and for now iff a constraint is in the way; active and trialing end at the renewal, cancelled and expired at their end, past due one grace period after the later date, another plan at once; every field is that of the webhook, nothing else changes |
| BillingEffects.OrderLaw | internal/billing/webhook_order.go:14-102 | Refused, for good, iff the user is unknown; registers the order unless a newer state is, grants 15 minutes iff no row has the order, and notifies; every field is that of the webhook, nothing else changes |
| BillingEffects.PaymentLaw | internal/billing/webhook_payment.go:12-93 | Refused, for now, iff the subscription is unknown; a failed payment gives one grace period after the period, a recovered one takes no access away, a successful one changes nothing but the outbox |
| BillingOrigins.RowsHaveOrigins | internal/billing/webhook_processing.go:65-80 | Whatever arrives: every subscription says what one event of the shop told of it, with the status and the access of that event or of a later payment; every provisional row was granted to a paid order of the plan for 15 minutes |
| BillingConvergence.RowIsView | internal/billing/webhook_subscription.go:57-110 | Amid any other events, a subscription's row is the latest-wins register of its processed events, if these carry all dates |
| BillingConvergence.RowIsOfNewestEvent | internal/billing/webhook_subscription.go:57-110 | If the processed events carry all dates: the subscription has a row iff one was processed, and the row is that of a processed event with the greatest provider timestamp |
| BillingConvergence.SubscriptionConverges | internal/billing/webhook_subscription.go:57-110 | Sequences in which the same events of a subscription are processed end with the same row, whatever the order and the repetitions |
| BillingConvergence.WellFormedIsProcessedIff | internal/billing/webhook_subscription.go:13-111 | A well-formed event is rejected exactly when it is not outdated, has no creation date, and renews before the stored period start |
| BillingConvergence.FinalRowIsOfNewestEvent | internal/billing/webhook_subscription.go:57-110 | Whatever the order, the repetitions, the other events and the rejections on the way: the final row is that of the event with the greatest provider timestamp if that event has a creation date or none has; otherwise it is, up to the period start, if that event renews after every creation date |
| BillingConvergence.OrderDoesNotMatterIff | internal/billing/webhook_subscription.go:57-85 | For well-formed events, even if some are rejected: the final row is the same for every order, repetition and interleaving iff the newest event carries a creation date or no event does |
| BillingConvergence.MissingCreationDateBreaksConvergence | internal/billing/webhook_subscription.go:78 | Two different webhooks, processed in both orders, that leave different period starts |
| QueueSafety.EffectAtMostOnce | internal/billing/webhook_processing.go:28-80 | In every run in which workers that finalise a failure do so, or die, within their leases (processing is bounded by the job timeout), an effect commits at most once, and a payload is erased iff its effect was committed |
| QueueSafety.CommitOnce | internal/billing/webhook_types.go:12-31 | The effect, the final status and the erasure are one step, and that step happens only to events never committed before |
| QueueSafety.TablesAreCommittedEffects | internal/billing/webhook_processing.go:36-80 | With or without lease discipline, the business tables are always those of the committed effects one after the other, each of which succeeded |
| QueueSafety.ReachableTablesAreSound | internal/billing/webhook_processing.go:65-80 | So the billing invariants hold in every state that any run of the queue reaches |
| QueueSafety.ReachableRowsHaveOrigins | internal/billing/webhook_processing.go:65-80 | In every state that any run of the queue reaches from empty tables, every subscription and every grant comes from a committed webhook of the shop |
| QueueSafety.OutboxIsOfCommittedEvents | internal/billing/webhook_payment.go:76-93 | One notification for each committed order or payment event, however often it committed, and none for other events |
| QueueSafety.AttemptsNeverExceedMaximum | internal/billing/webhook_queue.go:163-174 | The attempt count never exceeds its maximum, in any run |
| QueueOverrun.AtMostOnceIff | internal/billing/webhook_queue.go:156-271 | In a configuration that accepts orders: over all runs of these workers, with no lease discipline, each effect commits at most once iff there is one worker or at most two attempts |
| QueueOverrun.EffectTwiceWithLateFinaliser | internal/billing/webhook_queue.go:239-271 | For every configuration with three attempts and any two workers: a run, with every processing call in time, in which a late finaliser and a lost acknowledgement make one effect commit twice |
| QueueOverrun.FewCommitOnce | internal/billing/webhook_queue.go:163-174 | With one worker, or at most two attempts, no legal run repeats an effect |
| QueueOverrun.SparingFinishedSuffices | internal/billing/webhook_queue.go:251-260 | In every run in which no failure is written over a finished event, each effect commits at most once, with no assumption on leases |
| QueueFailures.FailureIsFinalised | internal/billing/webhook_queue.go:239-271 | Finalised without a fault: a dead letter, with its time and no due date, iff the failure is permanent or the attempts have reached the maximum; otherwise failed, and due between the exact backoff and the maximum delay from now; nothing else changes |
| QueueFailures.NoFailedEventIsUsedUp | internal/billing/webhook_queue.go:239-271 | In every disciplined run, a failed event has an attempt left |
| QueueFailures.NeverStuckIff | internal/billing/webhook_queue.go:239-271 | Without any lease discipline: no event fails with its attempts used up, in all runs of these workers, iff there is one worker or a single attempt |
| QueueFailures.StuckForEver | internal/billing/webhook_queue.go:163-174 | An event that failed with its attempts used up stays so in every continuation, once nobody works on it |
| QueueFailures.RetryWaits | internal/billing/webhook_queue.go:156-182 | A failed event that nobody works on is left alone in every run until it is due, unless it is delivered again |
| QueueRecovery.CrashIsRecoveredIff | internal/billing/webhook_queue.go:163-166 | After the only worker of a leased event crashes, some continuation makes the event claimable again iff it has attempts left |
| QueueRecovery.StrandingIsReachable | internal/billing/webhook_queue.go:156-182 | In every configuration, from every initial state, every event in scope can be stranded |
| QueueRecovery.StrandedForEver | internal/billing/webhook_queue.go:163-166 | A stranded event is never claimed, finished, failed or dead-lettered again; redeliveries only count |
| QueueRecovery.HealthyEventFailsForGoodIff | internal/billing/webhook_user.go:17-25 | For an event that can be processed, with at least two attempts, over all runs in which no attempt at it is invalid by itself: it is dead-lettered only with its attempts used up or its effect committed iff it is a payment or names no user |
| QueueRecovery.LookupFaultGivesUp | internal/billing/webhook_user.go:17-25 | For every event that looks up a named user: one failed lookup in its first attempt dead-letters it although its transaction would succeed, whatever the configured attempts |
| QueueRecovery.GivenUpForEver | internal/billing/webhook_queue.go:104-113 | A dead-lettered event stays so in every continuation; redeliveries do not revive it |
| QueueLiveness.StepUsesAttempts | internal/billing/webhook_queue.go:156-182 | While an event waits and the step leaves it alone: each claim of another one uses up an attempt of those ahead of it, nothing gets ahead of it, and no step gives attempts back |
| QueueLiveness.ClaimedAfterBoundedClaims | internal/billing/webhook_queue.go:104-182 | As long as a waiting event is not claimed, the claims so far are at most the attempts left to the events ahead of it |
| QueueLiveness.NoStarvation | internal/billing/webhook_queue.go:156-260 | The same from every state that a disciplined run reaches |
| QueueLiveness.IdleWorkerCanClaim | internal/billing/webhook_queue.go:159-171 | While an event waits, an idle worker's claim always finds an event, and this one if nothing is ahead |
| QueueStarvation.UnheldIsClaimedInTime | internal/billing/webhook_queue.go:156-260 | The bound holds for every waiting event that no worker still works on, whatever the leases |
| QueueStarvation.NoStarvationIff | internal/billing/webhook_queue.go:156-271 | Without any lease discipline: the bound on claims holds in all runs of these workers, for every waiting event, iff there is one worker or at most two attempts |
| BillingDatabase.Database.EnqueueWebhook | internal/billing/webhook_queue.go:62-120 | Rejected without effect iff it is not of the shop, its mode and a plan or subscription; new: one pending row, due now; known: one more delivery, and due at once if it had failed; no other row changes |
| BillingDatabase.Database.Candidate | internal/billing/webhook_queue.go:159-171 | The event with the smallest (due, created) key of those that are due, or whose lease is over, with attempts left; none iff there is none |
| BillingDatabase.Database.Claim | internal/billing/webhook_queue.go:156-201 | A claim step of the system on an event that may be claimed, with one more attempt and a new lease, or no change because nothing is claimable |
| BillingDatabase.Database.ProcessOrder | internal/billing/webhook_order.go:14-102 | The tables and the result are those of the specified effect |
| BillingDatabase.Database.ProcessPayment | internal/billing/webhook_payment.go:12-74 | The tables and the result are those of the specified effect |
| BillingDatabase.Database.UpsertSubscription | internal/billing/webhook_subscription.go:57-110 | The guarded upsert with the order and period constraints: processed, ignored as outdated, or an error |
| BillingDatabase.Database.ProcessSubscription | internal/billing/webhook_subscription.go:13-111 | The tables and the result are those of the specified effect |
| BillingDatabase.Database.Transact | internal/billing/webhook_processing.go:22-80 | The effect, the final status and the erasure, or nothing at all, for every fault and timeout. Without a fault and in time: nothing for a finished event, exactly the effect with its final status, or its error; invalid if the payload is gone, out of scope, or unknown |
| BillingDatabase.Database.ProcessWebhookEvent | internal/billing/webhook_processing.go:14-81 | Exactly one commit, unacknowledged commit or failure step of the system; success is reported for a commit only, and without a fault, in time, exactly when the attempt succeeds; a reported failure without a lost acknowledgement changes no event |
| BillingDatabase.Database.Finish | internal/billing/webhook_types.go:12-31 | Final status, erasure and release of the lease in one update of one row |
| BillingDatabase.Database.WriteFailure | internal/billing/webhook_queue.go:251-270 | The finalising update, whoever owns the event and whatever its status |
| WebhookWorker.Worker.ProcessBatch | internal/billing/webhook_queue.go:142-154 | A batch is a legal run of the queue system that leaves the worker idle; it stops early only on an error or when nothing is claimable |
| WebhookWorker.Worker.ProcessOne | internal/billing/webhook_queue.go:203-237 | Processing a job, and finalising it if it failed, continues the run legally; without a fault and in time a finished event is left alone, an effect that succeeds is committed with its final status, and any other event ends as a dead letter or due for a retry, for good iff it is invalid |
| WebhookWorker.Worker.FinalizeFailure | internal/billing/webhook_queue.go:239-271 | Both statements of finalising, or a dropped job if they fail, continue the run legally; without a fault the event is a dead letter iff the failure was permanent or its attempts were used up, and otherwise due after its backoff; with one, no row changes |
| Trade.MultiplySucceedsIffItFits | internal/blackmarket/blackmarket.go:410-415 | The guarded product of two int64 values succeeds iff both are non-negative and it fits, and is then exact |
| Trade.TaxIsWithinHalf | internal/blackmarket/blackmarket.go:384 | The rounded tax lies between zero and the revenue and is the nearest whole coin to the exact tax, the higher one if two are |
| Trade.ReachesBreakEvenIff | internal/blackmarket/blackmarket.go:396 | A price reaches the break-even price iff its revenue after the exact tax covers the cost |
| Trade.BreakEvenIsThreshold | internal/blackmarket/blackmarket.go:384-396 | Despite the rounded tax: no loss from the break-even price on, no gain below it |
| Trade.ReadyFigures | internal/blackmarket/blackmarket.go:365-408 | Figures are ready iff both prices are known and both products fit; costs, revenues and tax are then exact, profit and break-even wrapped |
| Trade.ProfitIsExactIff | internal/blackmarket/blackmarket.go:385-386 | The reported profit is the exact one iff purchase, transport and tax exceed the revenue by at most 2^63 |
| Trade.ProfitPerUnitIsCut | internal/blackmarket/blackmarket.go:387 | The profit per unit is the reported profit shared out and cut toward zero |
| Trade.ReportedBreakEvenIsThresholdIff | internal/blackmarket/blackmarket.go:396 | The reported break-even price is a threshold iff cost plus transport fits int64 |
| Trade.HugeLossReportedAsProfit | internal/blackmarket/blackmarket.go:385-396 | An accepted input with an enormous loss that is reported as a profit with a negative break-even price |
| HistoryAverages.Summarize | internal/blackmarket/blackmarket.go:323-361 | The loop's result: true extrema and last observation, wrapped sums, and an average between the extrema when the sums fit |
| HistoryAverages.SumsAreAdditive | internal/blackmarket/blackmarket.go:334-352 | Each row adds its count to the units sold, and, iff it has a price and its product fits, its count and its product to the sums of the average |
| HistoryAverages.WeighsIffProductFits | internal/blackmarket/blackmarket.go:349-352 | A bucket passes the guard iff it has a price, something was sold, and their product fits int64 |
| HistoryAverages.AverageIsBetween | internal/blackmarket/blackmarket.go:349-361 | When both sums fit, the average lies between the lowest and the highest positive price |
| HistoryAverages.AverageIsExactIff | internal/blackmarket/blackmarket.go:349-361 | The reported average is the exact one if the summed worth fits int64; if the number of units fits, only if |
| HistoryAverages.GuardedTermsCanStillOverflow | internal/blackmarket/blackmarket.go:349-352 | Two buckets that pass the guard and average to a negative price |
| HistoryAverages.OverflowingUnits | internal/blackmarket/blackmarket.go:349-361 | When the units overflow, nothing may be reported, or, by wrapping, even the exact average |
| Text.NormalisedIffSpells | internal/billing/webhook_subscription.go:118 | Trimmed and lower-cased text is a word iff the text is that word, in any case, between spaces |
| Text.DecimalIsRead | internal/billing/webhook_subscription.go:33-42 | Decimal notation is a numeral without leading zeros that reads as the number, after a sign if it is negative |
| MarketCatalog.Catalog.Default | internal/marketcatalog/catalog.go:24-114 | The default catalog indexes all its markets; the two indexes are inverse to each other and locations are distinct |
| MarketCatalog.Catalog.ResolveEnabled | internal/marketcatalog/catalog.go:137-169 | Fails iff some key is missing, unknown or disabled, with the first such problem; otherwise location i is that of the enabled market of the i-th distinct key and is mapped back to it |
| MarketCatalog.FirstOccurrencesAreInOrder | internal/marketcatalog/catalog.go:146-153 | Of two distinct keys, the one that stands first was met before the other |
| MarketCatalog.DefaultKeysAreSpelt | internal/marketcatalog/catalog.go:179-181 | A key stands for a default market iff it spells its key, in any case and between spaces |
| HistoryQuery.GroupRows | internal/repository/history_repository.go:432-469 | Non-empty series with pairwise distinct keys whose concatenation is the list of rows |
| HistoryQuery.MarketOrder | internal/service/history_service.go:300-309 | Each distinct market has the rank of its first occurrence, which is its index among the resolved locations |
| HistoryQuery.TextLessIff | internal/service/history_service.go:246-248 | One item key precedes another iff, where they first differ, it has ended or has the smaller byte |
| HistoryQuery.StableSort | internal/service/history_service.go:240-250 | A permutation sorted by rank, item and quality, in which series that tie keep their order |
| HistoryQuery.Arrange | internal/service/history_service.go:221-259 | Labels and counts the series and sorts them; an error iff some location is unmapped |
| HistoryQuery.AnswerIsRanked | internal/service/history_service.go:240-250 | Series carry the market of their location, stand in the order of the requested markets, and are strictly ordered within a market |
| HistoryQuery.QueryHistory | internal/service/history_service.go:204-260 | From keys to answer: ranked, every row of the database in exactly one series, and exact counts |
| HistoryEndpoint.NormalizeRequest | internal/service/history_service.go:62-194 | Accepts exactly the valid requests and returns the normalised one: texts trimmed, averages of zero dropped, nothing else changed |
| HistoryEndpoint.ValidIffStorable | internal/service/history_service.go:62-194 | A request is valid iff it has an id and a known server, is within the limits, has no empty entry, and all rows of its normal form satisfy the constraints of the table |
| HistoryEndpoint.NormalisingKeepsCounts | internal/service/history_service.go:99-193 | Normalising neither adds nor drops entries or buckets |
| HistoryEndpoint.ResentRowIsValid | internal/service/history_service.go:62-194 | Every row of an accepted request is accepted again, on its own, under a new id |
| HistoryEndpoint.Account | internal/handlers/history_ingest_handler.go:34-69 | The deferred accounting: everything received is accepted (stored), rejected or a duplicate, as the status says |
| HistoryEndpoint.HistoryIngestMetrics.RequestStarted | internal/observability/history_ingest_metrics.go:83-91 | One more request, one more in flight |
| HistoryEndpoint.HistoryIngestMetrics.RequestFinished | internal/observability/history_ingest_metrics.go:93-130 | The counters after an observation |
| HistoryEndpoint.CountersBalance | internal/handlers/history_ingest_handler.go:34-69 | In every run in which calls overlap, each being served (its transaction) and accounted for at separate moments: requests = in flight + succeeded + errors; received = accepted (stored) + rejected + duplicate, for entries and for buckets |
| HistoryEndpoint.StoredBucketsAreInRawTrail | internal/observability/history_ingest_metrics.go:120-123 | Buckets counted as stored, with those of calls served but not yet accounted for, are rows of the raw trail, and all of them unless some commit was not acknowledged |
| HistoryEndpoint.CallAlone | internal/handlers/history_ingest_handler.go:16-209 | A call that is started, served and accounted for adds exactly its own observation and delivery |
| HistoryEndpoint.CallIsCounted | internal/handlers/history_ingest_handler.go:34-69 | In every run a call adds to the counters what it did to the tables: rows stored and buckets changed if accepted, its payload as a duplicate if repeated, and as rejected, with an error, otherwise |
| HistoryEndpoint.OnlyStorableIsStored | migrations/000004_market_history.sql:22-36 | Whatever is sent to the endpoint, every raw row satisfies the constraints of its table, with a trimmed item, and every committed request is within the limits |
| HistoryHandler.IngestHandler.IngestHistory | internal/handlers/history_ingest_handler.go:16-209 | 202 iff this call registered the normalised request and the commit was acknowledged; 200 iff it was registered with this payload and no statement failed; 409 iff its id is taken by another payload or unfinished; 400 iff it is invalid; 500 otherwise. So a success means that the request is in the ledger; refused and failed calls change no table unless only the acknowledgement failed; counters as observed |

## Left out

- HTTP, JSON decoding, headers, compression, authentication, signatures and logging: libraries and I/O.
- SHA-256 of requests and webhook bodies: taken as injective, so that a request or a body stands for its hash and its event id. Only the first digest byte of the retry jitter is a parameter.
- UUID parsing: a request id carries the UUID it denotes, if any.
- Row ids of the raw tables: the position in the table stands for them, so gaps after aborted inserts do not show; the precision with which the database stores timestamps is not modelled either.
- Concurrency inside the database: a transaction is one atomic step, in commit order. Statements of different transactions do not interleave.
- Faults within a call are given from outside; which statement fails for which reason is not modelled, apart from the order and period constraints of subscriptions. Length and format checks of columns are not part of this model.
- WebhookWorker.Worker.ProcessBatch: runs alone on its database; other workers in between are covered by the queue system, where steps of all workers interleave freely.
- WebhookQueue.InTime: counts the job timeout from the claim, and a commit that is on its way when the timeout strikes as in time.
- BillingDatabase.Database.ProcessWebhookEvent: the job timeout shows as a transaction that does not start or is rolled back.
- Billing.ProcessOrder: the application's clock and the database's clock are one.
- Billing.ResolveUser: the identity of a user is a number; an order event without a user is looked up by its data id among subscription ids, as the code does.
- BillingConvergence.SubscriptionConverges: leaves out the creation time of the row, which is when it was first written.
- QueueOverrun.AtMostOnceIff: with several workers and attempts, the conditions on leases that exclude every double commit are sufficient only.
- LimiterTheorems.EvictionIsInvisibleIff: like the other theorems about runs of the limiter, takes the calls in the order of their times; no configuration hides an eviction from every late call.
- QueueLiveness.NoStarvation: bounds the claims before an event is claimed; that workers keep claiming is up to them.
- The legacy synchronous webhook path and its access rules.
- Floating-point rounding: tokens, tax and prices are exact reals; real results are taken to be in the range of int64 when they are converted.
- Trade.ReadyFigures: leaves out the margin and the return on cost, which are ratios of the figures modelled.
- HistoryAverages.AverageIsExactIff: does not say which overflows of the units happen to give the exact average.
- HistoryAverages.Summarize: takes the rows as the query returns them, within the constraints of their table.
- HistoryQuery.QueryHistory: takes the rows that the database returns for the resolved locations; the limits, the item filter and the date range of the request are not part of it.
- Text: trimming and lower-casing are those of ASCII text.
- HistoryEndpoint.HistoryIngestMetrics.RequestFinished: counters do not wrap; durations, timestamps and the snapshot's averages are left out.
- The price endpoint with its counters, which has the same shape with fewer counters, and price queries.
- The opportunities query, percentiles, calendars, accounts, profiles, data retention and migrations.

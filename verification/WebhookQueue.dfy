/**
 The leased queue of billing webhooks, as a system of workers over shared tables.

 Every step is one database transaction, one crash, or the passing of time. The processing
 call of a job runs under the job timeout, so that its transaction cannot commit later. Nothing
 bounds how long a worker takes to finalise a failure; where a result needs that, it says so.
 */
module WebhookQueue {
  import opened Wrappers
  import opened Billing
  import RetryDelay

  datatype QueueConfig = QueueConfig(
    billing: Config, jobTimeout: nat, lease: nat, maxAttempts: nat, retry: RetryDelay.RetryConfig)

  /** The ranges that configuration loading enforces. */
  predicate Configured(c: QueueConfig) {
    && RetryDelay.SECOND <= c.jobTimeout <= 300 * RetryDelay.SECOND
    && c.jobTimeout < c.lease <= 1800 * RetryDelay.SECOND
    && 1 <= c.maxAttempts <= 50
    && RetryDelay.Configured(c.retry)
  }

  type WorkerId = nat

  // ---------- Event rows ----------

  datatype EventStatus = Pending | Processing | Done(final: FinalStatus) | Failed | DeadLetter

  /** The payload is the body's webhook until it is erased. */
  datatype EventRow = EventRow(
    status: EventStatus, erased: bool, attempts: nat, lockedAt: Option<int>, lockedBy: Option<WorkerId>,
    nextAttemptAt: Option<int>, deadLetterAt: Option<int>, deliveries: nat, createdAt: int)

  type Events = map<Body, EventRow>

  function NewRow(now: int): EventRow {
    EventRow(Pending, false, 0, None, None, Some(now), None, 1, now)
  }

  /** A redelivery is counted, and makes a failed event due at once. */
  function Touched(row: EventRow, now: int): EventRow {
    row.(deliveries := row.deliveries + 1,
         nextAttemptAt := if row.status.Failed? then Some(Earlier(OrElse(row.nextAttemptAt, Some(now)).value, now))
                          else row.nextAttemptAt)
  }

  function Earlier(a: int, b: int): int {
    if a <= b then a else b
  }

  function Enqueued(events: Events, event: Body, now: int): Events {
    events[event := if event in events then Touched(events[event], now) else NewRow(now)]
  }

  // ---------- Claiming ----------

  function Due(row: EventRow): int {
    OrElse(row.nextAttemptAt, Some(row.createdAt)).value
  }

  predicate Claimable(c: QueueConfig, row: EventRow, now: int) {
    && row.attempts < c.maxAttempts
    && (((row.status.Pending? || row.status.Failed?) && Due(row) <= now)
        || (row.status.Processing? && row.lockedAt.Some? && row.lockedAt.value < now - c.lease))
  }

  /** Claims go by due time, then by creation time. */
  predicate NotAfter(row: EventRow, other: EventRow) {
    Due(row) < Due(other) || (Due(row) == Due(other) && row.createdAt <= other.createdAt)
  }

  predicate IsNext(c: QueueConfig, events: Events, event: Body, now: int) {
    && event in events && Claimable(c, events[event], now)
    && (forall e | e in events && Claimable(c, events[e], now) :: NotAfter(events[event], events[e]))
  }

  function Leased(row: EventRow, worker: WorkerId, now: int): EventRow {
    row.(status := Processing, attempts := row.attempts + 1, lockedAt := Some(now), lockedBy := Some(worker))
  }

  // ---------- Processing ----------

  function Finished(row: EventRow, final: FinalStatus): EventRow {
    row.(status := Done(final), nextAttemptAt := None, lockedAt := None, lockedBy := None, erased := true)
  }

  /** What the processing transaction returns: None for an event that was already processed,
      and otherwise the new tables with the final status. `full` says whether the job's
      payload was still there when it was claimed. */
  function Attempt(c: Config, events: Events, tables: Tables, event: Body, full: bool, now: int)
    : Result<Option<(Tables, FinalStatus)>, ProcessError>
  {
    if !full || !InScope(c, event.webhook) || event !in events then Err(Invalid)
    else if events[event].status.Done? then Ok(None)
    else
      var effect := Process(c, tables, event, now);
      if effect.Err? then Err(effect.error) else Ok(Some(effect.value))
  }

  /** The user lookup of the processing call reports any failure of its query as an invalid
      webhook, whatever the cause. It makes that query if the event names its user. */
  predicate LookupMayFail(c: Config, events: Events, event: Body, full: bool) {
    && full && InScope(c, event.webhook) && event in events && !events[event].status.Done?
    && !IsPayment(event.webhook) && event.webhook.user.Some?
  }

  // ---------- Finalising a failure ----------

  function FailedRow(row: EventRow, dead: bool, delay: int, now: int): EventRow {
    row.(status := if dead then DeadLetter else Failed,
         nextAttemptAt := if dead then None else Some(now + delay),
         deadLetterAt := if dead then Some(now) else None,
         lockedAt := None, lockedBy := None)
  }

  // ---------- The system ----------

  /** What a worker is doing. From Failing on, its processing call has returned an error. */
  datatype Worker =
    | Idle
    | Working(event: Body, full: bool, claimedAt: int)
    | Failing(event: Body, permanent: bool, claimedAt: int)
    | Finalizing(event: Body, dead: bool, delay: int, claimedAt: int)

  /** `committed` is history: the business effects in the order of their commits. */
  datatype System = System(
    events: Events, tables: Tables, workers: map<WorkerId, Worker>, now: int, committed: seq<Arrival>)

  function WorkerOf(s: System, w: WorkerId): Worker {
    if w in s.workers then s.workers[w] else Idle
  }

  datatype Step =
    | Enqueue(event: Body)
    | Claim(worker: WorkerId, event: Body)
    | Commit(worker: WorkerId)
    | CommitUnacknowledged(worker: WorkerId)
    | Fail(worker: WorkerId, error: ProcessError)
    | ReadAttempts(worker: WorkerId, digestByte: nat)
    | WriteFailure(worker: WorkerId)
    | Crash(worker: WorkerId)
    | Tick(duration: nat)

  function AttemptBy(c: QueueConfig, s: System, w: WorkerId): Result<Option<(Tables, FinalStatus)>, ProcessError>
    requires WorkerOf(s, w).Working?
  {
    Attempt(c.billing, s.events, s.tables, WorkerOf(s, w).event, WorkerOf(s, w).full, s.now)
  }

  /** The job timeout of the worker's processing call is not over. */
  predicate InTime(c: QueueConfig, s: System, w: WorkerId)
    requires WorkerOf(s, w).Working?
  {
    s.now <= WorkerOf(s, w).claimedAt + c.jobTimeout
  }

  predicate Enabled(c: QueueConfig, s: System, step: Step) {
    match step
    case Enqueue(event) => InScope(c.billing, event.webhook)
    case Claim(w, event) => WorkerOf(s, w).Idle? && IsNext(c, s.events, event, s.now)
    case Commit(w) => WorkerOf(s, w).Working? && InTime(c, s, w) && AttemptBy(c, s, w).Ok?
    case CommitUnacknowledged(w) => WorkerOf(s, w).Working? && InTime(c, s, w) && AttemptBy(c, s, w).Ok?
    case Fail(w, error) =>
      WorkerOf(s, w).Working? &&
      (error == Transient || AttemptBy(c, s, w) == Err(error)
       || LookupMayFail(c.billing, s.events, WorkerOf(s, w).event, WorkerOf(s, w).full))
    case ReadAttempts(w, _) => WorkerOf(s, w).Failing? && WorkerOf(s, w).event in s.events
    case WriteFailure(w) => WorkerOf(s, w).Finalizing? && WorkerOf(s, w).event in s.events
    case Crash(_) => true
    case Tick(_) => true
  }

  function Become(s: System, w: WorkerId, worker: Worker): System {
    s.(workers := s.workers[w := worker])
  }

  /** The database after the worker's processing transaction has committed. */
  function Committed(c: QueueConfig, s: System, w: WorkerId): System
    requires WorkerOf(s, w).Working? && AttemptBy(c, s, w).Ok?
  {
    var event, effect := WorkerOf(s, w).event, AttemptBy(c, s, w).value;
    if effect.None? then s
    else s.(events := s.events[event := Finished(s.events[event], effect.value.1)],
            tables := effect.value.0,
            committed := s.committed + [Arrival(event, s.now)])
  }

  function Next(c: QueueConfig, s: System, step: Step): System
    requires Enabled(c, s, step)
  {
    match step
    case Enqueue(event) => s.(events := Enqueued(s.events, event, s.now))
    case Claim(w, event) =>
      Become(s.(events := s.events[event := Leased(s.events[event], w, s.now)]), w,
             Working(event, !s.events[event].erased, s.now))
    case Commit(w) => Become(Committed(c, s, w), w, Idle)
    case CommitUnacknowledged(w) =>
      Become(Committed(c, s, w), w, Failing(WorkerOf(s, w).event, false, WorkerOf(s, w).claimedAt))
    case Fail(w, error) =>
      Become(s, w, Failing(WorkerOf(s, w).event, error == Invalid, WorkerOf(s, w).claimedAt))
    case ReadAttempts(w, digestByte) =>
      var Failing(event, permanent, claimedAt) := WorkerOf(s, w);
      var attempts := s.events[event].attempts;
      Become(s, w, Finalizing(event, permanent || attempts >= c.maxAttempts,
                              RetryDelay.Delay(c.retry, attempts, digestByte), claimedAt))
    case WriteFailure(w) =>
      var Finalizing(event, dead, delay, _) := WorkerOf(s, w);
      Become(s.(events := s.events[event := FailedRow(s.events[event], dead, delay, s.now)]), w, Idle)
    case Crash(w) => Become(s, w, Idle)
    case Tick(duration) => s.(now := s.now + duration)
  }

  // ---------- Runs ----------

  predicate Finalises(worker: Worker) {
    worker.Failing? || worker.Finalizing?
  }

  /** No worker that finalises a failure is beyond its lease. */
  ghost predicate WithinLeases(c: QueueConfig, s: System) {
    forall w | w in s.workers && Finalises(s.workers[w]) :: s.now <= s.workers[w].claimedAt + c.lease
  }

  ghost predicate Legal(c: QueueConfig, s: System, steps: seq<Step>)
    decreases |steps|
  {
    |steps| == 0 || (Enabled(c, s, steps[0]) && Legal(c, Next(c, s, steps[0]), steps[1..]))
  }

  ghost function After(c: QueueConfig, s: System, steps: seq<Step>): System
    requires Legal(c, s, steps)
    decreases |steps|
  {
    if |steps| == 0 then s else After(c, Next(c, s, steps[0]), steps[1..])
  }

  /** A legal run in which every worker that has to finalise a failure does so, or dies, before
      its lease expires. */
  ghost predicate Disciplined(c: QueueConfig, s: System, steps: seq<Step>)
    decreases |steps|
  {
    |steps| == 0 ||
    (Enabled(c, s, steps[0]) && WithinLeases(c, Next(c, s, steps[0])) &&
     Disciplined(c, Next(c, s, steps[0]), steps[1..]))
  }

  predicate Initial(s: System) {
    s.events == map[] && s.workers == map[] && s.committed == []
  }
}

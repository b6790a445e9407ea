/** The billing tables and the event queue, updated in place. */
module BillingDatabase {
  import opened Wrappers
  import opened Text
  import opened Billing
  import opened WebhookQueue
  import RetryDelay

  datatype EnqueueResult = Queued | Duplicate(status: EventStatus)

  datatype Job = Job(event: Body, full: bool)

  /** How the processing transaction ends: by its own logic, rolled back, with a failed query for
      the named user, or committed unseen. */
  datatype Fault = NoFault | RolledBack | LookupFails | AckLost

  /** Webhooks of the shop and its mode: a paid order of the plan, an invoice of a subscription, a new
      subscription to the plan, or a change of a subscription to any. */
  predicate Accepts(c: Config, w: Webhook) {
    var (a, plan) := (w.attributes, c.variantId);
    && Decimal(a.storeId) == c.storeId && a.testMode == c.testMode
    && (|| (w.kind.OrderCreated? && w.dataType == "orders" && a.status == "paid" && Decimal(a.firstItemVariantId) == plan)
        || (IsPayment(w) && w.dataType == "subscription-invoices" && a.subscriptionId > 0)
        || (w.kind.SubscriptionCreated? && w.dataType == "subscriptions" && Decimal(a.variantId) == plan)
        || (w.kind.SubscriptionChanged? && w.dataType == "subscriptions" && a.variantId > 0))
  }

  /** With an attempt left: due, or left behind by a worker whose lease is over. */
  predicate MayBeClaimed(c: QueueConfig, row: EventRow, now: int) {
    && row.attempts < c.maxAttempts
    && match row.status
       case Pending => OrElse(row.nextAttemptAt, Some(row.createdAt)).value <= now
       case Failed => OrElse(row.nextAttemptAt, Some(row.createdAt)).value <= now
       case Processing => row.lockedAt.Some? && row.lockedAt.value + c.lease < now
       case Done(_) => false
       case DeadLetter => false
  }

  class Database {
    const config: QueueConfig
    var events: Events
    var users: set<UserId>
    var orders: map<string, Order>
    var confirmed: map<string, Subscription>
    var provisional: map<string, Subscription>
    var outbox: Outbox
    /** The database clock. */
    var now: int
    ghost var workers: map<WorkerId, Worker>
    ghost var committed: seq<Arrival>

    function State(): Tables
      reads this
    {
      Tables(users, orders, confirmed, provisional, outbox)
    }

    ghost function Sys(): System
      reads this
    {
      System(events, State(), workers, now, committed)
    }

    constructor (config: QueueConfig, users: set<UserId>, now: int)
      ensures Initial(Sys()) && this.config == config && this.users == users && this.now == now
    {
      this.config, this.users, this.now := config, users, now;
      events, orders, confirmed, provisional, outbox := map[], map[], map[], map[], map[];
      workers, committed := map[], [];
    }

    method Pass(duration: nat)
      modifies this`now
      ensures now == old(now) + duration && State() == old(State())
      ensures Enabled(config, old(Sys()), Tick(duration)) && Sys() == Next(config, old(Sys()), Tick(duration))
    {
      now := now + duration;
    }

    // ---------- The queue ----------

    method EnqueueWebhook(event: Body) returns (result: Result<EnqueueResult, ProcessError>)
      modifies this`events
      ensures result.Err? <==> !InScope(config.billing, event.webhook)
      ensures result.Err? ==> result.error == Invalid && events == old(events)
      ensures result.Err? <==> !Accepts(config.billing, event.webhook)
      ensures result.Ok? ==> events == Enqueued(old(events), event, now) && events.Keys == old(events.Keys) + {event}
      ensures forall e | e in old(events) && e != event :: events[e] == old(events)[e]
      ensures result.Ok? && event !in old(events) ==>
                events[event] == EventRow(Pending, false, 0, None, None, Some(now), None, 1, now)
      ensures result.Ok? && event in old(events) ==>
                var (was, row) := (old(events)[event], events[event]);
                && row.(deliveries := was.deliveries, nextAttemptAt := was.nextAttemptAt) == was
                && row.deliveries == was.deliveries + 1
                && (!was.status.Failed? ==> row.nextAttemptAt == was.nextAttemptAt)
                && (was.status.Failed? ==>
                      && row.nextAttemptAt.Some? && row.nextAttemptAt.value <= now
                      && (row.nextAttemptAt == Some(now) || row.nextAttemptAt == was.nextAttemptAt)
                      && (was.nextAttemptAt.Some? ==> row.nextAttemptAt.value <= was.nextAttemptAt.value))
      ensures result.Ok? ==>
                result.value == if event in old(events) then Duplicate(old(events)[event].status) else Queued
    {
      if !InScope(config.billing, event.webhook) {
        return Err(Invalid);
      }
      if event !in events {
        events := events[event := NewRow(now)];
        return Ok(Queued);
      }
      var row := events[event];
      var due := row.nextAttemptAt;
      if row.status.Failed? {
        due := Some(Earlier(OrElse(due, Some(now)).value, now));
      }
      events := events[event := row.(deliveries := row.deliveries + 1, nextAttemptAt := due)];
      return Ok(Duplicate(row.status));
    }

    /** The claimable event that comes first, if there is one. */
    method Candidate() returns (candidate: Option<Body>)
      ensures candidate.None? <==> forall e | e in events :: !Claimable(config, events[e], now)
      ensures candidate.Some? ==> IsNext(config, events, candidate.value, now)
      ensures candidate.Some? ==> MayBeClaimed(config, events[candidate.value], now)
      ensures forall e | e in events && MayBeClaimed(config, events[e], now) ::
                && candidate.Some?
                && var (row, other) := (events[candidate.value], events[e]);
                   var (due, otherDue) := (OrElse(row.nextAttemptAt, Some(row.createdAt)), OrElse(other.nextAttemptAt, Some(other.createdAt)));
                   due.value < otherDue.value || (due == otherDue && row.createdAt <= other.createdAt)
    {
      candidate := None;
      var todo := events.Keys;
      while todo != {}
        invariant todo <= events.Keys
        invariant candidate.None? ==> forall e | e in events && e !in todo :: !Claimable(config, events[e], now)
        invariant candidate.Some? ==>
            && candidate.value in events && Claimable(config, events[candidate.value], now)
            && (forall e | e in events && e !in todo && Claimable(config, events[e], now) ::
                  NotAfter(events[candidate.value], events[e]))
        decreases todo
      {
        var e :| e in todo;
        if Claimable(config, events[e], now) {
          if candidate.None? || !NotAfter(events[candidate.value], events[e]) {
            candidate := Some(e);
          }
        }
        todo := todo - {e};
      }
    }

    method Claim(worker: WorkerId) returns (job: Option<Job>)
      requires WorkerOf(Sys(), worker).Idle?
      modifies this`events, this`workers
      ensures job.None? ==>
                Sys() == old(Sys()) && forall e | e in events :: !Claimable(config, events[e], now)
      ensures job.Some? ==>
                && Enabled(config, old(Sys()), WebhookQueue.Claim(worker, job.value.event))
                && Sys() == Next(config, old(Sys()), WebhookQueue.Claim(worker, job.value.event))
                && WorkerOf(Sys(), worker) == Working(job.value.event, job.value.full, now)
                && job.value.event in old(events) && events.Keys == old(events.Keys)
                && var (was, row) := (old(events)[job.value.event], events[job.value.event]);
                   && MayBeClaimed(config, was, now) && job.value.full == !was.erased
                   && row.status.Processing? && row.attempts == was.attempts + 1 <= config.maxAttempts
                   && row.lockedAt == Some(now) && row.lockedBy == Some(worker)
                   && row.erased == was.erased && row.nextAttemptAt == was.nextAttemptAt
    {
      var candidate := Candidate();
      if candidate.None? {
        return None;
      }
      var event := candidate.value;
      var row := events[event];
      events := events[event := row.(status := Processing, attempts := row.attempts + 1,
                                     lockedAt := Some(now), lockedBy := Some(worker))];
      workers := workers[worker := Working(event, !row.erased, now)];
      return Some(Job(event, !row.erased));
    }

    // ---------- Business effects, inside the transaction of an event ----------

    method EnqueueNotification(user: UserId, event: Body)
      modifies this`outbox
      ensures outbox == Notified(old(outbox), event, user)
    {
      if event !in outbox {
        outbox := outbox[event := user];
      }
    }

    method ProcessOrder(event: Body) returns (result: Result<FinalStatus, ProcessError>)
      modifies this`orders, this`provisional, this`outbox
      ensures Agrees(Billing.ProcessOrder(old(State()), event, now), State(), result)
    {
      var w := event.webhook;
      var user := ResolveUser(State(), w);
      if user.None? {
        return Err(Invalid);
      }
      var a := w.attributes;
      var updatedAt := OrElse(OrElse(a.updatedAt, a.createdAt), Some(now)).value;
      var row := Order(user.value, Decimal(a.customerId), Decimal(a.firstItemVariantId), a.status, Some(updatedAt));
      if w.dataId !in orders || !Newer(orders[w.dataId].updatedAt, row.updatedAt) {
        orders := orders[w.dataId := row];
      }
      if !OrderTaken(State(), w.dataId, None) {
        provisional := provisional[w.dataId := ProvisionalRow(w, user.value, updatedAt, now)];
      }
      EnqueueNotification(user.value, event);
      return Ok(Processed);
    }

    method ProcessPayment(event: Body) returns (result: Result<FinalStatus, ProcessError>)
      requires IsPayment(event.webhook)
      modifies this`confirmed, this`outbox
      ensures Agrees(Billing.ProcessPayment(config.billing, old(State()), event, now), State(), result)
    {
      var w := event.webhook;
      var id := Decimal(w.attributes.subscriptionId);
      if id !in confirmed {
        return Err(Transient);
      }
      var s := confirmed[id];
      var end := Max(OrElse(s.periodEnd, Some(now)).value, now);
      if w.kind.PaymentFailed? {
        confirmed := confirmed[id := s.(providerStatus := "past_due", status := PastDue,
                                        accessUntil := Some(end + config.billing.grace))];
      } else if w.kind.PaymentRecovered? {
        confirmed := confirmed[id := s.(providerStatus := "active", status := Active,
                                        accessUntil := Some(Max(OrElse(s.accessUntil, Some(now)).value, end)))];
      }
      EnqueueNotification(s.user, event);
      return Ok(Processed);
    }

    method ProcessSubscription(w: Webhook) returns (result: Result<FinalStatus, ProcessError>)
      modifies this`confirmed, this`provisional
      ensures Agrees(Billing.ProcessSubscription(config.billing, old(State()), w, now), State(), result)
    {
      var user := ResolveUser(State(), w);
      if user.None? {
        return Err(Invalid);
      }
      var a := w.attributes;
      var updatedAt := OrElse(a.updatedAt, Some(now)).value;
      var access := ResolveAccess(a, updatedAt, config.billing.grace);
      if access.None? {
        return Err(Invalid);
      }
      if a.orderId > 0 {
        provisional := provisional - {Decimal(a.orderId)};
      }
      result := UpsertSubscription(w.dataId, ProposedRow(config.billing, w, user.value, updatedAt, access.value, now));
    }

    method UpsertSubscription(id: string, row: Subscription) returns (result: Result<FinalStatus, ProcessError>)
      modifies this`confirmed
      ensures Agrees(Billing.UpsertSubscription(old(State()), id, row), State(), result)
    {
      var taken := row.order.Some? && OrderTaken(State(), row.order.value, Some(id));
      if !PeriodInOrder(row) {
        return Err(Transient);
      }
      if id !in confirmed {
        if taken {
          return Err(Transient);
        }
        confirmed := confirmed[id := row];
        return Ok(Processed);
      }
      var stored := confirmed[id];
      if Newer(stored.updatedAt, row.updatedAt) {
        return Ok(Ignored);
      }
      var merged := row.(periodStart := OrElse(row.periodStart, stored.periodStart), createdAt := stored.createdAt);
      if taken || !PeriodInOrder(merged) {
        return Err(Transient);
      }
      confirmed := confirmed[id := merged];
      return Ok(Processed);
    }

    /** The business effect of an event in scope. */
    method Dispatch(event: Body) returns (result: Result<FinalStatus, ProcessError>)
      requires InScope(config.billing, event.webhook)
      modifies this`orders, this`confirmed, this`provisional, this`outbox
      ensures Agrees(Process(config.billing, old(State()), event, now), State(), result)
    {
      var w := event.webhook;
      if w.kind.OrderCreated? {
        result := ProcessOrder(event);
      } else if IsPayment(w) {
        result := ProcessPayment(event);
      } else {
        result := ProcessSubscription(w);
      }
    }

    // ---------- The transaction of an event ----------

    /** The effect and the final status commit together, or nothing does. */
    method Transact(job: Job, deadline: int, fault: Fault) returns (result: Result<(), ProcessError>)
      modifies this`events, this`orders, this`confirmed, this`provisional, this`outbox, this`committed
      ensures result.Err? ==>
                && events == old(events) && State() == old(State()) && committed == old(committed)
                && (result.error == Transient
                    || Attempt(config.billing, old(events), old(State()), job.event, job.full, now) == Err(result.error)
                    || LookupMayFail(config.billing, old(events), job.event, job.full))
      ensures result.Ok? ==>
                && now <= deadline
                && var attempt := Attempt(config.billing, old(events), old(State()), job.event, job.full, now);
                   attempt.Ok? && IsAfter(attempt.value, job.event, old(events), old(State()), old(committed))
      ensures (fault == NoFault || fault == AckLost) && now <= deadline ==>
                var attempt := Attempt(config.billing, old(events), old(State()), job.event, job.full, now);
                (result.Ok? <==> attempt.Ok?) && (result.Err? ==> attempt == Err(result.error))
      ensures !job.full || !Accepts(config.billing, job.event.webhook) ==> result == Err(Invalid)
      ensures (fault == NoFault || fault == AckLost) && now <= deadline && job.full && Accepts(config.billing, job.event.webhook) ==>
                if job.event !in old(events) then result == Err(Invalid)
                else if old(events)[job.event].status.Done? then
                  result == Ok(()) && events == old(events) && State() == old(State()) && committed == old(committed)
                else
                  var effect := Process(config.billing, old(State()), job.event, now);
                  && (effect.Err? ==> result == Err(effect.error))
                  && (effect.Ok? ==> result == Ok(()) && State() == effect.value.0 && job.event in events
                                     && events[job.event].status == Done(effect.value.1) && events[job.event].erased)
      ensures fault == LookupFails && now <= deadline ==>
                LookupMayFail(config.billing, old(events), job.event, job.full) ==> result == Err(Invalid)
      ensures fault == RolledBack && job.full && InScope(config.billing, job.event.webhook) ==> result == Err(Transient)
    {
      if !job.full || !InScope(config.billing, job.event.webhook) {
        return Err(Invalid);
      }
      if fault == RolledBack || now > deadline {
        return Err(Transient);
      }
      if job.event !in events {
        return Err(Invalid);
      }
      if events[job.event].status.Done? {
        return Ok(());
      }
      if fault == LookupFails && !IsPayment(job.event.webhook) && job.event.webhook.user.Some? {
        return Err(Invalid);
      }
      var before := State();
      var effect := Dispatch(job.event);
      if effect.Err? {
        orders, confirmed, provisional, outbox := before.orders, before.confirmed, before.provisional, before.outbox;
        return Err(effect.error);
      }
      Finish(job.event, effect.value);
      committed := committed + [Arrival(job.event, now)];
      return Ok(());
    }

    /** The database after a transaction with this effect, in terms of what it was before. */
    ghost predicate IsAfter(effect: Option<(Tables, FinalStatus)>, event: Body, was: Events, tables: Tables, log: seq<Arrival>)
      reads this
    {
      if effect.None? then events == was && State() == tables && committed == log
      else
        && event in was && events == was[event := Finished(was[event], effect.value.1)]
        && State() == effect.value.0 && committed == log + [Arrival(event, now)]
    }

    /** The processing call of a worker: its transaction, and what the worker learns of it. */
    method ProcessWebhookEvent(worker: WorkerId, job: Job, deadline: int, fault: Fault)
      returns (result: Result<(), ProcessError>, ghost step: Step)
      requires WorkerOf(Sys(), worker).Working?
      requires WorkerOf(Sys(), worker).event == job.event && WorkerOf(Sys(), worker).full == job.full
      requires deadline == WorkerOf(Sys(), worker).claimedAt + config.jobTimeout
      modifies this
      ensures Enabled(config, old(Sys()), step) && Sys() == Next(config, old(Sys()), step)
      ensures result.Ok? ==> step == Commit(worker)
      ensures result.Err? ==>
                (WorkerOf(Sys(), worker)
                 == Failing(job.event, result.error == Invalid, WorkerOf(old(Sys()), worker).claimedAt))
      ensures events.Keys == old(events.Keys) && now == old(now)
      ensures result.Err? && fault != AckLost ==> events == old(events)
      ensures result.Ok? ==> job.event in events && events[job.event].status.Done?
      ensures fault == NoFault && now <= deadline ==>
                var attempt := Attempt(config.billing, old(events), old(State()), job.event, job.full, now);
                (result.Ok? <==> attempt.Ok?) && (result.Err? ==> attempt == Err(result.error))
      ensures fault == RolledBack && job.full && InScope(config.billing, job.event.webhook) ==> result == Err(Transient)
    {
      ghost var claimedAt := WorkerOf(Sys(), worker).claimedAt;
      result := Transact(job, deadline, fault);
      if result.Err? {
        step := Fail(worker, result.error);
        workers := workers[worker := Failing(job.event, result.error == Invalid, claimedAt)];
      } else if fault == AckLost {
        result, step := Err(Transient), CommitUnacknowledged(worker);
        workers := workers[worker := Failing(job.event, false, claimedAt)];
      } else {
        step := Commit(worker);
        workers := workers[worker := Idle];
      }
    }

    /** The final status and the erasure of the payload, in one update. */
    method Finish(event: Body, final: FinalStatus)
      requires event in events
      modifies this`events
      ensures events == old(events)[event := Finished(old(events)[event], final)]
      ensures var (was, row) := (old(events)[event], events[event]);
              && row.status == Done(final) && row.erased && row.nextAttemptAt.None? && row.lockedAt.None? && row.lockedBy.None?
              && row.attempts == was.attempts && row.deliveries == was.deliveries && row.createdAt == was.createdAt
    {
      events := events[event := events[event].(status := Done(final), nextAttemptAt := None,
                                               lockedAt := None, lockedBy := None, erased := true)];
    }

    // ---------- Failure ----------

    /** The first statement of finalising: whether the event is given up, and the delay otherwise. */
    method ReadAttempts(worker: WorkerId, event: Body, permanent: bool, digestByte: nat) returns (dead: bool, delay: int)
      requires event in events
      requires WorkerOf(Sys(), worker).Failing?
      requires WorkerOf(Sys(), worker).event == event && WorkerOf(Sys(), worker).permanent == permanent
      modifies this`workers
      ensures Enabled(config, old(Sys()), WebhookQueue.ReadAttempts(worker, digestByte))
      ensures Sys() == Next(config, old(Sys()), WebhookQueue.ReadAttempts(worker, digestByte))
      ensures WorkerOf(Sys(), worker) == Finalizing(event, dead, delay, WorkerOf(old(Sys()), worker).claimedAt)
    {
      var attempts := events[event].attempts;
      dead := permanent || attempts >= config.maxAttempts;
      delay := RetryDelay.Delay(config.retry, attempts, digestByte);
      workers := workers[worker := Finalizing(event, dead, delay, WorkerOf(Sys(), worker).claimedAt)];
    }

    /** The second statement. It checks neither the owner nor the status of the event. */
    method WriteFailure(worker: WorkerId, event: Body, dead: bool, delay: int)
      requires event in events
      requires WorkerOf(Sys(), worker).Finalizing? && WorkerOf(Sys(), worker).event == event
      requires WorkerOf(Sys(), worker).dead == dead && WorkerOf(Sys(), worker).delay == delay
      modifies this`events, this`workers
      ensures Enabled(config, old(Sys()), WebhookQueue.WriteFailure(worker))
      ensures Sys() == Next(config, old(Sys()), WebhookQueue.WriteFailure(worker))
    {
      var row := events[event];
      events := events[event := row.(
        status := if dead then DeadLetter else Failed,
        nextAttemptAt := if dead then None else Some(now + delay),
        deadLetterAt := if dead then Some(now) else None,
        lockedAt := None, lockedBy := None)];
      workers := workers[worker := Idle];
    }

    /** The worker drops its job without a trace in the database. */
    ghost method Drop(worker: WorkerId)
      modifies this`workers
      ensures Enabled(config, old(Sys()), Crash(worker)) && Sys() == Next(config, old(Sys()), Crash(worker))
    {
      workers := workers[worker := Idle];
    }
  }

  /** The transaction did what the effect says; after an error its changes are rolled back. */
  ghost predicate Agrees(effect: Effect, after: Tables, result: Result<FinalStatus, ProcessError>) {
    match effect
    case Ok((t, final)) => after == t && result == Ok(final)
    case Err(error) => result == Err(error)
  }
}

/** Safety of the webhook queue over whole runs. */
module QueueSafety {
  import opened Wrappers
  import opened Billing
  import opened WebhookQueue
  import BillingOrigins
  import BillingTheorems

  // ---------- The invariant under the lease discipline ----------

  ghost predicate WasCommitted(s: System, event: Body) {
    exists i :: 0 <= i < |s.committed| && s.committed[i].event == event
  }

  /** The worker is busy and its lease has not expired. */
  predicate Engaged(c: QueueConfig, s: System, worker: Worker) {
    !worker.Idle? && s.now <= worker.claimedAt + c.lease
  }

  /** An engaged worker's event is leased to it; only after its processing call has returned
      may the event be finished under it, when the acknowledgement was lost. */
  ghost predicate HoldsLease(s: System, worker: Worker)
    requires !worker.Idle?
  {
    && worker.event in s.events
    && var row := s.events[worker.event];
       && ((row.status.Processing? && row.lockedAt == Some(worker.claimedAt)) || (row.status.Done? && !worker.Working?))
       && (worker.Working? ==> worker.full == !row.erased)
  }

  ghost predicate Exclusive(c: QueueConfig, s: System) {
    && (forall w | w in s.workers && Engaged(c, s, s.workers[w]) :: HoldsLease(s, s.workers[w]))
    && (forall w, w' | w in s.workers && w' in s.workers && w != w' &&
                       Engaged(c, s, s.workers[w]) && Engaged(c, s, s.workers[w']) ::
          s.workers[w].event != s.workers[w'].event)
    && (forall e | e in s.events && s.events[e].status.Processing? :: s.events[e].lockedAt.Some?)
  }

  /** A payload is erased exactly when its effect has been committed. */
  ghost predicate ErasedIffCommitted(s: System) {
    && (forall e :: WasCommitted(s, e) ==> e in s.events)
    && (forall e | e in s.events :: s.events[e].erased <==> WasCommitted(s, e))
    && (forall e | e in s.events :: s.events[e].status.Done? ==> s.events[e].erased)
  }

  ghost predicate NoRepeats(s: System) {
    forall i, j | 0 <= i < j < |s.committed| :: s.committed[i].event != s.committed[j].event
  }

  ghost predicate Safe(c: QueueConfig, s: System) {
    Exclusive(c, s) && ErasedIffCommitted(s) && NoRepeats(s) && WithinLeases(c, s)
  }

  // ---------- Steps ----------

  lemma EnqueueKeepsSafe(c: QueueConfig, s: System, event: Body)
    requires Safe(c, s) && Enabled(c, s, Enqueue(event))
    ensures Safe(c, Next(c, s, Enqueue(event)))
  {
    var s' := Next(c, s, Enqueue(event));
    assert forall e :: WasCommitted(s', e) <==> WasCommitted(s, e);
  }

  lemma ClaimKeepsSafe(c: QueueConfig, s: System, w: WorkerId, event: Body)
    requires Safe(c, s) && Enabled(c, s, Claim(w, event))
    ensures Safe(c, Next(c, s, Claim(w, event)))
  {
    var s' := Next(c, s, Claim(w, event));
    forall v | v in s.workers && Engaged(c, s, s.workers[v]) ensures s.workers[v].event != event {
      assert HoldsLease(s, s.workers[v]);
    }
    assert forall e :: WasCommitted(s', e) <==> WasCommitted(s, e);
    forall v | v in s'.workers && Engaged(c, s', s'.workers[v]) ensures HoldsLease(s', s'.workers[v]) {
      if v != w {
        assert HoldsLease(s, s.workers[v]);
      }
    }
  }

  /** The commit itself, before the worker moves on. */
  lemma CommitOnce(c: QueueConfig, s: System, w: WorkerId)
    requires Configured(c) && Safe(c, s) && WorkerOf(s, w).Working? && InTime(c, s, w) && AttemptBy(c, s, w).Ok?
    ensures var (s', event) := (Committed(c, s, w), WorkerOf(s, w).event);
            && !WasCommitted(s, event)
            && ErasedIffCommitted(s') && NoRepeats(s')
            && s'.workers == s.workers && s'.now == s.now
            && s'.committed == s.committed + [Arrival(event, s.now)]
            && event in s'.events && s'.events[event].status.Done?
            && (forall e | e in s.events && e != event :: e in s'.events && s'.events[e] == s.events[e])
            && s'.events.Keys == s.events.Keys
  {
    var (s', event) := (Committed(c, s, w), WorkerOf(s, w).event);
    assert HoldsLease(s, s.workers[w]);
    forall e ensures WasCommitted(s', e) <==> WasCommitted(s, e) || e == event {
      if WasCommitted(s, e) {
        var i :| 0 <= i < |s.committed| && s.committed[i].event == e;
        assert s'.committed[i].event == e;
      }
      assert s'.committed[|s.committed|].event == event;
    }
    forall i | 0 <= i < |s.committed| ensures s.committed[i].event != event {
      assert WasCommitted(s, s.committed[i].event);
    }
  }

  lemma CommitKeepsSafe(c: QueueConfig, s: System, step: Step)
    requires Configured(c) && Safe(c, s) && Enabled(c, s, step) && (step.Commit? || step.CommitUnacknowledged?)
    ensures Safe(c, Next(c, s, step))
  {
    var Working(event, _, claimedAt) := WorkerOf(s, step.worker);
    CommitAndMoveKeepsSafe(c, s, step.worker, if step.Commit? then Idle else Failing(event, false, claimedAt));
  }

  lemma CommitAndMoveKeepsSafe(c: QueueConfig, s: System, w: WorkerId, next: Worker)
    requires Configured(c) && Safe(c, s) && WorkerOf(s, w).Working? && InTime(c, s, w) && AttemptBy(c, s, w).Ok?
    requires next == Idle || next == Failing(WorkerOf(s, w).event, false, WorkerOf(s, w).claimedAt)
    ensures Safe(c, Become(Committed(c, s, w), w, next))
  {
    var mid := Committed(c, s, w);
    CommitOnce(c, s, w);
    FinishingKeepsExclusive(c, s, mid, w, next);
    assert forall e :: WasCommitted(Become(mid, w, next), e) <==> WasCommitted(mid, e);
  }

  /** A worker whose event is finished hands it back, or moves on to its failure. */
  lemma FinishingKeepsExclusive(c: QueueConfig, s: System, mid: System, w: WorkerId, next: Worker)
    requires Exclusive(c, s) && w in s.workers && s.workers[w].Working? && Engaged(c, s, s.workers[w])
    requires next == Idle || next == Failing(s.workers[w].event, false, s.workers[w].claimedAt)
    requires mid.workers == s.workers && mid.now == s.now && mid.events.Keys == s.events.Keys
    requires s.workers[w].event in mid.events && mid.events[s.workers[w].event].status.Done?
    requires forall e | e in s.events && e != s.workers[w].event :: e in mid.events && mid.events[e] == s.events[e]
    ensures Exclusive(c, Become(mid, w, next))
  {
    var s' := Become(mid, w, next);
    forall v | v in s'.workers && Engaged(c, s', s'.workers[v]) ensures HoldsLease(s', s'.workers[v]) {
      if v != w {
        OthersHoldLeases(c, s, mid, w, v);
      }
    }
  }

  /** What happens to the event of one worker does not concern the others. */
  lemma OthersHoldLeases(c: QueueConfig, s: System, s': System, w: WorkerId, v: WorkerId)
    requires Exclusive(c, s) && v != w && v in s.workers && w in s.workers && Engaged(c, s, s.workers[v]) && Engaged(c, s, s.workers[w])
    requires forall e | e in s.events && e != s.workers[w].event :: e in s'.events && s'.events[e] == s.events[e]
    ensures HoldsLease(s', s.workers[v])
  {
    assert HoldsLease(s, s.workers[v]);
    assert s.workers[v].event != s.workers[w].event;
  }

  /** Steps that leave events and effects alone and pass a job on within its worker, or drop it. */
  lemma WorkerMoveKeepsSafe(c: QueueConfig, s: System, step: Step)
    requires Safe(c, s) && Enabled(c, s, step) && WithinLeases(c, Next(c, s, step)) && (step.Fail? || step.ReadAttempts? || step.Crash?)
    ensures Safe(c, Next(c, s, step))
  {
    var s' := Next(c, s, step);
    assert forall e :: WasCommitted(s', e) <==> WasCommitted(s, e);
    if Engaged(c, s, WorkerOf(s, step.worker)) {
      assert HoldsLease(s, s.workers[step.worker]);
    }
    forall v | v in s'.workers && Engaged(c, s', s'.workers[v]) ensures HoldsLease(s', s'.workers[v]) {
      if v != step.worker {
        assert HoldsLease(s, s.workers[v]);
      }
    }
  }

  lemma WriteFailureKeepsErasure(c: QueueConfig, s: System, w: WorkerId)
    requires ErasedIffCommitted(s) && Enabled(c, s, WriteFailure(w))
    ensures ErasedIffCommitted(Next(c, s, WriteFailure(w)))
  {
    var s' := Next(c, s, WriteFailure(w));
    assert forall e :: WasCommitted(s', e) <==> WasCommitted(s, e);
  }

  lemma WriteFailureKeepsSafe(c: QueueConfig, s: System, w: WorkerId)
    requires Safe(c, s) && Enabled(c, s, WriteFailure(w))
    ensures Safe(c, Next(c, s, WriteFailure(w)))
  {
    var s' := Next(c, s, WriteFailure(w));
    WriteFailureKeepsErasure(c, s, w);
    forall v | v in s'.workers && Engaged(c, s', s'.workers[v]) ensures HoldsLease(s', s'.workers[v]) {
      OthersHoldLeases(c, s, s', w, v);
    }
  }

  lemma NextKeepsSafe(c: QueueConfig, s: System, step: Step)
    requires Configured(c) && Safe(c, s) && Enabled(c, s, step) && WithinLeases(c, Next(c, s, step))
    ensures Safe(c, Next(c, s, step))
  {
    match step
    case Enqueue(event) => EnqueueKeepsSafe(c, s, event);
    case Claim(w, event) => ClaimKeepsSafe(c, s, w, event);
    case Commit(_) => CommitKeepsSafe(c, s, step);
    case CommitUnacknowledged(_) => CommitKeepsSafe(c, s, step);
    case Fail(_, _) => WorkerMoveKeepsSafe(c, s, step);
    case ReadAttempts(_, _) => WorkerMoveKeepsSafe(c, s, step);
    case WriteFailure(w) => WriteFailureKeepsSafe(c, s, w);
    case Crash(_) => WorkerMoveKeepsSafe(c, s, step);
    case Tick(_) =>
      var s' := Next(c, s, step);
      assert forall e :: WasCommitted(s', e) <==> WasCommitted(s, e);
      forall v | v in s'.workers && Engaged(c, s', s'.workers[v]) ensures HoldsLease(s', s'.workers[v]) {
        assert HoldsLease(s, s.workers[v]);
      }
  }

  lemma {:induction false} DisciplinedRunIsSafe(c: QueueConfig, s: System, steps: seq<Step>)
    requires Configured(c) && Safe(c, s) && Disciplined(c, s, steps)
    ensures Legal(c, s, steps) && Safe(c, After(c, s, steps))
    decreases |steps|
  {
    if |steps| > 0 {
      NextKeepsSafe(c, s, steps[0]);
      DisciplinedRunIsSafe(c, Next(c, s, steps[0]), steps[1..]);
    }
  }

  // ---------- At most once ----------

  /**
   In every run in which workers that finalise a failure do so, or die, before their leases expire,
   with any number of redeliveries, retries, crashes and lost acknowledgements, the business effect
   of a webhook body commits at most once, and an erased payload is never processed. Processing
   itself needs no such assumption, because the job timeout ends it before the lease.
   */
  lemma EffectAtMostOnce(c: QueueConfig, s: System, steps: seq<Step>)
    requires Configured(c) && Initial(s) && Disciplined(c, s, steps)
    ensures Legal(c, s, steps)
    ensures NoRepeats(After(c, s, steps))
    ensures forall e | e in After(c, s, steps).events ::
              After(c, s, steps).events[e].erased <==> WasCommitted(After(c, s, steps), e)
  {
    DisciplinedRunIsSafe(c, s, steps);
  }

  // ---------- The tables are those of the committed effects ----------

  /** A billing run whose transactions all succeed. */
  ghost predicate AllSucceed(c: Config, t: Tables, log: seq<Arrival>) {
    forall i | 0 <= i < |log| :: Succeeds(c, t, log, i)
  }

  predicate Succeeds(c: Config, t: Tables, log: seq<Arrival>, i: nat)
    requires i < |log|
  {
    Process(c, Billing.Run(c, t, log[..i]), log[i].event, log[i].at).Ok?
  }

  lemma CommitAppliesEffect(c: QueueConfig, s: System, w: WorkerId)
    requires WorkerOf(s, w).Working? && AttemptBy(c, s, w).Ok?
    ensures var (s', a) := (Committed(c, s, w), Arrival(WorkerOf(s, w).event, s.now));
            || (s'.tables == s.tables && s'.committed == s.committed)
            || (Process(c.billing, s.tables, a.event, a.at).Ok? &&
                s'.tables == Apply(c.billing, s.tables, a) && s'.committed == s.committed + [a])
  {}

  lemma AppendSucceeding(c: Config, t: Tables, log: seq<Arrival>, a: Arrival)
    requires AllSucceed(c, t, log) && Process(c, Billing.Run(c, t, log), a.event, a.at).Ok?
    ensures AllSucceed(c, t, log + [a])
    ensures Billing.Run(c, t, log + [a]) == Apply(c, Billing.Run(c, t, log), a)
  {
    var log' := log + [a];
    assert log'[..|log|] == log;
    forall i | 0 <= i < |log'| ensures Succeeds(c, t, log', i) {
      if i < |log| {
        assert log'[..i] == log[..i];
        assert Succeeds(c, t, log, i);
      }
    }
  }

  lemma NextAppliesCommitted(c: QueueConfig, t: Tables, s: System, step: Step)
    requires Enabled(c, s, step)
    requires s.tables == Billing.Run(c.billing, t, s.committed) && AllSucceed(c.billing, t, s.committed)
    ensures var s' := Next(c, s, step);
            s'.tables == Billing.Run(c.billing, t, s'.committed) && AllSucceed(c.billing, t, s'.committed)
  {
    if step.Commit? || step.CommitUnacknowledged? {
      CommitAppliesEffect(c, s, step.worker);
      var a := Arrival(WorkerOf(s, step.worker).event, s.now);
      if Process(c.billing, s.tables, a.event, a.at).Ok? {
        AppendSucceeding(c.billing, t, s.committed, a);
      }
    }
  }

  /** With or without the lease discipline, orders, subscriptions and outbox are always those of
      processing the committed events one after the other. */
  lemma {:induction false} TablesAreCommittedEffects(c: QueueConfig, t: Tables, s: System, steps: seq<Step>)
    requires Legal(c, s, steps)
    requires s.tables == Billing.Run(c.billing, t, s.committed) && AllSucceed(c.billing, t, s.committed)
    ensures var s' := After(c, s, steps);
            s'.tables == Billing.Run(c.billing, t, s'.committed) && AllSucceed(c.billing, t, s'.committed)
    decreases |steps|
  {
    if |steps| > 0 {
      NextAppliesCommitted(c, t, s, steps[0]);
      TablesAreCommittedEffects(c, t, Next(c, s, steps[0]), steps[1..]);
    }
  }

  /** So the billing invariants hold in every reachable state. */
  lemma ReachableTablesAreSound(c: QueueConfig, s: System, steps: seq<Step>)
    requires Initial(s) && Legal(c, s, steps) && BillingTheorems.Sound(c.billing, s.tables)
    ensures BillingTheorems.Sound(c.billing, After(c, s, steps).tables)
  {
    TablesAreCommittedEffects(c, s.tables, s, steps);
    BillingTheorems.RunKeepsSound(c.billing, s.tables, After(c, s, steps).committed);
  }

  /** And every subscription comes from a committed event, and every grant from a committed order. */
  lemma ReachableRowsHaveOrigins(c: QueueConfig, s: System, steps: seq<Step>)
    requires Initial(s) && Legal(c, s, steps) && s.tables.confirmed == map[] && s.tables.provisional == map[]
    ensures BillingOrigins.AllHaveOrigins(c.billing, After(c, s, steps).committed, After(c, s, steps).tables)
  {
    TablesAreCommittedEffects(c, s.tables, s, steps);
    BillingOrigins.RowsHaveOrigins(c.billing, s.tables, After(c, s, steps).committed);
  }

  /** The events among these that are notified of: orders and payments. */
  function Notifying(log: seq<Arrival>): set<Body> {
    set i | 0 <= i < |log| && (log[i].event.webhook.kind.OrderCreated? || IsPayment(log[i].event.webhook)) :: log[i].event
  }

  lemma NotifyingOneMore(log: seq<Arrival>)
    requires |log| > 0
    ensures var last := log[|log| - 1].event;
            Notifying(log) == Notifying(log[..|log| - 1]) +
              (if last.webhook.kind.OrderCreated? || IsPayment(last.webhook) then {last} else {})
  {
    var n := |log| - 1;
    forall e | e in Notifying(log[..n]) ensures e in Notifying(log) {
      var i :| 0 <= i < n && log[..n][i].event == e;
      assert log[i].event == e;
    }
    forall e | e in Notifying(log) && e != log[n].event ensures e in Notifying(log[..n]) {
      var i :| 0 <= i < |log| && log[i].event == e;
      assert log[..n][i].event == e;
    }
  }

  lemma SucceedsInPrefix(c: Config, t: Tables, log: seq<Arrival>, i: nat, n: nat)
    requires i < n <= |log| && Succeeds(c, t, log, i)
    ensures Succeeds(c, t, log[..n], i)
  {
    assert log[..n][..i] == log[..i];
  }

  lemma EarlierSucceed(c: Config, t: Tables, log: seq<Arrival>)
    requires AllSucceed(c, t, log) && |log| > 0
    ensures AllSucceed(c, t, log[..|log| - 1])
    ensures Process(c, Billing.Run(c, t, log[..|log| - 1]), log[|log| - 1].event, log[|log| - 1].at).Ok?
  {
    var n := |log| - 1;
    forall i | 0 <= i < n ensures Succeeds(c, t, log[..n], i) {
      SucceedsInPrefix(c, t, log, i, n);
    }
    assert Succeeds(c, t, log, n);
  }

  lemma ProcessNotifies(c: Config, t: Tables, event: Body, now: int)
    requires Process(c, t, event, now).Ok?
    ensures Process(c, t, event, now).value.0.outbox.Keys ==
              t.outbox.Keys + if event.webhook.kind.OrderCreated? || IsPayment(event.webhook) then {event} else {}
  {}

  /** An effect and its notification commit together: there is one notification for each order or
      payment event that was committed, however often, and none for any other event. */
  lemma {:induction false} OutboxIsOfCommittedEvents(c: Config, t: Tables, log: seq<Arrival>)
    requires AllSucceed(c, t, log)
    ensures Billing.Run(c, t, log).outbox.Keys == t.outbox.Keys + Notifying(log)
  {
    if |log| > 0 {
      var n := |log| - 1;
      EarlierSucceed(c, t, log);
      OutboxIsOfCommittedEvents(c, t, log[..n]);
      NotifyingOneMore(log);
      ProcessNotifies(c, Billing.Run(c, t, log[..n]), log[n].event, log[n].at);
    }
  }

  // ---------- Attempts ----------

  ghost predicate AttemptsBounded(c: QueueConfig, s: System) {
    forall e | e in s.events :: s.events[e].attempts <= c.maxAttempts
  }

  lemma {:induction false} AttemptsNeverExceedMaximum(c: QueueConfig, s: System, steps: seq<Step>)
    requires Legal(c, s, steps) && AttemptsBounded(c, s)
    ensures AttemptsBounded(c, After(c, s, steps))
    decreases |steps|
  {
    if |steps| > 0 {
      AttemptsNeverExceedMaximum(c, Next(c, s, steps[0]), steps[1..]);
    }
  }
}

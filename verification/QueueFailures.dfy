/** What becomes of an event whose attempt failed: a retry in time, or the dead letters. */
module QueueFailures {
  import opened Wrappers
  import opened Billing
  import opened WebhookQueue
  import opened QueueRuns
  import opened QueueSafety
  import opened QueueRecovery
  import RetryDelay

  // ---------- The row after a failure ----------

  /** A failure finalised at `now`: the event is given up if the failure is permanent or its attempts are
      used up; otherwise it is due again after its backoff. */
  predicate IsFinalised(c: QueueConfig, was: EventRow, row: EventRow, permanent: bool, now: int) {
    && row.attempts == was.attempts && row.deliveries == was.deliveries
    && row.erased == was.erased && row.createdAt == was.createdAt
    && row.lockedAt.None? && row.lockedBy.None?
    && if permanent || was.attempts >= c.maxAttempts then
         row.status.DeadLetter? && row.deadLetterAt == Some(now) && row.nextAttemptAt.None?
       else
         && row.status.Failed? && row.deadLetterAt.None? && row.nextAttemptAt.Some?
         && now + RetryDelay.Backoff(c.retry, was.attempts) <= row.nextAttemptAt.value <= now + c.retry.maxDelay
  }

  /** Both statements of finalising, one after the other. */
  lemma FailureIsFinalised(c: QueueConfig, s: System, w: WorkerId, digestByte: nat)
    requires Configured(c) && Enabled(c, s, ReadAttempts(w, digestByte))
    ensures var (event, permanent) := (WorkerOf(s, w).event, WorkerOf(s, w).permanent);
            var s1 := Next(c, s, ReadAttempts(w, digestByte));
            && Enabled(c, s1, WriteFailure(w))
            && var s2 := Next(c, s1, WriteFailure(w));
               && s2.events.Keys == s.events.Keys && s2.tables == s.tables && WorkerOf(s2, w).Idle?
               && IsFinalised(c, s.events[event], s2.events[event], permanent, s.now)
               && forall e | e in s.events && e != event :: s2.events[e] == s.events[e]
  {
    RetryDelay.DelayIsJitteredBackoff(c.retry, s.events[WorkerOf(s, w).event].attempts, digestByte);
  }

  // ---------- Retries are possible ----------

  /** Every event that is to be retried has an attempt left, and so has every one that is about to be. */
  ghost predicate RetriesArePossible(c: QueueConfig, s: System) {
    && (forall e | e in s.events && s.events[e].status.Failed? :: s.events[e].attempts < c.maxAttempts)
    && (forall w | w in s.workers && s.workers[w].Finalizing? && !s.workers[w].dead ::
          s.workers[w].event in s.events && s.events[s.workers[w].event].attempts < c.maxAttempts)
  }

  /** No worker is about to schedule a retry of the event. */
  ghost predicate NoneRetries(s: System, event: Body) {
    forall w | w in s.workers && s.workers[w].Finalizing? && !s.workers[w].dead :: s.workers[w].event != event
  }

  lemma NextKeepsRetries(c: QueueConfig, s: System, step: Step)
    requires RetriesArePossible(c, s) && Enabled(c, s, step) && (step.Claim? ==> NoneRetries(s, step.event))
    ensures RetriesArePossible(c, Next(c, s, step))
  {}

  /** Under the lease discipline, nobody takes an event over from a worker that finalises. */
  lemma ClaimedIsNotRetried(c: QueueConfig, s: System, step: Step)
    requires Safe(c, s) && Enabled(c, s, step) && step.Claim?
    ensures NoneRetries(s, step.event)
  {
    forall w | w in s.workers && s.workers[w].Finalizing? && !s.workers[w].dead ensures s.workers[w].event != step.event {
      assert Engaged(c, s, s.workers[w]) && HoldsLease(s, s.workers[w]);
    }
  }

  lemma {:induction false} DisciplinedKeepsRetries(c: QueueConfig, s: System, steps: seq<Step>)
    requires Configured(c) && Safe(c, s) && RetriesArePossible(c, s) && Disciplined(c, s, steps)
    ensures Legal(c, s, steps) && RetriesArePossible(c, After(c, s, steps))
    decreases |steps|
  {
    if |steps| > 0 {
      NextKeepsSafe(c, s, steps[0]);
      if steps[0].Claim? {
        ClaimedIsNotRetried(c, s, steps[0]);
      }
      NextKeepsRetries(c, s, steps[0]);
      DisciplinedKeepsRetries(c, Next(c, s, steps[0]), steps[1..]);
    }
  }

  /** In every disciplined run, an event that failed has an attempt left: used-up attempts always end in
      the dead letters. */
  lemma NoFailedEventIsUsedUp(c: QueueConfig, s: System, steps: seq<Step>, event: Body)
    requires Configured(c) && Initial(s) && Disciplined(c, s, steps)
    ensures Legal(c, s, steps)
    ensures event in After(c, s, steps).events && After(c, s, steps).events[event].status.Failed? ==>
              After(c, s, steps).events[event].attempts < c.maxAttempts
  {
    DisciplinedKeepsRetries(c, s, steps);
  }

  // ---------- Without the lease discipline ----------

  /** Busy workers belong to W, and their events were claimed. */
  ghost predicate HeldWereClaimed(s: System, W: set<WorkerId>) {
    forall w | w in s.workers && !s.workers[w].Idle? ::
      w in W && s.workers[w].event in s.events && s.events[s.workers[w].event].attempts >= 1
  }

  lemma {:induction false} FewKeepRetries(c: QueueConfig, s: System, W: set<WorkerId>, steps: seq<Step>)
    requires Configured(c) && (Alone(W) || c.maxAttempts == 1)
    requires RetriesArePossible(c, s) && HeldWereClaimed(s, W) && Legal(c, s, steps) && AllTakenBy(steps, W)
    ensures RetriesArePossible(c, After(c, s, steps))
    decreases |steps|
  {
    if |steps| > 0 {
      RestIsTaken(steps, W);
      NextKeepsRetries(c, s, steps[0]);
      NextKeepsClaimed(c, s, W, steps[0]);
      FewKeepRetries(c, Next(c, s, steps[0]), W, steps[1..]);
    }
  }

  lemma NextKeepsClaimed(c: QueueConfig, s: System, W: set<WorkerId>, step: Step)
    requires HeldWereClaimed(s, W) && Enabled(c, s, step) && TakenBy(step, W)
    ensures HeldWereClaimed(Next(c, s, step), W)
  {
    var s' := Next(c, s, step);
    forall e | e in s.events ensures e in s'.events && s.events[e].attempts <= s'.events[e].attempts {}
  }

  /** The event failed with its attempts used up: it is neither claimed again nor dead-lettered. */
  predicate IsStuck(c: QueueConfig, s: System, event: Body) {
    event in s.events && s.events[event].status.Failed? && s.events[event].attempts >= c.maxAttempts
  }

  ghost predicate StuckAfter(c: QueueConfig, s: System, steps: seq<Step>, event: Body, W: set<WorkerId>) {
    && Legal(c, s, steps) && AllTakenBy(steps, W)
    && IsStuck(c, After(c, s, steps), event) && Abandoned(After(c, s, steps), event)
  }

  lemma PrependStuck(c: QueueConfig, s: System, step: Step, event: Body, W: set<WorkerId>)
    requires Enabled(c, s, step) && TakenBy(step, W) && exists steps :: StuckAfter(c, Next(c, s, step), steps, event, W)
    ensures exists steps :: StuckAfter(c, s, steps, event, W)
  {
    var steps :| StuckAfter(c, Next(c, s, step), steps, event, W);
    Prepend(c, s, step, steps);
    assert StuckAfter(c, s, [step] + steps, event, W);
  }

  /** Worker a is about to schedule a retry of the only event; nobody else is busy. */
  ghost predicate AboutToRetry(s: System, event: Body, a: WorkerId) {
    && s.events.Keys == {event}
    && WorkerOf(s, a).Finalizing? && WorkerOf(s, a).event == event && !WorkerOf(s, a).dead
    && forall w | w != a :: WorkerOf(s, w).Idle?
  }

  lemma LateRetryIsStuck(c: QueueConfig, s: System, event: Body, a: WorkerId, W: set<WorkerId>)
    requires AboutToRetry(s, event, a) && s.events[event].attempts >= c.maxAttempts && a in W
    ensures exists steps :: StuckAfter(c, s, steps, event, W)
  {
    var s' := Next(c, s, WriteFailure(a));
    forall w | w in s'.workers ensures s'.workers[w].Idle? {
      assert w != a ==> WorkerOf(s, w).Idle?;
    }
    assert Legal(c, s', []) && StuckAfter(c, s', [], event, W);
    PrependStuck(c, s, WriteFailure(a), event, W);
  }

  /** Another worker uses up the attempts by crashing in each; then the late retry is written. */
  lemma {:induction false} CrashesUseUp(c: QueueConfig, s: System, event: Body, a: WorkerId, b: WorkerId, W: set<WorkerId>)
    requires AboutToRetry(s, event, a) && Claimable(c, s.events[event], s.now) && a != b && a in W && b in W
    ensures exists steps :: StuckAfter(c, s, steps, event, W)
    decreases c.maxAttempts - s.events[event].attempts
  {
    assert IsNext(c, s.events, event, s.now);
    var s1 := Next(c, s, Claim(b, event));
    var s2 := Next(c, s1, Crash(b));
    forall w | w != a ensures WorkerOf(s2, w).Idle? {
      assert w != b ==> WorkerOf(s2, w) == WorkerOf(s, w);
    }
    if s2.events[event].attempts < c.maxAttempts {
      var s3 := Next(c, s2, Tick(c.lease + 1));
      forall w | w != a ensures WorkerOf(s3, w).Idle? {
        assert WorkerOf(s3, w) == WorkerOf(s2, w);
      }
      CrashesUseUp(c, s3, event, a, b, W);
      PrependStuck(c, s2, Tick(c.lease + 1), event, W);
    } else {
      LateRetryIsStuck(c, s2, event, a, W);
    }
    PrependStuck(c, s1, Crash(b), event, W);
    PrependStuck(c, s, Claim(b, event), event, W);
  }

  /** The only event was claimed for the first time, by the only busy worker, whose lease is over. */
  ghost predicate FirstOverrun(c: QueueConfig, s: System, event: Body, a: WorkerId) {
    && s.events == map[event := Leased(NewRow(s.now), a, s.now)]
    && s.workers == map[a := Working(event, true, s.now)]
  }

  lemma OverrunGetsStuck(c: QueueConfig, s: System, event: Body, a: WorkerId, b: WorkerId, W: set<WorkerId>)
    requires Configured(c) && c.maxAttempts >= 2 && a != b && a in W && b in W && FirstOverrun(c, s, event, a)
    ensures exists steps :: StuckAfter(c, s, steps, event, W)
  {
    var s1 := Next(c, s, Fail(a, Transient));
    var s2 := Next(c, s1, ReadAttempts(a, 0));
    CrashesUseUp(c, Next(c, s2, Tick(c.lease + 1)), event, a, b, W);
    PrependStuck(c, s2, Tick(c.lease + 1), event, W);
    PrependStuck(c, s1, ReadAttempts(a, 0), event, W);
    PrependStuck(c, s, Fail(a, Transient), event, W);
  }

  lemma TwoWorkersGetStuck(c: QueueConfig, s: System, event: Body, a: WorkerId, b: WorkerId, W: set<WorkerId>)
    requires Configured(c) && c.maxAttempts >= 2 && InScope(c.billing, event.webhook) && Initial(s)
    requires a != b && a in W && b in W
    ensures exists steps :: StuckAfter(c, s, steps, event, W)
  {
    var s1 := Next(c, s, Enqueue(event));
    assert s1.events == map[event := NewRow(s.now)];
    assert IsNext(c, s1.events, event, s.now);
    var s2 := Next(c, s1, Claim(a, event));
    assert s2.events == map[event := Leased(NewRow(s.now), a, s.now)];
    OverrunGetsStuck(c, s2, event, a, b, W);
    PrependStuck(c, s1, Claim(a, event), event, W);
    PrependStuck(c, s, Enqueue(event), event, W);
  }

  /** In no run of these workers does an event fail with its attempts used up. */
  ghost predicate NeverStuck(c: QueueConfig, W: set<WorkerId>) {
    forall s, steps, event | Initial(s) && Legal(c, s, steps) && AllTakenBy(steps, W) ::
      !IsStuck(c, After(c, s, steps), event)
  }

  /** Without any lease discipline, used-up attempts end in the dead letters in all runs iff there is only
      one worker or a single attempt. */
  lemma NeverStuckIff(c: QueueConfig, W: set<WorkerId>, event: Body)
    requires Configured(c) && InScope(c.billing, event.webhook)
    ensures NeverStuck(c, W) <==> (forall a, b | a in W && b in W :: a == b) || c.maxAttempts == 1
  {
    if Alone(W) || c.maxAttempts == 1 {
      forall s, steps, e | Initial(s) && Legal(c, s, steps) && AllTakenBy(steps, W)
        ensures !IsStuck(c, After(c, s, steps), e)
      {
        FewKeepRetries(c, s, W, steps);
      }
    } else {
      var a, b :| a in W && b in W && a != b;
      var s := System(map[], Tables({}, map[], map[], map[], map[]), map[], 0, []);
      TwoWorkersGetStuck(c, s, event, a, b, W);
      var steps :| StuckAfter(c, s, steps, event, W);
    }
  }

  /** A stuck event that nobody works on stays stuck for ever; redeliveries do not help. */
  lemma {:induction false} StuckForEver(c: QueueConfig, s: System, steps: seq<Step>, event: Body)
    requires Legal(c, s, steps) && IsStuck(c, s, event) && Abandoned(s, event)
    ensures IsStuck(c, After(c, s, steps), event) && Abandoned(After(c, s, steps), event)
    decreases |steps|
  {
    if |steps| > 0 {
      StuckForEver(c, Next(c, s, steps[0]), steps[1..], event);
    }
  }

  // ---------- Retries wait ----------

  predicate NeverRedelivered(steps: seq<Step>, event: Body) {
    forall i | 0 <= i < |steps| :: steps[i] != Enqueue(event)
  }

  lemma {:induction false} TimePasses(c: QueueConfig, s: System, steps: seq<Step>)
    requires Legal(c, s, steps)
    ensures s.now <= After(c, s, steps).now
    decreases |steps|
  {
    if |steps| > 0 {
      TimePasses(c, Next(c, s, steps[0]), steps[1..]);
    }
  }

  /** An event that failed, and that nobody works on, is left alone in every run until its delay is over,
      unless it is delivered again. */
  lemma {:induction false} RetryWaits(c: QueueConfig, s: System, steps: seq<Step>, event: Body, due: int)
    requires Legal(c, s, steps) && Abandoned(s, event) && NeverRedelivered(steps, event)
    requires event in s.events && s.events[event].status.Failed? && s.events[event].nextAttemptAt == Some(due)
    requires After(c, s, steps).now < due
    ensures event in After(c, s, steps).events && After(c, s, steps).events[event] == s.events[event]
    ensures Abandoned(After(c, s, steps), event)
    decreases |steps|
  {
    if |steps| > 0 {
      TimePasses(c, Next(c, s, steps[0]), steps[1..]);
      RetryWaits(c, Next(c, s, steps[0]), steps[1..], event, due);
    }
  }
}

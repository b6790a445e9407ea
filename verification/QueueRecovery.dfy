/** What becomes of an event after a crash or a transient fault. */
module QueueRecovery {
  import opened Wrappers
  import opened Billing
  import opened WebhookQueue
  import opened QueueRuns

  // ---------- Crashes ----------

  ghost predicate Abandoned(s: System, event: Body) {
    forall w | w in s.workers && !s.workers[w].Idle? :: s.workers[w].event != event
  }

  /** Leased for the last time, and the worker is gone. */
  ghost predicate Stranded(c: QueueConfig, s: System, event: Body) {
    && event in s.events
    && s.events[event].status.Processing? && s.events[event].attempts >= c.maxAttempts
    && Abandoned(s, event)
  }

  /** A stranded event stays in processing for ever: it is never claimed, finished, failed or
      dead-lettered again, and redeliveries only count. */
  lemma {:induction false} StrandedForEver(c: QueueConfig, s: System, steps: seq<Step>, event: Body)
    requires Legal(c, s, steps) && Stranded(c, s, event)
    ensures var s' := After(c, s, steps);
            && Stranded(c, s', event)
            && s'.events[event].(deliveries := 0) == s.events[event].(deliveries := 0)
    decreases |steps|
  {
    if |steps| > 0 {
      StrandedForEver(c, Next(c, s, steps[0]), steps[1..], event);
    }
  }

  ghost predicate ClaimableAfter(c: QueueConfig, s: System, steps: seq<Step>, event: Body) {
    Legal(c, s, steps) &&
    var s' := After(c, s, steps);
    event in s'.events && Claimable(c, s'.events[event], s'.now)
  }

  /** The event of a worker that crashes while it holds the lease alone can be claimed again iff it
      has attempts left. */
  lemma CrashIsRecoveredIff(c: QueueConfig, s: System, w: WorkerId)
    requires !WorkerOf(s, w).Idle? && WorkerOf(s, w).event in s.events
    requires forall v | v in s.workers && v != w && !s.workers[v].Idle? :: s.workers[v].event != WorkerOf(s, w).event
    requires var row := s.events[WorkerOf(s, w).event]; row.status.Processing? && row.lockedAt.Some?
    ensures var event := WorkerOf(s, w).event;
            (exists steps :: ClaimableAfter(c, Next(c, s, Crash(w)), steps, event))
            <==> s.events[event].attempts < c.maxAttempts
  {
    var event, s' := WorkerOf(s, w).event, Next(c, s, Crash(w));
    if s.events[event].attempts < c.maxAttempts {
      LeaseExpires(c, s', event);
    } else {
      forall steps | Legal(c, s', steps) ensures !ClaimableAfter(c, s', steps, event) {
        StrandedForEver(c, s', steps, event);
      }
    }
  }

  /** Waiting long enough makes a leased event claimable. */
  lemma LeaseExpires(c: QueueConfig, s: System, event: Body)
    requires event in s.events && s.events[event].status.Processing? && s.events[event].lockedAt.Some?
    requires s.events[event].attempts < c.maxAttempts
    ensures exists steps :: ClaimableAfter(c, s, steps, event)
  {
    var expiry := s.events[event].lockedAt.value + c.lease + 1;
    var wait := Tick(if expiry > s.now then expiry - s.now else 0);
    assert Legal(c, Next(c, s, wait), []);
    Prepend(c, s, wait, []);
    assert ClaimableAfter(c, s, [wait] + [], event);
  }

  ghost predicate StrandedAfter(c: QueueConfig, s: System, steps: seq<Step>, event: Body) {
    Legal(c, s, steps) && Stranded(c, After(c, s, steps), event)
  }

  lemma PrependStranding(c: QueueConfig, s: System, step: Step, event: Body)
    requires Enabled(c, s, step) && exists steps :: StrandedAfter(c, Next(c, s, step), steps, event)
    ensures exists steps :: StrandedAfter(c, s, steps, event)
  {
    var steps :| StrandedAfter(c, Next(c, s, step), steps, event);
    Prepend(c, s, step, steps);
    assert StrandedAfter(c, s, [step] + steps, event);
  }

  /** The only event is claimable, and nobody works on it. */
  ghost predicate Offered(c: QueueConfig, s: System, event: Body) {
    s.events.Keys == {event} && Claimable(c, s.events[event], s.now) && forall w :: WorkerOf(s, w).Idle?
  }

  /** A worker that crashes in every attempt strands the event with the last one. */
  lemma {:induction false} CrashesStrand(c: QueueConfig, s: System, w: WorkerId, event: Body)
    requires Offered(c, s, event)
    ensures exists steps :: StrandedAfter(c, s, steps, event)
    decreases c.maxAttempts - s.events[event].attempts
  {
    assert IsNext(c, s.events, event, s.now);
    var s1 := Next(c, s, Claim(w, event));
    var s2 := Next(c, s1, Crash(w));
    forall v ensures WorkerOf(s2, v).Idle? {
      assert v != w ==> WorkerOf(s2, v) == WorkerOf(s, v);
    }
    forall v | v in s2.workers ensures s2.workers[v].Idle? {
      assert WorkerOf(s2, v).Idle?;
    }
    if s2.events[event].attempts < c.maxAttempts {
      CrashesStrand(c, Next(c, s2, Tick(c.lease + 1)), w, event);
      PrependStranding(c, s2, Tick(c.lease + 1), event);
    } else {
      assert Legal(c, s2, []) && StrandedAfter(c, s2, [], event);
    }
    PrependStranding(c, s1, Crash(w), event);
    PrependStranding(c, s, Claim(w, event), event);
  }

  /** In every configuration, every event in scope can be stranded, from every initial state. */
  lemma StrandingIsReachable(c: QueueConfig, s: System, w: WorkerId, event: Body)
    requires Configured(c) && Initial(s) && InScope(c.billing, event.webhook)
    ensures exists steps :: StrandedAfter(c, s, steps, event)
  {
    var s1 := Next(c, s, Enqueue(event));
    assert s1.events == map[event := NewRow(s.now)];
    CrashesStrand(c, s1, w, event);
    PrependStranding(c, s, Enqueue(event), event);
  }

  // ---------- Transient faults that look permanent ----------

  /** Given up, and in nobody's hands. */
  ghost predicate GivenUp(s: System, event: Body) {
    event in s.events && s.events[event].status.DeadLetter? && Abandoned(s, event)
  }

  /** A dead-lettered event stays so; redeliveries do not revive it. */
  lemma {:induction false} GivenUpForEver(c: QueueConfig, s: System, steps: seq<Step>, event: Body)
    requires Legal(c, s, steps) && GivenUp(s, event)
    ensures GivenUp(After(c, s, steps), event)
    decreases |steps|
  {
    if |steps| > 0 {
      GivenUpForEver(c, Next(c, s, steps[0]), steps[1..], event);
    }
  }

  /** The event names a user whom its processing looks up. */
  predicate LooksUpUser(event: Body) {
    !IsPayment(event.webhook) && event.webhook.user.Some?
  }

  function LookupFault(event: Body, w: WorkerId): seq<Step> {
    [Enqueue(event)] + ([Claim(w, event)] + ([Fail(w, Invalid)] + ([ReadAttempts(w, 0)] + [WriteFailure(w)])))
  }

  /** In the run, no processing call fails for good because its own transaction does: whenever an
      attempt at the event with its payload ends as invalid, that is a fault of the environment. */
  ghost predicate NeverInvalid(c: QueueConfig, s: System, steps: seq<Step>, event: Body)
    requires Legal(c, s, steps)
    decreases |steps|
  {
    |steps| > 0 ==>
      && !(steps[0].Fail? && WorkerOf(s, steps[0].worker).event == event && WorkerOf(s, steps[0].worker).full
           && AttemptBy(c, s, steps[0].worker) == Err(Invalid))
      && NeverInvalid(c, Next(c, s, steps[0]), steps[1..], event)
  }

  lemma {:induction false} PrependHealthy(c: QueueConfig, s: System, step: Step, steps: seq<Step>, event: Body)
    requires Enabled(c, s, step) && Legal(c, Next(c, s, step), steps) && NeverInvalid(c, Next(c, s, step), steps, event)
    requires step.Fail? ==> AttemptBy(c, s, step.worker).Ok?
    ensures Legal(c, s, [step] + steps) && NeverInvalid(c, s, [step] + steps, event)
    ensures After(c, s, [step] + steps) == After(c, Next(c, s, step), steps)
  {
    Prepend(c, s, step, steps);
    assert ([step] + steps)[1..] == steps;
  }

  /** One transient fault in the user lookup of its first attempt gives an event up, although its
      transaction would succeed, and whatever the number of attempts that are configured. */
  lemma LookupFaultGivesUp(c: QueueConfig, s: System, event: Body, w: WorkerId)
    requires Configured(c) && Initial(s) && InScope(c.billing, event.webhook) && LooksUpUser(event)
    requires Process(c.billing, s.tables, event, s.now).Ok?
    ensures var steps := LookupFault(event, w);
            && Legal(c, s, steps) && NeverInvalid(c, s, steps, event)
            && GivenUp(After(c, s, steps), event)
            && After(c, s, steps).events[event].attempts == 1 && !After(c, s, steps).events[event].erased
  {
    var s1 := Next(c, s, Enqueue(event));
    assert s1.events == map[event := NewRow(s.now)];
    assert IsNext(c, s1.events, event, s.now);
    var s2 := Next(c, s1, Claim(w, event));
    assert s2.workers == map[w := Working(event, true, s.now)];
    var s3 := Next(c, s2, Fail(w, Invalid));
    LateStepsGiveUp(c, s3, event, w);
    var rest := [ReadAttempts(w, 0)] + [WriteFailure(w)];
    PrependHealthy(c, s2, Fail(w, Invalid), rest, event);
    PrependHealthy(c, s1, Claim(w, event), [Fail(w, Invalid)] + rest, event);
    PrependHealthy(c, s, Enqueue(event), [Claim(w, event)] + ([Fail(w, Invalid)] + rest), event);
  }

  lemma LateStepsGiveUp(c: QueueConfig, s: System, event: Body, w: WorkerId)
    requires Configured(c) && event in s.events && s.events[event].attempts == 1 && !s.events[event].erased
    requires s.workers == map[w := Failing(event, true, s.now)]
    ensures var steps := [ReadAttempts(w, 0)] + [WriteFailure(w)];
            && Legal(c, s, steps) && NeverInvalid(c, s, steps, event) && GivenUp(After(c, s, steps), event)
            && After(c, s, steps).events[event].attempts == 1 && !After(c, s, steps).events[event].erased
  {
    var s1 := Next(c, s, ReadAttempts(w, 0));
    var s2 := Next(c, s1, WriteFailure(w));
    assert s2.workers == map[w := Idle] && Legal(c, s2, []);
    PrependHealthy(c, s1, WriteFailure(w), [], event);
    assert [WriteFailure(w)] + [] == [WriteFailure(w)];
    PrependHealthy(c, s, ReadAttempts(w, 0), [WriteFailure(w)], event);
  }

  // ---------- Which events can be given up before their time ----------

  /** Dead-lettered with attempts left, and with the payload still there: its effect never committed. */
  ghost predicate GivenUpEarly(c: QueueConfig, s: System, event: Body) {
    && event in s.events && s.events[event].status.DeadLetter?
    && s.events[event].attempts < c.maxAttempts && !s.events[event].erased
  }

  /** Giving the event up is justified: its effect was committed, or its attempts are used up. */
  predicate MayGiveUp(c: QueueConfig, row: EventRow) {
    row.erased || row.attempts >= c.maxAttempts
  }

  /** Whoever is about to give the event up may do so. */
  ghost predicate OnlyJustified(c: QueueConfig, s: System, event: Body) {
    && (forall w | w in s.workers && !s.workers[w].Idle? && s.workers[w].event == event ::
          && event in s.events
          && (s.workers[w].Working? && !s.workers[w].full ==> s.events[event].erased)
          && (s.workers[w].Failing? && s.workers[w].permanent ==> s.events[event].erased)
          && (s.workers[w].Finalizing? && s.workers[w].dead ==> MayGiveUp(c, s.events[event])))
    && (event in s.events && s.events[event].status.DeadLetter? ==> MayGiveUp(c, s.events[event]))
  }

  lemma NextKeepsJustified(c: QueueConfig, s: System, step: Step, event: Body)
    requires InScope(c.billing, event.webhook) && !LooksUpUser(event) && OnlyJustified(c, s, event) && Enabled(c, s, step)
    requires !(step.Fail? && WorkerOf(s, step.worker).event == event && WorkerOf(s, step.worker).full
               && AttemptBy(c, s, step.worker) == Err(Invalid))
    ensures OnlyJustified(c, Next(c, s, step), event)
  {
    var s' := Next(c, s, step);
    if event in s.events {
      assert event in s'.events && (s.events[event].erased ==> s'.events[event].erased)
             && s.events[event].attempts <= s'.events[event].attempts;
    }
  }

  lemma {:induction false} RunKeepsJustified(c: QueueConfig, s: System, steps: seq<Step>, event: Body)
    requires InScope(c.billing, event.webhook) && !LooksUpUser(event) && OnlyJustified(c, s, event)
    requires Legal(c, s, steps) && NeverInvalid(c, s, steps, event)
    ensures OnlyJustified(c, After(c, s, steps), event)
    decreases |steps|
  {
    if |steps| > 0 {
      NextKeepsJustified(c, s, steps[0], event);
      RunKeepsJustified(c, Next(c, s, steps[0]), steps[1..], event);
    }
  }

  /** In no run whose attempts at the event are never invalid by themselves is it given up early. */
  ghost predicate NeverGivenUpEarly(c: QueueConfig, event: Body) {
    forall s, steps | Initial(s) && Legal(c, s, steps) && NeverInvalid(c, s, steps, event) ::
      !GivenUpEarly(c, After(c, s, steps), event)
  }

  /** Healthy events, in all runs, are given up only when their attempts are used up (or their effect
      has been committed) iff their processing does not look up a named user. */
  lemma HealthyEventFailsForGoodIff(c: QueueConfig, event: Body, t: Tables, now: int)
    requires Configured(c) && c.maxAttempts >= 2 && InScope(c.billing, event.webhook)
    requires Process(c.billing, t, event, now).Ok?
    ensures NeverGivenUpEarly(c, event) <==> IsPayment(event.webhook) || event.webhook.user.None?
  {
    if LooksUpUser(event) {
      var s := System(map[], t, map[], now, []);
      LookupFaultGivesUp(c, s, event, 0);
      assert GivenUpEarly(c, After(c, s, LookupFault(event, 0)), event);
    } else {
      forall s, steps | Initial(s) && Legal(c, s, steps) && NeverInvalid(c, s, steps, event)
        ensures !GivenUpEarly(c, After(c, s, steps), event)
      {
        RunKeepsJustified(c, s, steps, event);
      }
    }
  }
}

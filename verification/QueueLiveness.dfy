/** No starvation: how many claims can go to other events before a due one is claimed. */
module QueueLiveness {
  import opened Wrappers
  import opened Billing
  import opened WebhookQueue
  import opened QueueSafety
  import RetryDelay

  // ---------- Sums over sets of events ----------

  /** The attempts that are left to these events. */
  ghost function Left(c: QueueConfig, events: Events, ids: set<Body>): nat
    requires ids <= events.Keys && forall e | e in ids :: events[e].attempts <= c.maxAttempts
  {
    if ids == {} then 0
    else
      var e :| e in ids;
      c.maxAttempts - events[e].attempts + Left(c, events, ids - {e})
  }

  lemma {:induction false} LeftOfRemoved(c: QueueConfig, events: Events, ids: set<Body>, e: Body)
    requires ids <= events.Keys && (forall e | e in ids :: events[e].attempts <= c.maxAttempts) && e in ids
    ensures Left(c, events, ids) == c.maxAttempts - events[e].attempts + Left(c, events, ids - {e})
    decreases ids
  {
    var d :| d in ids && Left(c, events, ids) == c.maxAttempts - events[d].attempts + Left(c, events, ids - {d});
    if d != e {
      LeftOfRemoved(c, events, ids - {d}, e);
      LeftOfRemoved(c, events, ids - {e}, d);
      assert ids - {d} - {e} == ids - {e} - {d};
    }
  }

  /** Fewer events with no fewer attempts behind them have no more attempts left. */
  lemma {:induction false} LeftIsMonotone(c: QueueConfig, events: Events, events': Events, ids: set<Body>, ids': set<Body>)
    requires ids <= events.Keys && (forall e | e in ids :: events[e].attempts <= c.maxAttempts)
    requires ids' <= ids && ids' <= events'.Keys
    requires forall e | e in ids' :: events[e].attempts <= events'[e].attempts <= c.maxAttempts
    ensures Left(c, events', ids') <= Left(c, events, ids)
    decreases ids
  {
    if ids != {} {
      var e :| e in ids;
      LeftOfRemoved(c, events, ids, e);
      if e in ids' {
        LeftOfRemoved(c, events', ids', e);
        LeftIsMonotone(c, events, events', ids - {e}, ids' - {e});
      } else {
        LeftIsMonotone(c, events, events', ids - {e}, ids');
      }
    }
  }

  // ---------- Waiting ----------

  /** Due since before now, and with attempts left. */
  predicate Waiting(c: QueueConfig, s: System, event: Body) {
    && event in s.events
    && (s.events[event].status.Pending? || s.events[event].status.Failed?)
    && s.events[event].attempts < c.maxAttempts
    && Due(s.events[event]) < s.now
  }

  /** The event may still be claimed, now or later. */
  predicate Live(c: QueueConfig, row: EventRow) {
    row.attempts < c.maxAttempts && (row.status.Pending? || row.status.Failed? || row.status.Processing?)
  }

  /** The live events that a claim may prefer to this one. */
  ghost function Ahead(c: QueueConfig, s: System, event: Body): set<Body>
    requires event in s.events
  {
    set e | e in s.events && e != event && Live(c, s.events[e]) && NotAfter(s.events[e], s.events[event])
  }

  ghost function Delay(c: QueueConfig, s: System, event: Body): nat
    requires event in s.events
  {
    Left(c, s.events, Ahead(c, s, event))
  }

  /** Retries lie in the future when they are scheduled, and every failed event has one. */
  ghost predicate Scheduled(s: System) {
    && (forall w | w in s.workers && s.workers[w].Finalizing? :: s.workers[w].delay >= 0)
    && (forall e | e in s.events && s.events[e].status.Failed? :: s.events[e].nextAttemptAt.Some?)
  }

  lemma NextKeepsScheduled(c: QueueConfig, s: System, step: Step)
    requires Configured(c) && Scheduled(s) && Enabled(c, s, step)
    ensures Scheduled(Next(c, s, step))
  {
    if step.ReadAttempts? {
      var attempts := s.events[WorkerOf(s, step.worker).event].attempts;
      RetryDelay.DelayIsJitteredBackoff(c.retry, attempts, step.digestByte);
    }
  }

  /** A waiting event is in no engaged worker's hands. */
  lemma WaitingIsNotHeld(c: QueueConfig, s: System, event: Body, w: WorkerId)
    requires Safe(c, s) && Waiting(c, s, event) && w in s.workers && Engaged(c, s, s.workers[w])
    ensures s.workers[w].event != event
  {
    assert HoldsLease(s, s.workers[w]);
  }

  // ---------- One step ----------

  predicate ClaimsOther(step: Step, event: Body) {
    step.Claim? && step.event != event
  }

  /** The row an event may have after a step. */
  ghost predicate RowMoves(c: QueueConfig, row: EventRow, row': EventRow, now: int) {
    || row' == row
    || row' == Touched(row, now)
    || (Claimable(c, row, now) && exists w :: row' == Leased(row, w, now))
    || (exists final :: row' == Finished(row, final))
    || (exists dead, delay :: delay >= 0 && row' == FailedRow(row, dead, delay, now))
  }

  lemma NextMovesRow(c: QueueConfig, s: System, step: Step, e: Body)
    requires Scheduled(s) && Enabled(c, s, step) && e in s.events
    ensures e in Next(c, s, step).events && RowMoves(c, s.events[e], Next(c, s, step).events[e], s.now)
  {
    match step
    case Claim(w, event) =>
      if event == e { assert Next(c, s, step).events[e] == Leased(s.events[e], w, s.now); }
    case WriteFailure(w) =>
      if WorkerOf(s, w).event == e {
        assert Next(c, s, step).events[e] == FailedRow(s.events[e], WorkerOf(s, w).dead, WorkerOf(s, w).delay, s.now);
      }
    case _ =>
  }

  /** No step moves a row in front of a key that is already due. */
  lemma RowNeverMovesAhead(c: QueueConfig, row: EventRow, row': EventRow, target: EventRow, now: int)
    requires RowMoves(c, row, row', now) && Due(target) < now
    ensures row.attempts <= row'.attempts
    ensures Live(c, row') && NotAfter(row', target) ==> Live(c, row) && NotAfter(row, target)
  {}

  /** The step ends some worker's work on the event. */
  predicate EndsWorkOn(s: System, step: Step, event: Body) {
    (step.Commit? || step.CommitUnacknowledged? || step.WriteFailure?)
    && !WorkerOf(s, step.worker).Idle? && WorkerOf(s, step.worker).event == event
  }

  /** A step that neither claims a waiting event nor ends anybody's work on it. */
  predicate LeavesAlone(s: System, step: Step, event: Body) {
    (step.Claim? ==> step.event != event) && !EndsWorkOn(s, step, event)
  }

  /** A waiting event's own row changes only by redeliveries, which do not delay it. */
  lemma WaitingRowStays(c: QueueConfig, s: System, step: Step, event: Body)
    requires Scheduled(s) && Waiting(c, s, event) && Enabled(c, s, step) && LeavesAlone(s, step, event)
    ensures var s' := Next(c, s, step);
            && event in s'.events && s'.events[event].(deliveries := 0) == s.events[event].(deliveries := 0)
            && s.now <= s'.now
  {}

  /** Nothing gets ahead of a waiting event, it stays waiting, and no attempts come back. */
  lemma NothingGetsAhead(c: QueueConfig, s: System, step: Step, event: Body)
    requires Scheduled(s) && Waiting(c, s, event) && Enabled(c, s, step) && LeavesAlone(s, step, event)
    ensures var s' := Next(c, s, step);
            && Waiting(c, s', event) && Ahead(c, s', event) <= Ahead(c, s, event)
            && (forall e | e in s.events :: e in s'.events && s.events[e].attempts <= s'.events[e].attempts)
  {
    var s' := Next(c, s, step);
    WaitingRowStays(c, s, step, event);
    forall e | e in s.events
      ensures e in s'.events && s.events[e].attempts <= s'.events[e].attempts
      ensures Live(c, s'.events[e]) && NotAfter(s'.events[e], s.events[event]) ==>
                Live(c, s.events[e]) && NotAfter(s.events[e], s.events[event])
    {
      NextMovesRow(c, s, step, e);
      RowNeverMovesAhead(c, s.events[e], s'.events[e], s.events[event], s.now);
    }
    forall e | e in Ahead(c, s', event) ensures e in Ahead(c, s, event) {
      if e !in s.events {
        NewRowIsNotAhead(c, s, step, e);
      }
    }
  }

  lemma NewRowIsNotAhead(c: QueueConfig, s: System, step: Step, e: Body)
    requires Enabled(c, s, step) && e !in s.events && e in Next(c, s, step).events
    ensures Due(Next(c, s, step).events[e]) == s.now
  {}

  lemma ClaimOfOtherIsAhead(c: QueueConfig, s: System, step: Step, event: Body)
    requires Waiting(c, s, event) && Enabled(c, s, step) && ClaimsOther(step, event)
    ensures step.event in Ahead(c, s, event)
  {
    assert Claimable(c, s.events[event], s.now);
  }

  /** Every claim of another event uses up one of the attempts ahead; no step adds any. */
  lemma StepUsesAttempts(c: QueueConfig, s: System, step: Step, event: Body)
    requires Scheduled(s) && Waiting(c, s, event) && Enabled(c, s, step) && LeavesAlone(s, step, event)
    ensures Waiting(c, Next(c, s, step), event)
    ensures Delay(c, Next(c, s, step), event) + (if step.Claim? then 1 else 0) <= Delay(c, s, event)
  {
    var s' := Next(c, s, step);
    NothingGetsAhead(c, s, step, event);
    var (ids, ids') := (Ahead(c, s, event), Ahead(c, s', event));
    if step.Claim? {
      ClaimOfOtherIsAhead(c, s, step, event);
      assert s'.events[step.event].attempts == s.events[step.event].attempts + 1;
      UsedAttemptIsGone(c, s.events, s'.events, ids, ids', step.event);
    } else {
      LeftIsMonotone(c, s.events, s'.events, ids, ids');
    }
  }

  /** Under the lease discipline, nobody has work on a waiting event to end. */
  lemma WaitingIsLeftAlone(c: QueueConfig, s: System, step: Step, event: Body)
    requires Configured(c) && Safe(c, s) && Waiting(c, s, event)
    requires Enabled(c, s, step) && (step.Claim? ==> step.event != event)
    ensures LeavesAlone(s, step, event)
  {
    if step.Commit? || step.CommitUnacknowledged? || step.WriteFailure? {
      WaitingIsNotHeld(c, s, event, step.worker);
    }
  }

  lemma UsedAttemptIsGone(c: QueueConfig, events: Events, events': Events, ids: set<Body>, ids': set<Body>, e: Body)
    requires ids <= events.Keys && forall d | d in ids :: events[d].attempts < c.maxAttempts
    requires ids' <= ids && ids' <= events'.Keys && e in ids
    requires forall d | d in ids' :: events[d].attempts <= events'[d].attempts < c.maxAttempts
    requires e in ids' ==> events'[e].attempts == events[e].attempts + 1
    ensures Left(c, events', ids') + 1 <= Left(c, events, ids)
  {
    LeftOfRemoved(c, events, ids, e);
    LeftIsMonotone(c, events, events', ids - {e}, ids' - {e});
    if e in ids' {
      LeftOfRemoved(c, events', ids', e);
    } else {
      assert ids' - {e} == ids';
    }
  }

  // ---------- Runs ----------

  function Claims(steps: seq<Step>): nat {
    if |steps| == 0 then 0 else (if steps[0].Claim? then 1 else 0) + Claims(steps[1..])
  }

  predicate NeverClaims(steps: seq<Step>, event: Body) {
    forall i | 0 <= i < |steps| && steps[i].Claim? :: steps[i].event != event
  }

  /**
   No starvation. As long as a waiting event has not been claimed, it stays waiting, and the
   claims so far are at most the attempts that were left to the events ahead of it at the start.
   */
  lemma {:induction false} ClaimedAfterBoundedClaims(c: QueueConfig, s: System, steps: seq<Step>, event: Body)
    requires Configured(c) && Safe(c, s) && Scheduled(s) && Waiting(c, s, event)
    requires Disciplined(c, s, steps) && NeverClaims(steps, event)
    ensures Legal(c, s, steps) && Waiting(c, After(c, s, steps), event)
    ensures Claims(steps) + Delay(c, After(c, s, steps), event) <= Delay(c, s, event)
    decreases |steps|
  {
    if |steps| > 0 {
      var s' := Next(c, s, steps[0]);
      NextKeepsSafe(c, s, steps[0]);
      NextKeepsScheduled(c, s, steps[0]);
      WaitingIsLeftAlone(c, s, steps[0], event);
      StepUsesAttempts(c, s, steps[0], event);
      forall i | 0 <= i < |steps[1..]| && steps[1..][i].Claim? ensures steps[1..][i].event != event {
        assert steps[1..][i] == steps[i + 1];
      }
      ClaimedAfterBoundedClaims(c, s', steps[1..], event);
    }
  }

  lemma {:induction false} RunKeepsScheduled(c: QueueConfig, s: System, steps: seq<Step>)
    requires Configured(c) && Scheduled(s) && Legal(c, s, steps)
    ensures Scheduled(After(c, s, steps))
    decreases |steps|
  {
    if |steps| > 0 {
      NextKeepsScheduled(c, s, steps[0]);
      RunKeepsScheduled(c, Next(c, s, steps[0]), steps[1..]);
    }
  }

  /** The same from any state that a disciplined run reaches. */
  lemma NoStarvation(c: QueueConfig, start: System, before: seq<Step>, steps: seq<Step>, event: Body)
    requires Configured(c) && Initial(start) && Disciplined(c, start, before) && Legal(c, start, before)
    requires var s := After(c, start, before);
             Waiting(c, s, event) && Disciplined(c, s, steps) && NeverClaims(steps, event)
    ensures AttemptsBounded(c, After(c, start, before))
    ensures Claims(steps) <= Delay(c, After(c, start, before), event)
  {
    DisciplinedRunIsSafe(c, start, before);
    RunKeepsScheduled(c, start, before);
    AttemptsNeverExceedMaximum(c, start, before);
    ClaimedAfterBoundedClaims(c, After(c, start, before), steps, event);
  }

  // ---------- A claim is always possible ----------

  lemma {:induction false} FirstOf(events: Events, ids: set<Body>)
    requires ids != {} && ids <= events.Keys
    ensures exists e :: e in ids && forall d | d in ids :: NotAfter(events[e], events[d])
    decreases ids
  {
    var e :| e in ids;
    if ids - {e} != {} {
      FirstOf(events, ids - {e});
      var d :| d in ids - {e} && forall x | x in ids - {e} :: NotAfter(events[d], events[x]);
      var first := if NotAfter(events[e], events[d]) then e else d;
      forall x | x in ids ensures NotAfter(events[first], events[x]) {}
    } else {
      assert ids == {e};
    }
  }

  /** While an event waits, every idle worker's claim finds an event; when nothing is left ahead,
      it finds this one. */
  lemma IdleWorkerCanClaim(c: QueueConfig, s: System, w: WorkerId, event: Body)
    requires Waiting(c, s, event) && WorkerOf(s, w).Idle?
    ensures exists e :: Enabled(c, s, Claim(w, e))
    ensures Ahead(c, s, event) == {} ==> forall e | Enabled(c, s, Claim(w, e)) :: e == event
  {
    var ids := set e | e in s.events && Claimable(c, s.events[e], s.now);
    assert event in ids;
    FirstOf(s.events, ids);
    var e :| e in ids && forall d | d in ids :: NotAfter(s.events[e], s.events[d]);
    assert Enabled(c, s, Claim(w, e));
    forall e | Enabled(c, s, Claim(w, e)) && e != event ensures e in Ahead(c, s, event) {
      assert ClaimsOther(Claim(w, e), event);
      ClaimOfOtherIsAhead(c, s, Claim(w, e), event);
    }
  }
}

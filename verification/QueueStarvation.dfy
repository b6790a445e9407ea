/** When a waiting event can be passed over beyond the bound, without any lease discipline. */
module QueueStarvation {
  import opened Wrappers
  import opened Billing
  import opened WebhookQueue
  import opened QueueRuns
  import opened QueueOverrun
  import opened QueueLiveness
  import RetryDelay

  // ---------- Events that nobody holds ----------

  ghost predicate Unheld(s: System, event: Body) {
    forall w :: !Holds(s, w, event)
  }

  lemma UnheldStaysUnheld(c: QueueConfig, s: System, step: Step, event: Body)
    requires Unheld(s, event) && Enabled(c, s, step) && (step.Claim? ==> step.event != event)
    ensures Unheld(Next(c, s, step), event) && LeavesAlone(s, step, event)
  {
    forall w ensures !Holds(Next(c, s, step), w, event) {
      assert !Holds(s, w, event);
    }
    if step.Commit? || step.CommitUnacknowledged? || step.WriteFailure? {
      assert !Holds(s, step.worker, event);
    }
  }

  /** The bound holds for every waiting event that nobody holds, whatever the leases. */
  lemma {:induction false} UnheldIsClaimedInTime(c: QueueConfig, s: System, steps: seq<Step>, event: Body)
    requires Configured(c) && Scheduled(s) && Waiting(c, s, event) && Unheld(s, event)
    requires Legal(c, s, steps) && NeverClaims(steps, event)
    ensures Waiting(c, After(c, s, steps), event)
    ensures Claims(steps) + Delay(c, After(c, s, steps), event) <= Delay(c, s, event)
    decreases |steps|
  {
    if |steps| > 0 {
      NextKeepsScheduled(c, s, steps[0]);
      UnheldStaysUnheld(c, s, steps[0], event);
      StepUsesAttempts(c, s, steps[0], event);
      forall i | 0 <= i < |steps[1..]| && steps[1..][i].Claim? ensures steps[1..][i].event != event {
        assert steps[1..][i] == steps[i + 1];
      }
      UnheldIsClaimedInTime(c, Next(c, s, steps[0]), steps[1..], event);
    }
  }

  // ---------- Few workers, or few attempts ----------

  /** An event in the hands of the only worker, or of the only one that ever claimed it, is leased or
      already finished. */
  ghost predicate HeldIsLeased(s: System, W: set<WorkerId>) {
    forall w, e | Holds(s, w, e) && e in s.events && (Alone(W) || s.events[e].attempts == 1) ::
      s.events[e].status.Processing? || s.events[e].status.Done?
  }

  lemma NextKeepsHeldLeased(c: QueueConfig, s: System, W: set<WorkerId>, step: Step)
    requires SingleCommits(c, s, W) && HeldIsLeased(s, W) && Enabled(c, s, step) && TakenBy(step, W)
    ensures HeldIsLeased(Next(c, s, step), W)
  {
    var s' := Next(c, s, step);
    forall w, e | Holds(s', w, e) && e in s'.events && (Alone(W) || s'.events[e].attempts == 1)
      ensures s'.events[e].status.Processing? || s'.events[e].status.Done?
    {
      if step.Claim? && step.event == e {
        assert s'.events[e].status.Processing?;
      } else {
        assert Holds(s, w, e) && e in s.events && s'.events[e].attempts == s.events[e].attempts;
        if step.WriteFailure? {
          assert Holds(s, step.worker, WorkerOf(s, step.worker).event) && w != step.worker;
        }
      }
    }
  }

  lemma {:induction false} RunKeepsHeldLeased(c: QueueConfig, s: System, W: set<WorkerId>, steps: seq<Step>)
    requires Configured(c) && Few(c, W) && SingleCommits(c, s, W) && HeldIsLeased(s, W)
    requires Legal(c, s, steps) && AllTakenBy(steps, W)
    ensures SingleCommits(c, After(c, s, steps), W) && HeldIsLeased(After(c, s, steps), W)
    decreases |steps|
  {
    if |steps| > 0 {
      RestIsTaken(steps, W);
      NextKeepsSingle(c, s, W, steps[0]);
      NextKeepsHeldLeased(c, s, W, steps[0]);
      RunKeepsHeldLeased(c, Next(c, s, steps[0]), W, steps[1..]);
    }
  }

  lemma FewLeaveWaitingUnheld(c: QueueConfig, s: System, W: set<WorkerId>, event: Body)
    requires Few(c, W) && SingleCommits(c, s, W) && HeldIsLeased(s, W) && Waiting(c, s, event)
    ensures Unheld(s, event)
  {
    forall w ensures !Holds(s, w, event) {}
  }

  // ---------- A late finaliser postpones a waiting event ----------

  /** After the first part of the run the event waits; the second part claims other events more often
      than the bound allows. */
  ghost predicate Starves(c: QueueConfig, s: System, before: seq<Step>, steps: seq<Step>, event: Body) {
    Legal(c, s, before) &&
    var mid := After(c, s, before);
    Waiting(c, mid, event) && Legal(c, mid, steps) && NeverClaims(steps, event) && Claims(steps) > Delay(c, mid, event)
  }

  lemma PrependStarving(c: QueueConfig, s: System, step: Step, before: seq<Step>, steps: seq<Step>, event: Body)
    requires Enabled(c, s, step) && Starves(c, Next(c, s, step), before, steps, event)
    ensures Starves(c, s, [step] + before, steps, event)
  {
    Prepend(c, s, step, before);
  }

  function Other(event: Body): (other: Body)
    ensures other != event && other.webhook == event.webhook
  {
    var other := Body(event.text + "+", event.webhook);
    assert |other.text| == |event.text| + 1;
    other
  }

  function Overtaking(event: Body, a: WorkerId, b: WorkerId): seq<Step> {
    [ReadAttempts(a, 0)] + ([WriteFailure(a)] + ([Enqueue(Other(event))] + [Claim(b, Other(event))]))
  }

  /** The only event waits, with nothing ahead of it; but a late worker is still about to finalise it. */
  ghost predicate Disturbed(c: QueueConfig, s: System, event: Body, a: WorkerId, b: WorkerId) {
    && Configured(c) && c.maxAttempts >= 3 && InScope(c.billing, event.webhook)
    && s.events.Keys == {event} && Waiting(c, s, event) && s.events[event].attempts == 2
    && a != b && WorkerOf(s, b).Idle?
    && WorkerOf(s, a).Failing? && WorkerOf(s, a).event == event && !WorkerOf(s, a).permanent
  }

  lemma LateFinaliserPostpones(c: QueueConfig, s: System, event: Body, a: WorkerId, b: WorkerId)
    requires Disturbed(c, s, event, a, b)
    ensures Starves(c, s, [], Overtaking(event, a, b), event)
  {
    var other := Other(event);
    RetryDelay.DelayIsJitteredBackoff(c.retry, 2, 0);
    var s1 := Next(c, s, ReadAttempts(a, 0));
    var s2 := Next(c, s1, WriteFailure(a));
    assert Due(s2.events[event]) > s2.now;
    var s3 := Next(c, s2, Enqueue(other));
    assert IsNext(c, s3.events, other, s3.now);
    var s4 := Next(c, s3, Claim(b, other));
    assert Legal(c, s4, []);
    Prepend(c, s3, Claim(b, other), []);
    assert [Claim(b, other)] + [] == [Claim(b, other)];
    Prepend(c, s2, Enqueue(other), [Claim(b, other)]);
    Prepend(c, s1, WriteFailure(a), [Enqueue(other)] + [Claim(b, other)]);
    Prepend(c, s, ReadAttempts(a, 0), [WriteFailure(a)] + ([Enqueue(other)] + [Claim(b, other)]));
    OvertakingClaims(event, a, b);
    assert Ahead(c, s, event) == {};
  }

  lemma OvertakingClaims(event: Body, a: WorkerId, b: WorkerId)
    ensures Claims(Overtaking(event, a, b)) == 1 && NeverClaims(Overtaking(event, a, b), event)
  {
    var claim := [Claim(b, Other(event))];
    assert claim[1..] == [] && Claims(claim) == 1;
    ClaimsAfter(Enqueue(Other(event)), claim);
    ClaimsAfter(WriteFailure(a), [Enqueue(Other(event))] + claim);
    ClaimsAfter(ReadAttempts(a, 0), [WriteFailure(a)] + ([Enqueue(Other(event))] + claim));
  }

  lemma ClaimsAfter(step: Step, steps: seq<Step>)
    ensures Claims([step] + steps) == (if step.Claim? then 1 else 0) + Claims(steps)
  {
    assert ([step] + steps)[1..] == steps;
  }

  /** Worker a overruns its lease while it finalises; b takes over, fails and finalises in time. */
  function Delaying(c: QueueConfig, event: Body, a: WorkerId, b: WorkerId): seq<Step> {
    [Enqueue(event)] + ([Claim(a, event)] + ([Fail(a, Transient)] + ([Tick(c.lease + 1)] + Retrying(c, event, b))))
  }

  function Retrying(c: QueueConfig, event: Body, b: WorkerId): seq<Step> {
    [Claim(b, event)] + ([Fail(b, Transient)] + Finalising(c, b))
  }

  function Finalising(c: QueueConfig, b: WorkerId): seq<Step> {
    var delay := RetryDelay.Delay(c.retry, 2, 0);
    [ReadAttempts(b, 0)] + ([WriteFailure(b)] + ([Tick(if delay >= 0 then delay + 1 else 0)] + []))
  }

  lemma RetryIsDisturbed(c: QueueConfig, s: System, event: Body, a: WorkerId, b: WorkerId)
    requires Configured(c) && c.maxAttempts >= 3 && InScope(c.billing, event.webhook) && a != b
    requires s.events.Keys == {event} && Claimable(c, s.events[event], s.now) && s.events[event].attempts == 1
    requires s.workers.Keys == {a} && s.workers[a].Failing? && s.workers[a].event == event && !s.workers[a].permanent
    ensures Starves(c, s, Retrying(c, event, b), Overtaking(event, a, b), event)
  {
    var steps := Overtaking(event, a, b);
    assert IsNext(c, s.events, event, s.now);
    var s1 := Next(c, s, Claim(b, event));
    var s2 := Next(c, s1, Fail(b, Transient));
    FailureIsDisturbed(c, s2, event, a, b);
    PrependStarving(c, s1, Fail(b, Transient), Finalising(c, b), steps, event);
    PrependStarving(c, s, Claim(b, event), [Fail(b, Transient)] + Finalising(c, b), steps, event);
  }

  lemma FailureIsDisturbed(c: QueueConfig, s: System, event: Body, a: WorkerId, b: WorkerId)
    requires Configured(c) && c.maxAttempts >= 3 && InScope(c.billing, event.webhook) && a != b
    requires s.events.Keys == {event} && s.events[event].attempts == 2
    requires WorkerOf(s, a).Failing? && WorkerOf(s, a).event == event && !WorkerOf(s, a).permanent
    requires WorkerOf(s, b).Failing? && WorkerOf(s, b).event == event && !WorkerOf(s, b).permanent
    ensures Starves(c, s, Finalising(c, b), Overtaking(event, a, b), event)
  {
    RetryDelay.DelayIsJitteredBackoff(c.retry, 2, 0);
    var wait := Tick(RetryDelay.Delay(c.retry, 2, 0) + 1);
    var steps := Overtaking(event, a, b);
    var s1 := Next(c, s, ReadAttempts(b, 0));
    var s2 := Next(c, s1, WriteFailure(b));
    var s3 := Next(c, s2, wait);
    LateFinaliserPostpones(c, s3, event, a, b);
    PrependStarving(c, s2, wait, [], steps, event);
    PrependStarving(c, s1, WriteFailure(b), [wait] + [], steps, event);
    PrependStarving(c, s, ReadAttempts(b, 0), [WriteFailure(b)] + ([wait] + []), steps, event);
  }

  lemma OverrunIsDisturbed(c: QueueConfig, s: System, event: Body, a: WorkerId, b: WorkerId)
    requires Configured(c) && c.maxAttempts >= 3 && InScope(c.billing, event.webhook) && a != b
    requires s.events == map[event := Leased(NewRow(s.now), a, s.now)] && s.workers == map[a := Working(event, true, s.now)]
    ensures Starves(c, s, [Fail(a, Transient)] + ([Tick(c.lease + 1)] + Retrying(c, event, b)), Overtaking(event, a, b), event)
  {
    var steps, rest := Overtaking(event, a, b), Retrying(c, event, b);
    var s1 := Next(c, s, Fail(a, Transient));
    var s2 := Next(c, s1, Tick(c.lease + 1));
    RetryIsDisturbed(c, s2, event, a, b);
    PrependStarving(c, s1, Tick(c.lease + 1), rest, steps, event);
    PrependStarving(c, s, Fail(a, Transient), [Tick(c.lease + 1)] + rest, steps, event);
  }

  lemma TwoWorkersStarve(c: QueueConfig, s: System, event: Body, a: WorkerId, b: WorkerId)
    requires Configured(c) && c.maxAttempts >= 3 && InScope(c.billing, event.webhook) && a != b && Initial(s)
    ensures Starves(c, s, Delaying(c, event, a, b), Overtaking(event, a, b), event)
  {
    var steps, rest := Overtaking(event, a, b), [Fail(a, Transient)] + ([Tick(c.lease + 1)] + Retrying(c, event, b));
    var s1 := Next(c, s, Enqueue(event));
    assert s1.events == map[event := NewRow(s.now)];
    assert IsNext(c, s1.events, event, s.now);
    var s2 := Next(c, s1, Claim(a, event));
    assert s2.events == map[event := Leased(NewRow(s.now), a, s.now)];
    OverrunIsDisturbed(c, s2, event, a, b);
    PrependStarving(c, s1, Claim(a, event), rest, steps, event);
    PrependStarving(c, s, Enqueue(event), [Claim(a, event)] + rest, steps, event);
  }

  // ---------- The exact condition ----------

  /** In no run of these workers is a waiting event passed over beyond the bound. */
  ghost predicate NeverStarves(c: QueueConfig, W: set<WorkerId>) {
    forall s, before, steps, event | Initial(s) && AllTakenBy(before, W) && AllTakenBy(steps, W) ::
      !Starves(c, s, before, steps, event)
  }

  lemma FewNeverStarve(c: QueueConfig, s: System, W: set<WorkerId>, before: seq<Step>, steps: seq<Step>, event: Body)
    requires Configured(c) && Few(c, W) && Initial(s) && AllTakenBy(before, W)
    ensures !Starves(c, s, before, steps, event)
  {
    if Legal(c, s, before) && Waiting(c, After(c, s, before), event)
       && Legal(c, After(c, s, before), steps) && NeverClaims(steps, event)
    {
      RunKeepsHeldLeased(c, s, W, before);
      RunKeepsScheduled(c, s, before);
      FewLeaveWaitingUnheld(c, After(c, s, before), W, event);
      UnheldIsClaimedInTime(c, After(c, s, before), steps, event);
    }
  }

  /** Without any lease discipline, the bound holds in all runs iff there is only one worker or an
      event is attempted at most twice. */
  lemma NoStarvationIff(c: QueueConfig, W: set<WorkerId>, event: Body)
    requires Configured(c) && InScope(c.billing, event.webhook)
    ensures NeverStarves(c, W) <==> (forall a, b | a in W && b in W :: a == b) || c.maxAttempts <= 2
  {
    if Few(c, W) {
      forall s, before, steps, event | Initial(s) && AllTakenBy(before, W) && AllTakenBy(steps, W)
        ensures !Starves(c, s, before, steps, event)
      {
        FewNeverStarve(c, s, W, before, steps, event);
      }
    } else {
      var a, b :| a in W && b in W && a != b;
      var s := System(map[], Tables({}, map[], map[], map[], map[]), map[], 0, []);
      TwoWorkersStarve(c, s, event, a, b);
      assert AllTakenBy(Delaying(c, event, a, b), W);
      assert AllTakenBy(Overtaking(event, a, b), W);
    }
  }
}

/** When the effect of a webhook can commit twice, and when it cannot. */
module QueueOverrun {
  import opened Wrappers
  import opened Billing
  import opened WebhookQueue
  import opened QueueRuns
  import opened QueueSafety
  import RetryDelay

  // ---------- No second commit ----------

  /** The worker may still commit the effect of the event. */
  ghost predicate MayCommit(c: QueueConfig, s: System, w: WorkerId, event: Body) {
    WorkerOf(s, w).Working? && WorkerOf(s, w).event == event && InTime(c, s, w)
  }

  ghost predicate Holds(s: System, w: WorkerId, event: Body) {
    !WorkerOf(s, w).Idle? && WorkerOf(s, w).event == event
  }

  /** At most one worker may commit an event, and it holds the payload only if nothing was committed. */
  ghost predicate OneCommitter(c: QueueConfig, s: System, W: set<WorkerId>) {
    && (forall w | !WorkerOf(s, w).Idle? :: w in W && WorkerOf(s, w).event in s.events)
    && (forall w, w', e | MayCommit(c, s, w, e) && MayCommit(c, s, w', e) :: w == w')
    && (forall w, e | MayCommit(c, s, w, e) && WorkerOf(s, w).full :: !s.events[e].erased)
  }

  /** An event that was claimed at most once has at most one worker, and its lease is that worker's. */
  ghost predicate FirstClaimIsAlone(s: System) {
    && (forall w, e | Holds(s, w, e) && e in s.events :: s.events[e].attempts >= 1)
    && (forall w, w', e | Holds(s, w, e) && Holds(s, w', e) && e in s.events && s.events[e].attempts == 1 :: w == w')
    && (forall w, e | Holds(s, w, e) && WorkerOf(s, w).Working? && e in s.events && s.events[e].attempts == 1 ::
          s.events[e].status.Processing? && s.events[e].lockedAt == Some(WorkerOf(s, w).claimedAt))
  }

  ghost predicate CommittedAreErased(s: System) {
    forall i | 0 <= i < |s.committed| :: s.committed[i].event in s.events && s.events[s.committed[i].event].erased
  }

  ghost predicate SingleCommits(c: QueueConfig, s: System, W: set<WorkerId>) {
    && OneCommitter(c, s, W)
    && FirstClaimIsAlone(s)
    && CommittedAreErased(s)
    && NoRepeats(s)
  }

  /** One worker, or two attempts: too few for a second committer. */
  ghost predicate Few(c: QueueConfig, W: set<WorkerId>) {
    (forall w, w' | w in W && w' in W :: w == w') || c.maxAttempts <= 2
  }

  /** Whoever may commit an event was the last to claim it. */
  lemma ClaimIsAlone(c: QueueConfig, s: System, W: set<WorkerId>, w: WorkerId, event: Body, other: WorkerId)
    requires Configured(c) && Few(c, W) && SingleCommits(c, s, W) && w in W
    requires Enabled(c, s, Claim(w, event))
    ensures !MayCommit(c, s, other, event)
  {
    if MayCommit(c, s, other, event) {
      assert Holds(s, other, event) && other != w;
    }
  }

  lemma ClaimKeepsSingle(c: QueueConfig, s: System, W: set<WorkerId>, w: WorkerId, event: Body)
    requires Configured(c) && Few(c, W) && SingleCommits(c, s, W) && w in W
    requires Enabled(c, s, Claim(w, event))
    ensures SingleCommits(c, Next(c, s, Claim(w, event)), W)
  {
    var s' := Next(c, s, Claim(w, event));
    forall v ensures v != w ==> WorkerOf(s', v) == WorkerOf(s, v) {}
    forall v, e | MayCommit(c, s', v, e) && v != w ensures MayCommit(c, s, v, e) && e != event {
      ClaimIsAlone(c, s, W, w, event, v);
    }
    ClaimKeepsAlone(c, s, w, event);
  }

  lemma ClaimKeepsAlone(c: QueueConfig, s: System, w: WorkerId, event: Body)
    requires FirstClaimIsAlone(s) && Enabled(c, s, Claim(w, event))
    ensures FirstClaimIsAlone(Next(c, s, Claim(w, event)))
  {
    var s' := Next(c, s, Claim(w, event));
    forall v, e | Holds(s', v, e) && v != w ensures Holds(s, v, e) {}
  }

  /** A commit erases the payload under the only worker that may commit it. */
  lemma CommitOnce(c: QueueConfig, s: System, W: set<WorkerId>, w: WorkerId)
    requires SingleCommits(c, s, W) && WorkerOf(s, w).Working? && InTime(c, s, w) && AttemptBy(c, s, w).Ok?
    ensures var (s', event) := (Committed(c, s, w), WorkerOf(s, w).event);
            && s'.workers == s.workers && s'.now == s.now
            && (forall e | e in s.events :: e in s'.events && s'.events[e].attempts == s.events[e].attempts)
            && (forall e | e in s.events && e != event :: s'.events[e] == s.events[e])
            && CommittedAreErased(s') && NoRepeats(s')
  {
    var event := WorkerOf(s, w).event;
    assert MayCommit(c, s, w, event);
  }

  lemma CommitKeepsSingle(c: QueueConfig, s: System, W: set<WorkerId>, w: WorkerId, next: Worker)
    requires SingleCommits(c, s, W) && WorkerOf(s, w).Working? && InTime(c, s, w) && AttemptBy(c, s, w).Ok?
    requires next == Idle || next == Failing(WorkerOf(s, w).event, false, WorkerOf(s, w).claimedAt)
    ensures SingleCommits(c, Become(Committed(c, s, w), w, next), W)
  {
    var mid, event := Committed(c, s, w), WorkerOf(s, w).event;
    var s' := Become(mid, w, next);
    CommitOnce(c, s, W, w);
    forall v ensures v != w ==> WorkerOf(s', v) == WorkerOf(s, v) {}
    forall v, e | MayCommit(c, s', v, e) ensures MayCommit(c, s, v, e) && e != event {
      assert v != w && MayCommit(c, s, w, event) && MayCommit(c, s, v, e);
    }
    forall v, e | Holds(s', v, e) ensures Holds(s, v, e) {}
    forall v | Holds(s', v, event) && WorkerOf(s', v).Working? && s.events[event].attempts == 1 ensures false {
      assert Holds(s, w, event);
    }
  }

  /** Failing, moving on, crashing and waiting only take committers away. */
  lemma MoveKeepsSingle(c: QueueConfig, s: System, W: set<WorkerId>, step: Step)
    requires SingleCommits(c, s, W) && Enabled(c, s, step)
    requires step.Fail? || step.ReadAttempts? || step.Crash? || step.Tick?
    ensures SingleCommits(c, Next(c, s, step), W)
  {
    var s' := Next(c, s, step);
    forall v ensures WorkerOf(s', v) == WorkerOf(s, v) || (!step.Tick? && v == step.worker && !WorkerOf(s', v).Working?) {}
    forall v, e | MayCommit(c, s', v, e) ensures MayCommit(c, s, v, e) {}
    forall v, e | Holds(s', v, e) ensures Holds(s, v, e) {}
  }

  lemma EnqueueKeepsSingle(c: QueueConfig, s: System, W: set<WorkerId>, event: Body)
    requires SingleCommits(c, s, W) && Enabled(c, s, Enqueue(event))
    ensures SingleCommits(c, Next(c, s, Enqueue(event)), W)
  {
    var s' := Next(c, s, Enqueue(event));
    forall e | e in s.events
      ensures e in s'.events && s'.events[e].attempts == s.events[e].attempts && s'.events[e].erased == s.events[e].erased
      ensures s'.events[e].status == s.events[e].status && s'.events[e].lockedAt == s.events[e].lockedAt
    {}
    forall v ensures WorkerOf(s', v) == WorkerOf(s, v) {}
    forall v, e | MayCommit(c, s', v, e) ensures MayCommit(c, s, v, e) && e in s.events {}
    forall v, e | Holds(s', v, e) ensures Holds(s, v, e) && e in s.events {}
    assert OneCommitter(c, s', W);
    assert FirstClaimIsAlone(s');
  }

  lemma WriteFailureKeepsSingle(c: QueueConfig, s: System, W: set<WorkerId>, w: WorkerId)
    requires SingleCommits(c, s, W) && Enabled(c, s, WriteFailure(w))
    ensures SingleCommits(c, Next(c, s, WriteFailure(w)), W)
  {
    var s', event := Next(c, s, WriteFailure(w)), WorkerOf(s, w).event;
    forall v ensures v != w ==> WorkerOf(s', v) == WorkerOf(s, v) {}
    forall v, e | MayCommit(c, s', v, e) ensures MayCommit(c, s, v, e) {}
    forall v, e | Holds(s', v, e) ensures Holds(s, v, e) {}
    assert Holds(s, w, event);
  }

  lemma NextKeepsSingle(c: QueueConfig, s: System, W: set<WorkerId>, step: Step)
    requires Configured(c) && Few(c, W) && SingleCommits(c, s, W) && Enabled(c, s, step) && TakenBy(step, W)
    ensures SingleCommits(c, Next(c, s, step), W)
  {
    match step
    case Claim(w, event) => ClaimKeepsSingle(c, s, W, w, event);
    case Commit(w) => CommitKeepsSingle(c, s, W, w, Idle);
    case CommitUnacknowledged(w) =>
      CommitKeepsSingle(c, s, W, w, Failing(WorkerOf(s, w).event, false, WorkerOf(s, w).claimedAt));
    case Enqueue(event) => EnqueueKeepsSingle(c, s, W, event);
    case WriteFailure(w) => WriteFailureKeepsSingle(c, s, W, w);
    case _ => MoveKeepsSingle(c, s, W, step);
  }

  lemma {:induction false} FewCommitOnce(c: QueueConfig, s: System, W: set<WorkerId>, steps: seq<Step>)
    requires Configured(c) && Few(c, W) && SingleCommits(c, s, W) && Legal(c, s, steps) && AllTakenBy(steps, W)
    ensures NoRepeats(After(c, s, steps))
    decreases |steps|
  {
    if |steps| > 0 {
      RestIsTaken(steps, W);
      NextKeepsSingle(c, s, W, steps[0]);
      FewCommitOnce(c, Next(c, s, steps[0]), W, steps[1..]);
    }
  }

  // ---------- A second commit ----------

  /** An order that the configured shop can receive, for a user it names. */
  predicate IsOrderInScope(c: Config, order: Body) {
    InScope(c, order.webhook) && order.webhook.kind.OrderCreated? && order.webhook.user.Some?
  }

  ghost predicate CommitsTwice(c: QueueConfig, s: System, order: Body, steps: seq<Step>) {
    && Legal(c, s, steps)
    && |After(c, s, steps).committed| == 2
    && After(c, s, steps).committed[0].event == After(c, s, steps).committed[1].event == order
  }

  lemma PrependTwice(c: QueueConfig, s: System, order: Body, step: Step, steps: seq<Step>)
    requires Enabled(c, s, step) && CommitsTwice(c, Next(c, s, step), order, steps)
    ensures CommitsTwice(c, s, order, [step] + steps)
  {
    Prepend(c, s, step, steps);
  }

  /** The order is the only event, and its user exists. */
  ghost predicate OnlyOrder(c: QueueConfig, s: System, order: Body) {
    && Configured(c) && c.maxAttempts >= 3 && IsOrderInScope(c.billing, order)
    && s.events.Keys == {order} && order.webhook.user.value in s.tables.users
  }

  lemma OrderSucceeds(c: Config, t: Tables, order: Body, now: int)
    requires IsOrderInScope(c, order) && order.webhook.user.value in t.users
    ensures Process(c, t, order, now).Ok? && Process(c, t, order, now).value.0.users == t.users
  {}

  ghost predicate Works(c: QueueConfig, s: System, w: WorkerId, order: Body) {
    WorkerOf(s, w) == Working(order, true, s.now)
  }

  lemma SecondCommit(c: QueueConfig, s: System, order: Body, a: WorkerId)
    requires OnlyOrder(c, s, order) && Works(c, s, a, order) && !s.events[order].status.Done?
    requires |s.committed| == 1 && s.committed[0].event == order
    ensures CommitsTwice(c, s, order, [Commit(a)])
  {
    OrderSucceeds(c.billing, s.tables, order, s.now);
    assert CommitsTwice(c, Next(c, s, Commit(a)), order, []);
    PrependTwice(c, s, order, Commit(a), []);
  }

  function Ending(a: WorkerId, b: WorkerId): seq<Step> {
    [CommitUnacknowledged(b)] + ([ReadAttempts(b, 0)] + ([WriteFailure(b)] + [Commit(a)]))
  }

  /** Two workers hold the payload. One commits, loses the acknowledgement and writes a failure over
      the finished event; then the other commits as well. */
  lemma TwoWorkersCommit(c: QueueConfig, s: System, order: Body, a: WorkerId, b: WorkerId)
    requires OnlyOrder(c, s, order) && a != b && Works(c, s, a, order) && Works(c, s, b, order)
    requires !s.events[order].status.Done? && s.committed == []
    ensures CommitsTwice(c, s, order, Ending(a, b))
  {
    OrderSucceeds(c.billing, s.tables, order, s.now);
    var s1 := Next(c, s, CommitUnacknowledged(b));
    assert s1.committed == [Arrival(order, s.now)];
    var s2 := Next(c, s1, ReadAttempts(b, 0));
    var s3 := Next(c, s2, WriteFailure(b));
    assert WorkerOf(s3, a) == WorkerOf(s, a);
    SecondCommit(c, s3, order, a);
    PrependTwice(c, s2, order, WriteFailure(b), [Commit(a)]);
    PrependTwice(c, s1, order, ReadAttempts(b, 0), [WriteFailure(b)] + [Commit(a)]);
    PrependTwice(c, s, order, CommitUnacknowledged(b), [ReadAttempts(b, 0)] + ([WriteFailure(b)] + [Commit(a)]));
  }

  function Middle(order: Body, a: WorkerId, b: WorkerId): seq<Step> {
    [ReadAttempts(a, 0)] + ([WriteFailure(a)] + ([Enqueue(order)] + ([Claim(a, order)] + Ending(a, b))))
  }

  /** A late finaliser takes the event away from its new owner; a redelivery makes it due, and the
      late worker claims it again. */
  lemma LateFinaliserTakesOver(c: QueueConfig, s: System, order: Body, a: WorkerId, b: WorkerId, claimedAt: int)
    requires OnlyOrder(c, s, order) && a != b && Works(c, s, b, order)
    requires WorkerOf(s, a) == Failing(order, false, claimedAt)
    requires s.events[order].attempts == 2 && !s.events[order].erased && s.committed == []
    ensures CommitsTwice(c, s, order, Middle(order, a, b))
  {
    RetryDelay.DelayIsJitteredBackoff(c.retry, 2, 0);
    var s1 := Next(c, s, ReadAttempts(a, 0));
    var s2 := Next(c, s1, WriteFailure(a));
    assert s2.events[order].status.Failed?;
    var s3 := Next(c, s2, Enqueue(order));
    assert Due(s3.events[order]) <= s3.now;
    var s4 := Next(c, s3, Claim(a, order));
    assert WorkerOf(s4, b) == WorkerOf(s, b);
    TwoWorkersCommit(c, s4, order, a, b);
    PrependTwice(c, s3, order, Claim(a, order), Ending(a, b));
    PrependTwice(c, s2, order, Enqueue(order), [Claim(a, order)] + Ending(a, b));
    PrependTwice(c, s1, order, WriteFailure(a), [Enqueue(order)] + ([Claim(a, order)] + Ending(a, b)));
    PrependTwice(c, s, order, ReadAttempts(a, 0),
                 [WriteFailure(a)] + ([Enqueue(order)] + ([Claim(a, order)] + Ending(a, b))));
  }

  /** An empty queue for a shop with one user. */
  function Start(order: Body): System
    requires order.webhook.user.Some?
  {
    System(map[], Tables({order.webhook.user.value}, map[], map[], map[], map[]), map[], 0, [])
  }

  /** Both workers process within the job timeout; worker a takes longer than its lease to finalise. */
  function Overrun(c: QueueConfig, order: Body, a: WorkerId, b: WorkerId): seq<Step> {
    [Enqueue(order)] + ([Claim(a, order)] + ([Fail(a, Transient)] + ([Tick(c.lease + 1)] + ([Claim(b, order)] +
    Middle(order, a, b)))))
  }

  lemma LeaseIsTakenOver(c: QueueConfig, s: System, order: Body, a: WorkerId, b: WorkerId)
    requires OnlyOrder(c, s, order) && a != b && Works(c, s, a, order) && WorkerOf(s, b).Idle?
    requires s.events[order] == Leased(NewRow(s.now), a, s.now) && s.committed == []
    ensures CommitsTwice(c, s, order, [Fail(a, Transient)] + ([Tick(c.lease + 1)] + ([Claim(b, order)] + Middle(order, a, b))))
  {
    var s1 := Next(c, s, Fail(a, Transient));
    var s2 := Next(c, s1, Tick(c.lease + 1));
    assert IsNext(c, s2.events, order, s2.now);
    var s3 := Next(c, s2, Claim(b, order));
    LateFinaliserTakesOver(c, s3, order, a, b, s.now);
    PrependTwice(c, s2, order, Claim(b, order), Middle(order, a, b));
    PrependTwice(c, s1, order, Tick(c.lease + 1), [Claim(b, order)] + Middle(order, a, b));
    PrependTwice(c, s, order, Fail(a, Transient), [Tick(c.lease + 1)] + ([Claim(b, order)] + Middle(order, a, b)));
  }

  lemma BothAreInvolved(c: QueueConfig, order: Body, a: WorkerId, b: WorkerId)
    ensures AllTakenBy(Overrun(c, order, a, b), {a, b})
  {}

  lemma OverrunCommitsTwice(c: QueueConfig, order: Body, a: WorkerId, b: WorkerId)
    requires Configured(c) && c.maxAttempts >= 3 && IsOrderInScope(c.billing, order) && a != b
    ensures CommitsTwice(c, Start(order), order, Overrun(c, order, a, b))
  {
    var s1 := Next(c, Start(order), Enqueue(order));
    assert s1.events == map[order := NewRow(0)];
    assert IsNext(c, s1.events, order, 0);
    var s2 := Next(c, s1, Claim(a, order));
    assert s2.events == map[order := Leased(NewRow(0), a, 0)];
    LeaseIsTakenOver(c, s2, order, a, b);
    PrependTwice(c, s1, order, Claim(a, order),
                 [Fail(a, Transient)] + ([Tick(c.lease + 1)] + ([Claim(b, order)] + Middle(order, a, b))));
    PrependTwice(c, Start(order), order, Enqueue(order),
                 [Claim(a, order)] + ([Fail(a, Transient)] + ([Tick(c.lease + 1)] + ([Claim(b, order)] + Middle(order, a, b)))));
  }

  /** In every configuration with three attempts, any two workers can commit one effect twice,
      although every processing call ends within the job timeout. */
  lemma EffectTwiceWithLateFinaliser(c: QueueConfig, order: Body, a: WorkerId, b: WorkerId)
    requires Configured(c) && c.maxAttempts >= 3 && IsOrderInScope(c.billing, order) && a != b
    ensures Initial(Start(order)) && CommitsTwice(c, Start(order), order, Overrun(c, order, a, b))
    ensures !NoRepeats(After(c, Start(order), Overrun(c, order, a, b)))
    ensures AllTakenBy(Overrun(c, order, a, b), {a, b})
  {
    BothAreInvolved(c, order, a, b);
    OverrunCommitsTwice(c, order, a, b);
    var log := After(c, Start(order), Overrun(c, order, a, b)).committed;
    assert log[0].event == log[1].event;
  }

  // ---------- The exact condition ----------

  /** Every run of these workers commits each effect at most once, whatever they do about leases. */
  ghost predicate AlwaysAtMostOnce(c: QueueConfig, W: set<WorkerId>) {
    forall s, steps | Initial(s) && Legal(c, s, steps) && AllTakenBy(steps, W) :: NoRepeats(After(c, s, steps))
  }

  lemma TakenByMore(steps: seq<Step>, V: set<WorkerId>, W: set<WorkerId>)
    requires AllTakenBy(steps, V) && V <= W
    ensures AllTakenBy(steps, W)
  {
    forall i | 0 <= i < |steps| ensures TakenBy(steps[i], W) {
      assert TakenBy(steps[i], V);
    }
  }

  /** Without any lease discipline, effects commit at most once in all runs iff there is only one
      worker or an event is attempted at most twice. */
  lemma AtMostOnceIff(c: QueueConfig, W: set<WorkerId>, order: Body)
    requires Configured(c) && IsOrderInScope(c.billing, order)
    ensures AlwaysAtMostOnce(c, W) <==> (forall a, b | a in W && b in W :: a == b) || c.maxAttempts <= 2
  {
    if Few(c, W) {
      forall s, steps | Initial(s) && Legal(c, s, steps) && AllTakenBy(steps, W)
        ensures NoRepeats(After(c, s, steps))
      {
        FewCommitOnce(c, s, W, steps);
      }
    } else {
      var a, b :| a in W && b in W && a != b;
      EffectTwiceWithLateFinaliser(c, order, a, b);
      TakenByMore(Overrun(c, order, a, b), {a, b}, W);
    }
  }

  // ---------- The missing guard ----------

  /** No failure is written over an event that is already processed or ignored. */
  ghost predicate SparesFinished(c: QueueConfig, s: System, steps: seq<Step>)
    requires Legal(c, s, steps)
    decreases |steps|
  {
    |steps| > 0 ==>
      && (steps[0].WriteFailure? ==> !s.events[WorkerOf(s, steps[0].worker).event].status.Done?)
      && SparesFinished(c, Next(c, s, steps[0]), steps[1..])
  }

  ghost predicate CommittedIsDone(s: System) {
    forall i | 0 <= i < |s.committed| ::
      s.committed[i].event in s.events && s.events[s.committed[i].event].status.Done?
  }

  /** If the finaliser spared finished events, every effect would commit at most once, with no
      assumption on leases: any number of workers may work on an event at the same time. */
  lemma {:induction false} SparingFinishedSuffices(c: QueueConfig, s: System, steps: seq<Step>)
    requires Legal(c, s, steps) && SparesFinished(c, s, steps)
    requires CommittedIsDone(s) && NoRepeats(s)
    ensures CommittedIsDone(After(c, s, steps)) && NoRepeats(After(c, s, steps))
    decreases |steps|
  {
    if |steps| > 0 {
      SparingFinishedSuffices(c, Next(c, s, steps[0]), steps[1..]);
    }
  }
}

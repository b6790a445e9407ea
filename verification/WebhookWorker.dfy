/** The worker's loop over the database; each call is a legal run of the queue system. */
module WebhookWorker {
  import opened Wrappers
  import opened Billing
  import opened WebhookQueue
  import opened BillingDatabase
  import QueueFailures

  /** What the environment does during one turn of the loop: which calls fail, how much time
      passes in between, and the hash byte that decides the jitter. */
  datatype Turn = Turn(
    claimFails: bool, processing: nat, fault: Fault, finalizing: nat, finalizeFails: bool, digestByte: nat)

  /** The steps lead from one state to the other. */
  ghost predicate Leads(c: QueueConfig, s: System, steps: seq<Step>, s': System) {
    Legal(c, s, steps) && After(c, s, steps) == s'
  }

  /** What became of a job that was tried in state `was`: left alone if its event was finished, finished with
      its effect if that succeeds, and otherwise finalised, for good if it is not valid, unless finalising
      failed as well. */
  ghost predicate IsHandled(c: QueueConfig, was: System, s: System, job: Job, turn: Turn, inTime: bool) {
    && job.event in was.events && job.event in s.events
    && var (valid, effect) := (job.full && Accepts(c.billing, job.event.webhook), Process(c.billing, was.tables, job.event, was.now));
    && (turn.fault == NoFault && inTime && valid && was.events[job.event].status.Done? ==>
          s.events[job.event] == was.events[job.event] && s.tables == was.tables)
    && (turn.fault == NoFault && inTime && valid && !was.events[job.event].status.Done? && effect.Ok? ==>
          s.events[job.event].status == Done(effect.value.1) && s.tables == effect.value.0)
    && (turn.fault == NoFault && inTime && (!valid || (!was.events[job.event].status.Done? && effect.Err?))
        && !turn.finalizeFails && Configured(c) ==>
          QueueFailures.IsFinalised(c, was.events[job.event], s.events[job.event], !valid || effect.error == Invalid, s.now))
    && (turn.fault == RolledBack && job.full && InScope(c.billing, job.event.webhook) && !turn.finalizeFails && Configured(c) ==>
          QueueFailures.IsFinalised(c, was.events[job.event], s.events[job.event], false, s.now))
  }

  lemma {:induction false} LeadsBy(c: QueueConfig, s: System, steps: seq<Step>, s': System, step: Step)
    requires Leads(c, s, steps, s') && Enabled(c, s', step)
    ensures Leads(c, s, steps + [step], Next(c, s', step))
    decreases |steps|
  {
    var more := steps + [step];
    if |steps| == 0 {
      var end := Next(c, s', step);
      assert more[1..] == [] && Leads(c, end, [], end);
    } else {
      LeadsBy(c, Next(c, s, steps[0]), steps[1..], s', step);
      assert more[0] == steps[0] && more[1..] == steps[1..] + [step];
    }
  }

  class Worker {
    const id: WorkerId
    const db: Database
    const batchSize: nat

    constructor (id: WorkerId, db: Database, batchSize: nat)
      ensures this.id == id && this.db == db && this.batchSize == batchSize
    {
      this.id, this.db, this.batchSize := id, db, batchSize;
    }

    method ProcessBatch(turns: seq<Turn>) returns (handled: nat, ghost steps: seq<Step>)
      requires |turns| == batchSize && WorkerOf(db.Sys(), id).Idle?
      modifies db
      ensures Leads(db.config, old(db.Sys()), steps, db.Sys()) && WorkerOf(db.Sys(), id).Idle?
      ensures handled <= batchSize
      ensures handled < batchSize && !turns[handled].claimFails ==>
                forall e | e in db.events :: !Claimable(db.config, db.events[e], db.now)
    {
      handled, steps := 0, [];
      while handled < batchSize
        invariant handled <= batchSize
        invariant Leads(db.config, old(db.Sys()), steps, db.Sys()) && WorkerOf(db.Sys(), id).Idle?
      {
        if turns[handled].claimFails {
          return;
        }
        ghost var before := db.Sys();
        var job := db.Claim(id);
        if job.None? {
          return;
        }
        LeadsBy(db.config, old(db.Sys()), steps, before, Claim(id, job.value.event));
        steps := steps + [Claim(id, job.value.event)];
        steps := ProcessOne(job.value, turns[handled], old(db.Sys()), steps);
        handled := handled + 1;
      }
    }

    /** Processes a claimed job, and finalises its failure if it fails. `steps` led from `start` to here. */
    method ProcessOne(job: Job, turn: Turn, ghost start: System, ghost steps: seq<Step>) returns (ghost steps': seq<Step>)
      requires Leads(db.config, start, steps, db.Sys())
      requires WorkerOf(db.Sys(), id).Working?
      requires WorkerOf(db.Sys(), id).event == job.event && WorkerOf(db.Sys(), id).full == job.full
      requires job.event in db.events && WorkerOf(db.Sys(), id).claimedAt == db.now
      modifies db
      ensures Leads(db.config, start, steps', db.Sys()) && WorkerOf(db.Sys(), id).Idle?
      ensures IsHandled(db.config, Next(db.config, old(db.Sys()), Tick(turn.processing)), db.Sys(), job, turn,
                        turn.processing <= db.config.jobTimeout)
    {
      var deadline := db.now + db.config.jobTimeout;
      LeadsBy(db.config, start, steps, db.Sys(), Tick(turn.processing));
      db.Pass(turn.processing);
      steps' := Attempted(job, deadline, turn, start, steps + [Tick(turn.processing)]);
    }

    /** The processing call, and what follows if it fails. */
    method Attempted(job: Job, deadline: int, turn: Turn, ghost start: System, ghost steps: seq<Step>) returns (ghost steps': seq<Step>)
      requires Leads(db.config, start, steps, db.Sys())
      requires WorkerOf(db.Sys(), id).Working?
      requires WorkerOf(db.Sys(), id).event == job.event && WorkerOf(db.Sys(), id).full == job.full
      requires job.event in db.events && deadline == WorkerOf(db.Sys(), id).claimedAt + db.config.jobTimeout
      modifies db
      ensures Leads(db.config, start, steps', db.Sys()) && WorkerOf(db.Sys(), id).Idle?
      ensures IsHandled(db.config, old(db.Sys()), db.Sys(), job, turn, old(db.now) <= deadline)
    {
      steps' := steps;
      ghost var before := db.Sys();
      var result, step := db.ProcessWebhookEvent(id, job, deadline, turn.fault);
      LeadsBy(db.config, start, steps', before, step);
      steps' := steps' + [step];
      if result.Err? {
        steps' := FinalizeFailure(job.event, result.error == Invalid, turn, start, steps');
      }
    }

    method FinalizeFailure(event: Body, permanent: bool, turn: Turn, ghost start: System, ghost steps: seq<Step>)
      returns (ghost steps': seq<Step>)
      requires Leads(db.config, start, steps, db.Sys())
      requires WorkerOf(db.Sys(), id).Failing?
      requires WorkerOf(db.Sys(), id).event == event && WorkerOf(db.Sys(), id).permanent == permanent
      requires event in db.events
      modifies db
      ensures Leads(db.config, start, steps', db.Sys()) && WorkerOf(db.Sys(), id).Idle?
      ensures db.now == old(db.now) + turn.finalizing && db.State() == old(db.State())
      ensures db.events.Keys == old(db.events.Keys)
      ensures forall e | e in db.events && e != event :: db.events[e] == old(db.events[e])
      ensures turn.finalizeFails ==> db.events == old(db.events)
      ensures !turn.finalizeFails && Configured(db.config) ==>
                QueueFailures.IsFinalised(db.config, old(db.events[event]), db.events[event], permanent, db.now)
    {
      LeadsBy(db.config, start, steps, db.Sys(), Tick(turn.finalizing));
      db.Pass(turn.finalizing);
      ghost var failed := db.Sys();
      steps' := steps + [Tick(turn.finalizing)];
      if turn.finalizeFails {
        LeadsBy(db.config, start, steps', db.Sys(), Crash(id));
        db.Drop(id);
        steps' := steps' + [Crash(id)];
        return;
      }
      LeadsBy(db.config, start, steps', db.Sys(), ReadAttempts(id, turn.digestByte));
      var dead, delay := db.ReadAttempts(id, event, permanent, turn.digestByte);
      steps' := steps' + [ReadAttempts(id, turn.digestByte)];
      LeadsBy(db.config, start, steps', db.Sys(), WriteFailure(id));
      db.WriteFailure(id, event, dead, delay);
      if Configured(db.config) {
        QueueFailures.FailureIsFinalised(db.config, failed, id, turn.digestByte);
      }
      steps' := steps' + [WriteFailure(id)];
    }
  }
}

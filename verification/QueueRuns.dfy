/** Putting runs of the webhook queue together, and who takes part in them. */
module QueueRuns {
  import opened WebhookQueue

  lemma {:induction false} Prepend(c: QueueConfig, s: System, step: Step, steps: seq<Step>)
    requires Enabled(c, s, step) && Legal(c, Next(c, s, step), steps)
    ensures Legal(c, s, [step] + steps) && After(c, s, [step] + steps) == After(c, Next(c, s, step), steps)
  {
    assert ([step] + steps)[1..] == steps;
  }

  /** The worker that takes the step belongs to W. */
  predicate TakenBy(step: Step, W: set<WorkerId>) {
    step.Enqueue? || step.Tick? || step.worker in W
  }

  predicate AllTakenBy(steps: seq<Step>, W: set<WorkerId>) {
    forall i | 0 <= i < |steps| :: TakenBy(steps[i], W)
  }

  /** There is at most one worker. */
  predicate Alone(W: set<WorkerId>) {
    forall a, b | a in W && b in W :: a == b
  }

  lemma RestIsTaken(steps: seq<Step>, W: set<WorkerId>)
    requires |steps| > 0 && AllTakenBy(steps, W)
    ensures TakenBy(steps[0], W) && AllTakenBy(steps[1..], W)
  {}
}

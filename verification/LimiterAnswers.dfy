/** Which calls the limiter allows, in terms of its earlier answers alone. */
module LimiterAnswers {
  import opened Wrappers
  import opened Arithmetic
  import opened TokenBucket
  import opened LimiterTheorems

  // ---------- A call is allowed unless it would exceed a window ----------

  /** With one more call at `now`, no window that ends at `now` exceeds burst and refill. */
  ghost predicate FitsEveryWindow(l: Limits, start: int, calls: seq<Call>, client: string, now: int)
    requires l.rate > 0.0
  {
    forall from | from <= now ::
      AllowedIn(l, start, calls, client, from, now) as real + 1.0 <= Budget(l, from, now)
  }

  /** Some window up to the last refill is used up, but for the tokens that are left. */
  ghost predicate UsedUpBut(l: Limits, n: nat, b: Bucket, from: int) {
    from <= b.lastSeen && n as real + b.tokens >= Budget(l, from, b.lastSeen)
  }

  lemma NewBucketUsesUp(l: Limits, n: nat, now: int)
    requires Configured(l)
    ensures var (b, answer) := Take(l, FullBucket(l, now), now);
            UsedUpBut(l, n + if answer.allowed then 1 else 0, b, now)
  {}

  /** A call moves a token from the bucket into the window, if there is one; a full bucket starts a
      new window. */
  lemma NextCallUsesUp(l: Limits, n: nat, m: nat, b: Bucket, from: int, now: int) returns (from': int)
    requires Configured(l) && Sane(l, b, now) && UsedUpBut(l, n, b, from)
    ensures from' == from || from' == now
    ensures var (b', answer) := Take(l, b, now);
            UsedUpBut(l, (if from' == from then n else m) + if answer.allowed then 1 else 0, b', from')
  {
    BudgetGrows(l, from, b.lastSeen, now);
    var full := Refilled(l, b, now);
    from' := if full.tokens == l.burst as real && now != from then now else from;
  }

  lemma AllowedOneMoreCall(l: Limits, start: int, calls: seq<Call>, client: string, from: int, to: int)
    requires l.rate > 0.0 && |calls| > 0
    ensures var (before, last) := (calls[..|calls| - 1], calls[|calls| - 1]);
            AllowedIn(l, start, calls, client, from, to) ==
              AllowedIn(l, start, before, client, from, to) +
              if last.client == client && from <= last.at <= to && Allow(l, Run(l, start, before), client, last.at).1.allowed
              then 1 else 0
  {}

  /** A client's private bucket is exactly what some window of its allowed calls leaves. */
  lemma {:induction false} SomeWindowIsUsedUp(l: Limits, start: int, calls: seq<Call>, client: string, to: int) returns (from: int)
    requires Configured(l) && l.rate * Seconds(l.ttl) >= l.burst as real && Monotone(start, calls)
    requires LastTime(start, calls) <= to
    ensures Private(l, calls, client).Some? ==>
              && Private(l, calls, client).value.lastSeen <= to
              && UsedUpBut(l, AllowedIn(l, start, calls, client, from, to), Private(l, calls, client).value, from)
  {
    from := to;
    if |calls| > 0 {
      var before, last := calls[..|calls| - 1], calls[|calls| - 1];
      assert Monotone(start, before) && LastTime(start, before) <= last.at;
      from := SomeWindowIsUsedUp(l, start, before, client, to);
      if last.client == client {
        RunMirrors(l, start, before, client);
        from := CallUsesUp(l, start, before, client, from, last.at, to);
      }
      AllowedOneMoreCall(l, start, calls, client, from, to);
    }
  }

  lemma CallUsesUp(l: Limits, start: int, calls: seq<Call>, client: string, from: int, now: int, to: int) returns (from': int)
    requires Configured(l) && l.rate * Seconds(l.ttl) >= l.burst as real
    requires Mirrors(l, Run(l, start, calls), Private(l, calls, client), client, LastTime(start, calls))
    requires LastTime(start, calls) <= now <= to
    requires var p := Private(l, calls, client);
             p.Some? ==> UsedUpBut(l, AllowedIn(l, start, calls, client, from, to), p.value, from)
    ensures var b := Take(l, PrivateFor(l, Private(l, calls, client), now), now).0;
            var n := AllowedIn(l, start, calls, client, from', to);
            && from' <= now && b.lastSeen == now
            && UsedUpBut(l, n + if Allow(l, Run(l, start, calls), client, now).1.allowed then 1 else 0, b, from')
  {
    var p := Private(l, calls, client);
    AllowMirrors(l, Run(l, start, calls), p, client, client, LastTime(start, calls), now);
    if p.None? {
      from' := now;
      NewBucketUsesUp(l, AllowedIn(l, start, calls, client, now, to), now);
    } else {
      from' := NextCallUsesUp(l, AllowedIn(l, start, calls, client, from, to), AllowedIn(l, start, calls, client, now, to),
                              p.value, from, now);
      TakeKeepsSane(l, p.value, now);
    }
  }

  lemma RefilledFits(l: Limits, n: nat, b: Bucket, from: int, now: int)
    requires Configured(l) && Sane(l, b, now) && from <= now
    requires if b.lastSeen < from then n == 0 else n as real + b.tokens <= Budget(l, from, b.lastSeen)
    ensures n as real + Refilled(l, b, now).tokens <= Budget(l, from, now)
  {
    if b.lastSeen < from {
      BudgetGrows(l, from, from, now);
    } else {
      BudgetGrows(l, from, b.lastSeen, now);
    }
  }

  /** What is in the bucket at `now`, before the call, fits into every window that ends at `now`. */
  lemma TokensFit(l: Limits, start: int, calls: seq<Call>, client: string, from: int, now: int)
    requires Configured(l) && l.rate * Seconds(l.ttl) >= l.burst as real && Monotone(start, calls)
    requires LastTime(start, calls) <= now && from <= now
    ensures var tokens := Refilled(l, PrivateFor(l, Private(l, calls, client), now), now).tokens;
            AllowedIn(l, start, calls, client, from, now) as real + tokens <= Budget(l, from, now)
  {
    RunWithinBudget(l, start, calls, client, from, now);
    var p := Private(l, calls, client);
    if p.Some? {
      RefilledFits(l, AllowedIn(l, start, calls, client, from, now), p.value, from, now);
    } else {
      BudgetGrows(l, from, from, now);
    }
  }

  lemma RejectedLeavesNoRoom(l: Limits, n: nat, b: Bucket, from: int, now: int)
    requires Configured(l) && Sane(l, b, now) && UsedUpBut(l, n, b, from) && Refilled(l, b, now).tokens < 1.0
    ensures from <= now && n as real + 1.0 > Budget(l, from, now)
  {
    BudgetGrows(l, from, b.lastSeen, now);
  }

  /** A call is allowed exactly when it exceeds no window together with the calls allowed before. */
  lemma AllowedIffItFits(l: Limits, start: int, calls: seq<Call>, client: string, now: int)
    requires Configured(l) && l.rate * Seconds(l.ttl) >= l.burst as real && Monotone(start, calls + [Call(client, now)])
    ensures Allow(l, Run(l, start, calls), client, now).1.allowed <==> FitsEveryWindow(l, start, calls, client, now)
  {
    PrefixIsMonotone(start, calls, [Call(client, now)]);
    RunMirrors(l, start, calls, client);
    var p := Private(l, calls, client);
    AllowMirrors(l, Run(l, start, calls), p, client, client, LastTime(start, calls), now);
    if Allow(l, Run(l, start, calls), client, now).1.allowed {
      forall from | from <= now
        ensures AllowedIn(l, start, calls, client, from, now) as real + 1.0 <= Budget(l, from, now)
      {
        TokensFit(l, start, calls, client, from, now);
      }
    } else {
      var from := SomeWindowIsUsedUp(l, start, calls, client, now);
      RejectedLeavesNoRoom(l, AllowedIn(l, start, calls, client, from, now), p.value, from, now);
    }
  }

  /** Every call of every run is allowed exactly when it exceeds no window. */
  ghost predicate AllowsAllThatFits(l: Limits)
    requires l.rate > 0.0
  {
    forall start, calls, client, now | Monotone(start, calls + [Call(client, now)]) ::
      Allow(l, Run(l, start, calls), client, now).1.allowed <==> FitsEveryWindow(l, start, calls, client, now)
  }

  /** When the bucket is drained again after one TTL, the last call exceeds the window of both. */
  lemma LastOfSecondDrainDoesNotFit(l: Limits)
    requires Configured(l) && l.rate * Seconds(l.ttl) < l.burst as real
    ensures var calls := Drain(l.burst) + Again(l, l.burst - 1);
            && Monotone(0, calls + [Call("a", l.ttl)])
            && Allow(l, Run(l, 0, calls), "a", l.ttl).1.allowed && !FitsEveryWindow(l, 0, calls, "a", l.ttl)
  {
    var calls := Drain(l.burst) + Again(l, l.burst - 1);
    assert calls + [Call("a", l.ttl)] == Drain(l.burst) + Again(l, l.burst);
    AgainIsAllowed(l, l.burst - 1);
    AgainIsAllowed(l, l.burst);
    AllowedOneMore(l, 0, calls, Call("a", l.ttl), 0, l.ttl);
    AgainIsMonotone(l);
    BoundOfOneTtl(l, AllowedIn(l, 0, calls, "a", 0, l.ttl) + 1);
  }

  /** The limiter allows all that fits, and nothing else, iff a bucket refills within one TTL. */
  lemma AllowsAllThatFitsIff(l: Limits)
    requires Configured(l)
    ensures AllowsAllThatFits(l) <==> l.rate * Seconds(l.ttl) >= l.burst as real
  {
    if l.rate * Seconds(l.ttl) >= l.burst as real {
      forall start, calls, client, now | Monotone(start, calls + [Call(client, now)])
        ensures Allow(l, Run(l, start, calls), client, now).1.allowed <==> FitsEveryWindow(l, start, calls, client, now)
      {
        AllowedIffItFits(l, start, calls, client, now);
      }
    } else {
      LastOfSecondDrainDoesNotFit(l);
    }
  }

  // ---------- Silence is paid out ----------

  /** The whole tokens a client must at least find again: those it had left, and what was refilled. */
  function Regained(l: Limits, remaining: int, wait: nat): int {
    var sum := remaining + (l.rate * Seconds(wait)).Floor;
    if sum <= l.burst then sum else l.burst
  }

  lemma BucketRegains(l: Limits, b: Bucket, now: int, wait: nat)
    requires Configured(l) && Sane(l, b, now) && b.lastSeen == now
    ensures var answer := Take(l, b, now + wait).1;
            Regained(l, b.tokens.Floor, wait) >= 1 ==> answer.allowed && answer.remaining >= Regained(l, b.tokens.Floor, wait) - 1
  {
    assert Seconds(wait) * l.rate == l.rate * Seconds(wait);
  }

  /** A client that is silent after an answer, while others call, finds at least what was left and what
      has been refilled since, up to the burst; with or without eviction. */
  lemma SilenceIsPaidOut(l: Limits, start: int, calls: seq<Call>, client: string, now: int, others: seq<Call>, wait: nat)
    requires Configured(l) && Returns(start, calls, client, now, others, wait)
    ensures var first := Allow(l, Run(l, start, calls), client, now).1;
            var next := Allow(l, Run(l, start, calls + [Call(client, now)] + others), client, now + wait).1;
            Regained(l, first.remaining, wait) >= 1 ==> next.allowed && next.remaining >= Regained(l, first.remaining, wait) - 1
  {
    var called := calls + [Call(client, now)];
    var all := called + others;
    PrefixIsMonotone(start, all, [Call(client, now + wait)]);
    PrefixIsMonotone(start, called, others);
    PrefixIsMonotone(start, calls, [Call(client, now)]);
    RunIsSane(l, start, calls);
    RunOneMore(l, start, calls, Call(client, now));
    var found := BucketFor(l, Evicted(l, Run(l, start, calls), now).clients, client, now);
    TakeKeepsSane(l, found, now);
    var b := Take(l, found, now).0;
    SilentMirrors(l, start, called, others, client, b);
    BucketRegains(l, b, now, wait);
    ReturnIsPaidOut(l, Run(l, start, all), b, client, now, wait, LastTime(start, all));
  }

  /** A new bucket is at least as good. */
  lemma ReturnIsPaidOut(l: Limits, s: State, b: Bucket, client: string, now: int, wait: nat, before: int)
    requires Configured(l) && Sane(l, b, now) && b.lastSeen == now
    requires Mirrors(l, s, Some(b), client, before) && before <= now + wait
    requires Regained(l, b.tokens.Floor, wait) >= 1 ==>
               Take(l, b, now + wait).1.allowed && Take(l, b, now + wait).1.remaining >= Regained(l, b.tokens.Floor, wait) - 1
    ensures var next := Allow(l, s, client, now + wait).1;
            Regained(l, b.tokens.Floor, wait) >= 1 ==> next.allowed && next.remaining >= Regained(l, b.tokens.Floor, wait) - 1
  {}
}

/** Bounds of the token bucket, and why eviction cannot be observed. */
module LimiterTheorems {
  import opened Wrappers
  import opened Arithmetic
  import opened TokenBucket

  ghost predicate Sane(l: Limits, b: Bucket, now: int) {
    0.0 <= b.tokens <= l.burst as real && b.updated == b.lastSeen <= now
  }

  // ---------- One bucket ----------

  lemma TakeKeepsSane(l: Limits, b: Bucket, now: int)
    requires Configured(l) && Sane(l, b, now)
    ensures Sane(l, Take(l, b, now).0, now) && Take(l, b, now).0.lastSeen == now
  {
    ProductIsMonotone(0.0, Seconds(now - b.updated), l.rate);
  }

  /** A bucket that idled long enough to refill is as good as a new one. */
  lemma IdleBucketIsFull(l: Limits, b: Bucket, now: int)
    requires Configured(l) && l.rate * Seconds(l.ttl) >= l.burst as real
    requires Sane(l, b, now) && now - b.lastSeen >= l.ttl
    ensures Take(l, b, now) == Take(l, FullBucket(l, now), now)
  {
    ProductIsMonotone(Seconds(l.ttl), Seconds(now - b.updated), l.rate);
    assert Refilled(l, b, now).tokens == l.burst as real;
  }

  /** At the same instant, tokens go down one by one until less than one is left. */
  lemma {:induction false} RepeatsTakeOneEach(l: Limits, b: Bucket, now: int, k: nat)
    requires Configured(l) && Sane(l, b, now) && b.updated == now
    ensures var after := AfterRepeats(l, b, now, k);
            && Sane(l, after, now) && after.updated == now
            && after.tokens == b.tokens - (if k <= b.tokens.Floor then k else b.tokens.Floor) as real
  {
    if k > 0 {
      RepeatsTakeOneEach(l, b, now, k - 1);
      TakeKeepsSane(l, AfterRepeats(l, b, now, k - 1), now);
    }
  }

  /** The reported remainder is exactly how many further calls at that instant the bucket lets pass. */
  lemma BucketRemaining(l: Limits, b: Bucket, now: int, k: nat)
    requires Configured(l) && Sane(l, b, now)
    ensures var (after, answer) := Take(l, b, now);
            Take(l, AfterRepeats(l, after, now, k), now).1.allowed <==> k < answer.remaining
  {
    TakeKeepsSane(l, b, now);
    RepeatsTakeOneEach(l, Take(l, b, now).0, now, k);
  }

  lemma WaitRefillsToOne(l: Limits, tokens: real, wait: int)
    requires l.rate > 0.0 && tokens < 1.0
    ensures tokens + Seconds(wait) * l.rate >= 1.0 <==> wait as real >= ExactWait(l, tokens)
  {
    var missing := 1.0 - tokens;
    var exact := missing / l.rate * NANOS_PER_SECOND;
    assert exact / NANOS_PER_SECOND == missing / l.rate;
    assert missing / l.rate * l.rate == missing;
    assert Seconds(wait) >= missing / l.rate <==> wait as real >= exact;
    if Seconds(wait) >= missing / l.rate {
      ProductIsMonotone(missing / l.rate, Seconds(wait), l.rate);
    } else {
      assert Seconds(wait) * l.rate < missing / l.rate * l.rate;
    }
  }

  /**
   A bucket that rejected a call and is left alone still rejects before the reported wait is
   over, and allows one nanosecond after it. At the wait itself it allows iff the exact wait
   was a whole number of nanoseconds.
   */
  lemma BucketRetryAfter(l: Limits, b: Bucket, now: int, wait: nat)
    requires Configured(l) && Sane(l, b, now)
    requires !Take(l, b, now).1.allowed
    ensures var (after, answer) := Take(l, b, now);
            var exact := ExactWait(l, after.tokens);
            && answer.retryAfter as real <= exact < (answer.retryAfter + 1) as real
            && (wait < answer.retryAfter ==> !Take(l, after, now + wait).1.allowed)
            && (wait > answer.retryAfter ==> Take(l, after, now + wait).1.allowed)
            && (wait == answer.retryAfter ==> (Take(l, after, now + wait).1.allowed <==> exact == wait as real))
  {
    var (after, answer) := Take(l, b, now);
    WaitRefillsToOne(l, after.tokens, wait);
    ProductIsMonotone(0.0, Seconds(now - b.updated), l.rate);
  }

  // ---------- Isolation ----------

  /** Without eviction, clients never influence each other, whatever the clock does. */
  lemma {:induction false} ForeverIsPrivate(l: Limits, calls: seq<Call>, client: string)
    requires l.rate > 0.0
    ensures var clients := RunForever(l, calls);
            && (client in clients <==> Private(l, calls, client).Some?)
            && (client in clients ==> Private(l, calls, client) == Some(clients[client]))
  {
    if |calls| > 0 {
      ForeverIsPrivate(l, calls[..|calls| - 1], client);
    }
  }

  /** The bounded limiter's record of a client, compared with its private bucket. */
  ghost predicate Mirrors(l: Limits, s: State, p: Option<Bucket>, client: string, now: int) {
    if client in s.clients
    then p == Some(s.clients[client]) && Sane(l, p.value, now)
    else p.None? || (Sane(l, p.value, now) && now - p.value.lastSeen >= l.ttl)
  }

  /** A call of another client leaves the record alone, or evicts it. */
  lemma OtherCallMirrors(l: Limits, s: State, p: Option<Bucket>, client: string, caller: string, before: int, now: int)
    requires Configured(l) && Mirrors(l, s, p, client, before) && before <= now && caller != client
    ensures Mirrors(l, Allow(l, s, caller, now).0, p, client, now)
  {}

  lemma AllowMirrors(l: Limits, s: State, p: Option<Bucket>, client: string, caller: string, before: int, now: int)
    requires Configured(l) && l.rate * Seconds(l.ttl) >= l.burst as real
    requires Mirrors(l, s, p, client, before) && before <= now
    ensures caller == client ==>
              && Allow(l, s, caller, now).1 == Take(l, PrivateFor(l, p, now), now).1
              && Mirrors(l, Allow(l, s, caller, now).0, Some(Take(l, PrivateFor(l, p, now), now).0), client, now)
    ensures caller != client ==> Mirrors(l, Allow(l, s, caller, now).0, p, client, now)
  {
    if caller == client {
      var kept := Evicted(l, s, now);
      if p.Some? && client !in kept.clients {
        IdleBucketIsFull(l, p.value, now);
      }
      TakeKeepsSane(l, PrivateFor(l, p, now), now);
    }
  }

  ghost function LastTime(start: int, calls: seq<Call>): int {
    if |calls| == 0 then start else calls[|calls| - 1].at
  }

  lemma {:induction false} RunMirrors(l: Limits, start: int, calls: seq<Call>, client: string)
    requires Configured(l) && l.rate * Seconds(l.ttl) >= l.burst as real && Monotone(start, calls)
    ensures Mirrors(l, Run(l, start, calls), Private(l, calls, client), client, LastTime(start, calls))
  {
    if |calls| > 0 {
      var before, last := calls[..|calls| - 1], calls[|calls| - 1];
      assert Monotone(start, before);
      RunMirrors(l, start, before, client);
      assert LastTime(start, before) <= last.at;
      AllowMirrors(l, Run(l, start, before), Private(l, before, client), client, last.client,
                   LastTime(start, before), last.at);
    }
  }

  /** Every answer of the bounded limiter is the one of a private bucket that is never evicted. */
  ghost predicate EvictionIsInvisible(l: Limits)
    requires l.rate > 0.0
  {
    forall start, calls, client, now | Monotone(start, calls + [Call(client, now)]) ::
      Allow(l, Run(l, start, calls), client, now).1 == PrivateAnswer(l, calls, client, now)
  }

  lemma RefillWithinTtlHidesEviction(l: Limits)
    requires Configured(l) && l.rate * Seconds(l.ttl) >= l.burst as real
    ensures EvictionIsInvisible(l)
  {
    forall start, calls, client, now | Monotone(start, calls + [Call(client, now)])
      ensures Allow(l, Run(l, start, calls), client, now).1 == PrivateAnswer(l, calls, client, now)
    {
      var all := calls + [Call(client, now)];
      assert forall i | 0 <= i < |calls| :: all[i] == calls[i];
      assert Monotone(start, calls);
      RunMirrors(l, start, calls, client);
      assert all[|calls|].at == now;
      assert LastTime(start, calls) <= now;
      AllowMirrors(l, Run(l, start, calls), Private(l, calls, client), client, client, LastTime(start, calls), now);
    }
  }

  // ---------- The condition is necessary ----------

  function Drain(n: nat): seq<Call> {
    seq(n, i => Call("a", 0))
  }

  lemma {:induction false} DrainEmptiesTheBucket(l: Limits, n: nat)
    requires Configured(l) && n <= l.burst
    ensures var s := Run(l, 0, Drain(n));
            && s.lastCleanup == 0
            && (n == 0 ==> s.clients == map[] && Private(l, Drain(n), "a").None?)
            && (n > 0 ==> s.clients == map["a" := Bucket((l.burst - n) as real, 0, 0)]
                          && Private(l, Drain(n), "a") == Some(s.clients["a"]))
  {
    if n > 0 {
      DrainEmptiesTheBucket(l, n - 1);
      assert Drain(n)[..n - 1] == Drain(n - 1);
    }
  }

  /** A client that drains its bucket and returns after exactly one TTL sees the eviction. */
  lemma SlowRefillShowsEviction(l: Limits)
    requires Configured(l) && l.rate * Seconds(l.ttl) < l.burst as real
    ensures Monotone(0, Drain(l.burst) + [Call("a", l.ttl)])
    ensures Allow(l, Run(l, 0, Drain(l.burst)), "a", l.ttl).1 != PrivateAnswer(l, Drain(l.burst), "a", l.ttl)
  {
    DrainEmptiesTheBucket(l, l.burst);
    var s := Run(l, 0, Drain(l.burst));
    assert Evicted(l, s, l.ttl).clients == map[];
    assert Allow(l, s, "a", l.ttl).1 == Answer(true, l.burst - 1, 0);
    assert Refilled(l, s.clients["a"], l.ttl).tokens == l.rate * Seconds(l.ttl);
  }

  /** Eviction cannot be observed by any client in any run iff a bucket refills within one TTL. */
  lemma EvictionIsInvisibleIff(l: Limits)
    requires Configured(l)
    ensures EvictionIsInvisible(l) <==> l.rate * Seconds(l.ttl) >= l.burst as real
  {
    if l.rate * Seconds(l.ttl) >= l.burst as real {
      RefillWithinTtlHidesEviction(l);
    } else {
      SlowRefillShowsEviction(l);
    }
  }

  /** All of this takes calls in the order of their times. A call that arrives late, after a sweep, with a
      time before it, sees the eviction of its bucket in every configuration. */
  lemma LateCallShowsEviction(l: Limits)
    requires Configured(l)
    ensures var calls := Drain(l.burst) + [Call("b", l.ttl)];
            && Monotone(0, calls)
            && Allow(l, Run(l, 0, calls), "a", 0).1.allowed && !PrivateAnswer(l, calls, "a", 0).allowed
  {
    var drained, late := Drain(l.burst), Call("b", l.ttl);
    var calls := drained + [late];
    DrainEmptiesTheBucket(l, l.burst);
    assert calls[..l.burst] == drained;
    assert Evicted(l, Run(l, 0, drained), l.ttl) == State(map[], l.ttl);
    assert Run(l, 0, calls).clients.Keys == {"b"};
  }

  // ---------- Bounds over runs ----------

  /** The burst, plus what has been refilled since `from`. */
  ghost function Budget(l: Limits, from: int, now: int): real {
    l.burst as real + l.rate * Seconds(now - from)
  }

  lemma BudgetGrows(l: Limits, from: int, t: int, now: int)
    requires l.rate > 0.0 && t <= now
    ensures Budget(l, from, now) == Budget(l, from, t) + Seconds(now - t) * l.rate
    ensures Budget(l, from, t) <= Budget(l, from, now)
  {
    assert Seconds(now - from) == Seconds(t - from) + Seconds(now - t);
    ProductIsMonotone(0.0, Seconds(now - t), l.rate);
  }

  /** n calls were allowed in the window, and b is the client's bucket. */
  ghost predicate WithinBudget(l: Limits, n: nat, b: Bucket, from: int, to: int) {
    if b.lastSeen < from then n == 0
    else if b.lastSeen <= to then n as real + b.tokens <= Budget(l, from, b.lastSeen)
    else n as real <= Budget(l, from, to)
  }

  lemma FirstCallWithinBudget(l: Limits, b: Bucket, from: int, to: int, now: int)
    requires Configured(l) && from <= to && Sane(l, b, now)
    ensures var (b', answer) := Take(l, b, now);
            WithinBudget(l, if from <= now <= to && answer.allowed then 1 else 0, b', from, to)
  {
    TakeKeepsSane(l, b, now);
    BudgetGrows(l, from, from, to);
    if from <= now {
      BudgetGrows(l, from, from, now);
    }
  }

  lemma NextCallWithinBudget(l: Limits, n: nat, b: Bucket, from: int, to: int, now: int)
    requires Configured(l) && from <= to && Sane(l, b, now) && WithinBudget(l, n, b, from, to)
    ensures var (b', answer) := Take(l, b, now);
            WithinBudget(l, n + if from <= now <= to && answer.allowed then 1 else 0, b', from, to)
  {
    if b.lastSeen < from {
      FirstCallWithinBudget(l, b, from, to, now);
    } else if b.lastSeen <= to {
      TakeKeepsSane(l, b, now);
      BudgetGrows(l, from, b.lastSeen, now);
      BudgetGrows(l, from, b.lastSeen, to);
    } else {
      TakeKeepsSane(l, b, now);
    }
  }

  lemma {:induction false} RunWithinBudget(l: Limits, start: int, calls: seq<Call>, client: string, from: int, to: int)
    requires Configured(l) && l.rate * Seconds(l.ttl) >= l.burst as real && Monotone(start, calls) && from <= to
    ensures var n, p := AllowedIn(l, start, calls, client, from, to), Private(l, calls, client);
            && (p.None? ==> n == 0)
            && (p.Some? ==> Sane(l, p.value, LastTime(start, calls)) && WithinBudget(l, n, p.value, from, to))
  {
    if |calls| > 0 {
      var before, last := calls[..|calls| - 1], calls[|calls| - 1];
      assert Monotone(start, before);
      RunWithinBudget(l, start, before, client, from, to);
      assert LastTime(start, before) <= last.at;
      if last.client == client {
        RunMirrors(l, start, before, client);
        CallWithinBudget(l, Run(l, start, before), Private(l, before, client),
                         AllowedIn(l, start, before, client, from, to), client, from, to, LastTime(start, before), last.at);
      }
    }
  }

  /** A call of the client to the bounded limiter, in terms of its private bucket. */
  lemma CallWithinBudget(l: Limits, s: State, p: Option<Bucket>, n: nat, client: string, from: int, to: int, before: int, now: int)
    requires Configured(l) && l.rate * Seconds(l.ttl) >= l.burst as real && from <= to
    requires Mirrors(l, s, p, client, before) && before <= now
    requires if p.None? then n == 0 else Sane(l, p.value, before) && WithinBudget(l, n, p.value, from, to)
    ensures var b := Take(l, PrivateFor(l, p, now), now).0;
            var n' := n + if from <= now <= to && Allow(l, s, client, now).1.allowed then 1 else 0;
            Sane(l, b, now) && WithinBudget(l, n', b, from, to)
  {
    AllowMirrors(l, s, p, client, client, before, now);
    TakeKeepsSane(l, PrivateFor(l, p, now), now);
    if p.None? {
      FirstCallWithinBudget(l, FullBucket(l, now), from, to, now);
    } else {
      NextCallWithinBudget(l, n, p.value, from, to, now);
    }
  }

  /** In any window, a client is allowed at most its burst plus what the window refills. */
  lemma {:induction false} AllowedInWindow(l: Limits, start: int, calls: seq<Call>, client: string, from: int, to: int)
    requires Configured(l) && l.rate * Seconds(l.ttl) >= l.burst as real && Monotone(start, calls)
    requires from <= to
    ensures AllowedIn(l, start, calls, client, from, to) as real <= Budget(l, from, to)
  {
    RunWithinBudget(l, start, calls, client, from, to);
    BudgetGrows(l, from, from, to);
    var p := Private(l, calls, client);
    if p.Some? && from <= p.value.lastSeen <= to {
      BudgetGrows(l, from, p.value.lastSeen, to);
    }
  }

  ghost predicate RecentlySwept(l: Limits, s: State, now: int) {
    && now - s.lastCleanup < l.ttl
    && (forall c | c in s.clients :: s.lastCleanup - s.clients[c].lastSeen < l.ttl)
  }

  lemma AllowKeepsSwept(l: Limits, s: State, client: string, before: int, now: int)
    requires Configured(l) && RecentlySwept(l, s, before) && s.lastCleanup <= before <= now
    ensures var s' := Allow(l, s, client, now).0;
            RecentlySwept(l, s', now) && s'.lastCleanup <= now
  {
    var kept := Evicted(l, s, now);
    assert RecentlySwept(l, kept, now);
    assert Take(l, BucketFor(l, kept.clients, client, now), now).0.lastSeen == now;
  }

  lemma {:induction false} RunIsSwept(l: Limits, start: int, calls: seq<Call>)
    requires Configured(l) && Monotone(start, calls)
    ensures RecentlySwept(l, Run(l, start, calls), LastTime(start, calls))
    ensures Run(l, start, calls).lastCleanup <= LastTime(start, calls)
  {
    if |calls| > 0 {
      var before, last := calls[..|calls| - 1], calls[|calls| - 1];
      assert Monotone(start, before);
      RunIsSwept(l, start, before);
      assert LastTime(start, before) <= last.at;
      AllowKeepsSwept(l, Run(l, start, before), last.client, LastTime(start, before), last.at);
    }
  }

  /** The limiter's memory is bounded in time: it only keeps clients seen less than two TTLs ago. */
  lemma {:induction false} RetainedWereSeenRecently(l: Limits, start: int, calls: seq<Call>, client: string)
    requires Configured(l) && Monotone(start, calls) && client in Run(l, start, calls).clients
    ensures LastTime(start, calls) - Run(l, start, calls).clients[client].lastSeen < 2 * l.ttl
  {
    RunIsSwept(l, start, calls);
  }

  // ---------- Answers of the limiter, amid other clients ----------

  ghost predicate AllSane(l: Limits, s: State, now: int) {
    forall c | c in s.clients :: Sane(l, s.clients[c], now)
  }

  lemma AllowKeepsSane(l: Limits, s: State, client: string, before: int, now: int)
    requires Configured(l) && AllSane(l, s, before) && before <= now
    ensures AllSane(l, Allow(l, s, client, now).0, now)
  {
    TakeKeepsSane(l, BucketFor(l, Evicted(l, s, now).clients, client, now), now);
  }

  lemma {:induction false} RunIsSane(l: Limits, start: int, calls: seq<Call>)
    requires Configured(l) && Monotone(start, calls)
    ensures AllSane(l, Run(l, start, calls), LastTime(start, calls))
  {
    if |calls| > 0 {
      var before, last := calls[..|calls| - 1], calls[|calls| - 1];
      assert Monotone(start, before);
      RunIsSane(l, start, before);
      assert LastTime(start, before) <= last.at;
      AllowKeepsSane(l, Run(l, start, before), last.client, LastTime(start, before), last.at);
    }
  }

  ghost predicate Silent(calls: seq<Call>, client: string) {
    forall i | 0 <= i < |calls| :: calls[i].client != client
  }

  lemma PrefixIsMonotone(start: int, calls: seq<Call>, more: seq<Call>)
    requires Monotone(start, calls + more)
    ensures Monotone(start, calls)
    ensures LastTime(start, calls) <= LastTime(start, calls + more)
  {
    var all := calls + more;
    assert forall i | 0 <= i < |calls| :: all[i] == calls[i];
  }

  /** While a client is silent, the limiter keeps its bucket or evicts it after a TTL. */
  lemma {:induction false} SilentMirrors(l: Limits, start: int, calls: seq<Call>, others: seq<Call>, client: string, b: Bucket)
    requires Configured(l) && Monotone(start, calls + others) && Silent(others, client)
    requires Mirrors(l, Run(l, start, calls), Some(b), client, LastTime(start, calls))
    ensures Mirrors(l, Run(l, start, calls + others), Some(b), client, LastTime(start, calls + others))
  {
    if |others| == 0 {
      assert calls + others == calls;
    } else {
      var n := |others| - 1;
      var all, before := calls + others, calls + others[..n];
      assert all[..|all| - 1] == before && all == before + [others[n]];
      PrefixIsMonotone(start, before, [others[n]]);
      SilentMirrors(l, start, calls, others[..n], client, b);
      OtherCallMirrors(l, Run(l, start, before), Some(b), client, others[n].client, LastTime(start, before), others[n].at);
    }
  }

  /** A call at `now`, then calls of others only, then the client again after the wait. */
  ghost predicate Returns(start: int, calls: seq<Call>, client: string, now: int, others: seq<Call>, wait: nat) {
    Monotone(start, calls + [Call(client, now)] + others + [Call(client, now + wait)]) && Silent(others, client)
  }

  /** If the first call was rejected, the second is judged as the reported wait says. */
  ghost predicate WaitIsRight(l: Limits, start: int, calls: seq<Call>, client: string, now: int, others: seq<Call>, wait: nat)
    requires l.rate > 0.0
  {
    var (s, answer) := Allow(l, Run(l, start, calls), client, now);
    var exact := ExactWait(l, s.clients[client].tokens);
    var allowed := Allow(l, Run(l, start, calls + [Call(client, now)] + others), client, now + wait).1.allowed;
    !answer.allowed ==> JudgedRight(answer.retryAfter, exact, allowed, wait)
  }

  /** Rejected before the reported wait, allowed after it, and at it iff it is the exact one. */
  ghost predicate JudgedRight(retryAfter: int, exact: real, allowed: bool, wait: nat) {
    && (wait < retryAfter ==> !allowed)
    && (wait > retryAfter ==> allowed)
    && (wait == retryAfter ==> (allowed <==> exact == wait as real))
  }

  lemma AllowedTooEarly(exact: real, wait: nat)
    requires exact > wait as real
    ensures !JudgedRight(exact.Floor, exact, true, wait)
  {}

  /** The reported wait is right in every run, whatever other clients do in between. */
  ghost predicate RetryAfterIsExact(l: Limits)
    requires l.rate > 0.0
  {
    forall start, calls, client, now, others, wait: nat | Returns(start, calls, client, now, others, wait) ::
      WaitIsRight(l, start, calls, client, now, others, wait)
  }

  lemma RunOneMore(l: Limits, start: int, calls: seq<Call>, call: Call)
    requires l.rate > 0.0
    ensures Run(l, start, calls + [call]) == Allow(l, Run(l, start, calls), call.client, call.at).0
  {
    assert (calls + [call])[..|calls|] == calls;
  }

  /** An evicted client is allowed; if a token is refilled within one TTL, its wait was over by then. */
  lemma EvictedWaitedEnough(l: Limits, tokens: real, wait: nat)
    requires Configured(l) && l.rate * Seconds(l.ttl) >= 1.0 && 0.0 <= tokens < 1.0 && wait >= l.ttl
    ensures RetryAfter(l, tokens) <= wait
    ensures ExactWait(l, tokens) <= wait as real
  {
    ProductIsMonotone(Seconds(l.ttl), Seconds(wait), l.rate);
    WaitRefillsToOne(l, tokens, wait);
    FloorIsBelow(ExactWait(l, tokens), wait);
  }

  lemma FloorIsBelow(x: real, n: int)
    ensures x <= n as real ==> x.Floor <= n
    ensures n as real <= x ==> n <= x.Floor
  {}

  lemma TokenWithinTtlMakesWaitRight(l: Limits, start: int, calls: seq<Call>, client: string, now: int, others: seq<Call>, wait: nat)
    requires Configured(l) && l.rate * Seconds(l.ttl) >= 1.0 && Returns(start, calls, client, now, others, wait)
    ensures WaitIsRight(l, start, calls, client, now, others, wait)
  {
    var called := calls + [Call(client, now)];
    var all := called + others;
    PrefixIsMonotone(start, all, [Call(client, now + wait)]);
    PrefixIsMonotone(start, called, others);
    PrefixIsMonotone(start, calls, [Call(client, now)]);
    RunIsSane(l, start, calls);
    var s := Run(l, start, calls);
    RunOneMore(l, start, calls, Call(client, now));
    var found := BucketFor(l, Evicted(l, s, now).clients, client, now);
    assert Sane(l, found, now);
    TakeKeepsSane(l, found, now);
    var b := Take(l, found, now).0;
    SilentMirrors(l, start, called, others, client, b);
    ReturnIsJudged(l, Run(l, start, all), found, client, now, wait, LastTime(start, all));
  }

  /** The second call, in terms of the bucket that rejected the first. */
  lemma ReturnIsJudged(l: Limits, s: State, found: Bucket, client: string, now: int, wait: nat, before: int)
    requires Configured(l) && l.rate * Seconds(l.ttl) >= 1.0 && Sane(l, found, now)
    requires Mirrors(l, s, Some(Take(l, found, now).0), client, before) && before <= now + wait
    ensures var (b, answer) := Take(l, found, now);
            var exact := ExactWait(l, b.tokens);
            var allowed := Allow(l, s, client, now + wait).1.allowed;
            !answer.allowed ==> JudgedRight(answer.retryAfter, exact, allowed, wait)
  {
    var (b, answer) := Take(l, found, now);
    if !answer.allowed {
      TakeKeepsSane(l, found, now);
      BucketRetryAfter(l, found, now, wait);
      if client !in Evicted(l, s, now + wait).clients {
        assert wait >= l.ttl;
        EvictedWaitedEnough(l, b.tokens, wait);
      }
    }
  }

  lemma TokenTakesLonger(l: Limits)
    requires Configured(l) && l.rate * Seconds(l.ttl) < 1.0
    ensures ExactWait(l, 0.0) > l.ttl as real
  {
    WaitRefillsToOne(l, 0.0, l.ttl);
  }

  lemma EmptyBucketIsEvicted(l: Limits, s: State)
    requires Configured(l) && s == State(map["a" := Bucket(0.0, 0, 0)], 0)
    ensures Allow(l, s, "a", 0) == (s, Answer(false, 0, RetryAfter(l, 0.0)))
    ensures Allow(l, s, "a", l.ttl).1.allowed
  {
    assert s.clients["a" := Bucket(0.0, 0, 0)] == s.clients;
    assert Evicted(l, s, l.ttl).clients == map[];
  }

  /** A client that drained its bucket and is rejected is evicted, and allowed, before its wait is over. */
  lemma SlowTokenShowsEviction(l: Limits)
    requires Configured(l) && l.rate * Seconds(l.ttl) < 1.0
    ensures Returns(0, Drain(l.burst), "a", 0, [], l.ttl) && !WaitIsRight(l, 0, Drain(l.burst), "a", 0, [], l.ttl)
  {
    var calls, s := Drain(l.burst), State(map["a" := Bucket(0.0, 0, 0)], 0);
    DrainEmptiesTheBucket(l, l.burst);
    EmptyBucketIsEvicted(l, s);
    RunOneMore(l, 0, calls, Call("a", 0));
    assert calls + [Call("a", 0)] + [] == calls + [Call("a", 0)];
    TokenTakesLonger(l);
    AllowedTooEarly(ExactWait(l, 0.0), l.ttl);
  }

  /** The reported wait is right for every client in every run iff one token is refilled within a TTL. */
  lemma RetryAfterIsExactIff(l: Limits)
    requires Configured(l)
    ensures RetryAfterIsExact(l) <==> l.rate * Seconds(l.ttl) >= 1.0
  {
    if l.rate * Seconds(l.ttl) >= 1.0 {
      forall start, calls, client, now, others, wait: nat | Returns(start, calls, client, now, others, wait)
        ensures WaitIsRight(l, start, calls, client, now, others, wait)
      {
        TokenWithinTtlMakesWaitRight(l, start, calls, client, now, others, wait);
      }
    } else {
      SlowTokenShowsEviction(l);
    }
  }

  function CallsOf(calls: seq<Call>, client: string): nat {
    if |calls| == 0 then 0
    else CallsOf(calls[..|calls| - 1], client) + if calls[|calls| - 1].client == client then 1 else 0
  }

  /** At one instant, a client's bucket is touched by its own calls only. */
  lemma {:induction false} SameInstant(l: Limits, start: int, calls: seq<Call>, more: seq<Call>, client: string, now: int)
    requires Configured(l) && (forall i | 0 <= i < |more| :: more[i].at == now)
    requires var s := Run(l, start, calls); client in s.clients && s.clients[client].lastSeen == now
    ensures var (s, s') := (Run(l, start, calls), Run(l, start, calls + more));
            && client in s'.clients && s'.clients[client].lastSeen == now
            && s'.clients[client] == AfterRepeats(l, s.clients[client], now, CallsOf(more, client))
  {
    if |more| == 0 {
      assert calls + more == calls;
    } else {
      var n := |more| - 1;
      SameInstant(l, start, calls, more[..n], client, now);
      SameInstantCall(l, Run(l, start, calls + more[..n]), more[n], client);
      RunOneMore(l, start, calls + more[..n], more[n]);
      assert calls + more[..n] + [more[n]] == calls + more;
    }
  }

  lemma SameInstantCall(l: Limits, s: State, call: Call, client: string)
    requires Configured(l) && client in s.clients && s.clients[client].lastSeen == call.at
    ensures var s' := Allow(l, s, call.client, call.at).0;
            && client in s'.clients && s'.clients[client].lastSeen == call.at
            && s'.clients[client] == if call.client == client then Take(l, s.clients[client], call.at).0 else s.clients[client]
  {}

  /** The reported remainder is exactly how many further calls of the client at that instant pass,
      whatever other clients call in between. A rejected client has none. */
  lemma RemainingIsExact(l: Limits, start: int, calls: seq<Call>, client: string, now: int, more: seq<Call>)
    requires Configured(l) && Monotone(start, calls + [Call(client, now)])
    requires forall i | 0 <= i < |more| :: more[i].at == now
    ensures Allow(l, Run(l, start, calls + [Call(client, now)] + more), client, now).1.allowed
            <==> CallsOf(more, client) < Allow(l, Run(l, start, calls), client, now).1.remaining
  {
    var called := calls + [Call(client, now)];
    PrefixIsMonotone(start, calls, [Call(client, now)]);
    RunIsSane(l, start, calls);
    RunOneMore(l, start, calls, Call(client, now));
    var found := BucketFor(l, Evicted(l, Run(l, start, calls), now).clients, client, now);
    assert Sane(l, found, now);
    TakeKeepsSane(l, found, now);
    SameInstant(l, start, called, more, client, now);
    BucketRemaining(l, found, now, CallsOf(more, client));
  }

  // ---------- The window bound is exact, too ----------

  ghost predicate WindowsAreBounded(l: Limits)
    requires l.rate > 0.0
  {
    forall start, calls, client, from, to | Monotone(start, calls) && from <= to ::
      AllowedIn(l, start, calls, client, from, to) as real <= Budget(l, from, to)
  }

  function Again(l: Limits, n: nat): seq<Call> {
    seq(n, i => Call("a", l.ttl))
  }

  lemma {:induction false} DrainIsAllowed(l: Limits, n: nat)
    requires Configured(l) && n <= l.burst
    ensures AllowedIn(l, 0, Drain(n), "a", 0, l.ttl) == n
  {
    if n > 0 {
      DrainIsAllowed(l, n - 1);
      DrainEmptiesTheBucket(l, n - 1);
      assert Drain(n)[..n - 1] == Drain(n - 1);
    }
  }

  lemma {:induction false} AgainIsAllowed(l: Limits, n: nat)
    requires Configured(l) && n <= l.burst
    ensures var calls := Drain(l.burst) + Again(l, n);
            && AllowedIn(l, 0, calls, "a", 0, l.ttl) == l.burst + n
            && (n > 0 ==> Run(l, 0, calls) == State(map["a" := Bucket((l.burst - n) as real, l.ttl, l.ttl)], l.ttl))
  {
    var calls := Drain(l.burst) + Again(l, n);
    if n == 0 {
      assert calls == Drain(l.burst);
      DrainIsAllowed(l, l.burst);
    } else {
      AgainIsAllowed(l, n - 1);
      var before := Drain(l.burst) + Again(l, n - 1);
      if n == 1 {
        assert before == Drain(l.burst);
        DrainEmptiesTheBucket(l, l.burst);
      }
      AgainOnce(l, before, n);
      assert calls == before + [Call("a", l.ttl)];
    }
  }

  lemma AgainOnce(l: Limits, before: seq<Call>, n: nat)
    requires Configured(l) && 0 < n <= l.burst
    requires Run(l, 0, before) == if n == 1 then State(map["a" := Bucket(0.0, 0, 0)], 0)
                                  else State(map["a" := Bucket((l.burst - n + 1) as real, l.ttl, l.ttl)], l.ttl)
    ensures var calls := before + [Call("a", l.ttl)];
            && Run(l, 0, calls) == State(map["a" := Bucket((l.burst - n) as real, l.ttl, l.ttl)], l.ttl)
            && AllowedIn(l, 0, calls, "a", 0, l.ttl) == AllowedIn(l, 0, before, "a", 0, l.ttl) + 1
  {
    OnceAgain(l, Run(l, 0, before), n);
    RunOneMore(l, 0, before, Call("a", l.ttl));
    AllowedOneMore(l, 0, before, Call("a", l.ttl), 0, l.ttl);
  }

  lemma AllowedOneMore(l: Limits, start: int, calls: seq<Call>, call: Call, from: int, to: int)
    requires l.rate > 0.0 && from <= call.at <= to
    ensures AllowedIn(l, start, calls + [call], call.client, from, to)
         == AllowedIn(l, start, calls, call.client, from, to)
            + if Allow(l, Run(l, start, calls), call.client, call.at).1.allowed then 1 else 0
  {
    assert (calls + [call])[..|calls|] == calls;
  }

  /** The first call after one TTL finds a full bucket; each further one takes a token. */
  lemma OnceAgain(l: Limits, s: State, n: nat)
    requires Configured(l) && 0 < n <= l.burst
    requires s == if n == 1 then State(map["a" := Bucket(0.0, 0, 0)], 0)
                  else State(map["a" := Bucket((l.burst - n + 1) as real, l.ttl, l.ttl)], l.ttl)
    ensures var (s', answer) := Allow(l, s, "a", l.ttl);
            answer.allowed && s' == State(map["a" := Bucket((l.burst - n) as real, l.ttl, l.ttl)], l.ttl)
  {
    if n == 1 {
      assert Evicted(l, s, l.ttl).clients == map[];
    }
  }

  lemma AgainIsMonotone(l: Limits)
    requires Configured(l)
    ensures Monotone(0, Drain(l.burst) + Again(l, l.burst))
  {}

  lemma BoundOfOneTtl(l: Limits, allowed: nat)
    requires Configured(l) && l.rate * Seconds(l.ttl) < l.burst as real && allowed == l.burst + l.burst
    ensures allowed as real > Budget(l, 0, l.ttl)
  {}

  /** Draining the bucket, and again after one TTL, exceeds a bound with less refill than that. */
  lemma SecondDrainExceeds(l: Limits)
    requires Configured(l) && l.rate * Seconds(l.ttl) < l.burst as real
    ensures !WindowsAreBounded(l)
  {
    var calls := Drain(l.burst) + Again(l, l.burst);
    AgainIsAllowed(l, l.burst);
    AgainIsMonotone(l);
    BoundOfOneTtl(l, AllowedIn(l, 0, calls, "a", 0, l.ttl));
  }

  /** In all runs, all windows are bounded by burst and refill iff a bucket refills within one TTL. */
  lemma WindowsAreBoundedIff(l: Limits)
    requires Configured(l)
    ensures WindowsAreBounded(l) <==> l.rate * Seconds(l.ttl) >= l.burst as real
  {
    if l.rate * Seconds(l.ttl) >= l.burst as real {
      forall start, calls, client, from, to | Monotone(start, calls) && from <= to
        ensures AllowedIn(l, start, calls, client, from, to) as real <= Budget(l, from, to)
      {
        AllowedInWindow(l, start, calls, client, from, to);
      }
    } else {
      SecondDrainExceeds(l);
    }
  }
}

/**
 The rate limiter's rules on values: a token bucket per client, and a limiter that evicts
 idle buckets. Times and durations are nanoseconds; tokens are exact reals.
 */
module TokenBucket {
  import opened Wrappers

  const NANOS_PER_SECOND: real := 1000000000.0

  datatype Limits = Limits(rate: real, burst: nat, ttl: int)

  /** What configuration loading and construction guarantee. */
  predicate Configured(l: Limits) {
    l.rate > 0.0 && l.burst >= 1 && l.ttl > 0
  }

  datatype Bucket = Bucket(tokens: real, updated: int, lastSeen: int)

  datatype Answer = Answer(allowed: bool, remaining: int, retryAfter: int)

  function Seconds(duration: int): real {
    duration as real / NANOS_PER_SECOND
  }

  function Min(a: real, b: real): real {
    if a <= b then a else b
  }

  // ---------- One bucket ----------

  function FullBucket(l: Limits, now: int): Bucket {
    Bucket(l.burst as real, now, now)
  }

  function Refilled(l: Limits, b: Bucket, now: int): Bucket {
    if now > b.updated
    then Bucket(Min(l.burst as real, b.tokens + Seconds(now - b.updated) * l.rate), now, now)
    else b.(lastSeen := now)
  }

  /** The nanoseconds until a bucket with these tokens holds one. */
  function ExactWait(l: Limits, tokens: real): real
    requires l.rate > 0.0
  {
    (1.0 - tokens) / l.rate * NANOS_PER_SECOND
  }

  /** The wait, cut to whole nanoseconds. */
  function RetryAfter(l: Limits, tokens: real): int
    requires l.rate > 0.0
  {
    ExactWait(l, tokens).Floor
  }

  function Take(l: Limits, b: Bucket, now: int): (Bucket, Answer)
    requires l.rate > 0.0
  {
    var full := Refilled(l, b, now);
    if full.tokens >= 1.0
    then (full.(tokens := full.tokens - 1.0), Answer(true, (full.tokens - 1.0).Floor, 0))
    else (full, Answer(false, 0, RetryAfter(l, full.tokens)))
  }

  // ---------- The limiter ----------

  datatype State = State(clients: map<string, Bucket>, lastCleanup: int)

  function Evicted(l: Limits, s: State, now: int): State {
    if now - s.lastCleanup >= l.ttl
    then State(map c | c in s.clients && now - s.clients[c].lastSeen < l.ttl :: s.clients[c], now)
    else s
  }

  function BucketFor(l: Limits, clients: map<string, Bucket>, client: string, now: int): Bucket {
    if client in clients then clients[client] else FullBucket(l, now)
  }

  /** The call, on the buckets that are left after eviction. */
  function Serve(l: Limits, clients: map<string, Bucket>, client: string, now: int): (map<string, Bucket>, Answer)
    requires l.rate > 0.0
  {
    var (b, answer) := Take(l, BucketFor(l, clients, client, now), now);
    (clients[client := b], answer)
  }

  function Allow(l: Limits, s: State, client: string, now: int): (State, Answer)
    requires l.rate > 0.0
  {
    var kept := Evicted(l, s, now);
    var (clients, answer) := Serve(l, kept.clients, client, now);
    (kept.(clients := clients), answer)
  }

  // ---------- Runs ----------

  datatype Call = Call(client: string, at: int)

  function Run(l: Limits, start: int, calls: seq<Call>): State
    requires l.rate > 0.0
  {
    if |calls| == 0 then State(map[], start)
    else
      var last := calls[|calls| - 1];
      Allow(l, Run(l, start, calls[..|calls| - 1]), last.client, last.at).0
  }

  /** The clock does not go back: neither between calls, nor from construction to the first call. */
  ghost predicate Monotone(start: int, calls: seq<Call>) {
    && (forall i | 0 <= i < |calls| :: start <= calls[i].at)
    && (forall i, j | 0 <= i <= j < |calls| :: calls[i].at <= calls[j].at)
  }

  /** The bucket of a client that has the limiter to itself and is never evicted. */
  function Private(l: Limits, calls: seq<Call>, client: string): Option<Bucket>
    requires l.rate > 0.0
  {
    if |calls| == 0 then None
    else
      var before, last := Private(l, calls[..|calls| - 1], client), calls[|calls| - 1];
      if last.client == client then Some(Take(l, PrivateFor(l, before, last.at), last.at).0) else before
  }

  function PrivateFor(l: Limits, b: Option<Bucket>, now: int): Bucket {
    if b.None? then FullBucket(l, now) else b.value
  }

  /** The answer the client gets at `now` from its private bucket. */
  function PrivateAnswer(l: Limits, calls: seq<Call>, client: string, now: int): Answer
    requires l.rate > 0.0
  {
    Take(l, PrivateFor(l, Private(l, calls, client), now), now).1
  }

  /** A limiter that never evicts. */
  function RunForever(l: Limits, calls: seq<Call>): map<string, Bucket>
    requires l.rate > 0.0
  {
    if |calls| == 0 then map[]
    else
      var last := calls[|calls| - 1];
      Serve(l, RunForever(l, calls[..|calls| - 1]), last.client, last.at).0
  }

  /** How many calls of the client in the window were allowed. */
  function AllowedIn(l: Limits, start: int, calls: seq<Call>, client: string, from: int, to: int): nat
    requires l.rate > 0.0
  {
    if |calls| == 0 then 0
    else
      var before, last := calls[..|calls| - 1], calls[|calls| - 1];
      AllowedIn(l, start, before, client, from, to) +
      if last.client == client && from <= last.at <= to &&
         Allow(l, Run(l, start, before), client, last.at).1.allowed then 1 else 0
  }

  /** The bucket after k more calls at the same instant. */
  function AfterRepeats(l: Limits, b: Bucket, now: int, k: nat): Bucket
    requires l.rate > 0.0
  {
    if k == 0 then b else Take(l, AfterRepeats(l, b, now, k - 1), now).0
  }
}

/** The rate limiter as the server holds it: buckets are objects, updated in place. */
module RateLimiter {
  import opened TokenBucket

  const DEFAULT_TTL := 600_000_000_000

  class ClientBucket {
    var tokens: real
    var updated: int
    var lastSeen: int

    constructor (tokens: real, updated: int, lastSeen: int)
      ensures this.tokens == tokens && this.updated == updated && this.lastSeen == lastSeen
    {
      this.tokens, this.updated, this.lastSeen := tokens, updated, lastSeen;
    }

    function Value(): Bucket
      reads this
    {
      Bucket(tokens, updated, lastSeen)
    }

    /** Refills the bucket up to now and takes a token if there is one. */
    method TakeToken(limits: Limits, now: int) returns (allowed: bool, remaining: int, retryAfter: int)
      requires limits.rate > 0.0
      modifies this
      ensures (Value(), Answer(allowed, remaining, retryAfter)) == Take(limits, old(Value()), now)
    {
      var elapsed := Seconds(now - updated);
      if elapsed > 0.0 {
        tokens := Min(limits.burst as real, tokens + elapsed * limits.rate);
        updated := now;
      }
      lastSeen := now;
      assert Value() == Refilled(limits, old(Value()), now);

      if tokens >= 1.0 {
        tokens := tokens - 1.0;
        return true, tokens.Floor, 0;
      }
      var missing := 1.0 - tokens;
      return false, 0, (missing / limits.rate * NANOS_PER_SECOND).Floor;
    }
  }

  lemma ServedByTake(l: Limits, clients: map<string, Bucket>, client: string, now: int, found: Bucket, b: Bucket, answer: Answer)
    requires l.rate > 0.0 && found == BucketFor(l, clients, client, now) && (b, answer) == Take(l, found, now)
    ensures (clients[client := found][client := b], answer) == TokenBucket.Serve(l, clients, client, now)
  {
    assert clients[client := found][client := b] == clients[client := b];
  }

  class IpRateLimiter {
    var clients: map<string, ClientBucket>
    const limits: Limits
    var lastCleanup: int

    /** Distinct clients have distinct buckets. */
    ghost predicate Valid()
      reads this
    {
      forall c, d | c in clients && d in clients && c != d :: clients[c] != clients[d]
    }

    ghost function Contents(): State
      reads this, clients.Values
    {
      State(map c | c in clients :: clients[c].Value(), lastCleanup)
    }

    constructor (rate: real, burst: nat, ttl: int, now: int)
      ensures Valid() && clients == map[]
      ensures Contents() == State(map[], now)
      ensures limits.rate == rate && limits.burst == burst
      ensures limits.ttl == if ttl <= 0 then 10 * 60 * 1_000_000_000 else ttl
    {
      clients := map[];
      limits := Limits(rate, burst, if ttl <= 0 then DEFAULT_TTL else ttl);
      lastCleanup := now;
    }

    /** Drops the buckets that were idle for a TTL, at most once per TTL. */
    method Cleanup(now: int)
      requires Valid()
      modifies this
      ensures Valid() && clients.Values <= old(clients.Values)
      ensures Contents() == Evicted(limits, old(Contents()), now)
      ensures now - old(lastCleanup) < limits.ttl ==> clients == old(clients) && lastCleanup == old(lastCleanup)
      ensures now - old(lastCleanup) >= limits.ttl ==>
                && lastCleanup == now
                && (forall c | c in old(clients) :: c in clients <==> now - old(clients)[c].lastSeen < limits.ttl)
      ensures forall c | c in clients :: c in old(clients) && clients[c] == old(clients)[c]
    {
      if now - lastCleanup >= limits.ttl {
        var keys := clients.Keys;
        ghost var was := clients;
        while keys != {}
          invariant keys <= clients.Keys <= was.Keys
          invariant forall c | c in clients :: clients[c] == was[c]
          invariant forall c | c in was :: c in clients <==> c in keys || now - was[c].lastSeen < limits.ttl
          invariant lastCleanup == old(lastCleanup)
          decreases keys
        {
          var key :| key in keys;
          if now - clients[key].lastSeen >= limits.ttl {
            clients := clients - {key};
          }
          keys := keys - {key};
        }
        lastCleanup := now;
      }
    }

    /** The client's bucket, created full if there is none. */
    method BucketOf(client: string, now: int) returns (bucket: ClientBucket)
      requires Valid()
      modifies this`clients
      ensures Valid() && clients.Keys == old(clients).Keys + {client} && clients[client] == bucket
      ensures client !in old(clients) ==> fresh(bucket)
      ensures forall c | c in old(clients) :: clients[c] == old(clients)[c]
      ensures bucket.Value() == BucketFor(limits, old(Contents()).clients, client, now)
      ensures Contents().clients == old(Contents()).clients[client := bucket.Value()]
    {
      if client !in clients {
        bucket := new ClientBucket(limits.burst as real, now, now);
        clients := clients[client := bucket];
      } else {
        bucket := clients[client];
      }
      assert bucket.Value() == BucketFor(limits, old(Contents()).clients, client, now);
    }

    /** Answers the call from the client's bucket; the other clients' buckets stay as they are. */
    method Serve(client: string, now: int) returns (allowed: bool, remaining: int, retryAfter: int)
      requires Valid() && limits.rate > 0.0
      modifies this`clients, clients.Values
      ensures Valid() && fresh(clients.Values - old(clients.Values)) && lastCleanup == old(lastCleanup)
      ensures (Contents().clients, Answer(allowed, remaining, retryAfter))
           == TokenBucket.Serve(limits, old(Contents()).clients, client, now)
    {
      ghost var was := Contents().clients;
      var bucket := BucketOf(client, now);
      ghost var found := bucket.Value();
      label Found:
      allowed, remaining, retryAfter := bucket.TakeToken(limits, now);
      OneBucketChanged@Found(client);
      ServedByTake(limits, was, client, now, found, bucket.Value(), Answer(allowed, remaining, retryAfter));
    }

    twostate lemma OneBucketChanged(client: string)
      requires old(Valid()) && client in old(clients) && clients == old(clients)
      requires forall c | c in clients && c != client :: unchanged(clients[c])
      ensures Contents().clients == old(Contents()).clients[client := clients[client].Value()]
    {}

    method Allow(client: string, now: int) returns (allowed: bool, remaining: int, retryAfter: int)
      requires Valid() && limits.rate > 0.0
      modifies this, clients.Values
      ensures Valid() && fresh(clients.Values - old(clients.Values))
      ensures (Contents(), Answer(allowed, remaining, retryAfter))
           == TokenBucket.Allow(limits, old(Contents()), client, now)
    {
      Cleanup(now);
      allowed, remaining, retryAfter := Serve(client, now);
    }
  }
}

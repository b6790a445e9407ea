/**
 The history ingest endpoint: validation, the outcome accounting of the handler, and the
 counters. Everything before the decoded request is a refusal with a status code.
 */
module HistoryEndpoint {
  import opened Wrappers
  import opened Text
  import opened Deliveries
  import opened HistoryIngest
  import IngestRuns
  import HistoryTheorems
  import ConditionalUpsert

  const MAX_ENTRIES := 2000
  const MAX_BUCKETS := 100000

  // ---------- Validation and normalisation ----------

  /** The zero time stands for a missing date. */
  predicate ValidBucket(b: Bucket) {
    b.at != 0 && b.itemCount >= 0 && (b.average.Some? ==> b.average.value >= 0)
  }

  predicate ValidEntry(e: HistoryEntry) {
    && e.observedAt != 0 && e.location > 0 && TrimSpace(e.item) != "" && 1 <= e.quality <= 5
    && e.history != []
    && forall i | 0 <= i < |e.history| :: ValidBucket(e.history[i])
  }

  predicate ValidRequest(r: HistoryRequest) {
    && TrimSpace(r.id.text) != "" && r.id.uuid.Some? && MapServer(r.server).Some?
    && 0 < |r.entries| <= MAX_ENTRIES && BucketCount(r.entries) <= MAX_BUCKETS
    && forall i | 0 <= i < |r.entries| :: ValidEntry(r.entries[i])
  }

  /** A price of zero means that there is none. */
  function NormalBucket(b: Bucket): Bucket {
    if b.average == Some(0) then b.(average := None) else b
  }

  function NormalEntry(e: HistoryEntry): HistoryEntry {
    e.(item := TrimSpace(e.item),
       history := seq(|e.history|, i requires 0 <= i < |e.history| => NormalBucket(e.history[i])))
  }

  /** `id.uuid` is what the trimmed id denotes. */
  function Normal(r: HistoryRequest): HistoryRequest {
    Request(r.id.(text := TrimSpace(r.id.text)), r.server,
            seq(|r.entries|, i requires 0 <= i < |r.entries| => NormalEntry(r.entries[i])))
  }

  /** None when the history of the entry is invalid. */
  method NormalizeBuckets(history: seq<Bucket>) returns (normal: Option<seq<Bucket>>)
    ensures normal.Some? <==> forall i | 0 <= i < |history| :: ValidBucket(history[i])
    ensures normal.Some? ==>
              |normal.value| == |history| && forall i | 0 <= i < |history| :: normal.value[i] == NormalBucket(history[i])
  {
    var buckets: seq<Bucket> := [];
    for n := 0 to |history|
      invariant forall i | 0 <= i < n :: ValidBucket(history[i])
      invariant |buckets| == n && forall i | 0 <= i < n :: buckets[i] == NormalBucket(history[i])
    {
      var bucket := history[n];
      if bucket.at == 0 || bucket.itemCount < 0 {
        return None;
      }
      if bucket.average.Some? {
        if bucket.average.value < 0 {
          return None;
        } else if bucket.average.value == 0 {
          bucket := bucket.(average := None);
        }
      }
      buckets := buckets + [bucket];
    }
    return Some(buckets);
  }

  /** None when the entry is invalid. */
  method NormalizeEntry(entry: HistoryEntry) returns (normal: Option<HistoryEntry>)
    ensures normal == if ValidEntry(entry) then Some(NormalEntry(entry)) else None
  {
    var item := TrimSpace(entry.item);
    if entry.observedAt == 0 || entry.location <= 0 || item == "" || entry.quality < 1 || entry.quality > 5
       || |entry.history| == 0
    {
      return None;
    }
    var history := NormalizeBuckets(entry.history);
    if history.None? {
      return None;
    }
    assert history.value == NormalEntry(entry).history;
    return Some(entry.(item := item, history := history.value));
  }

  /** Normalising trims texts and drops averages of zero; it changes nothing else. */
  predicate IsNormalised(r: HistoryRequest, normal: HistoryRequest) {
    && normal.id.uuid == r.id.uuid && normal.id.text == TrimSpace(r.id.text) && normal.server == r.server
    && |normal.entries| == |r.entries|
    && forall e | 0 <= e < |r.entries| ::
         var (was, now) := (r.entries[e], normal.entries[e]);
         && now.observedAt == was.observedAt && now.location == was.location && now.quality == was.quality
         && now.item == TrimSpace(was.item) && |now.history| == |was.history|
         && forall i | 0 <= i < |was.history| ::
              && now.history[i].at == was.history[i].at && now.history[i].itemCount == was.history[i].itemCount
              && now.history[i].average == (if was.history[i].average == Some(0) then None else was.history[i].average)
  }

  lemma NormalIsNormalised(r: HistoryRequest)
    ensures IsNormalised(r, Normal(r))
  {}

  method NormalizeRequest(r: HistoryRequest) returns (normal: Option<HistoryRequest>)
    ensures normal == if ValidRequest(r) then Some(Normal(r)) else None
    ensures normal.Some? ==> IsNormalised(r, normal.value)
  {
    var text := TrimSpace(r.id.text);
    if text == "" || r.id.uuid.None? || MapServer(r.server).None? || |r.entries| == 0 || |r.entries| > MAX_ENTRIES {
      return None;
    }
    var entries: seq<HistoryEntry> := [];
    var total := 0;
    for n := 0 to |r.entries|
      invariant forall i | 0 <= i < n :: ValidEntry(r.entries[i])
      invariant entries == Normal(r).entries[..n]
      invariant total == FirstBuckets(r.entries, n) && (n > 0 ==> total <= MAX_BUCKETS)
    {
      total := total + |r.entries[n].history|;
      if total > MAX_BUCKETS {
        HistoryTheorems.BucketsGrow(r.entries, n + 1, |r.entries|);
        return None;
      }
      var entry := NormalizeEntry(r.entries[n]);
      if entry.None? {
        return None;
      }
      entries := entries + [entry.value];
    }
    assert Normal(r).entries[..|r.entries|] == Normal(r).entries;
    NormalIsNormalised(r);
    return Some(Request(r.id.(text := text), r.server, entries));
  }

  lemma NormalisingKeepsCounts(r: HistoryRequest)
    ensures |Normal(r).entries| == |r.entries| && BucketCount(Normal(r).entries) == BucketCount(r.entries)
  {
    NormalisingKeepsBuckets(r, |r.entries|);
  }

  lemma {:induction false} NormalisingKeepsBuckets(r: HistoryRequest, n: nat)
    requires n <= |r.entries|
    ensures FirstBuckets(Normal(r).entries, n) == FirstBuckets(r.entries, n)
  {
    if n > 0 {
      NormalisingKeepsBuckets(r, n - 1);
    }
  }

  // ---------- What was accepted is accepted again ----------

  /** The row stands for a valid entry with one valid bucket. */
  predicate ValidRow(row: RawBucket) {
    && row.observedAt != 0 && row.key.location > 0 && TrimSpace(row.key.item) != "" && 1 <= row.key.quality <= 5
    && ValidBucket(Bucket(row.key.at, row.reading.itemCount, row.reading.average))
  }

  lemma {:induction false} RowsAreValid(id: Uuid, server: int, r: HistoryRequest, n: nat)
    requires (forall i | 0 <= i < |r.entries| :: ValidEntry(r.entries[i])) && n <= |r.entries|
    ensures forall i | 0 <= i < |FirstRows(id, server, Normal(r).entries, n)| ::
              ValidRow(FirstRows(id, server, Normal(r).entries, n)[i])
  {
    if n > 0 {
      RowsAreValid(id, server, r, n - 1);
      TrimmedTextStays(r.entries[n - 1].item);
    }
  }

  /** Every row of a request that passed validation passes it again on its own, under a new id. */
  lemma ResentRowIsValid(r: HistoryRequest, i: nat, u: Uuid)
    requires ValidRequest(r) && WellFormed(Normal(r)) && i < |RequestRows(Normal(r))|
    ensures ValidRequest(HistoryTheorems.Resent(r.server, RequestRows(Normal(r))[i], u))
  {
    RowsAreValid(r.id.uuid.value, MapServer(r.server).value, r, |r.entries|);
    DecimalIsText(u);
    var again := HistoryTheorems.Resent(r.server, RequestRows(Normal(r))[i], u);
    assert FirstBuckets(again.entries, 0) == 0;
  }

  // ---------- What reaches the tables ----------

  /** The row satisfies the constraints of its table, and its item is trimmed. */
  predicate IsStorable(row: RawBucket) {
    && 1 <= row.key.server <= 3 && row.key.location > 0 && 1 <= row.key.quality <= 5
    && row.key.item != "" && !IsSpace(row.key.item[0]) && !IsSpace(row.key.item[|row.key.item| - 1])
    && row.observedAt != 0 && row.key.at != 0 && row.reading.itemCount >= 0
    && (row.reading.average.Some? ==> row.reading.average.value > 0)
  }

  ghost predicate AllStorable(rows: seq<RawBucket>) {
    forall i | 0 <= i < |rows| :: IsStorable(rows[i])
  }

  lemma NormalEntryIsStorable(id: Uuid, server: int, e: HistoryEntry)
    requires e.history != [] && 1 <= server <= 3
    ensures AllStorable(EntryRows(id, server, NormalEntry(e))) <==> ValidEntry(e)
  {
    var i, j := TrimSpaceCuts(e.item);
    var rows := EntryRows(id, server, NormalEntry(e));
    assert rows[0].key.item == TrimSpace(e.item);
    if AllStorable(rows) {
      forall n | 0 <= n < |e.history| ensures ValidBucket(e.history[n]) {
        assert IsStorable(rows[n]);
      }
    }
  }

  lemma {:induction false} NormalRowsAreStorable(id: Uuid, server: int, r: HistoryRequest, n: nat)
    requires n <= |r.entries| && 1 <= server <= 3 && forall i | 0 <= i < n :: r.entries[i].history != []
    ensures AllStorable(FirstRows(id, server, Normal(r).entries, n)) <==> forall i | 0 <= i < n :: ValidEntry(r.entries[i])
  {
    if n > 0 {
      NormalRowsAreStorable(id, server, r, n - 1);
      NormalEntryIsStorable(id, server, r.entries[n - 1]);
      StorableConcat(FirstRows(id, server, Normal(r).entries, n - 1), EntryRows(id, server, NormalEntry(r.entries[n - 1])));
    }
  }

  lemma StorableConcat(rows: seq<RawBucket>, more: seq<RawBucket>)
    ensures AllStorable(rows + more) <==> AllStorable(rows) && AllStorable(more)
  {
    if AllStorable(rows + more) {
      forall i | 0 <= i < |rows| ensures IsStorable(rows[i]) {
        assert (rows + more)[i] == rows[i];
      }
      forall i | 0 <= i < |more| ensures IsStorable(more[i]) {
        assert (rows + more)[|rows| + i] == more[i];
      }
    }
  }

  /** A request is valid iff it names itself and a known server, is within the limits, has no empty entry, and
      all the rows of its normal form can be stored. */
  lemma ValidIffStorable(r: HistoryRequest)
    ensures ValidRequest(r) <==>
              && TrimSpace(r.id.text) != "" && WellFormed(r)
              && 0 < |r.entries| <= 2000 && BucketCount(r.entries) <= 100000
              && (forall i | 0 <= i < |r.entries| :: r.entries[i].history != [])
              && AllStorable(RequestRows(Normal(r)))
  {
    if WellFormed(r) && forall i | 0 <= i < |r.entries| :: r.entries[i].history != [] {
      NormalRowsAreStorable(r.id.uuid.value, MapServer(r.server).value, r, |r.entries|);
    }
  }

  /** The request is the normal form of a valid one, so its rows can be stored. */
  ghost predicate HasStorableRows(r: HistoryRequest) {
    && 0 < |r.entries| <= 2000 && 0 < BucketCount(r.entries) <= 100000
    && (WellFormed(r) ==> AllStorable(RequestRows(r)))
  }

  lemma NormalHasStorableRows(r: HistoryRequest)
    requires ValidRequest(r)
    ensures HasStorableRows(Normal(r))
  {
    NormalisingKeepsCounts(r);
    HistoryTheorems.BucketsGrow(r.entries, 1, |r.entries|);
    assert FirstBuckets(r.entries, 0) == 0;
    ValidIffStorable(r);
  }

  lemma {:induction false} CommittedWereDelivered(ds: seq<HistoryDelivery>)
    requires forall i | 0 <= i < |ds| :: HasStorableRows(ds[i].request)
    ensures forall i | 0 <= i < |FirstCommits(ds)| :: HasStorableRows(FirstCommits(ds)[i])
  {
    if |ds| > 0 {
      CommittedWereDelivered(ds[..|ds| - 1]);
    }
  }

  lemma {:induction false} TrailIsStorable(log: seq<HistoryRequest>)
    requires WellFormedLog(log) && forall i | 0 <= i < |log| :: HasStorableRows(log[i])
    ensures AllStorable(IngestRuns.RawTrail(HISTORIES, log))
  {
    if |log| > 0 {
      TrailIsStorable(log[..|log| - 1]);
      assert HasStorableRows(log[|log| - 1]);
    }
  }

  // ---------- Counters ----------

  datatype Counters = Counters(
    requests: nat, inFlight: nat, succeeded: nat, duplicates: nat, errors: nat,
    receivedEntries: nat, receivedBuckets: nat, acceptedEntries: nat, acceptedBuckets: nat, storedBuckets: nat,
    rejectedEntries: nat, rejectedBuckets: nat, duplicateEntries: nat, duplicateBuckets: nat, rowsTouched: nat)

  const NO_REQUESTS: Counters := Counters(0, 0, 0, 0, 0, 0, 0, 0, 0, 0, 0, 0, 0, 0, 0)

  datatype Observation = Observation(
    statusCode: int, receivedEntries: int, receivedBuckets: int, acceptedEntries: int, acceptedBuckets: int,
    storedBuckets: int, rejectedEntries: int, rejectedBuckets: int, duplicateEntries: int, duplicateBuckets: int,
    rowsTouched: int, duplicate: bool)

  predicate IsSuccess(statusCode: int) {
    200 <= statusCode < 300
  }

  function Positive(n: int): nat {
    if n > 0 then n else 0
  }

  function Started(c: Counters): Counters {
    c.(requests := c.requests + 1, inFlight := c.inFlight + 1)
  }

  function Finished(c: Counters, o: Observation): Counters {
    var c1 := c.(
      inFlight := if c.inFlight > 0 then c.inFlight - 1 else 0,
      receivedEntries := c.receivedEntries + Positive(o.receivedEntries),
      receivedBuckets := c.receivedBuckets + Positive(o.receivedBuckets),
      rejectedEntries := c.rejectedEntries + Positive(o.rejectedEntries),
      rejectedBuckets := c.rejectedBuckets + Positive(o.rejectedBuckets));
    if !IsSuccess(o.statusCode) then c1.(errors := c.errors + 1)
    else if o.duplicate then
      c1.(succeeded := c.succeeded + 1, duplicates := c.duplicates + 1,
          duplicateEntries := c.duplicateEntries + Positive(o.duplicateEntries),
          duplicateBuckets := c.duplicateBuckets + Positive(o.duplicateBuckets))
    else
      c1.(succeeded := c.succeeded + 1,
          acceptedEntries := c.acceptedEntries + Positive(o.acceptedEntries),
          acceptedBuckets := c.acceptedBuckets + Positive(o.acceptedBuckets),
          storedBuckets := c.storedBuckets + Positive(o.storedBuckets),
          rowsTouched := c.rowsTouched + Positive(o.rowsTouched))
  }

  class HistoryIngestMetrics {
    var counters: Counters

    constructor ()
      ensures counters == NO_REQUESTS
    {
      counters := NO_REQUESTS;
    }

    method RequestStarted()
      modifies this
      ensures counters == Started(old(counters))
    {
      counters := counters.(requests := counters.requests + 1);
      counters := counters.(inFlight := counters.inFlight + 1);
    }

    method RequestFinished(o: Observation)
      modifies this
      ensures counters == Finished(old(counters), o)
    {
      if counters.inFlight > 0 {
        counters := counters.(inFlight := counters.inFlight - 1);
      }
      counters := counters.(
        receivedEntries := counters.receivedEntries + Positive(o.receivedEntries),
        receivedBuckets := counters.receivedBuckets + Positive(o.receivedBuckets),
        rejectedEntries := counters.rejectedEntries + Positive(o.rejectedEntries),
        rejectedBuckets := counters.rejectedBuckets + Positive(o.rejectedBuckets));
      if IsSuccess(o.statusCode) {
        counters := counters.(succeeded := counters.succeeded + 1);
        if o.duplicate {
          counters := counters.(
            duplicates := counters.duplicates + 1,
            duplicateEntries := counters.duplicateEntries + Positive(o.duplicateEntries),
            duplicateBuckets := counters.duplicateBuckets + Positive(o.duplicateBuckets));
          return;
        }
        counters := counters.(
          acceptedEntries := counters.acceptedEntries + Positive(o.acceptedEntries),
          acceptedBuckets := counters.acceptedBuckets + Positive(o.acceptedBuckets),
          storedBuckets := counters.storedBuckets + Positive(o.storedBuckets),
          rowsTouched := counters.rowsTouched + Positive(o.rowsTouched));
        return;
      }
      counters := counters.(errors := counters.errors + 1);
    }
  }

  // ---------- The handler ----------

  /** A call of the endpoint: refused before it is decoded, or decoded and passed on. */
  datatype Exchange =
    | Refused(statusCode: int)
    | Decoded(request: HistoryRequest, fault: Fault)

  predicate Wellformed(x: Exchange) {
    x.Refused? ==> 400 <= x.statusCode < 600
  }

  /** What the service answers: None when validation fails. */
  function Served(t: Tables, x: Exchange): (Tables, Option<IngestRuns.Outcome>)
    requires x.Decoded?
  {
    if !ValidRequest(x.request) then (t, None)
    else
      var (t', outcome) := Ingest(t, Delivery(Normal(x.request), x.fault));
      (t', Some(outcome))
  }

  function StatusCode(outcome: Option<IngestRuns.Outcome>): int {
    match outcome
    case None => 400
    case Some(Accepted(_, _, _, duplicate)) => if duplicate then 200 else 202
    case Some(Failed(AlreadyProcessing)) => 409
    case Some(Failed(PayloadConflict)) => 409
    case Some(Failed(_)) => 500
  }

  /** What the path of a call leaves behind: only a success is a duplicate; a success accepted no more
      than was received, and a duplicate exactly that. */
  predicate Consistent(statusCode: int, entries: int, buckets: int, acceptedEntries: int, acceptedBuckets: int, duplicate: bool) {
    && entries >= 0 && buckets >= 0
    && (duplicate ==> IsSuccess(statusCode) && acceptedEntries == entries && acceptedBuckets == buckets)
    && (IsSuccess(statusCode) ==> 0 <= acceptedEntries <= entries && 0 <= acceptedBuckets <= buckets)
  }

  /** Everything that was received is accepted (stored), rejected or a duplicate, as the status says. */
  predicate Fair(o: Observation) {
    && o.rejectedEntries >= 0 && o.rejectedBuckets >= 0
    && if !IsSuccess(o.statusCode) then
         o.receivedEntries == o.rejectedEntries && o.receivedBuckets == o.rejectedBuckets
       else if o.duplicate then
         && o.duplicateEntries >= 0 && o.duplicateBuckets >= 0
         && o.receivedEntries == o.rejectedEntries + o.duplicateEntries
         && o.receivedBuckets == o.rejectedBuckets + o.duplicateBuckets
       else
         && o.acceptedEntries >= 0 && o.storedBuckets >= 0
         && o.receivedEntries == o.acceptedEntries + o.rejectedEntries
         && o.receivedBuckets == o.storedBuckets + o.rejectedBuckets
  }

  /** The deferred accounting of the handler. */
  method Account(statusCode: int, entries: int, buckets: int, acceptedEntries: int, acceptedBuckets: int,
                 rowsTouched: int, duplicate: bool)
    returns (o: Observation)
    ensures Consistent(statusCode, entries, buckets, acceptedEntries, acceptedBuckets, duplicate) ==> Fair(o)
    ensures o == Accounted(statusCode, entries, buckets, acceptedEntries, acceptedBuckets, rowsTouched, duplicate)
  {
    var storedBuckets, rejectedEntries, rejectedBuckets, duplicateEntries, duplicateBuckets := 0, 0, 0, 0, 0;
    if duplicate {
      duplicateEntries := acceptedEntries;
      duplicateBuckets := acceptedBuckets;
    } else if IsSuccess(statusCode) {
      storedBuckets := acceptedBuckets;
      rejectedEntries := Positive(entries - acceptedEntries);
      rejectedBuckets := Positive(buckets - acceptedBuckets);
    } else if entries > 0 || buckets > 0 {
      rejectedEntries := entries;
      rejectedBuckets := buckets;
    }
    o := Observation(statusCode, entries, buckets, acceptedEntries, acceptedBuckets, storedBuckets,
                     rejectedEntries, rejectedBuckets, duplicateEntries, duplicateBuckets, rowsTouched, duplicate);
  }

  function Accounted(statusCode: int, entries: int, buckets: int, acceptedEntries: int, acceptedBuckets: int,
                     rowsTouched: int, duplicate: bool): Observation
  {
    var success := IsSuccess(statusCode) && !duplicate;
    var failure := !IsSuccess(statusCode) && !duplicate && (entries > 0 || buckets > 0);
    Observation(
      statusCode, entries, buckets, acceptedEntries, acceptedBuckets, if success then acceptedBuckets else 0,
      if success then Positive(entries - acceptedEntries) else if failure then entries else 0,
      if success then Positive(buckets - acceptedBuckets) else if failure then buckets else 0,
      if duplicate then acceptedEntries else 0, if duplicate then acceptedBuckets else 0, rowsTouched, duplicate)
  }

  function Observed(t: Tables, x: Exchange): Observation {
    if x.Refused? then Accounted(x.statusCode, 0, 0, 0, 0, 0, false)
    else
      var outcome := Served(t, x).1;
      var (entries, buckets) := (|x.request.entries|, BucketCount(x.request.entries));
      if outcome.Some? && outcome.value.Accepted?
      then Accounted(StatusCode(outcome), entries, buckets, outcome.value.entries, outcome.value.rows,
                     outcome.value.touched, outcome.value.duplicate)
      else Accounted(StatusCode(outcome), entries, buckets, 0, 0, 0, false)
  }

  // ---------- Runs of the endpoint ----------

  /** What an endpoint is doing: calls that run, and calls whose outcome is fixed but that are not
      accounted for yet, by their observations. The tables are those of the deliveries so far. */
  datatype Endpoint = Endpoint(
    counters: Counters, deliveries: seq<HistoryDelivery>, running: nat, served: seq<Observation>)

  const IDLE: Endpoint := Endpoint(NO_REQUESTS, [], 0, [])

  /** Calls overlap. Each starts, is served (which runs its transaction, if it gets that far), and is
      accounted for at any time after that, whatever other calls do in between. */
  datatype Event = Start | Serve(exchange: Exchange) | Finish(index: nat)

  predicate Possible(e: Endpoint, event: Event) {
    match event
    case Start => true
    case Serve(x) => e.running > 0 && Wellformed(x)
    case Finish(i) => i < |e.served|
  }

  function TablesOf(e: Endpoint): Tables {
    HistoryIngest.Run(e.deliveries)
  }

  /** The delivery that reaches the repository, if one does. */
  function Reaching(x: Exchange): seq<HistoryDelivery> {
    if x.Decoded? && ValidRequest(x.request) then [Delivery(Normal(x.request), x.fault)] else []
  }

  function Step(e: Endpoint, event: Event): Endpoint
    requires Possible(e, event)
  {
    match event
    case Start => e.(counters := Started(e.counters), running := e.running + 1)
    case Serve(x) =>
      e.(running := e.running - 1, served := e.served + [Observed(TablesOf(e), x)], deliveries := e.deliveries + Reaching(x))
    case Finish(i) =>
      e.(counters := Finished(e.counters, e.served[i]), served := e.served[..i] + e.served[i + 1..])
  }

  /** The endpoint after the events; those that are not possible do not happen. */
  function After(events: seq<Event>): Endpoint {
    if |events| == 0 then IDLE
    else
      var before, event := After(events[..|events| - 1]), events[|events| - 1];
      if Possible(before, event) then Step(before, event) else before
  }

  /** A call on its own, from its start to its accounting. */
  lemma CallAlone(events: seq<Event>, x: Exchange)
    requires Wellformed(x)
    ensures var e := After(events);
            After(events + [Start, Serve(x), Finish(|e.served|)]) ==
              e.(counters := Finished(Started(e.counters), Observed(TablesOf(e), x)),
                 deliveries := e.deliveries + Reaching(x))
  {
    var e := After(events);
    var finish := Finish(|e.served|);
    var first, second := events + [Start], events + [Start] + [Serve(x)];
    OneMore(events, Start);
    assert After(first) == Step(e, Start);
    OneMore(first, Serve(x));
    assert After(second) == Step(Step(e, Start), Serve(x));
    OneMore(second, finish);
    assert events + [Start, Serve(x), finish] == events + [Start] + [Serve(x)] + [finish];
    ThreeSteps(e, x);
  }

  lemma ThreeSteps(e: Endpoint, x: Exchange)
    requires Wellformed(x)
    ensures var e2 := Step(Step(e, Start), Serve(x));
            Step(e2, Finish(|e.served|)) ==
              e.(counters := Finished(Started(e.counters), Observed(TablesOf(e), x)), deliveries := e.deliveries + Reaching(x))
  {
    assert (e.served + [Observed(TablesOf(e), x)])[..|e.served|] == e.served;
  }

  lemma OneMore(events: seq<Event>, event: Event)
    ensures After(events + [event]) == if Possible(After(events), event) then Step(After(events), event) else After(events)
  {
    assert (events + [event])[..|events|] == events;
  }

  // ---------- The tables of the endpoint ----------

  lemma {:induction false} OnlyStorableIsDelivered(events: seq<Event>)
    ensures forall i | 0 <= i < |After(events).deliveries| :: HasStorableRows(After(events).deliveries[i].request)
  {
    if |events| > 0 {
      OnlyStorableIsDelivered(events[..|events| - 1]);
      var before, event := After(events[..|events| - 1]), events[|events| - 1];
      if Possible(before, event) && event.Serve? && event.exchange.Decoded? && ValidRequest(event.exchange.request) {
        NormalHasStorableRows(event.exchange.request);
      }
    }
  }

  /** Whatever is sent to the endpoint: every row of the raw trail satisfies the table's constraints, and
      every committed request is within the limits. */
  lemma {:induction false} OnlyStorableIsStored(events: seq<Event>)
    ensures AllStorable(TablesOf(After(events)).raw)
    ensures forall i | 0 <= i < |FirstCommits(After(events).deliveries)| :: HasStorableRows(FirstCommits(After(events).deliveries)[i])
  {
    var ds := After(events).deliveries;
    OnlyStorableIsDelivered(events);
    CommittedWereDelivered(ds);
    HistoryTheorems.RunAgrees(ds);
    TrailIsStorable(FirstCommits(ds));
  }

  // ---------- What one call adds to the counters ----------

  /** Nothing but the request and what was received, which is counted in any case. */
  function Received(c: Counters, entries: nat, buckets: nat): Counters {
    c.(requests := c.requests + 1, receivedEntries := c.receivedEntries + entries, receivedBuckets := c.receivedBuckets + buckets)
  }

  lemma AcceptedIsCounted(c: Counters, entries: nat, buckets: nat, touched: nat)
    ensures Finished(Started(c), Accounted(202, entries, buckets, entries, buckets, touched, false)) ==
              Received(c, entries, buckets).(
                succeeded := c.succeeded + 1, acceptedEntries := c.acceptedEntries + entries,
                acceptedBuckets := c.acceptedBuckets + buckets, storedBuckets := c.storedBuckets + buckets,
                rowsTouched := c.rowsTouched + touched)
  {}

  lemma DuplicateIsCounted(c: Counters, entries: nat, buckets: nat, touched: nat)
    ensures Finished(Started(c), Accounted(200, entries, buckets, entries, buckets, touched, true)) ==
              Received(c, entries, buckets).(
                succeeded := c.succeeded + 1, duplicates := c.duplicates + 1,
                duplicateEntries := c.duplicateEntries + entries, duplicateBuckets := c.duplicateBuckets + buckets)
  {}

  lemma RefusalIsCounted(c: Counters, statusCode: int, entries: nat, buckets: nat)
    requires statusCode >= 400
    ensures Finished(Started(c), Accounted(statusCode, entries, buckets, 0, 0, 0, false)) ==
              Received(c, entries, buckets).(
                errors := c.errors + 1, rejectedEntries := c.rejectedEntries + entries, rejectedBuckets := c.rejectedBuckets + buckets)
  {}

  /** In every run of the repository, a call adds to the counters what it did to the tables: rows stored and
      buckets changed if it was accepted, its payload as a duplicate if it was a repeat, and its payload as
      rejected, with an error, in all other cases. */
  lemma {:induction false} CallIsCounted(ds: seq<HistoryDelivery>, x: Exchange, c: Counters)
    requires Wellformed(x)
    ensures var (t, t', o) := (HistoryIngest.Run(ds), HistoryIngest.Run(ds + Reaching(x)), Observed(HistoryIngest.Run(ds), x));
            var c' := Finished(Started(c), o);
            var (entries, buckets) := if x.Decoded? then (|x.request.entries|, BucketCount(x.request.entries)) else (0, 0);
            var seen := Received(c, entries, buckets);
            && (o.statusCode == 202 ==>
                  && |t'.raw| == |t.raw| + buckets
                  && c' == seen.(succeeded := c.succeeded + 1,
                                 acceptedEntries := c.acceptedEntries + entries, acceptedBuckets := c.acceptedBuckets + buckets,
                                 storedBuckets := c.storedBuckets + buckets,
                                 rowsTouched := c.rowsTouched + |ConditionalUpsert.ChangedKeys(t.hot, t'.hot)|))
            && (o.statusCode == 200 ==>
                  && t' == t
                  && c' == seen.(succeeded := c.succeeded + 1, duplicates := c.duplicates + 1,
                                 duplicateEntries := c.duplicateEntries + entries,
                                 duplicateBuckets := c.duplicateBuckets + buckets))
            && (o.statusCode !in {200, 202} ==>
                  && (x.Refused? || x.fault != AckLost ==> t' == t)
                  && c' == seen.(errors := c.errors + 1,
                                 rejectedEntries := c.rejectedEntries + entries, rejectedBuckets := c.rejectedBuckets + buckets))
  {
    var o := Observed(HistoryIngest.Run(ds), x);
    var (entries, buckets) := if x.Decoded? then (|x.request.entries|, BucketCount(x.request.entries)) else (0, 0);
    if x.Decoded? && ValidRequest(x.request) {
      var d := Delivery(Normal(x.request), x.fault);
      HistoryTheorems.AnswerCountsBuckets(ds, d);
      NormalisingKeepsCounts(x.request);
      assert (ds + [d])[..|ds|] == ds;
      var answer := Ingest(HistoryIngest.Run(ds), d).1;
      if answer.Accepted? {
        AcceptedIsCounted(c, entries, buckets, answer.touched);
        DuplicateIsCounted(c, entries, buckets, answer.touched);
      }
    } else {
      assert ds + Reaching(x) == ds;
    }
    if o.statusCode >= 400 {
      RefusalIsCounted(c, o.statusCode, entries, buckets);
    }
  }

  // ---------- The balance ----------

  /** Nothing received is lost or counted twice. */
  predicate Balanced(c: Counters) {
    && c.requests == c.inFlight + c.succeeded + c.errors
    && c.receivedEntries == c.acceptedEntries + c.rejectedEntries + c.duplicateEntries
    && c.receivedBuckets == c.storedBuckets + c.rejectedBuckets + c.duplicateBuckets
  }

  /** Observing a fair outcome keeps the balance, and ends one call. */
  lemma FinishedKeepsBalance(c: Counters, o: Observation)
    requires Balanced(c) && c.inFlight > 0 && Fair(o)
    ensures Balanced(Finished(c, o)) && Finished(c, o).inFlight == c.inFlight - 1
  {}

  /** In every run of the repository, what is observed of a call is fair. */
  lemma {:induction false} ObservedIsFair(ds: seq<HistoryDelivery>, x: Exchange)
    requires Wellformed(x)
    ensures Fair(Observed(HistoryIngest.Run(ds), x))
  {
    if x.Decoded? && ValidRequest(x.request) {
      HistoryTheorems.AnswerCountsBuckets(ds, Delivery(Normal(x.request), x.fault));
      NormalisingKeepsCounts(x.request);
    }
  }

  /** In every run of the endpoint, after every event: requests are in flight, succeeded or failed,
      and every received entry and bucket was accepted, rejected or a duplicate. */
  lemma {:induction false} CountersBalance(events: seq<Event>)
    ensures var e := After(events);
            && Balanced(e.counters) && e.counters.inFlight == e.running + |e.served|
            && (forall i | 0 <= i < |e.served| :: Fair(e.served[i]))
  {
    if |events| > 0 {
      var n := |events| - 1;
      CountersBalance(events[..n]);
      var before := After(events[..n]);
      if Possible(before, events[n]) {
        match events[n]
        case Start =>
        case Serve(x) => ObservedIsFair(before.deliveries, x);
        case Finish(i) => FinishedKeepsBalance(before.counters, before.served[i]);
      }
    }
  }

  // ---------- The counters and the tables ----------

  /** What an observation adds to the buckets that are counted as stored. */
  function StoredBy(o: Observation): nat {
    if IsSuccess(o.statusCode) && !o.duplicate then Positive(o.storedBuckets) else 0
  }

  /** What the calls that are served but not accounted for will add. */
  function Unaccounted(served: seq<Observation>): nat {
    if |served| == 0 then 0 else Unaccounted(served[..|served| - 1]) + StoredBy(served[|served| - 1])
  }

  lemma {:induction false} UnaccountedWithout(served: seq<Observation>, i: nat)
    requires i < |served|
    ensures Unaccounted(served[..i] + served[i + 1..]) + StoredBy(served[i]) == Unaccounted(served)
  {
    var n := |served| - 1;
    if i < n {
      UnaccountedWithout(served[..n], i);
      var without := served[..i] + served[i + 1..];
      assert without[..|without| - 1] == served[..n][..i] + served[..n][i + 1..];
    } else {
      assert served[..i] + served[i + 1..] == served[..n];
    }
  }

  lemma UnaccountedWith(served: seq<Observation>, o: Observation)
    ensures Unaccounted(served + [o]) == Unaccounted(served) + StoredBy(o)
  {
    assert (served + [o])[..|served|] == served;
  }

  /** One call stores what its observation counts as stored, and possibly more unseen. */
  lemma StoredByOne(ds: seq<HistoryDelivery>, x: Exchange)
    ensures var (t, t') := (HistoryIngest.Run(ds), HistoryIngest.Run(ds + Reaching(x)));
            && |t.raw| + StoredBy(Observed(t, x)) <= |t'.raw|
            && (x.Refused? || x.fault != AckLost ==> |t.raw| + StoredBy(Observed(t, x)) == |t'.raw|)
  {
    if x.Decoded? && ValidRequest(x.request) {
      var d := Delivery(Normal(x.request), x.fault);
      HistoryTheorems.AnswerCountsBuckets(ds, d);
      assert (ds + [d])[..|ds|] == ds;
      HistoryTheorems.FlattenedCount(d.request.id.uuid.value, MapServer(d.request.server).value, d.request.entries);
    } else {
      assert ds + Reaching(x) == ds;
    }
  }

  ghost predicate AllAcknowledged(ds: seq<HistoryDelivery>) {
    forall i | 0 <= i < |ds| :: ds[i].fault != AckLost
  }

  /** The buckets counted as stored, with those that are still to be counted, are in the raw trail;
      they are all of it, unless some commit was not acknowledged. */
  ghost predicate StoredIsInRawTrail(e: Endpoint) {
    var stored := e.counters.storedBuckets + Unaccounted(e.served);
    stored <= |TablesOf(e).raw| && (AllAcknowledged(e.deliveries) ==> stored == |TablesOf(e).raw|)
  }

  lemma ServeKeepsStored(e: Endpoint, x: Exchange)
    requires Possible(e, Serve(x)) && StoredIsInRawTrail(e)
    ensures StoredIsInRawTrail(Step(e, Serve(x)))
  {
    StoredByOne(e.deliveries, x);
    UnaccountedWith(e.served, Observed(TablesOf(e), x));
    if AllAcknowledged(e.deliveries + Reaching(x)) {
      FewerAreAcknowledged(e.deliveries, x);
      if x.Decoded? && !ValidRequest(x.request) {
        assert e.deliveries + Reaching(x) == e.deliveries;
      }
    }
  }

  lemma FinishKeepsStored(e: Endpoint, i: nat)
    requires Possible(e, Finish(i)) && StoredIsInRawTrail(e)
    ensures StoredIsInRawTrail(Step(e, Finish(i)))
  {
    UnaccountedWithout(e.served, i);
  }

  /** This holds after every event of every run. So when nothing is served but unaccounted for, and
      every commit was acknowledged, the counter is exactly the size of the raw trail. */
  lemma {:induction false} StoredBucketsAreInRawTrail(events: seq<Event>)
    ensures StoredIsInRawTrail(After(events))
    ensures After(events).served == [] && AllAcknowledged(After(events).deliveries) ==>
              After(events).counters.storedBuckets == |TablesOf(After(events)).raw|
  {
    if |events| > 0 {
      var n := |events| - 1;
      var before := After(events[..n]);
      StoredBucketsAreInRawTrail(events[..n]);
      if Possible(before, events[n]) {
        match events[n]
        case Start =>
        case Serve(x) => ServeKeepsStored(before, x);
        case Finish(i) => FinishKeepsStored(before, i);
      }
    }
  }

  lemma FewerAreAcknowledged(ds: seq<HistoryDelivery>, x: Exchange)
    requires AllAcknowledged(ds + Reaching(x))
    ensures AllAcknowledged(ds)
    ensures x.Decoded? && ValidRequest(x.request) ==> x.fault != AckLost
  {
    var more := ds + Reaching(x);
    assert forall i | 0 <= i < |ds| :: more[i] == ds[i];
    if x.Decoded? && ValidRequest(x.request) {
      assert more[|ds|].fault == x.fault;
    }
  }
}

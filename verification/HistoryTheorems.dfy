/** What every run of history deliveries keeps. */
module HistoryTheorems {
  import opened Wrappers
  import opened Text
  import opened LatestWins
  import opened Deliveries
  import opened HistoryIngest
  import opened ConditionalUpsert
  import IngestRuns

  // ---------- Flattening ----------

  lemma FlattenedCount(id: Uuid, server: int, entries: seq<HistoryEntry>)
    ensures |Flattened(id, server, entries)| == BucketCount(entries)
    ensures forall i | 0 <= i < |Flattened(id, server, entries)| :: BelongsTo(Flattened(id, server, entries)[i], id, server)
  {
    FirstRowsCount(id, server, entries, |entries|);
  }

  predicate BelongsTo(row: RawBucket, id: Uuid, server: int) {
    row.request == id && row.key.server == server
  }

  lemma {:induction false} FirstRowsCount(id: Uuid, server: int, entries: seq<HistoryEntry>, n: nat)
    requires n <= |entries|
    ensures |FirstRows(id, server, entries, n)| == FirstBuckets(entries, n)
    ensures forall i | 0 <= i < |FirstRows(id, server, entries, n)| :: BelongsTo(FirstRows(id, server, entries, n)[i], id, server)
  {
    if n > 0 {
      FirstRowsCount(id, server, entries, n - 1);
    }
  }

  /** Row b of entry e stands after all the rows of the entries before e. */
  lemma FlattenedAt(id: Uuid, server: int, entries: seq<HistoryEntry>, e: nat)
    requires e < |entries|
    ensures FirstBuckets(entries, e + 1) == FirstBuckets(entries, e) + |entries[e].history| <= BucketCount(entries)
    ensures |Flattened(id, server, entries)| == BucketCount(entries)
    ensures forall b | 0 <= b < |entries[e].history| ::
              && Flattened(id, server, entries)[FirstBuckets(entries, e) + b]
                 == RawBucketOf(id, server, entries[e], entries[e].history[b])
              && Records(Flattened(id, server, entries)[FirstBuckets(entries, e) + b], id, server, entries[e], entries[e].history[b])
  {
    FirstRowsCount(id, server, entries, |entries|);
    FirstRowsAt(id, server, entries, |entries|, e);
  }

  lemma {:induction false} FirstRowsAt(id: Uuid, server: int, entries: seq<HistoryEntry>, n: nat, e: nat)
    requires e < n <= |entries|
    ensures FirstBuckets(entries, e + 1) <= FirstBuckets(entries, n) == |FirstRows(id, server, entries, n)|
    ensures forall b | 0 <= b < |entries[e].history| ::
              FirstRows(id, server, entries, n)[FirstBuckets(entries, e) + b]
              == RawBucketOf(id, server, entries[e], entries[e].history[b])
  {
    FirstRowsCount(id, server, entries, n - 1);
    var rows, last := FirstRows(id, server, entries, n - 1), EntryRows(id, server, entries[n - 1]);
    assert FirstRows(id, server, entries, n) == rows + last;
    if e < n - 1 {
      FirstRowsAt(id, server, entries, n - 1, e);
      forall b | 0 <= b < |entries[e].history|
        ensures (rows + last)[FirstBuckets(entries, e) + b] == RawBucketOf(id, server, entries[e], entries[e].history[b])
      {
        assert (rows + last)[FirstBuckets(entries, e) + b] == rows[FirstBuckets(entries, e) + b];
      }
    }
  }

  lemma {:induction false} BucketsGrow(entries: seq<HistoryEntry>, m: nat, n: nat)
    requires m <= n <= |entries|
    ensures FirstBuckets(entries, m) <= FirstBuckets(entries, n)
  {
    if m < n {
      BucketsGrow(entries, m, n - 1);
    }
  }

  /** Every position in the flattening is that of one bucket. */
  lemma {:induction false} BucketAt(entries: seq<HistoryEntry>, m: nat, n: nat) returns (e: nat, i: nat)
    requires m <= |entries| && n < FirstBuckets(entries, m)
    ensures e < m && i < |entries[e].history| && n == FirstBuckets(entries, e) + i
  {
    if n >= FirstBuckets(entries, m - 1) {
      e, i := m - 1, n - FirstBuckets(entries, m - 1);
    } else {
      e, i := BucketAt(entries, m - 1, n);
    }
  }

  /** Positions in the flattening go by entry, then by bucket. */
  lemma PositionsAreOrdered(entries: seq<HistoryEntry>, e: nat, i: nat, f: nat, j: nat)
    requires e < |entries| && i < |entries[e].history| && f < |entries| && j < |entries[f].history|
    ensures FirstBuckets(entries, f) + j <= FirstBuckets(entries, e) + i <==> f < e || (f == e && j <= i)
  {
    if f < e {
      BucketsGrow(entries, f + 1, e);
    } else if e < f {
      BucketsGrow(entries, e + 1, f);
    }
  }

  // ---------- The conditional upsert ----------

  lemma HasBucketIffKey(rows: seq<RawBucket>, k: BucketKey)
    ensures HasBucket(rows, k) <==> k in KeysOf(rows)
  {
    var os := Observations(rows);
    if k in KeysOf(rows) {
      var i :| 0 <= i < |rows| && rows[i].key == k;
      assert Counts(os[i], k);
    }
  }

  /** The number of rows reported as touched is the number of buckets that are new or different. */
  lemma TouchedIsExact(buckets: map<BucketKey, BucketRow>, proposed: map<BucketKey, BucketRow>)
    ensures var after := Upserted(UPSERT, buckets, proposed);
            |AffectedKeys(UPSERT, buckets, proposed)| == |ChangedKeys(buckets, after)|
  {
    CountIsExact(UPSERT, buckets, proposed);
  }

  function StampIn(buckets: map<BucketKey, BucketRow>, k: BucketKey): Option<Stamp<Reading>> {
    if k in buckets then Some(Stamp(buckets[k].reading, buckets[k].observedAt)) else None
  }

  lemma UpsertMerges(buckets: map<BucketKey, BucketRow>, rows: seq<RawBucket>, k: BucketKey)
    ensures StampIn(Upserted(UPSERT, buckets, Proposed(rows)), k) == Merge(StampIn(buckets, k), Incoming(Observations(rows), k))
  {
    HasBucketIffKey(rows, k);
  }

  // ---------- The hot table after every run ----------

  lemma RowsAreTagged()
    ensures IngestRuns.TagsRows(HISTORIES)
  {
    forall id, server, entries: seq<HistoryEntry>
      ensures IngestRuns.AllOwned(HISTORIES.rowsOf(id, server, entries), HISTORIES.owner, id)
    {
      FlattenedCount(id, server, entries);
    }
  }

  ghost predicate BucketsAgree(buckets: map<BucketKey, BucketRow>, log: seq<HistoryRequest>)
    requires WellFormedLog(log)
  {
    forall k :: StampIn(buckets, k) == View(Trail(log), k)
  }

  lemma UpsertKeepsAgreement(buckets: map<BucketKey, BucketRow>, log: seq<HistoryRequest>, r: HistoryRequest)
    requires WellFormedLog(log) && BucketsAgree(buckets, log) && WellFormed(r)
    ensures WellFormedLog(log + [r]) && BucketsAgree(Upserted(UPSERT, buckets, Proposed(RequestRows(r))), log + [r])
  {
    var buckets', log' := Upserted(UPSERT, buckets, Proposed(RequestRows(r))), log + [r];
    assert Trail(log') == Trail(log) + [Observations(RequestRows(r))];
    forall k ensures StampIn(buckets', k) == View(Trail(log'), k) {
      UpsertMerges(buckets, RequestRows(r), k);
      ViewAppend(Trail(log), Observations(RequestRows(r)), k);
    }
  }

  lemma {:induction false} MergedAgrees(log: seq<HistoryRequest>)
    requires WellFormedLog(log)
    ensures BucketsAgree(IngestRuns.Merged(HISTORIES, log), log)
  {
    if |log| > 0 {
      var before, r := log[..|log| - 1], log[|log| - 1];
      MergedAgrees(before);
      UpsertKeepsAgreement(IngestRuns.Merged(HISTORIES, before), before, r);
      assert before + [r] == log;
    }
  }

  /** After every run the raw trail is that of the log of first commits, and the buckets agree with it. */
  lemma {:induction false} RunAgrees(ds: seq<HistoryDelivery>)
    ensures WellFormedLog(FirstCommits(ds))
    ensures Run(ds).raw == IngestRuns.RawTrail(HISTORIES, FirstCommits(ds))
    ensures BucketsAgree(Run(ds).hot, FirstCommits(ds))
  {
    RowsAreTagged();
    IngestRuns.RunAgrees(HISTORIES, ds);
    MergedAgrees(FirstCommits(ds));
  }

  // ---------- The raw trail holds the buckets ----------

  /** How many buckets the first b requests have. */
  function BucketsBefore(log: seq<HistoryRequest>, b: nat): nat
    requires b <= |log|
  {
    if b == 0 then 0 else BucketsBefore(log, b - 1) + BucketCount(log[b - 1].entries)
  }

  lemma {:induction false} BucketsBeforePrefix(log: seq<HistoryRequest>, n: nat, b: nat)
    requires b <= n <= |log|
    ensures BucketsBefore(log[..n], b) == BucketsBefore(log, b)
  {
    if b > 0 {
      BucketsBeforePrefix(log, n, b - 1);
    }
  }

  lemma {:induction false} TrailLength(log: seq<HistoryRequest>)
    requires WellFormedLog(log)
    ensures |IngestRuns.RawTrail(HISTORIES, log)| == BucketsBefore(log, |log|)
  {
    if |log| > 0 {
      var n := |log| - 1;
      TrailLength(log[..n]);
      BucketsBeforePrefix(log, n, n);
      FlattenedCount(log[n].id.uuid.value, MapServer(log[n].server).value, log[n].entries);
    }
  }

  lemma {:induction false} TrailHolds(log: seq<HistoryRequest>, b: nat, n: nat)
    requires WellFormedLog(log) && b < |log| && n < BucketCount(log[b].entries)
    ensures |IngestRuns.RawTrail(HISTORIES, log)| >= BucketsBefore(log, b) + BucketCount(log[b].entries)
    ensures WellFormed(log[b]) && |RequestRows(log[b])| == BucketCount(log[b].entries)
    ensures IngestRuns.RawTrail(HISTORIES, log)[BucketsBefore(log, b) + n] == RequestRows(log[b])[n]
  {
    var last := |log| - 1;
    assert WellFormed(log[b]);
    FlattenedCount(log[b].id.uuid.value, MapServer(log[b].server).value, log[b].entries);
    TrailLength(log[..last]);
    BucketsBeforePrefix(log, last, last);
    if b < last {
      TrailHolds(log[..last], b, n);
      BucketsBeforePrefix(log, last, b);
    }
  }

  /** After every run the raw trail holds exactly the buckets of the committed requests, one row each,
      in the order of the commits, the entries and the buckets; each row tells what its bucket and its
      entry tell, for the request's id and server. */
  lemma {:induction false} RawTrailRecordsBuckets(ds: seq<HistoryDelivery>, b: nat, e: nat, i: nat)
    requires b < |FirstCommits(ds)| && e < |FirstCommits(ds)[b].entries| && i < |FirstCommits(ds)[b].entries[e].history|
    ensures var (raw, log) := (Run(ds).raw, FirstCommits(ds));
            var n := BucketsBefore(log, b) + FirstBuckets(log[b].entries, e) + i;
            && n < |raw| == BucketsBefore(log, |log|)
            && WellFormed(log[b])
            && Records(raw[n], log[b].id.uuid.value, raw[n].key.server, log[b].entries[e], log[b].entries[e].history[i])
            && 1 <= raw[n].key.server <= 3 && UnmapServer(raw[n].key.server) == log[b].server
  {
    var log := FirstCommits(ds);
    var n := FirstBuckets(log[b].entries, e) + i;
    RunAgrees(ds);
    TrailLength(log);
    assert WellFormed(log[b]);
    FlattenedAt(log[b].id.uuid.value, MapServer(log[b].server).value, log[b].entries, e);
    TrailHolds(log, b, n);
    ServersAreToldApart(log[b].server, MapServer(log[b].server).value);
  }

  // ---------- The hot table is a query over the buckets ----------

  /** Bucket i of entry e of request b is the one that the key stands for. */
  predicate About(log: seq<HistoryRequest>, b: nat, e: nat, i: nat, k: BucketKey) {
    && b < |log| && e < |log[b].entries| && i < |log[b].entries[e].history|
    && 1 <= k.server <= 3 && UnmapServer(k.server) == log[b].server
    && k.location == log[b].entries[e].location && k.item == log[b].entries[e].item
    && k.quality == log[b].entries[e].quality && k.at == log[b].entries[e].history[i].at
  }

  /** By observation time, then commit order, then entry, then position in the entry. */
  predicate NotLater(at: int, b: nat, e: nat, i: nat, at': int, b': nat, e': nat, i': nat) {
    at < at' || (at == at' && (b < b' || (b == b' && (e < e' || (e == e' && i <= i')))))
  }

  /** Bucket i of entry e of request b was observed last of all that the key stands for. */
  ghost predicate IsLatestBucket(log: seq<HistoryRequest>, k: BucketKey, b: nat, e: nat, i: nat) {
    && About(log, b, e, i, k)
    && forall c: nat, f: nat, j: nat | About(log, c, f, j, k) ::
         NotLater(log[c].entries[f].observedAt, c, f, j, log[b].entries[e].observedAt, b, e, i)
  }

  /** The trail's row for a bucket says what the bucket says, and counts if the bucket is meant. */
  lemma TrailAt(log: seq<HistoryRequest>, k: BucketKey, b: nat, e: nat, i: nat)
    requires WellFormedLog(log) && b < |log| && e < |log[b].entries| && i < |log[b].entries[e].history|
    ensures var n := FirstBuckets(log[b].entries, e) + i;
            && InTrail(Trail(log), b, n)
            && var (o, bucket) := (Trail(log)[b][n], log[b].entries[e].history[i]);
               && o.at == Some(log[b].entries[e].observedAt) && o.tie == 0
               && o.value.itemCount == bucket.itemCount && o.value.average == bucket.average
               && (Counts(o, k) <==> About(log, b, e, i, k))
  {
    assert WellFormed(log[b]);
    FlattenedAt(log[b].id.uuid.value, MapServer(log[b].server).value, log[b].entries, e);
    ServersAreToldApart(log[b].server, k.server);
  }

  lemma TrailFrom(log: seq<HistoryRequest>, b: nat, n: nat) returns (e: nat, i: nat)
    requires WellFormedLog(log) && InTrail(Trail(log), b, n)
    ensures e < |log[b].entries| && i < |log[b].entries[e].history| && n == FirstBuckets(log[b].entries, e) + i
  {
    assert WellFormed(log[b]);
    FlattenedCount(log[b].id.uuid.value, MapServer(log[b].server).value, log[b].entries);
    e, i := BucketAt(log[b].entries, |log[b].entries|, n);
  }

  lemma LatestBucketIs(log: seq<HistoryRequest>, k: BucketKey, b: nat, e: nat, i: nat)
    requires WellFormedLog(log) && b < |log| && e < |log[b].entries| && i < |log[b].entries[e].history|
    requires IsLatest(Trail(log), k, b, FirstBuckets(log[b].entries, e) + i)
    ensures IsLatestBucket(log, k, b, e, i)
  {
    TrailAt(log, k, b, e, i);
    forall c: nat, f: nat, j: nat | About(log, c, f, j, k)
      ensures NotLater(log[c].entries[f].observedAt, c, f, j, log[b].entries[e].observedAt, b, e, i)
    {
      TrailAt(log, k, c, f, j);
      assert NotBeforeInTrail(Trail(log), b, FirstBuckets(log[b].entries, e) + i, c, FirstBuckets(log[c].entries, f) + j);
      if b == c {
        PositionsAreOrdered(log[b].entries, e, i, f, j);
      }
    }
  }

  lemma NoBucketIsUnobserved(log: seq<HistoryRequest>, k: BucketKey)
    requires WellFormedLog(log)
    ensures Unobserved(Trail(log), k) <==> forall b: nat, e: nat, i: nat :: !About(log, b, e, i, k)
  {
    if b: nat, e: nat, i: nat :| About(log, b, e, i, k) {
      TrailAt(log, k, b, e, i);
    } else {
      forall b: nat, n: nat | InTrail(Trail(log), b, n) ensures !Counts(Trail(log)[b][n], k) {
        var e, i := TrailFrom(log, b, n);
        TrailAt(log, k, b, e, i);
      }
    }
  }

  /** The row holds the count, the average and the observation time of the bucket that was observed last. */
  ghost predicate HoldsLatest(log: seq<HistoryRequest>, k: BucketKey, row: BucketRow) {
    exists b: nat, e: nat, i: nat :: IsLatestBucket(log, k, b, e, i)
      && row.reading.itemCount == log[b].entries[e].history[i].itemCount
      && row.reading.average == log[b].entries[e].history[i].average
      && row.observedAt == log[b].entries[e].observedAt
  }

  lemma LatestIsHeld(log: seq<HistoryRequest>, k: BucketKey, row: BucketRow)
    requires WellFormedLog(log) && View(Trail(log), k) == Some(Stamp(row.reading, row.observedAt))
    ensures HoldsLatest(log, k, row)
  {
    ViewIsLatest(Trail(log), k);
    var b: nat, n: nat :| IsLatest(Trail(log), k, b, n) && View(Trail(log), k).value == StampOf(Trail(log)[b][n]);
    LatestRowIsHeld(log, k, row, b, n);
  }

  lemma LatestRowIsHeld(log: seq<HistoryRequest>, k: BucketKey, row: BucketRow, b: nat, n: nat)
    requires WellFormedLog(log) && IsLatest(Trail(log), k, b, n)
    requires StampOf(Trail(log)[b][n]) == Stamp(row.reading, row.observedAt)
    ensures HoldsLatest(log, k, row)
  {
    var e, i := TrailFrom(log, b, n);
    LatestBucketIs(log, k, b, e, i);
    TrailAt(log, k, b, e, i);
  }

  /**
   After every run, the row of each bucket is that of the bucket that was observed last: by
   observation time, commit order, entry and position. It is absent iff no committed request has
   such a bucket.
   */
  lemma {:induction false} BucketIsLatestObservation(ds: seq<HistoryDelivery>, k: BucketKey)
    ensures var (hot, log) := (Run(ds).hot, FirstCommits(ds));
            && (k in hot <==> exists b: nat, e: nat, i: nat :: About(log, b, e, i, k))
            && (k in hot ==> HoldsLatest(log, k, hot[k]))
  {
    var (hot, log) := (Run(ds).hot, FirstCommits(ds));
    RunAgrees(ds);
    assert StampIn(hot, k) == View(Trail(log), k);
    if k in hot {
      LatestIsHeld(log, k, hot[k]);
    }
    ViewIsLatest(Trail(log), k);
    NoBucketIsUnobserved(log, k);
  }

  // ---------- Answers ----------

  /** In every run the counts of a successful answer, first or repeated, are those of the payload; a
      first success adds as many raw rows, and reports how many buckets are new or different. */
  lemma {:induction false} AnswerCountsBuckets(ds: seq<HistoryDelivery>, d: HistoryDelivery)
    ensures var ((t', answer), t) := (Ingest(Run(ds), d), Run(ds));
            && (answer.Accepted? ==>
                  answer.entries == |d.request.entries| && answer.rows == BucketCount(d.request.entries))
            && (answer.Accepted? && !answer.duplicate ==>
                  && |t'.raw| == |t.raw| + BucketCount(d.request.entries)
                  && answer.touched == |ChangedKeys(t.hot, t'.hot)|)
  {
    RowsAreTagged();
    IngestRuns.AnswerCountsThePayload(HISTORIES, ds, d);
    if WellFormed(d.request) {
      FlattenedCount(d.request.id.uuid.value, MapServer(d.request.server).value, d.request.entries);
    }
    if Ingest(Run(ds), d).1.Accepted? && !Ingest(Run(ds), d).1.duplicate {
      FirstSuccessCounts(Run(ds), d);
    }
  }

  lemma FirstSuccessCounts(t: Tables, d: HistoryDelivery)
    requires Ingest(t, d).1.Accepted? && !Ingest(t, d).1.duplicate
    ensures var (t', answer) := Ingest(t, d);
            && |t'.raw| == |t.raw| + BucketCount(d.request.entries)
            && answer.touched == |ChangedKeys(t.hot, t'.hot)|
  {
    IngestRuns.FirstSuccessCommits(HISTORIES, t, d);
    FlattenedCount(d.request.id.uuid.value, MapServer(d.request.server).value, d.request.entries);
    var rows := IngestRuns.RowsOf(HISTORIES, d.request);
    TouchedIsExact(t.hot, Proposed(IngestRuns.Selected(t.raw + rows, HISTORIES.owner, d.request.id.uuid.value)));
  }

  /** Two runs that recorded the same observations, without ties, have the same hot table. */
  lemma {:induction false} BucketsDependOnObservationsOnly(ds: seq<HistoryDelivery>, ds': seq<HistoryDelivery>)
    requires WellFormedLog(FirstCommits(ds)) && WellFormedLog(FirstCommits(ds'))
    requires SameRows(Trail(FirstCommits(ds)), Trail(FirstCommits(ds')))
    requires forall k :: Unambiguous(Trail(FirstCommits(ds)), k)
    ensures Run(ds).hot == Run(ds').hot
  {
    RunAgrees(ds);
    RunAgrees(ds');
    var (t, t') := (Run(ds), Run(ds'));
    forall k ensures StampIn(t.hot, k) == StampIn(t'.hot, k) {
      SameRowsSameView(Trail(FirstCommits(ds)), Trail(FirstCommits(ds')), k);
    }
    SameStampsSameBuckets(t.hot, t'.hot);
  }

  lemma SameStampsSameBuckets(m: map<BucketKey, BucketRow>, m': map<BucketKey, BucketRow>)
    requires forall k :: StampIn(m, k) == StampIn(m', k)
    ensures m == m'
  {
    forall k ensures k in m <==> k in m' {
      assert StampIn(m, k) == StampIn(m', k);
    }
    forall k | k in m ensures m[k] == m'[k] {
      assert StampIn(m, k) == StampIn(m', k);
    }
  }

  // ---------- When order and batching would matter ----------

  /** Both runs recorded the same observations. */
  ghost predicate RecordedTheSame(ds: seq<HistoryDelivery>, ds': seq<HistoryDelivery>) {
    && WellFormedLog(FirstCommits(ds)) && WellFormedLog(FirstCommits(ds'))
    && SameRows(Trail(FirstCommits(ds)), Trail(FirstCommits(ds')))
  }

  /** A raw row of a request, sent again on its own under another id, which its text denotes. */
  function Resent(server: Server, row: RawBucket, u: Uuid): HistoryRequest {
    var bucket := Bucket(row.key.at, row.reading.itemCount, row.reading.average);
    Request(RequestId(Decimal(u), Some(u)), server, [HistoryEntry(row.observedAt, row.key.location, row.key.item, row.key.quality, [bucket])])
  }

  lemma ResentRow(r: HistoryRequest, i: nat, u: Uuid)
    requires WellFormed(r) && i < |RequestRows(r)|
    ensures RequestRows(Resent(r.server, RequestRows(r)[i], u)) == [RequestRows(r)[i].(request := u)]
  {
    var again := Resent(r.server, RequestRows(r)[i], u);
    FlattenedCount(r.id.uuid.value, MapServer(r.server).value, r.entries);
    var server, row := MapServer(r.server).value, RequestRows(r)[i];
    assert RawBucketOf(u, server, again.entries[0], again.entries[0].history[0]) == row.(request := u);
    assert EntryRows(u, server, again.entries[0]) == [row.(request := u)];
    assert FirstRows(u, server, again.entries, 0) == [];
  }

  /** Sending a row again under a new id records nothing new; if it is a newest row, its reading
      is in the hot table afterwards. */
  lemma {:induction false} ResentNewestWins(ds: seq<HistoryDelivery>, b: nat, i: nat, u: Uuid, k: BucketKey)
    requires WellFormedLog(FirstCommits(ds)) && InTrail(Trail(FirstCommits(ds)), b, i) && u !in IdsOf(FirstCommits(ds))
    requires Newest(Trail(FirstCommits(ds)), k, Trail(FirstCommits(ds))[b][i])
    ensures var log := FirstCommits(ds);
            var ds' := ds + [Delivery(Resent(log[b].server, RequestRows(log[b])[i], u), NoFault)];
            RecordedTheSame(ds, ds') && StampIn(Run(ds').hot, k) == Some(StampOf(Trail(log)[b][i]))
  {
    var log := FirstCommits(ds);
    var r := Resent(log[b].server, RequestRows(log[b])[i], u);
    var ds', o := ds + [Delivery(r, NoFault)], Trail(log)[b][i];
    assert ds'[..|ds|] == ds && FirstCommits(ds') == log + [r];
    ResentRow(log[b], i, u);
    assert Observations(RequestRows(r)) == [o];
    assert Trail(log + [r]) == Trail(log) + [[o]];
    AppendKnown(Trail(log), o);
    RedeliveredNewestWins(Trail(log), k, o);
    RunAgrees(ds');
    assert StampIn(Run(ds').hot, k) == View(Trail(log + [r]), k);
  }

  /** Contradicting newest rows of a bucket leave two runs that recorded the same with different tables. */
  lemma {:induction false} TieShows(ds: seq<HistoryDelivery>, k: BucketKey, b: nat, i: nat, c: nat, j: nat)
    requires WellFormedLog(FirstCommits(ds))
    requires var trail := Trail(FirstCommits(ds));
             && InTrail(trail, b, i) && InTrail(trail, c, j)
             && Newest(trail, k, trail[b][i]) && Newest(trail, k, trail[c][j]) && trail[b][i].value != trail[c][j].value
    ensures exists ds' :: RecordedTheSame(ds, ds') && Run(ds').hot != Run(ds).hot
  {
    var log := FirstCommits(ds);
    UnusedId(IdsOf(log));
    var u :| u !in IdsOf(log);
    var first := ds + [Delivery(Resent(log[b].server, RequestRows(log[b])[i], u), NoFault)];
    var second := ds + [Delivery(Resent(log[c].server, RequestRows(log[c])[j], u), NoFault)];
    ResentNewestWins(ds, b, i, u, k);
    ResentNewestWins(ds, c, j, u, k);
    OneOfTwoDiffers(Run(ds).hot, Run(first).hot, Run(second).hot, k);
  }

  lemma OneOfTwoDiffers(m: map<BucketKey, BucketRow>, first: map<BucketKey, BucketRow>, second: map<BucketKey, BucketRow>, k: BucketKey)
    requires StampIn(first, k) != StampIn(second, k)
    ensures first != m || second != m
  {}

  /** The buckets depend on the recorded observations alone, whatever the requests, their order and
      their batches, iff the newest observations of each bucket agree on the reading. */
  lemma {:induction false} BucketsAreFixedIff(ds: seq<HistoryDelivery>)
    ensures WellFormedLog(FirstCommits(ds))
    ensures (forall k :: Unambiguous(Trail(FirstCommits(ds)), k))
            <==> forall ds' | RecordedTheSame(ds, ds') :: Run(ds').hot == Run(ds).hot
  {
    FirstCommitsAreDistinct(ds);
    if k :| !Unambiguous(Trail(FirstCommits(ds)), k) {
      var b, i, c, j := ContradictingRows(Trail(FirstCommits(ds)), k);
      TieShows(ds, k, b, i, c, j);
    } else {
      forall ds' | RecordedTheSame(ds, ds') ensures Run(ds').hot == Run(ds).hot {
        BucketsDependOnObservationsOnly(ds, ds');
      }
    }
  }
}

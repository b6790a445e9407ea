/**
 Ingest of history batches. An entry nests many buckets; every bucket becomes one raw row,
 and the hot table keeps one row per bucket. Tables are values here; HistoryRepository
 updates them in place.
 */
module HistoryIngest {
  import opened Wrappers
  import opened LatestWins
  import opened Deliveries
  import opened IngestRuns
  import opened ConditionalUpsert

  datatype Bucket = Bucket(at: int, itemCount: int, average: Option<int>)

  datatype HistoryEntry = HistoryEntry(observedAt: int, location: int, item: string, quality: int, history: seq<Bucket>)

  type HistoryRequest = Request<HistoryEntry>

  type HistoryDelivery = Delivery<HistoryEntry>

  // ---------- Tables ----------

  datatype BucketKey = BucketKey(server: int, location: int, item: string, quality: int, at: int)

  datatype RawBucket = RawBucket(request: Uuid, key: BucketKey, observedAt: int, reading: Reading)

  datatype Reading = Reading(itemCount: int, average: Option<int>)

  /** A row of the hot table. */
  datatype BucketRow = BucketRow(reading: Reading, observedAt: int)

  type Tables = IngestRuns.Tables<HistoryEntry, RawBucket, map<BucketKey, BucketRow>>

  // ---------- Rows of one request ----------

  function RawBucketOf(id: Uuid, server: int, e: HistoryEntry, b: Bucket): RawBucket {
    RawBucket(id, BucketKey(server, e.location, e.item, e.quality, b.at), e.observedAt, Reading(b.itemCount, b.average))
  }

  /** The row tells what the bucket of the entry tells. */
  predicate Records(row: RawBucket, id: Uuid, server: int, e: HistoryEntry, b: Bucket) {
    && row.request == id && row.key.server == server
    && row.key.location == e.location && row.key.item == e.item && row.key.quality == e.quality
    && row.key.at == b.at && row.observedAt == e.observedAt
    && row.reading.itemCount == b.itemCount && row.reading.average == b.average
  }

  function EntryRows(id: Uuid, server: int, e: HistoryEntry): (rows: seq<RawBucket>)
    ensures |rows| == |e.history|
  {
    seq(|e.history|, i requires 0 <= i < |e.history| => RawBucketOf(id, server, e, e.history[i]))
  }

  /** The rows of the first n entries, in order. */
  function FirstRows(id: Uuid, server: int, entries: seq<HistoryEntry>, n: nat): seq<RawBucket>
    requires n <= |entries|
  {
    if n == 0 then [] else FirstRows(id, server, entries, n - 1) + EntryRows(id, server, entries[n - 1])
  }

  /** The nested entries, flattened in order. */
  function Flattened(id: Uuid, server: int, entries: seq<HistoryEntry>): seq<RawBucket> {
    FirstRows(id, server, entries, |entries|)
  }

  /** How many buckets the first n entries have. */
  function FirstBuckets(entries: seq<HistoryEntry>, n: nat): nat
    requires n <= |entries|
  {
    if n == 0 then 0 else FirstBuckets(entries, n - 1) + |entries[n - 1].history|
  }

  function BucketCount(entries: seq<HistoryEntry>): nat {
    FirstBuckets(entries, |entries|)
  }

  function KeysOf(rows: seq<RawBucket>): set<BucketKey> {
    set i | 0 <= i < |rows| :: rows[i].key
  }

  /** Rows of one request with equal observation times are ranked by id alone. */
  function Observation(row: RawBucket): Obs<BucketKey, Reading> {
    Obs(row.key, Some(row.observedAt), 0, row.reading)
  }

  function Observations(rows: seq<RawBucket>): (os: seq<Obs<BucketKey, Reading>>)
    ensures |os| == |rows|
  {
    seq(|rows|, i requires 0 <= i < |rows| => Observation(rows[i]))
  }

  // ---------- The upsert into the hot table ----------

  predicate HasBucket(rows: seq<RawBucket>, k: BucketKey) {
    LatestIn(Observations(rows), k).Some?
  }

  function Excluded(rows: seq<RawBucket>, k: BucketKey): BucketRow
    requires HasBucket(rows, k)
  {
    var row := rows[LatestIn(Observations(rows), k).value];
    BucketRow(row.reading, row.observedAt)
  }

  predicate WhereClause(stored: BucketRow, excluded: BucketRow) {
    excluded.observedAt > stored.observedAt ||
    (excluded.observedAt == stored.observedAt &&
     (excluded.reading.itemCount != stored.reading.itemCount || excluded.reading.average != stored.reading.average))
  }

  const UPSERT: Upsert<BucketRow> := Upsert(WhereClause, (stored, excluded) => excluded)

  /** The rows the statement proposes for a request: one for each of its buckets. */
  function Proposed(rows: seq<RawBucket>): map<BucketKey, BucketRow> {
    map k | k in KeysOf(rows) && HasBucket(rows, k) :: Excluded(rows, k)
  }

  // ---------- Runs ----------

  const HISTORIES: Pipeline<HistoryEntry, RawBucket, map<BucketKey, BucketRow>> :=
    Pipeline(Flattened, (row: RawBucket) => row.request, map[],
             (buckets, rows) => Upserted(UPSERT, buckets, Proposed(rows)),
             (buckets, rows) => |AffectedKeys(UPSERT, buckets, Proposed(rows))|)

  function Ingest(t: Tables, d: HistoryDelivery): (Tables, Outcome) {
    IngestRuns.Ingest(HISTORIES, t, d)
  }

  function Run(ds: seq<HistoryDelivery>): Tables {
    IngestRuns.Run(HISTORIES, ds)
  }

  // ---------- The trail of a log ----------

  function RequestRows(r: HistoryRequest): seq<RawBucket>
    requires WellFormed(r)
  {
    Flattened(r.id.uuid.value, MapServer(r.server).value, r.entries)
  }

  function Trail(log: seq<HistoryRequest>): (trail: seq<seq<Obs<BucketKey, Reading>>>)
    requires WellFormedLog(log)
    ensures |trail| == |log|
  {
    seq(|log|, b requires 0 <= b < |log| => Observations(RequestRows(log[b])))
  }
}

/**
 Ingest of price batches: how a request becomes raw rows, and how these are merged into the
 hot table of current prices. Tables are values here; PriceRepository updates them in place.
 */
module PriceIngest {
  import opened Wrappers
  import opened LatestWins
  import opened Deliveries
  import opened IngestRuns
  import opened ConditionalUpsert

  // ---------- Requests ----------

  datatype PriceEntry = PriceEntry(
    observedAt: int, location: int, item: string, quality: int,
    sellPrice: Option<int>, sellAt: Option<int>, buyPrice: Option<int>, buyAt: Option<int>)

  type PriceRequest = Request<PriceEntry>

  type PriceDelivery = Delivery<PriceEntry>

  // ---------- Tables ----------

  datatype Key = Key(server: int, location: int, item: string, quality: int)

  datatype RawRow = RawRow(
    request: Uuid, key: Key, observedAt: int,
    sellPrice: Option<int>, sellAt: Option<int>, buyPrice: Option<int>, buyAt: Option<int>)

  /** A row of the hot table. */
  datatype Quote = Quote(sellPrice: Option<int>, sellAt: Option<int>, buyPrice: Option<int>, buyAt: Option<int>)

  type Tables = IngestRuns.Tables<PriceEntry, RawRow, map<Key, Quote>>

  // ---------- Rows of one request ----------

  function KeyOf(server: int, e: PriceEntry): Key {
    Key(server, e.location, e.item, e.quality)
  }

  function RawRowOf(id: Uuid, server: int, e: PriceEntry): RawRow {
    RawRow(id, KeyOf(server, e), e.observedAt, e.sellPrice, e.sellAt, e.buyPrice, e.buyAt)
  }

  function RawRowsOf(id: Uuid, server: int, entries: seq<PriceEntry>): (rows: seq<RawRow>)
    ensures |rows| == |entries|
  {
    seq(|entries|, i requires 0 <= i < |entries| => RawRowOf(id, server, entries[i]))
  }

  /** The row tells what the entry tells: same article, same prices, same times. */
  predicate Records(row: RawRow, id: Uuid, server: int, e: PriceEntry) {
    && row.request == id && row.key.server == server
    && row.key.location == e.location && row.key.item == e.item && row.key.quality == e.quality
    && row.observedAt == e.observedAt
    && row.sellPrice == e.sellPrice && row.sellAt == e.sellAt
    && row.buyPrice == e.buyPrice && row.buyAt == e.buyAt
  }

  function KeysOf(rows: seq<RawRow>): set<Key> {
    set i | 0 <= i < |rows| :: rows[i].key
  }

  // ---------- The two sides of a row ----------

  datatype Side = Sell | Buy

  function Observation(row: RawRow, side: Side): Obs<Key, Option<int>> {
    match side
    case Sell => Obs(row.key, row.sellAt, row.observedAt, row.sellPrice)
    case Buy => Obs(row.key, row.buyAt, row.observedAt, row.buyPrice)
  }

  function Observations(rows: seq<RawRow>, side: Side): (os: seq<Obs<Key, Option<int>>>)
    ensures |os| == |rows|
  {
    seq(|rows|, i requires 0 <= i < |rows| => Observation(rows[i], side))
  }

  function SideStamp(q: Quote, side: Side): Option<Stamp<Option<int>>> {
    var (price, at) := if side == Sell then (q.sellPrice, q.sellAt) else (q.buyPrice, q.buyAt);
    if at.None? then None else Some(Stamp(price, at.value))
  }

  /** A side that was never observed holds no price either. */
  predicate Clean(q: Quote) {
    (q.sellAt.None? ==> q.sellPrice.None?) && (q.buyAt.None? ==> q.buyPrice.None?)
  }

  // ---------- The upsert into the hot table ----------

  /** The row proposed for k: the latest sell and the latest buy side of the request. */
  function Excluded(rows: seq<RawRow>, k: Key): Quote {
    var s := LatestIn(Observations(rows, Sell), k);
    var b := LatestIn(Observations(rows, Buy), k);
    Quote(
      if s.None? then None else rows[s.value].sellPrice, if s.None? then None else rows[s.value].sellAt,
      if b.None? then None else rows[b.value].buyPrice, if b.None? then None else rows[b.value].buyAt)
  }

  /** The guard shared by the CASE expressions of one side. */
  predicate Replaces(storedAt: Option<int>, excludedAt: Option<int>) {
    excludedAt.Some? && (storedAt.None? || excludedAt.value >= storedAt.value)
  }

  function SetClause(stored: Quote, excluded: Quote): Quote {
    Quote(
      if Replaces(stored.sellAt, excluded.sellAt) then excluded.sellPrice else stored.sellPrice,
      if Replaces(stored.sellAt, excluded.sellAt) then excluded.sellAt else stored.sellAt,
      if Replaces(stored.buyAt, excluded.buyAt) then excluded.buyPrice else stored.buyPrice,
      if Replaces(stored.buyAt, excluded.buyAt) then excluded.buyAt else stored.buyAt)
  }

  predicate WhereSide(price: Option<int>, at: Option<int>, excludedPrice: Option<int>, excludedAt: Option<int>) {
    excludedAt.Some? &&
    (at.None? || excludedAt.value > at.value || (excludedAt == at && excludedPrice != price))
  }

  predicate WhereClause(stored: Quote, excluded: Quote) {
    WhereSide(stored.sellPrice, stored.sellAt, excluded.sellPrice, excluded.sellAt) ||
    WhereSide(stored.buyPrice, stored.buyAt, excluded.buyPrice, excluded.buyAt)
  }

  const UPSERT: Upsert<Quote> := Upsert(WhereClause, SetClause)

  /** The rows the statement proposes for a request: one for each of its keys. */
  function Proposed(rows: seq<RawRow>): map<Key, Quote> {
    map k | k in KeysOf(rows) :: Excluded(rows, k)
  }

  // ---------- Runs ----------

  /** Every entry is one row, so that both counts of a ledger row are the accepted count. */
  const PRICES: Pipeline<PriceEntry, RawRow, map<Key, Quote>> :=
    Pipeline(RawRowsOf, (row: RawRow) => row.request, map[],
             (current, rows) => Upserted(UPSERT, current, Proposed(rows)),
             (current, rows) => |AffectedKeys(UPSERT, current, Proposed(rows))|)

  function Run(ds: seq<PriceDelivery>): Tables {
    IngestRuns.Run(PRICES, ds)
  }

  // ---------- The trail of a log ----------

  function RequestRows(r: PriceRequest): seq<RawRow>
    requires WellFormed(r)
  {
    RawRowsOf(r.id.uuid.value, MapServer(r.server).value, r.entries)
  }

  function Trail(log: seq<PriceRequest>, side: Side): (trail: seq<seq<Obs<Key, Option<int>>>>)
    requires WellFormedLog(log)
    ensures |trail| == |log|
  {
    seq(|log|, b requires 0 <= b < |log| => Observations(RequestRows(log[b]), side))
  }

  /** Some raw row of the log has the key. */
  ghost predicate HasRow(log: seq<PriceRequest>, k: Key)
    requires WellFormedLog(log)
  {
    exists b: nat :: b < |log| && k in KeysOf(RequestRows(log[b]))
  }
}

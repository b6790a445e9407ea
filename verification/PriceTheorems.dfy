/** What every run of price deliveries keeps. */
module PriceTheorems {
  import opened Wrappers
  import opened Text
  import opened LatestWins
  import opened Deliveries
  import opened PriceIngest
  import opened ConditionalUpsert
  import IngestRuns

  // ---------- The conditional upsert ----------

  /** The WHERE clause lets an update through exactly when the CASE expressions change the row. */
  lemma WhereIffChanged(stored: Quote, excluded: Quote)
    ensures WhereClause(stored, excluded) <==> SetClause(stored, excluded) != stored
  {
    assert SetClause(stored, excluded) == stored <==>
        SetClause(stored, excluded).sellPrice == stored.sellPrice && SetClause(stored, excluded).sellAt == stored.sellAt &&
        SetClause(stored, excluded).buyPrice == stored.buyPrice && SetClause(stored, excluded).buyAt == stored.buyAt;
  }

  /** The number of rows reported as touched is the number of keys whose row is new or different. */
  lemma TouchedIsExact(current: map<Key, Quote>, proposed: map<Key, Quote>)
    ensures var after := Upserted(UPSERT, current, proposed);
            |AffectedKeys(UPSERT, current, proposed)| == |ChangedKeys(current, after)|
  {
    forall stored, excluded | UPSERT.where(stored, excluded) ensures UPSERT.assign(stored, excluded) != stored {
      WhereIffChanged(stored, excluded);
    }
    CountIsExact(UPSERT, current, proposed);
  }

  ghost predicate NotOlder(before: Option<int>, after: Option<int>) {
    before.Some? ==> after.Some? && before.value <= after.value
  }

  /** Over any continuation of a run, rows never disappear, and a side's timestamp never
      decreases or returns to null. */
  lemma {:induction false} TimestampsNeverDecrease(ds: seq<PriceDelivery>, more: seq<PriceDelivery>, k: Key)
    requires k in Run(ds).hot
    ensures var (before, after) := (Run(ds).hot, Run(ds + more).hot);
            && k in after
            && NotOlder(before[k].sellAt, after[k].sellAt)
            && NotOlder(before[k].buyAt, after[k].buyAt)
  {
    if |more| == 0 {
      assert ds + more == ds;
    } else {
      TimestampsNeverDecrease(ds, more[..|more| - 1], k);
      assert (ds + more)[..|ds + more| - 1] == ds + more[..|more| - 1];
    }
  }

  function StampIn(current: map<Key, Quote>, k: Key, side: Side): Option<Stamp<Option<int>>> {
    if k in current then SideStamp(current[k], side) else None
  }

  lemma ExcludedIsIncoming(rows: seq<RawRow>, k: Key, side: Side)
    ensures SideStamp(Excluded(rows, k), side) == Incoming(Observations(rows, side), k)
    ensures Clean(Excluded(rows, k))
  {}

  lemma SetMergesSide(stored: Quote, excluded: Quote, side: Side)
    requires Clean(stored)
    ensures SideStamp(SetClause(stored, excluded), side) == Merge(SideStamp(stored, side), SideStamp(excluded, side))
    ensures Clean(excluded) ==> Clean(SetClause(stored, excluded))
  {}

  /** On each side the upsert of a request's rows is one merge of the request's latest observation. */
  lemma {:induction false} UpsertMergesSide(current: map<Key, Quote>, rows: seq<RawRow>, k: Key, side: Side)
    requires forall q | q in current :: Clean(current[q])
    ensures StampIn(Upserted(UPSERT, current, Proposed(rows)), k, side)
         == Merge(StampIn(current, k, side), Incoming(Observations(rows, side), k))
    ensures k in Upserted(UPSERT, current, Proposed(rows)) ==> Clean(Upserted(UPSERT, current, Proposed(rows))[k])
  {
    if k in KeysOf(rows) {
      ExcludedIsIncoming(rows, k, side);
      if k in current {
        WhereIffChanged(current[k], Excluded(rows, k));
        SetMergesSide(current[k], Excluded(rows, k), side);
      }
    } else {
      var os := Observations(rows, side);
      forall i | 0 <= i < |os| ensures !Counts(os[i], k) {
        assert rows[i].key in KeysOf(rows);
      }
    }
  }

  // ---------- The hot table after every run ----------

  lemma RowsAreTagged()
    ensures IngestRuns.TagsRows(PRICES)
  {}

  ghost predicate CurrentAgrees(current: map<Key, Quote>, log: seq<PriceRequest>)
    requires WellFormedLog(log)
  {
    && (forall k :: k in current <==> HasRow(log, k))
    && (forall k | k in current :: Clean(current[k]))
    && (forall k, side :: StampIn(current, k, side) == View(Trail(log, side), k))
  }

  lemma UpsertKeepsAgreement(current: map<Key, Quote>, log: seq<PriceRequest>, r: PriceRequest)
    requires WellFormedLog(log) && CurrentAgrees(current, log) && WellFormed(r)
    ensures WellFormedLog(log + [r]) && CurrentAgrees(Upserted(UPSERT, current, Proposed(RequestRows(r))), log + [r])
  {
    var current', log' := Upserted(UPSERT, current, Proposed(RequestRows(r))), log + [r];
    assert log'[|log|] == r;
    forall k ensures k in current' <==> HasRow(log', k) {
      if HasRow(log, k) {
        var b: nat :| b < |log| && k in KeysOf(RequestRows(log[b]));
        assert log'[b] == log[b];
      }
    }
    forall k, side ensures StampIn(current', k, side) == View(Trail(log', side), k) {
      UpsertMergesSide(current, RequestRows(r), k, side);
      assert Trail(log', side) == Trail(log, side) + [Observations(RequestRows(r), side)];
      ViewAppend(Trail(log, side), Observations(RequestRows(r), side), k);
    }
    forall k | k in current' ensures Clean(current'[k]) {
      UpsertMergesSide(current, RequestRows(r), k, Sell);
    }
  }

  lemma {:induction false} MergedAgrees(log: seq<PriceRequest>)
    requires WellFormedLog(log)
    ensures CurrentAgrees(IngestRuns.Merged(PRICES, log), log)
  {
    if |log| > 0 {
      var before, r := log[..|log| - 1], log[|log| - 1];
      MergedAgrees(before);
      UpsertKeepsAgreement(IngestRuns.Merged(PRICES, before), before, r);
      assert before + [r] == log;
    }
  }

  /** After every run the raw trail is that of the log of first commits, and the hot table agrees with it. */
  lemma {:induction false} RunAgrees(ds: seq<PriceDelivery>)
    ensures WellFormedLog(FirstCommits(ds))
    ensures Run(ds).raw == IngestRuns.RawTrail(PRICES, FirstCommits(ds))
    ensures CurrentAgrees(Run(ds).hot, FirstCommits(ds))
  {
    RowsAreTagged();
    IngestRuns.RunAgrees(PRICES, ds);
    MergedAgrees(FirstCommits(ds));
  }

  // ---------- The raw trail holds the entries ----------

  /** How many entries the first b requests have. */
  function EntriesBefore(log: seq<PriceRequest>, b: nat): nat
    requires b <= |log|
  {
    if b == 0 then 0 else EntriesBefore(log, b - 1) + |log[b - 1].entries|
  }

  lemma {:induction false} EntriesBeforePrefix(log: seq<PriceRequest>, n: nat, b: nat)
    requires b <= n <= |log|
    ensures EntriesBefore(log[..n], b) == EntriesBefore(log, b)
  {
    if b > 0 {
      EntriesBeforePrefix(log, n, b - 1);
    }
  }

  lemma {:induction false} TrailRecords(log: seq<PriceRequest>, b: nat, i: nat)
    requires WellFormedLog(log) && b < |log| && i < |log[b].entries|
    ensures |IngestRuns.RawTrail(PRICES, log)| == EntriesBefore(log, |log|) >= EntriesBefore(log, b) + |log[b].entries|
    ensures Records(IngestRuns.RawTrail(PRICES, log)[EntriesBefore(log, b) + i],
                    log[b].id.uuid.value, MapServer(log[b].server).value, log[b].entries[i])
  {
    var n := |log| - 1;
    TrailLength(log[..n]);
    EntriesBeforePrefix(log, n, n);
    if b < n {
      TrailRecords(log[..n], b, i);
      EntriesBeforePrefix(log, n, b);
    }
  }

  lemma {:induction false} TrailLength(log: seq<PriceRequest>)
    requires WellFormedLog(log)
    ensures |IngestRuns.RawTrail(PRICES, log)| == EntriesBefore(log, |log|)
  {
    if |log| > 0 {
      TrailLength(log[..|log| - 1]);
      EntriesBeforePrefix(log, |log| - 1, |log| - 1);
    }
  }

  /** After every run the raw trail holds exactly the entries of the committed requests, one row each,
      in the order of the commits and then of the entries; each row tells what its entry tells, for
      the request's id and server. */
  lemma {:induction false} RawTrailRecordsEntries(ds: seq<PriceDelivery>, b: nat, i: nat)
    requires b < |FirstCommits(ds)| && i < |FirstCommits(ds)[b].entries|
    ensures var (raw, log) := (Run(ds).raw, FirstCommits(ds));
            && |raw| == EntriesBefore(log, |log|) >= EntriesBefore(log, b) + |log[b].entries|
            && WellFormed(log[b])
            && var row := raw[EntriesBefore(log, b) + i];
               Records(row, log[b].id.uuid.value, row.key.server, log[b].entries[i])
               && 1 <= row.key.server <= 3 && UnmapServer(row.key.server) == log[b].server
  {
    RunAgrees(ds);
    TrailRecords(FirstCommits(ds), b, i);
    ServersAreToldApart(FirstCommits(ds)[b].server, MapServer(FirstCommits(ds)[b].server).value);
  }

  // ---------- The hot table is a query over the entries ----------

  /** Entry i of request b is about the article and the market that the key stands for. */
  predicate About(log: seq<PriceRequest>, b: nat, i: nat, k: Key) {
    && b < |log| && i < |log[b].entries|
    && 1 <= k.server <= 3 && UnmapServer(k.server) == log[b].server
    && k.location == log[b].entries[i].location && k.item == log[b].entries[i].item
    && k.quality == log[b].entries[i].quality
  }

  /** By time of the side, then commit order, then observation time, then position in the request. */
  predicate NotLater(at: int, b: nat, observedAt: int, i: nat, at': int, b': nat, observedAt': int, i': nat) {
    at < at' || (at == at' && (b < b' || (b == b' && (observedAt < observedAt' || (observedAt == observedAt' && i <= i')))))
  }

  /** Entry i of request b has the latest sell side of all entries about the key. */
  ghost predicate IsLatestSell(log: seq<PriceRequest>, k: Key, b: nat, i: nat) {
    About(log, b, i, k) &&
    var e := log[b].entries[i];
    && e.sellAt.Some?
    && forall c: nat, j: nat | About(log, c, j, k) && log[c].entries[j].sellAt.Some? ::
         NotLater(log[c].entries[j].sellAt.value, c, log[c].entries[j].observedAt, j, e.sellAt.value, b, e.observedAt, i)
  }

  /** Entry i of request b has the latest buy side of all entries about the key. */
  ghost predicate IsLatestBuy(log: seq<PriceRequest>, k: Key, b: nat, i: nat) {
    About(log, b, i, k) &&
    var e := log[b].entries[i];
    && e.buyAt.Some?
    && forall c: nat, j: nat | About(log, c, j, k) && log[c].entries[j].buyAt.Some? ::
         NotLater(log[c].entries[j].buyAt.value, c, log[c].entries[j].observedAt, j, e.buyAt.value, b, e.observedAt, i)
  }

  /** The rows of a side's trail are the entries, and count for a key if they are about it. */
  lemma TrailAt(log: seq<PriceRequest>, k: Key, b: nat, i: nat)
    requires WellFormedLog(log)
    ensures forall side :: InTrail(Trail(log, side), b, i) <==> b < |log| && i < |log[b].entries|
    ensures b < |log| && i < |log[b].entries| ==>
              var e := log[b].entries[i];
              && var (sell, buy) := (Trail(log, Sell)[b][i], Trail(log, Buy)[b][i]);
                 && sell.value == e.sellPrice && sell.at == e.sellAt && sell.tie == e.observedAt
                 && buy.value == e.buyPrice && buy.at == e.buyAt && buy.tie == e.observedAt
                 && (Counts(sell, k) <==> About(log, b, i, k) && e.sellAt.Some?)
                 && (Counts(buy, k) <==> About(log, b, i, k) && e.buyAt.Some?)
  {
    if b < |log| {
      assert WellFormed(log[b]);
      ServersAreToldApart(log[b].server, k.server);
    }
  }

  lemma HasRowIffAbout(log: seq<PriceRequest>, k: Key)
    requires WellFormedLog(log)
    ensures HasRow(log, k) <==> exists b: nat, i: nat :: About(log, b, i, k)
  {
    if HasRow(log, k) {
      var b: nat :| b < |log| && k in KeysOf(RequestRows(log[b]));
      var i :| 0 <= i < |RequestRows(log[b])| && RequestRows(log[b])[i].key == k;
      ServersAreToldApart(log[b].server, k.server);
      assert About(log, b, i, k);
    }
    if b: nat, i: nat :| About(log, b, i, k) {
      assert WellFormed(log[b]);
      ServersAreToldApart(log[b].server, k.server);
      assert RequestRows(log[b])[i].key == k && k in KeysOf(RequestRows(log[b]));
    }
  }

  lemma LatestSellIs(log: seq<PriceRequest>, k: Key, b: nat, i: nat)
    requires WellFormedLog(log) && IsLatest(Trail(log, Sell), k, b, i)
    ensures IsLatestSell(log, k, b, i) && StampOf(Trail(log, Sell)[b][i]) == Stamp(log[b].entries[i].sellPrice, log[b].entries[i].sellAt.value)
  {
    TrailAt(log, k, b, i);
    forall c: nat, j: nat | About(log, c, j, k) && log[c].entries[j].sellAt.Some?
      ensures var (e, f) := (log[b].entries[i], log[c].entries[j]);
              NotLater(f.sellAt.value, c, f.observedAt, j, e.sellAt.value, b, e.observedAt, i)
    {
      TrailAt(log, k, c, j);
      assert NotBeforeInTrail(Trail(log, Sell), b, i, c, j);
    }
  }

  lemma LatestBuyIs(log: seq<PriceRequest>, k: Key, b: nat, i: nat)
    requires WellFormedLog(log) && IsLatest(Trail(log, Buy), k, b, i)
    ensures IsLatestBuy(log, k, b, i) && StampOf(Trail(log, Buy)[b][i]) == Stamp(log[b].entries[i].buyPrice, log[b].entries[i].buyAt.value)
  {
    TrailAt(log, k, b, i);
    forall c: nat, j: nat | About(log, c, j, k) && log[c].entries[j].buyAt.Some?
      ensures var (e, f) := (log[b].entries[i], log[c].entries[j]);
              NotLater(f.buyAt.value, c, f.observedAt, j, e.buyAt.value, b, e.observedAt, i)
    {
      TrailAt(log, k, c, j);
      assert NotBeforeInTrail(Trail(log, Buy), b, i, c, j);
    }
  }

  /** The sell side of a current price is that of the entry with the latest one. */
  ghost predicate SellIsLatest(log: seq<PriceRequest>, k: Key, q: Quote) {
    if q.sellAt.Some? then
      exists b: nat, i: nat :: IsLatestSell(log, k, b, i)
        && q.sellPrice == log[b].entries[i].sellPrice && q.sellAt == log[b].entries[i].sellAt
    else
      q.sellPrice.None? && forall b: nat, i: nat | About(log, b, i, k) :: log[b].entries[i].sellAt.None?
  }

  /** The buy side of a current price is that of the entry with the latest one. */
  ghost predicate BuyIsLatest(log: seq<PriceRequest>, k: Key, q: Quote) {
    if q.buyAt.Some? then
      exists b: nat, i: nat :: IsLatestBuy(log, k, b, i)
        && q.buyPrice == log[b].entries[i].buyPrice && q.buyAt == log[b].entries[i].buyAt
    else
      q.buyPrice.None? && forall b: nat, i: nat | About(log, b, i, k) :: log[b].entries[i].buyAt.None?
  }

  lemma {:induction false} CurrentSellIsLatest(ds: seq<PriceDelivery>, k: Key)
    requires k in Run(ds).hot
    ensures SellIsLatest(FirstCommits(ds), k, Run(ds).hot[k])
  {
    var (log, q) := (FirstCommits(ds), Run(ds).hot[k]);
    RunAgrees(ds);
    ViewIsLatest(Trail(log, Sell), k);
    assert StampIn(Run(ds).hot, k, Sell) == View(Trail(log, Sell), k);
    if q.sellAt.Some? {
      var b: nat, i: nat :| IsLatest(Trail(log, Sell), k, b, i) && View(Trail(log, Sell), k).value == StampOf(Trail(log, Sell)[b][i]);
      LatestSellIs(log, k, b, i);
      assert q.sellPrice == log[b].entries[i].sellPrice && q.sellAt == log[b].entries[i].sellAt;
    } else {
      forall b: nat, i: nat | About(log, b, i, k) ensures log[b].entries[i].sellAt.None? {
        TrailAt(log, k, b, i);
        assert InTrail(Trail(log, Sell), b, i);
      }
    }
  }

  lemma {:induction false} CurrentBuyIsLatest(ds: seq<PriceDelivery>, k: Key)
    requires k in Run(ds).hot
    ensures BuyIsLatest(FirstCommits(ds), k, Run(ds).hot[k])
  {
    var (log, q) := (FirstCommits(ds), Run(ds).hot[k]);
    RunAgrees(ds);
    ViewIsLatest(Trail(log, Buy), k);
    assert StampIn(Run(ds).hot, k, Buy) == View(Trail(log, Buy), k);
    if q.buyAt.Some? {
      var b: nat, i: nat :| IsLatest(Trail(log, Buy), k, b, i) && View(Trail(log, Buy), k).value == StampOf(Trail(log, Buy)[b][i]);
      LatestBuyIs(log, k, b, i);
      assert q.buyPrice == log[b].entries[i].buyPrice && q.buyAt == log[b].entries[i].buyAt;
    } else {
      forall b: nat, i: nat | About(log, b, i, k) ensures log[b].entries[i].buyAt.None? {
        TrailAt(log, k, b, i);
        assert InTrail(Trail(log, Buy), b, i);
      }
    }
  }

  /**
   After every run, each side of each current price is the price and time of an entry about that
   key: the latest by the time of the side, commit order, observation time and position in its
   request. It is null if no entry has that side. A key has a row iff some entry is about it.
   */
  lemma {:induction false} CurrentIsLatestObservation(ds: seq<PriceDelivery>, k: Key)
    ensures var (hot, log) := (Run(ds).hot, FirstCommits(ds));
            && (k in hot <==> exists b: nat, i: nat :: About(log, b, i, k))
            && (k in hot ==> SellIsLatest(log, k, hot[k]) && BuyIsLatest(log, k, hot[k]))
  {
    RunAgrees(ds);
    HasRowIffAbout(FirstCommits(ds), k);
    if k in Run(ds).hot {
      CurrentSellIsLatest(ds, k);
      CurrentBuyIsLatest(ds, k);
    }
  }

  /** In every run a first success reports the entries of its payload and the number of keys whose
      current price is new or different, and adds one raw row per entry. */
  lemma {:induction false} AnswerCountsChanges(ds: seq<PriceDelivery>, d: PriceDelivery)
    ensures var ((t', answer), t) := (IngestRuns.Ingest(PRICES, Run(ds), d), Run(ds));
            && (answer.Accepted? ==> answer.entries == answer.rows == |d.request.entries|)
            && (answer.Accepted? && !answer.duplicate ==>
                  && |t'.raw| == |t.raw| + |d.request.entries|
                  && answer.touched == |ChangedKeys(t.hot, t'.hot)|)
  {
    RowsAreTagged();
    IngestRuns.AnswerCountsThePayload(PRICES, ds, d);
    if IngestRuns.Ingest(PRICES, Run(ds), d).1.Accepted? && !IngestRuns.Ingest(PRICES, Run(ds), d).1.duplicate {
      IngestRuns.FirstSuccessCommits(PRICES, Run(ds), d);
      var rows := IngestRuns.RowsOf(PRICES, d.request);
      TouchedIsExact(Run(ds).hot, Proposed(IngestRuns.Selected(Run(ds).raw + rows, PRICES.owner, d.request.id.uuid.value)));
    }
  }

  // ---------- Order and batching do not matter ----------

  ghost predicate SameObservations(log: seq<PriceRequest>, log': seq<PriceRequest>)
    requires WellFormedLog(log) && WellFormedLog(log')
  {
    && (forall k :: HasRow(log, k) <==> HasRow(log', k))
    && (forall side :: SameRows(Trail(log, side), Trail(log', side)))
  }

  /** The newest rows of each key and side agree on the price. */
  ghost predicate NoTies(log: seq<PriceRequest>)
    requires WellFormedLog(log)
  {
    forall k, side :: Unambiguous(Trail(log, side), k)
  }

  /** Two runs that recorded the same observations have the same hot table, however the
      observations were grouped into requests and in whatever order these committed. */
  lemma {:induction false} CurrentDependsOnObservationsOnly(ds: seq<PriceDelivery>, ds': seq<PriceDelivery>)
    requires WellFormedLog(FirstCommits(ds)) && WellFormedLog(FirstCommits(ds'))
    requires SameObservations(FirstCommits(ds), FirstCommits(ds')) && NoTies(FirstCommits(ds))
    ensures Run(ds).hot == Run(ds').hot
  {
    var (t, t') := (Run(ds), Run(ds'));
    RunAgrees(ds);
    RunAgrees(ds');
    assert t.hot.Keys == t'.hot.Keys;
    forall k | k in t.hot ensures t'.hot[k] == t.hot[k] {
      SameQuote(t, t', FirstCommits(ds), FirstCommits(ds'), k);
    }
  }

  lemma SameQuote(t: Tables, t': Tables, log: seq<PriceRequest>, log': seq<PriceRequest>, k: Key)
    requires WellFormedLog(log) && WellFormedLog(log') && SameObservations(log, log') && NoTies(log)
    requires CurrentAgrees(t.hot, log) && CurrentAgrees(t'.hot, log')
    requires k in t.hot && k in t'.hot
    ensures t.hot[k] == t'.hot[k]
  {
    forall side ensures SideStamp(t.hot[k], side) == SideStamp(t'.hot[k], side) {
      SameRowsSameView(Trail(log, side), Trail(log', side), k);
      assert StampIn(t.hot, k, side) == StampIn(t'.hot, k, side);
    }
    assert SideStamp(t.hot[k], Sell) == SideStamp(t'.hot[k], Sell);
    assert SideStamp(t.hot[k], Buy) == SideStamp(t'.hot[k], Buy);
  }

  // ---------- When they would matter ----------

  /** Both runs recorded the same observations. */
  ghost predicate RecordedTheSame(ds: seq<PriceDelivery>, ds': seq<PriceDelivery>) {
    && WellFormedLog(FirstCommits(ds)) && WellFormedLog(FirstCommits(ds'))
    && SameObservations(FirstCommits(ds), FirstCommits(ds'))
  }

  /** One entry of a request, sent again under another id, which its text denotes. */
  function Resent(r: PriceRequest, i: nat, u: Uuid): PriceRequest
    requires i < |r.entries|
  {
    Request(RequestId(Decimal(u), Some(u)), r.server, [r.entries[i]])
  }

  /** Sending an entry again under a new id appends its observations, on both sides, and records
      nothing new. */
  lemma {:induction false} ResendingRecordsNothingNew(ds: seq<PriceDelivery>, b: nat, i: nat, u: Uuid)
    requires b < |FirstCommits(ds)| && i < |FirstCommits(ds)[b].entries| && u !in IdsOf(FirstCommits(ds))
    ensures var (log, ds') := (FirstCommits(ds), ds + [Delivery(Resent(FirstCommits(ds)[b], i, u), NoFault)]);
            && RecordedTheSame(ds, ds')
            && (forall side :: Trail(FirstCommits(ds'), side) == Trail(log, side) + [[Trail(log, side)[b][i]]])
  {
    var log := FirstCommits(ds);
    var r := Resent(log[b], i, u);
    var ds' := ds + [Delivery(r, NoFault)];
    FirstCommitsAreDistinct(ds);
    assert ds'[..|ds|] == ds && FirstCommits(ds') == log + [r];
    assert WellFormed(log[b]) && WellFormed(r);
    forall side
      ensures Trail(log + [r], side) == Trail(log, side) + [[Trail(log, side)[b][i]]]
      ensures SameRows(Trail(log, side), Trail(log + [r], side))
    {
      var o := Trail(log, side)[b][i];
      assert Observations(RequestRows(r), side) == [o];
      assert Trail(log + [r], side) == Trail(log, side) + [[o]];
      assert InTrail(Trail(log, side), b, i);
      AppendKnown(Trail(log, side), o);
    }
    forall k ensures HasRow(log, k) <==> HasRow(log + [r], k) {
      ResentHasNoNewKey(log, b, i, u, k);
    }
  }

  lemma ResentHasNoNewKey(log: seq<PriceRequest>, b: nat, i: nat, u: Uuid, k: Key)
    requires WellFormedLog(log) && b < |log| && i < |log[b].entries|
    ensures WellFormedLog(log + [Resent(log[b], i, u)])
    ensures HasRow(log, k) <==> HasRow(log + [Resent(log[b], i, u)], k)
  {
    var r := Resent(log[b], i, u);
    var more := log + [r];
    assert WellFormed(log[b]);
    if HasRow(log, k) {
      var c: nat :| c < |log| && k in KeysOf(RequestRows(log[c]));
      assert more[c] == log[c];
    }
    if HasRow(more, k) {
      var c: nat :| c < |more| && k in KeysOf(RequestRows(more[c]));
      if c < |log| {
        assert more[c] == log[c];
      } else {
        assert k == RequestRows(r)[0].key == RequestRows(log[b])[i].key;
        assert k in KeysOf(RequestRows(log[b]));
      }
    }
  }

  /** Sending a newest row again puts its price into the hot table. */
  lemma {:induction false} ResentNewestWins(ds: seq<PriceDelivery>, b: nat, i: nat, u: Uuid, k: Key, side: Side)
    requires b < |FirstCommits(ds)| && i < |FirstCommits(ds)[b].entries| && u !in IdsOf(FirstCommits(ds))
    requires WellFormedLog(FirstCommits(ds))
    requires Newest(Trail(FirstCommits(ds), side), k, Trail(FirstCommits(ds), side)[b][i])
    ensures var ds' := ds + [Delivery(Resent(FirstCommits(ds)[b], i, u), NoFault)];
            && RecordedTheSame(ds, ds')
            && StampIn(Run(ds').hot, k, side) == Some(StampOf(Trail(FirstCommits(ds), side)[b][i]))
  {
    var ds' := ds + [Delivery(Resent(FirstCommits(ds)[b], i, u), NoFault)];
    ResendingRecordsNothingNew(ds, b, i, u);
    RunAgrees(ds');
    RedeliveredNewestWins(Trail(FirstCommits(ds), side), k, Trail(FirstCommits(ds), side)[b][i]);
  }

  /** Contradicting newest rows of a key leave two runs that recorded the same with different tables. */
  lemma {:induction false} TieShows(ds: seq<PriceDelivery>, b: nat, i: nat, c: nat, j: nat, k: Key, side: Side)
    requires WellFormedLog(FirstCommits(ds))
    requires var trail := Trail(FirstCommits(ds), side);
             && InTrail(trail, b, i) && InTrail(trail, c, j)
             && Newest(trail, k, trail[b][i]) && Newest(trail, k, trail[c][j]) && trail[b][i].value != trail[c][j].value
    ensures exists ds' :: RecordedTheSame(ds, ds') && Run(ds').hot != Run(ds).hot
  {
    var log := FirstCommits(ds);
    UnusedId(IdsOf(log));
    var u :| u !in IdsOf(log);
    var first, second := ds + [Delivery(Resent(log[b], i, u), NoFault)], ds + [Delivery(Resent(log[c], j, u), NoFault)];
    ResentNewestWins(ds, b, i, u, k, side);
    ResentNewestWins(ds, c, j, u, k, side);
    OneOfTwoDiffers(Run(ds), Run(first), Run(second), k, side);
  }

  lemma OneOfTwoDiffers(t: Tables, first: Tables, second: Tables, k: Key, side: Side)
    requires StampIn(first.hot, k, side) != StampIn(second.hot, k, side)
    ensures first.hot != t.hot || second.hot != t.hot
  {}

  /** The hot table depends on the recorded observations alone, whatever the requests, their order
      and their batches, iff the newest observations of each key and side agree on the price. */
  lemma {:induction false} CurrentIsFixedIff(ds: seq<PriceDelivery>)
    ensures WellFormedLog(FirstCommits(ds))
    ensures NoTies(FirstCommits(ds)) <==> forall ds' | RecordedTheSame(ds, ds') :: Run(ds').hot == Run(ds).hot
  {
    FirstCommitsAreDistinct(ds);
    if NoTies(FirstCommits(ds)) {
      forall ds' | RecordedTheSame(ds, ds') ensures Run(ds').hot == Run(ds).hot {
        CurrentDependsOnObservationsOnly(ds, ds');
      }
    } else {
      var k, side :| !Unambiguous(Trail(FirstCommits(ds), side), k);
      var b, i, c, j := ContradictingRows(Trail(FirstCommits(ds), side), k);
      TieShows(ds, b, i, c, j, k, side);
    }
  }
}

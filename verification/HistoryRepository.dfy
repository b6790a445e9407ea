/** The history repository, which updates its tables in place. */
module HistoryRepository {
  import opened Wrappers
  import opened CopyCells
  import opened Deliveries
  import opened HistoryIngest
  import opened IngestRuns
  import opened ConditionalUpsert
  import HistoryTheorems

  // ---------- The COPY source ----------

  /** The columns of market_history_ingest_raw in COPY order. */
  function CellsOf(row: RawBucket): (cells: seq<Cell>)
    ensures |cells| == 9
  {
    [NumberCell(row.request), NumberCell(row.key.server), NumberCell(row.observedAt), NumberCell(row.key.location),
     TextCell(row.key.item), NumberCell(row.key.quality), NumberCell(row.key.at),
     NumberCell(row.reading.itemCount), NullableCell(row.reading.average)]
  }

  predicate HasColumnTypes(c: seq<Cell>) {
    && |c| == 9
    && c[0].NumberCell? && c[1].NumberCell? && c[2].NumberCell? && c[3].NumberCell?
    && c[4].TextCell? && c[5].NumberCell? && c[6].NumberCell? && c[7].NumberCell? && c[8].NullableCell?
  }

  /** The row that the database stores for the encoded cells. */
  function RowOfCells(c: seq<Cell>): (row: RawBucket)
    requires HasColumnTypes(c)
    ensures CellsOf(row) == c
  {
    RawBucket(c[0].number, BucketKey(c[1].number, c[3].number, c[4].text, c[5].number, c[6].number), c[2].number,
              Reading(c[7].number, c[8].nullable))
  }

  method CountHistoryBuckets(entries: seq<HistoryEntry>) returns (total: nat)
    ensures total == BucketCount(entries)
  {
    total := 0;
    for i := 0 to |entries|
      invariant total == FirstBuckets(entries, i)
    {
      total := total + |entries[i].history|;
    }
  }

  /** Walks the nested entries without flattening them; the array of values is reused. */
  class RawHistoryCopySource {
    const id: Uuid
    const server: int
    const entries: seq<HistoryEntry>
    var entryIndex: nat
    var bucketIndex: nat
    var currentEntry: nat
    var currentBucket: nat
    var positioned: bool
    const values: array<Cell>

    /** How many rows of the flattening have been handed out. */
    ghost function Consumed(): nat
      reads this
      requires entryIndex <= |entries|
    {
      FirstBuckets(entries, entryIndex) + bucketIndex
    }

    ghost predicate Valid()
      reads this, values
    {
      && entryIndex <= |entries|
      && (entryIndex < |entries| ==> bucketIndex <= |entries[entryIndex].history|)
      && (entryIndex == |entries| ==> bucketIndex == 0)
      && values.Length == 9
      && values[0] == NumberCell(id) && values[1] == NumberCell(server)
      && (positioned ==>
            && currentEntry < |entries| && currentBucket < |entries[currentEntry].history|
            && FirstBuckets(entries, currentEntry) + currentBucket + 1 == Consumed())
    }

    constructor (id: Uuid, server: int, entries: seq<HistoryEntry>)
      ensures Valid() && fresh(values)
      ensures this.id == id && this.server == server && this.entries == entries
      ensures Consumed() == 0 && !positioned
    {
      this.id := id;
      this.server := server;
      this.entries := entries;
      entryIndex, bucketIndex, currentEntry, currentBucket, positioned := 0, 0, 0, 0, false;
      var cells := new Cell[9](i => NullableCell(None));
      cells[0] := NumberCell(id);
      cells[1] := NumberCell(server);
      values := cells;
    }

    /** Moves to the next row of the flattening, if there is one. */
    method Next() returns (more: bool)
      requires Valid()
      modifies this
      ensures Valid() && positioned == more
      ensures more <==> old(Consumed()) < BucketCount(entries)
      ensures Consumed() == if more then old(Consumed()) + 1 else old(Consumed())
    {
      while entryIndex < |entries|
        invariant Valid()
        invariant Consumed() == old(Consumed())
        decreases |entries| - entryIndex
      {
        HistoryTheorems.FlattenedAt(id, server, entries, entryIndex);
        var entry := entries[entryIndex];
        if bucketIndex < |entry.history| {
          currentEntry := entryIndex;
          currentBucket := bucketIndex;
          bucketIndex := bucketIndex + 1;
          positioned := true;
          return true;
        }
        positioned := false;
        entryIndex := entryIndex + 1;
        bucketIndex := 0;
      }
      positioned := false;
      return false;
    }

    /** The values of the row that Next moved to. */
    method Values() returns (result: Result<array<Cell>, CopyError>)
      requires Valid()
      modifies values
      ensures Valid()
      ensures !positioned <==> result == Err(NotPositioned)
      ensures positioned ==>
                && 0 < Consumed() <= |Flattened(id, server, entries)|
                && result == Ok(values)
                && values[..] == CellsOf(Flattened(id, server, entries)[Consumed() - 1])
                && var (e, b) := (entries[currentEntry], entries[currentEntry].history[currentBucket]);
                   values[..] == [NumberCell(id), NumberCell(server), NumberCell(e.observedAt), NumberCell(e.location),
                                  TextCell(e.item), NumberCell(e.quality), NumberCell(b.at), NumberCell(b.itemCount),
                                  NullableCell(b.average)]
    {
      if !positioned || currentEntry >= |entries| {
        return Err(NotPositioned);
      }
      var entry := entries[currentEntry];
      if currentBucket >= |entry.history| {
        return Err(NotPositioned);
      }
      var bucket := entry.history[currentBucket];
      HistoryTheorems.FlattenedAt(id, server, entries, currentEntry);
      values[2] := NumberCell(entry.observedAt);
      values[3] := NumberCell(entry.location);
      values[4] := TextCell(entry.item);
      values[5] := NumberCell(entry.quality);
      values[6] := NumberCell(bucket.at);
      values[7] := NumberCell(bucket.itemCount);
      values[8] := NullableCell(bucket.average);
      assert values[..] == CellsOf(RawBucketOf(id, server, entry, bucket));
      return Ok(values);
    }
  }

  /** Registering, copying, upserting and completing together are the commit. */
  lemma CommitIsTheWholeTransaction(before: HistoryIngest.Tables, id: Uuid, server: int, r: HistoryRequest, completed: LedgerRow<HistoryEntry>)
    requires var raw := before.raw + Flattened(id, server, r.entries);
             var proposed := Proposed(Selected(raw, HISTORIES.owner, id));
             completed == LedgerRow(r, server, |r.entries|, BucketCount(r.entries), |AffectedKeys(UPSERT, before.hot, proposed)|, Completed)
    ensures var raw := before.raw + Flattened(id, server, r.entries);
            var registered := before.ledger[id := completed.(touched := 0, status := Processing)];
            Commit(HISTORIES, before, id, server, r)
            == IngestRuns.Tables(registered[id := completed], raw, Upserted(UPSERT, before.hot, Proposed(Selected(raw, HISTORIES.owner, id))))
  {
    FlattenedLength(id, server, r.entries);
    assert before.ledger[id := completed.(touched := 0, status := Processing)][id := completed] == before.ledger[id := completed];
  }

  lemma PrefixGrows(was: seq<RawBucket>, rows: seq<RawBucket>, n: nat)
    requires n < |rows|
    ensures was + rows[..n] + [rows[n]] == was + rows[..n + 1]
  {}

  lemma FlattenedLength(id: Uuid, server: int, entries: seq<HistoryEntry>)
    ensures |Flattened(id, server, entries)| == BucketCount(entries)
  {
    HistoryTheorems.FlattenedCount(id, server, entries);
  }

  // ---------- The repository ----------

  class Repository {
    var ledger: map<Uuid, LedgerRow<HistoryEntry>>
    var raw: seq<RawBucket>
    var buckets: map<BucketKey, BucketRow>

    function State(): HistoryIngest.Tables
      reads this
    {
      IngestRuns.Tables(ledger, raw, buckets)
    }

    constructor ()
      ensures State() == Empty(HISTORIES)
    {
      ledger, raw, buckets := map[], [], map[];
    }

    /** Undoes an open transaction. */
    method Rollback(before: HistoryIngest.Tables)
      modifies this
      ensures State() == before
    {
      ledger, raw, buckets := before.ledger, before.raw, before.hot;
    }

    /** Stores the row the source stands on. */
    method CopyRow(source: RawHistoryCopySource, ghost rows: seq<RawBucket>)
      requires source.Valid() && source.positioned && rows == Flattened(source.id, source.server, source.entries)
      modifies this`raw, source.values
      ensures source.Valid()
      ensures 0 < source.Consumed() <= |rows| && raw == old(raw) + [rows[source.Consumed() - 1]]
    {
      var cells := source.Values();
      raw := raw + [RowOfCells(cells.value[..])];
    }

    /** COPY: one raw row per row of the source, in its order. */
    method CopyFrom(source: RawHistoryCopySource) returns (copied: nat)
      requires source.Valid() && source.Consumed() == 0
      modifies this`raw, source, source.values
      ensures raw == old(raw) + Flattened(source.id, source.server, source.entries)
      ensures copied == BucketCount(source.entries)
    {
      copied := 0;
      ghost var was := raw;
      ghost var rows := Flattened(source.id, source.server, source.entries);
      FlattenedLength(source.id, source.server, source.entries);
      var more := source.Next();
      while more
        invariant source.Valid() && source.positioned == more
        invariant copied == source.Consumed() - (if more then 1 else 0)
        invariant copied <= |rows| && (more <==> copied < |rows|)
        invariant raw == was + rows[..copied]
        decreases |rows| - copied
      {
        PrefixGrows(was, rows, copied);
        CopyRow(source, rows);
        copied := copied + 1;
        more := source.Next();
      }
    }

    /** The upsert statement for the proposed rows, row by row; `touched` is its row count. */
    method UpsertBuckets(proposed: map<BucketKey, BucketRow>) returns (touched: nat)
      modifies this`buckets
      ensures buckets == Upserted(UPSERT, old(buckets), proposed)
      ensures touched == |AffectedKeys(UPSERT, old(buckets), proposed)|
    {
      touched := 0;
      ghost var was := buckets;
      var todo := proposed;
      ghost var done: map<BucketKey, BucketRow> := map[];
      UpsertNone(UPSERT, was);
      while todo != map[]
        invariant todo.Keys !! done.Keys && done + todo == proposed
        invariant buckets == Upserted(UPSERT, was, done)
        invariant touched == |AffectedKeys(UPSERT, was, done)|
        decreases todo.Keys
      {
        var k :| k in todo;
        UpsertOneMore(UPSERT, was, done, k, todo[k]);
        CountOneMore(UPSERT, was, done, k, todo[k]);
        var affected := UpsertRow(k, todo[k]);
        touched := touched + affected;
        todo, done := todo - {k}, done[k := todo[k]];
      }
      assert done == proposed;
    }

    /** Inserts or updates one row; counts it if it was affected. */
    method UpsertRow(k: BucketKey, excluded: BucketRow) returns (affected: nat)
      modifies this`buckets
      ensures buckets == old(buckets)[k := UpsertedRow(UPSERT, old(buckets), k, excluded)]
      ensures affected == if Affects(UPSERT, old(buckets), k, excluded) then 1 else 0
    {
      if k in buckets && !WhereClause(buckets[k], excluded) {
        return 0;
      }
      buckets := buckets[k := excluded];
      return 1;
    }

    method IngestHistory(r: HistoryRequest, fault: Fault) returns (outcome: Outcome)
      modifies this
      ensures (State(), outcome) == IngestRuns.Ingest(HISTORIES, old(State()), Delivery(r, fault))
    {
      var server := MapServer(r.server);
      if server.None? {
        return Failed(InvalidServer);
      }
      if r.id.uuid.None? {
        return Failed(InvalidRequestId);
      }
      var accepted := CountHistoryBuckets(r.entries);
      if fault == AtBegin || fault == AtRegister {
        return Failed(Database);
      }
      var id := r.id.uuid.value;
      if id in ledger {
        outcome := ExistingIngestResult(id, r, fault);
        return;
      }
      var touched := Transact(id, server.value, r, accepted, fault);
      if touched.None? || fault == AckLost {
        return Failed(Database);
      }
      FlattenedLength(id, server.value, r.entries);
      return Accepted(|r.entries|, accepted, touched.value, false);
    }

    /** The transaction of a request that is not registered: None when it was rolled back. */
    method Transact(id: Uuid, server: int, r: HistoryRequest, accepted: nat, fault: Fault) returns (touched: Option<nat>)
      requires id !in ledger && accepted == BucketCount(r.entries)
      modifies this
      ensures touched.None? <==> fault in {AtCopy, AtUpsert, AtComplete, AtCommit}
      ensures State() == if touched.None? then old(State()) else Commit(HISTORIES, old(State()), id, server, r)
      ensures touched.Some? ==> touched.value == Commit(HISTORIES, old(State()), id, server, r).ledger[id].touched
    {
      var before := State();
      ledger := ledger[id := LedgerRow(r, server, |r.entries|, accepted, 0, Processing)];
      var source := new RawHistoryCopySource(id, server, r.entries);
      var copied := CopyFrom(source);
      if fault == AtCopy || copied != accepted {
        Rollback(before);
        return None;
      }
      var rows := UpsertBuckets(Proposed(Selected(raw, HISTORIES.owner, id)));
      if fault == AtUpsert {
        Rollback(before);
        return None;
      }
      ledger := ledger[id := ledger[id].(status := Completed, touched := rows)];
      if fault == AtComplete || fault == AtCommit {
        Rollback(before);
        return None;
      }
      CommitIsTheWholeTransaction(before, id, server, r, ledger[id]);
      return Some(rows);
    }

    method ExistingIngestResult(id: Uuid, r: HistoryRequest, fault: Fault) returns (outcome: Outcome)
      requires id in ledger
      ensures outcome == if fault == AtLookup then Failed(Database) else Existing(ledger[id], r)
    {
      if fault == AtLookup {
        return Failed(Database);
      }
      var row := ledger[id];
      if row.hash != r {
        return Failed(PayloadConflict);
      }
      match row.status {
        case Completed => return Accepted(row.entries, row.rows, row.touched, true);
        case Processing => return Failed(AlreadyProcessing);
      }
    }
  }
}

/** The price repository, which updates its tables in place. */
module PriceRepository {
  import opened Wrappers
  import opened CopyCells
  import opened Deliveries
  import opened PriceIngest
  import opened IngestRuns
  import opened ConditionalUpsert

  // ---------- The COPY source ----------

  /** The columns of market_ingest_raw in COPY order. */
  function CellsOf(row: RawRow): (cells: seq<Cell>)
    ensures |cells| == 10
  {
    [NumberCell(row.request), NumberCell(row.key.server), NumberCell(row.observedAt), NumberCell(row.key.location),
     TextCell(row.key.item), NumberCell(row.key.quality),
     NullableCell(row.sellPrice), NullableCell(row.sellAt), NullableCell(row.buyPrice), NullableCell(row.buyAt)]
  }

  predicate HasColumnTypes(c: seq<Cell>) {
    && |c| == 10
    && c[0].NumberCell? && c[1].NumberCell? && c[2].NumberCell? && c[3].NumberCell?
    && c[4].TextCell? && c[5].NumberCell?
    && c[6].NullableCell? && c[7].NullableCell? && c[8].NullableCell? && c[9].NullableCell?
  }

  /** The row that the database stores for the encoded cells. */
  function RowOfCells(c: seq<Cell>): (row: RawRow)
    requires HasColumnTypes(c)
    ensures CellsOf(row) == c
  {
    RawRow(c[0].number, Key(c[1].number, c[3].number, c[4].text, c[5].number), c[2].number,
           c[6].nullable, c[7].nullable, c[8].nullable, c[9].nullable)
  }

  /** Feeds COPY row by row; the array of values is reused from row to row. */
  class RawPriceCopySource {
    const id: Uuid
    const server: int
    const entries: seq<PriceEntry>
    var index: nat
    const values: array<Cell>

    ghost predicate Valid()
      reads this, values
    {
      && index <= |entries|
      && values.Length == 10
      && values[0] == NumberCell(id) && values[1] == NumberCell(server)
    }

    constructor (id: Uuid, server: int, entries: seq<PriceEntry>)
      ensures Valid() && fresh(values)
      ensures this.id == id && this.server == server && this.entries == entries && index == 0
    {
      this.id := id;
      this.server := server;
      this.entries := entries;
      index := 0;
      var cells := new Cell[10](i => NullableCell(None));
      cells[0] := NumberCell(id);
      cells[1] := NumberCell(server);
      values := cells;
    }

    method Next() returns (more: bool)
      requires Valid()
      modifies this`index
      ensures Valid()
      ensures more <==> old(index) < |entries|
      ensures index == if more then old(index) + 1 else old(index)
    {
      if index >= |entries| {
        return false;
      }
      index := index + 1;
      return true;
    }

    /** The values of the row that Next moved to. */
    method Values() returns (result: Result<array<Cell>, CopyError>)
      requires Valid()
      modifies values
      ensures Valid()
      ensures index == 0 <==> result == Err(NotPositioned)
      ensures index > 0 ==>
                var e := entries[index - 1];
                && result == Ok(values)
                && values[..] == [NumberCell(id), NumberCell(server), NumberCell(e.observedAt), NumberCell(e.location),
                                  TextCell(e.item), NumberCell(e.quality), NullableCell(e.sellPrice), NullableCell(e.sellAt),
                                  NullableCell(e.buyPrice), NullableCell(e.buyAt)]
    {
      if index == 0 || index > |entries| {
        return Err(NotPositioned);
      }
      var entry := entries[index - 1];
      values[2] := NumberCell(entry.observedAt);
      values[3] := NumberCell(entry.location);
      values[4] := TextCell(entry.item);
      values[5] := NumberCell(entry.quality);
      values[6] := NullableCell(entry.sellPrice);
      values[7] := NullableCell(entry.sellAt);
      values[8] := NullableCell(entry.buyPrice);
      values[9] := NullableCell(entry.buyAt);
      return Ok(values);
    }
  }

  // ---------- The repository ----------

  /** Registering, copying, upserting and completing together are the commit. */
  lemma CommitIsTheWholeTransaction(before: PriceIngest.Tables, id: Uuid, server: int, r: PriceRequest, completed: LedgerRow<PriceEntry>)
    requires var raw := before.raw + RawRowsOf(id, server, r.entries);
             var proposed := Proposed(Selected(raw, PRICES.owner, id));
             completed == LedgerRow(r, server, |r.entries|, |r.entries|, |AffectedKeys(UPSERT, before.hot, proposed)|, Completed)
    ensures var raw := before.raw + RawRowsOf(id, server, r.entries);
            var registered := before.ledger[id := completed.(touched := 0, status := Processing)];
            Commit(PRICES, before, id, server, r)
            == IngestRuns.Tables(registered[id := completed], raw, Upserted(UPSERT, before.hot, Proposed(Selected(raw, PRICES.owner, id))))
  {
    assert before.ledger[id := completed.(touched := 0, status := Processing)][id := completed] == before.ledger[id := completed];
  }

  class Repository {
    var ledger: map<Uuid, LedgerRow<PriceEntry>>
    var raw: seq<RawRow>
    var current: map<Key, Quote>

    function State(): PriceIngest.Tables
      reads this
    {
      IngestRuns.Tables(ledger, raw, current)
    }

    constructor ()
      ensures State() == Empty(PRICES)
    {
      ledger, raw, current := map[], [], map[];
    }

    /** Undoes an open transaction. */
    method Rollback(before: PriceIngest.Tables)
      modifies this
      ensures State() == before
    {
      ledger, raw, current := before.ledger, before.raw, before.hot;
    }

    /** COPY: one raw row per row of the source, in its order. */
    method CopyFrom(source: RawPriceCopySource) returns (copied: nat)
      requires source.Valid() && source.index == 0
      modifies this`raw, source`index, source.values
      ensures raw == old(raw) + RawRowsOf(source.id, source.server, source.entries)
      ensures copied == |source.entries| && |raw| == |old(raw)| + |source.entries|
      ensures forall i | 0 <= i < |source.entries| :: Records(raw[|old(raw)| + i], source.id, source.server, source.entries[i])
    {
      copied := 0;
      ghost var rows := RawRowsOf(source.id, source.server, source.entries);
      var more := source.Next();
      while more
        invariant source.Valid()
        invariant copied == if more then source.index - 1 else source.index
        invariant if more then source.index > 0 else source.index == |source.entries|
        invariant raw == old(raw) + rows[..copied]
        decreases |source.entries| - copied
      {
        var cells := source.Values();
        ghost var row := RawRowOf(source.id, source.server, source.entries[source.index - 1]);
        assert CellsOf(row) == source.values[..];
        raw := raw + [RowOfCells(cells.value[..])];
        assert raw[|raw| - 1] == row == rows[copied];
        copied := copied + 1;
        more := source.Next();
      }
    }

    /** Inserts or updates one row; counts it if it was affected. */
    method UpsertRow(k: Key, excluded: Quote) returns (affected: nat)
      modifies this`current
      ensures current == old(current)[k := UpsertedRow(UPSERT, old(current), k, excluded)]
      ensures affected == if Affects(UPSERT, old(current), k, excluded) then 1 else 0
    {
      if k !in current {
        current := current[k := excluded];
        return 1;
      }
      if WhereClause(current[k], excluded) {
        current := current[k := SetClause(current[k], excluded)];
        return 1;
      }
      return 0;
    }

    /** The upsert statement for the proposed rows, row by row; `touched` is its row count. */
    method UpsertCurrent(proposed: map<Key, Quote>) returns (touched: nat)
      modifies this`current
      ensures current == Upserted(UPSERT, old(current), proposed)
      ensures touched == |AffectedKeys(UPSERT, old(current), proposed)|
    {
      touched := 0;
      ghost var was := current;
      var todo := proposed;
      ghost var done: map<Key, Quote> := map[];
      UpsertNone(UPSERT, was);
      while todo != map[]
        invariant todo.Keys !! done.Keys && done + todo == proposed
        invariant current == Upserted(UPSERT, was, done)
        invariant touched == |AffectedKeys(UPSERT, was, done)|
        decreases todo.Keys
      {
        var k :| k in todo;
        UpsertOneMore(UPSERT, was, done, k, todo[k]);
        CountOneMore(UPSERT, was, done, k, todo[k]);
        var affected := UpsertRow(k, todo[k]);
        touched := touched + affected;
        todo, done := todo - {k}, done[k := todo[k]];
      }
      assert done == proposed;
    }

    method IngestPrices(r: PriceRequest, fault: Fault) returns (outcome: Outcome)
      modifies this
      ensures (State(), outcome) == Ingest(PRICES, old(State()), Delivery(r, fault))
    {
      var server := MapServer(r.server);
      if server.None? {
        return Failed(InvalidServer);
      }
      if r.id.uuid.None? {
        return Failed(InvalidRequestId);
      }
      if fault == AtBegin || fault == AtRegister {
        return Failed(Database);
      }
      var id := r.id.uuid.value;
      if id in ledger {
        outcome := ExistingIngestResult(id, r, fault);
        return;
      }
      var touched := Transact(id, server.value, r, fault);
      if touched.None? || fault == AckLost {
        return Failed(Database);
      }
      return Accepted(|r.entries|, |r.entries|, touched.value, false);
    }

    /** The transaction of a request that is not registered: None when it was rolled back. */
    method Transact(id: Uuid, server: int, r: PriceRequest, fault: Fault) returns (touched: Option<nat>)
      requires id !in ledger
      modifies this
      ensures touched.None? <==> fault in {AtCopy, AtUpsert, AtComplete, AtCommit}
      ensures State() == if touched.None? then old(State()) else Commit(PRICES, old(State()), id, server, r)
      ensures touched.Some? ==> touched.value == Commit(PRICES, old(State()), id, server, r).ledger[id].touched
    {
      var before := State();
      ledger := ledger[id := LedgerRow(r, server, |r.entries|, |r.entries|, 0, Processing)];
      var source := new RawPriceCopySource(id, server, r.entries);
      var copied := CopyFrom(source);
      if fault == AtCopy || copied != |r.entries| {
        Rollback(before);
        return None;
      }
      var rows := UpsertCurrent(Proposed(Selected(raw, PRICES.owner, id)));
      if fault == AtUpsert {
        Rollback(before);
        return None;
      }
      ledger := ledger[id := ledger[id].(status := Completed, touched := rows)];
      if fault == AtComplete || fault == AtCommit {
        Rollback(before);
        return None;
      }
      CommitIsTheWholeTransaction(before, id, server, r, ledger[id]);
      return Some(rows);
    }

    method ExistingIngestResult(id: Uuid, r: PriceRequest, fault: Fault) returns (outcome: Outcome)
      requires id in ledger
      ensures outcome == if fault == AtLookup then Failed(Database) else Existing(ledger[id], r)
    {
      if fault == AtLookup {
        return Failed(Database);
      }
      var row := ledger[id];
      if row.hash != r {
        return Failed(PayloadConflict);
      }
      match row.status {
        case Completed => return Accepted(row.entries, row.rows, row.touched, true);
        case Processing => return Failed(AlreadyProcessing);
      }
    }
  }
}

/**
 Ingest of batches, whatever their entries are: a request is registered in a ledger, its rows
 are appended to a raw trail, and the rows, selected back, are merged into a hot table.
 A transaction is one atomic step.
 */
module IngestRuns {
  import opened Wrappers
  import opened Deliveries

  /** What tells one kind of ingest from another: how a request becomes rows R of the raw trail, and
      how these are merged into the hot table H. */
  datatype Pipeline<!E, !R, !H> = Pipeline(
    rowsOf: (Uuid, int, seq<E>) -> seq<R>, owner: R -> Uuid,
    empty: H, merge: (H, seq<R>) -> H, touched: (H, seq<R>) -> nat)

  /** The request hash is taken as injective, so it is the request itself. */
  datatype LedgerRow<E> = LedgerRow(
    hash: Request<E>, server: int, entries: nat, rows: nat, touched: nat, status: Status)

  datatype Tables<E, R, H> = Tables(ledger: map<Uuid, LedgerRow<E>>, raw: seq<R>, hot: H)

  datatype Outcome =
    | Accepted(entries: nat, rows: nat, touched: nat, duplicate: bool)
    | Failed(error: Error)

  // ---------- One delivery ----------

  /** The raw rows a request selects back, in id order. */
  function Selected<R>(raw: seq<R>, owner: R -> Uuid, id: Uuid): seq<R> {
    if |raw| == 0 then []
    else
      var rest := Selected(raw[..|raw| - 1], owner, id);
      if owner(raw[|raw| - 1]) == id then rest + [raw[|raw| - 1]] else rest
  }

  function Existing<E(==)>(row: LedgerRow<E>, r: Request<E>): Outcome {
    if row.hash != r then Failed(PayloadConflict)
    else if row.status == Completed then Accepted(row.entries, row.rows, row.touched, true)
    else Failed(AlreadyProcessing)
  }

  /** The tables after the transaction of a request that is not in the ledger. */
  function Commit<E, R, H>(p: Pipeline<E, R, H>, t: Tables<E, R, H>, id: Uuid, server: int, r: Request<E>): Tables<E, R, H> {
    var rows := p.rowsOf(id, server, r.entries);
    var selected := Selected(t.raw + rows, p.owner, id);
    Tables(t.ledger[id := LedgerRow(r, server, |r.entries|, |rows|, p.touched(t.hot, selected), Completed)],
           t.raw + rows, p.merge(t.hot, selected))
  }

  function Ingest<E(==), R, H>(p: Pipeline<E, R, H>, t: Tables<E, R, H>, d: Delivery<E>): (Tables<E, R, H>, Outcome) {
    var Delivery(r, fault) := d;
    if MapServer(r.server).None? then (t, Failed(InvalidServer))
    else if r.id.uuid.None? then (t, Failed(InvalidRequestId))
    else if fault == AtBegin || fault == AtRegister then (t, Failed(Database))
    else
      var id := r.id.uuid.value;
      if id in t.ledger then (t, if fault == AtLookup then Failed(Database) else Existing(t.ledger[id], r))
      else if fault in {AtCopy, AtUpsert, AtComplete, AtCommit} then (t, Failed(Database))
      else
        var t' := Commit(p, t, id, MapServer(r.server).value, r);
        var row := t'.ledger[id];
        (t', if fault == AckLost then Failed(Database) else Accepted(row.entries, row.rows, row.touched, false))
  }

  // ---------- Runs ----------

  function Empty<E, R, H>(p: Pipeline<E, R, H>): Tables<E, R, H> {
    Tables(map[], [], p.empty)
  }

  function Run<E(==), R, H>(p: Pipeline<E, R, H>, ds: seq<Delivery<E>>): Tables<E, R, H> {
    if |ds| == 0 then Empty(p) else Ingest(p, Run(p, ds[..|ds| - 1]), ds[|ds| - 1]).0
  }

  function RowsOf<E, R, H>(p: Pipeline<E, R, H>, r: Request<E>): seq<R>
    requires WellFormed(r)
  {
    p.rowsOf(r.id.uuid.value, MapServer(r.server).value, r.entries)
  }

  /** The rows of a log, one request after the other. */
  function RawTrail<E, R, H>(p: Pipeline<E, R, H>, log: seq<Request<E>>): seq<R>
    requires WellFormedLog(log)
  {
    if |log| == 0 then [] else RawTrail(p, log[..|log| - 1]) + RowsOf(p, log[|log| - 1])
  }

  /** The hot table after merging the rows of a log, one request after the other. */
  function Merged<E, R, H>(p: Pipeline<E, R, H>, log: seq<Request<E>>): H
    requires WellFormedLog(log)
  {
    if |log| == 0 then p.empty else p.merge(Merged(p, log[..|log| - 1]), RowsOf(p, log[|log| - 1]))
  }

  /** Every row belongs to its request. */
  ghost predicate TagsRows<E(!new), R, H>(p: Pipeline<E, R, H>) {
    forall id, server, entries: seq<E> :: AllOwned(p.rowsOf(id, server, entries), p.owner, id)
  }

  ghost predicate AllOwned<R>(rows: seq<R>, owner: R -> Uuid, id: Uuid) {
    forall i | 0 <= i < |rows| :: owner(rows[i]) == id
  }

  // ---------- Selecting a request's rows back ----------

  lemma {:induction false} SelectedOfOthers<R>(raw: seq<R>, owner: R -> Uuid, id: Uuid)
    requires forall i | 0 <= i < |raw| :: owner(raw[i]) != id
    ensures Selected(raw, owner, id) == []
  {
    if |raw| > 0 {
      SelectedOfOthers(raw[..|raw| - 1], owner, id);
    }
  }

  lemma {:induction false} SelectedAppend<R>(raw: seq<R>, rows: seq<R>, owner: R -> Uuid, id: Uuid, u: Uuid)
    requires AllOwned(rows, owner, id)
    ensures Selected(raw + rows, owner, u) ==
              if u == id then Selected(raw, owner, u) + rows else Selected(raw, owner, u)
  {
    if |rows| == 0 {
      assert raw + rows == raw;
    } else {
      var n := |rows| - 1;
      SelectedAppend(raw, rows[..n], owner, id, u);
      assert (raw + rows)[..|raw + rows| - 1] == raw + rows[..n];
      assert rows == rows[..n] + [rows[n]];
    }
  }

  // ---------- The invariant of every run ----------

  /** The ledger row is completed, holds a request of the log, and counts exactly its raw rows. */
  ghost predicate RowAgrees<E, R, H>(p: Pipeline<E, R, H>, t: Tables<E, R, H>, log: seq<Request<E>>, u: Uuid)
    requires WellFormedLog(log) && u in t.ledger
  {
    var row := t.ledger[u];
    && row.status == Completed
    && row.hash in log && row.hash.id.uuid == Some(u) && Some(row.server) == MapServer(row.hash.server)
    && row.entries == |row.hash.entries|
    && Selected(t.raw, p.owner, u) == RowsOf(p, row.hash) && row.rows == |RowsOf(p, row.hash)|
  }

  /** The tables are those of the log: its requests are registered, its rows are the raw trail, and
      the hot table is merged from them. */
  ghost predicate Agrees<E, R, H>(p: Pipeline<E, R, H>, t: Tables<E, R, H>, log: seq<Request<E>>) {
    && WellFormedLog(log)
    && t.ledger.Keys == IdsOf(log)
    && (forall u | u in t.ledger :: RowAgrees(p, t, log, u))
    && t.raw == RawTrail(p, log)
    && (forall i | 0 <= i < |t.raw| :: p.owner(t.raw[i]) in IdsOf(log))
    && t.hot == Merged(p, log)
  }

  /** What the transaction of a new request does, once its own rows have been selected back. */
  lemma CommitOfNewRequest<E(!new), R, H>(p: Pipeline<E, R, H>, t: Tables<E, R, H>, log: seq<Request<E>>, r: Request<E>)
    requires TagsRows(p) && Agrees(p, t, log) && WellFormed(r) && r.id.uuid.value !in IdsOf(log)
    ensures var t' := Commit(p, t, r.id.uuid.value, MapServer(r.server).value, r);
            && t'.raw == t.raw + RowsOf(p, r)
            && t'.hot == p.merge(t.hot, RowsOf(p, r))
            && (forall u :: Selected(t'.raw, p.owner, u) ==
                              if u == r.id.uuid.value then RowsOf(p, r) else Selected(t.raw, p.owner, u))
  {
    var id := r.id.uuid.value;
    SelectedOfOthers(t.raw, p.owner, id);
    assert AllOwned(RowsOf(p, r), p.owner, id);
    forall u
      ensures Selected(t.raw + RowsOf(p, r), p.owner, u) == if u == id then RowsOf(p, r) else Selected(t.raw, p.owner, u)
    {
      SelectedAppend(t.raw, RowsOf(p, r), p.owner, id, u);
    }
  }

  lemma CommitKeepsAgreement<E(!new), R, H>(p: Pipeline<E, R, H>, t: Tables<E, R, H>, log: seq<Request<E>>, r: Request<E>)
    requires TagsRows(p) && Agrees(p, t, log) && WellFormed(r) && r.id.uuid.value !in IdsOf(log)
    ensures Agrees(p, Commit(p, t, r.id.uuid.value, MapServer(r.server).value, r), log + [r])
  {
    var id := r.id.uuid.value;
    var t', log' := Commit(p, t, id, MapServer(r.server).value, r), log + [r];
    CommitOfNewRequest(p, t, log, r);
    IdsOfAppend(log, r);
    assert AllOwned(RowsOf(p, r), p.owner, id);
    assert log'[..|log|] == log && r in log';
    forall u | u in t'.ledger ensures RowAgrees(p, t', log', u) {
      if u != id {
        assert RowAgrees(p, t, log, u);
      }
    }
  }

  /** A delivery changes the tables exactly when it is the first commit of its request. */
  lemma IngestCommitsFirst<E, R, H>(p: Pipeline<E, R, H>, t: Tables<E, R, H>, log: seq<Request<E>>, d: Delivery<E>)
    requires t.ledger.Keys == IdsOf(log)
    ensures Ingest(p, t, d).0 ==
              if IsFirstCommit(log, d)
              then Commit(p, t, d.request.id.uuid.value, MapServer(d.request.server).value, d.request) else t
  {}

  /** After every run of deliveries with faults, the tables are those of the log of first commits. */
  lemma {:induction false} RunAgrees<E(!new), R, H>(p: Pipeline<E, R, H>, ds: seq<Delivery<E>>)
    requires TagsRows(p)
    ensures Agrees(p, Run(p, ds), FirstCommits(ds))
  {
    if |ds| > 0 {
      var before, d := ds[..|ds| - 1], ds[|ds| - 1];
      RunAgrees(p, before);
      IngestCommitsFirst(p, Run(p, before), FirstCommits(before), d);
      if IsFirstCommit(FirstCommits(before), d) {
        CommitKeepsAgreement(p, Run(p, before), FirstCommits(before), d.request);
      }
    }
  }

  // ---------- At-least-once delivery ----------

  /**
   Repeated, reordered-by-retry and aborted deliveries leave the same tables as delivering
   each request once, at its first commit, without faults.
   */
  lemma {:induction false} AtLeastOnceIsOnce<E(!new), R, H>(p: Pipeline<E, R, H>, ds: seq<Delivery<E>>)
    requires TagsRows(p)
    ensures Run(p, ds) == Run(p, Once(FirstCommits(ds)))
  {
    if |ds| > 0 {
      var before, d := ds[..|ds| - 1], ds[|ds| - 1];
      var log := FirstCommits(before);
      AtLeastOnceIsOnce(p, before);
      RunAgrees(p, before);
      IngestCommitsFirst(p, Run(p, before), log, d);
      if IsFirstCommit(log, d) {
        var once, last := Once(log + [d.request]), Delivery(d.request, NoFault);
        assert once[..|log|] == Once(log) && once[|log|] == last;
        IngestCommitsFirst(p, Run(p, before), log, last);
      }
    }
  }

  /** Every ledger row is completed and has exactly the raw rows that it counts, which are those of
      its request. */
  lemma {:induction false} LedgerCountsRawRows<E(!new), R, H>(p: Pipeline<E, R, H>, ds: seq<Delivery<E>>, u: Uuid)
    requires TagsRows(p) && u in Run(p, ds).ledger
    ensures var (t, row) := (Run(p, ds), Run(p, ds).ledger[u]);
            && row.status == Completed && row.hash in FirstCommits(ds) && Some(row.server) == MapServer(row.hash.server)
            && row.entries == |row.hash.entries|
            && row.rows == |Selected(t.raw, p.owner, u)|
            && WellFormed(row.hash) && Selected(t.raw, p.owner, u) == RowsOf(p, row.hash)
  {
    RunAgrees(p, ds);
    assert RowAgrees(p, Run(p, ds), FirstCommits(ds), u);
  }

  /** The answer to a delivery of a registered request, in every run, when no statement fails. */
  lemma {:induction false} AnswerToRepeat<E(!new), R, H>(p: Pipeline<E, R, H>, ds: seq<Delivery<E>>, d: Delivery<E>)
    requires TagsRows(p) && WellFormed(d.request) && d.fault !in {AtBegin, AtRegister, AtLookup}
    requires d.request.id.uuid.value in Run(p, ds).ledger
    ensures var (t', answer) := Ingest(p, Run(p, ds), d);
            && t' == Run(p, ds)
            && (d.request in FirstCommits(ds) <==>
                  answer == Accepted(|d.request.entries|, |RowsOf(p, d.request)|,
                                     Run(p, ds).ledger[d.request.id.uuid.value].touched, true))
            && (d.request !in FirstCommits(ds) <==> answer == Failed(PayloadConflict))
  {
    RunAgrees(p, ds);
    FirstCommitsAreDistinct(ds);
    var log := FirstCommits(ds);
    var u := d.request.id.uuid.value;
    assert RowAgrees(p, Run(p, ds), log, u);
    if d.request in log {
      var i :| 0 <= i < |log| && log[i] == d.request;
      var j :| 0 <= j < |log| && log[j] == Run(p, ds).ledger[u].hash;
    }
  }

  /** In every run the counts of a successful answer, first or repeated, are those of the payload,
      and no delivery sees an unfinished ledger row. */
  lemma {:induction false} AnswerCountsThePayload<E(!new), R, H>(p: Pipeline<E, R, H>, ds: seq<Delivery<E>>, d: Delivery<E>)
    requires TagsRows(p)
    ensures var answer := Ingest(p, Run(p, ds), d).1;
            && answer != Failed(AlreadyProcessing)
            && (answer.Accepted? ==>
                  && WellFormed(d.request)
                  && answer.entries == |d.request.entries| && answer.rows == |RowsOf(p, d.request)|)
  {
    var t := Run(p, ds);
    if d.request.id.uuid.Some? && d.request.id.uuid.value in t.ledger {
      LedgerCountsRawRows(p, ds, d.request.id.uuid.value);
    }
  }

  /** A first success is a commit. */
  lemma FirstSuccessCommits<E, R, H>(p: Pipeline<E, R, H>, t: Tables<E, R, H>, d: Delivery<E>)
    requires Ingest(p, t, d).1.Accepted? && !Ingest(p, t, d).1.duplicate
    ensures WellFormed(d.request)
    ensures var ((t', answer), id, rows) := (Ingest(p, t, d), d.request.id.uuid.value, RowsOf(p, d.request));
            var selected := Selected(t.raw + rows, p.owner, id);
            t'.raw == t.raw + rows && t'.hot == p.merge(t.hot, selected) && answer.touched == p.touched(t.hot, selected)
  {}

  /** In every run: an answer is a success exactly when the request is in the ledger afterwards, with
      this payload, and no statement or acknowledgement failed; it is marked as a duplicate exactly
      when the request was there before. Whatever fails before the commit leaves the tables alone. */
  lemma {:induction false} AnswerSaysWhatHappened<E(!new), R, H>(p: Pipeline<E, R, H>, ds: seq<Delivery<E>>, d: Delivery<E>)
    requires TagsRows(p)
    ensures var ((t', answer), t, r) := (Ingest(p, Run(p, ds), d), Run(p, ds), d.request);
            && (d.fault in {AtBegin, AtRegister, AtCopy, AtUpsert, AtComplete, AtCommit} ==> t' == t)
            && (WellFormed(r) && d.fault in {NoFault, AtLookup, AckLost} ==> r.id.uuid.value in t'.ledger)
            && (answer.Accepted? <==>
                  && WellFormed(r) && r.id.uuid.value in t'.ledger && t'.ledger[r.id.uuid.value].hash == r
                  && d.fault !in (if r.id.uuid.value in t.ledger then {AtBegin, AtRegister, AtLookup} else {AckLost}))
            && (answer.Accepted? ==> (answer.duplicate <==> r.id.uuid.value in t.ledger))
            && (answer == Failed(InvalidServer) <==> MapServer(r.server).None?)
            && (answer == Failed(InvalidRequestId) <==> MapServer(r.server).Some? && r.id.uuid.None?)
            && (answer == Failed(PayloadConflict) <==>
                  && WellFormed(r) && r.id.uuid.value in t.ledger && t.ledger[r.id.uuid.value].hash != r
                  && d.fault !in {AtBegin, AtRegister, AtLookup})
            && answer != Failed(AlreadyProcessing)
  {
    var t := Run(p, ds);
    if d.request.id.uuid.Some? && d.request.id.uuid.value in t.ledger {
      LedgerCountsRawRows(p, ds, d.request.id.uuid.value);
    }
  }

  /** What a commit wrote into the ledger, and so what a repeat will answer, never changes. */
  lemma {:induction false} LedgerRowsAreFinal<E, R, H>(p: Pipeline<E, R, H>, ds: seq<Delivery<E>>, more: seq<Delivery<E>>, u: Uuid)
    requires u in Run(p, ds).ledger
    ensures u in Run(p, ds + more).ledger && Run(p, ds + more).ledger[u] == Run(p, ds).ledger[u]
  {
    if |more| == 0 {
      assert ds + more == ds;
    } else {
      LedgerRowsAreFinal(p, ds, more[..|more| - 1], u);
      assert (ds + more)[..|ds + more| - 1] == ds + more[..|more| - 1];
    }
  }

  /** An accepted request is registered with what it was answered. */
  lemma AcceptedIsRegistered<E, R, H>(p: Pipeline<E, R, H>, t: Tables<E, R, H>, d: Delivery<E>)
    requires Ingest(p, t, d).1.Accepted?
    ensures var (t', answer) := Ingest(p, t, d);
            && d.request.id.uuid.Some? && d.request.id.uuid.value in t'.ledger
            && var row := t'.ledger[d.request.id.uuid.value];
               row.hash == d.request && row.status == Completed
               && answer == Accepted(row.entries, row.rows, row.touched, answer.duplicate)
  {}

  /** A repeat of an answered request is answered with the same counts, whatever happened since. */
  lemma {:induction false} RepeatRepeatsAnswer<E, R, H>(
    p: Pipeline<E, R, H>, ds: seq<Delivery<E>>, d: Delivery<E>, more: seq<Delivery<E>>, again: Delivery<E>)
    requires Ingest(p, Run(p, ds), d).1.Accepted? && again.request == d.request
    requires again.fault !in {AtBegin, AtRegister, AtLookup}
    ensures Ingest(p, Run(p, ds + [d] + more), again).1 == Ingest(p, Run(p, ds), d).1.(duplicate := true)
  {
    assert (ds + [d])[..|ds|] == ds;
    AcceptedIsRegistered(p, Run(p, ds), d);
    LedgerRowsAreFinal(p, ds + [d], more, d.request.id.uuid.value);
  }
}

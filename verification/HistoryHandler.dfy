/** The ingest handler for history: it answers a call and accounts for it, whatever path it takes. */
module HistoryHandler {
  import opened Wrappers
  import opened Deliveries
  import opened HistoryIngest
  import IngestRuns
  import opened HistoryEndpoint
  import HistoryRepository

  type Ledger = map<Uuid, IngestRuns.LedgerRow<HistoryEntry>>

  /** What the answer to a valid request says about the ledger before and after: accepted iff this call
      registered the request and the commit was acknowledged, a success again iff it had been registered
      with this payload, a conflict iff its id is taken or unfinished, and a failure otherwise. */
  predicate Answers(before: Ledger, after: Ledger, r: HistoryRequest, fault: Fault, statusCode: int)
    requires r.id.uuid.Some?
  {
    var id := r.id.uuid.value;
    var read := id in before && fault !in {AtBegin, AtRegister, AtLookup};
    && (statusCode == 202 <==> id !in before && id in after && fault != AckLost)
    && (statusCode == 200 <==> read && before[id].hash == r && before[id].status.Completed?)
    && (statusCode == 409 <==> read && (before[id].hash != r || before[id].status.Processing?))
    && (statusCode in {200, 202} ==> id in after && after[id].hash == r && after[id].status.Completed?)
    && (id in after <==> id in before || fault in {NoFault, AtLookup, AckLost})
    && (id in before || id !in after ==> after == before)
    && (forall u | u in before :: u in after && after[u] == before[u])
  }

  lemma ServedAnswers(t: HistoryIngest.Tables, r: HistoryRequest, fault: Fault)
    requires ValidRequest(r)
    ensures var (t', outcome) := Served(t, Decoded(r, fault));
            && Answers(t.ledger, t'.ledger, Normal(r), fault, StatusCode(outcome))
            && StatusCode(outcome) in {200, 202, 409, 500}
            && (t'.ledger == t.ledger ==> t' == t)
  {}

  class IngestHandler {
    const metrics: HistoryIngestMetrics
    const repository: HistoryRepository.Repository

    constructor (metrics: HistoryIngestMetrics, repository: HistoryRepository.Repository)
      ensures this.metrics == metrics && this.repository == repository
    {
      this.metrics, this.repository := metrics, repository;
    }

    method IngestHistory(x: Exchange) returns (statusCode: int)
      modifies metrics, repository
      ensures metrics.counters == Finished(Started(old(metrics.counters)), HistoryEndpoint.Observed(old(repository.State()), x))
      ensures repository.State() == if x.Refused? then old(repository.State()) else Served(old(repository.State()), x).0
      ensures statusCode == if x.Refused? then x.statusCode else StatusCode(Served(old(repository.State()), x).1)
      ensures statusCode == HistoryEndpoint.Observed(old(repository.State()), x).statusCode
      ensures x.Decoded? ==> statusCode in {200, 202, 400, 409, 500} && (statusCode == 400 <==> !ValidRequest(x.request))
      ensures x.Refused? || !ValidRequest(x.request) ==> repository.State() == old(repository.State())
      ensures x.Decoded? && ValidRequest(x.request) ==>
                Answers(old(repository.ledger), repository.ledger, Normal(x.request), x.fault, statusCode)
      ensures x.Decoded? && ValidRequest(x.request) && repository.ledger == old(repository.ledger) ==>
                repository.State() == old(repository.State())
    {
      metrics.RequestStarted();
      statusCode := 500;
      var entries, buckets, acceptedEntries, acceptedBuckets, rowsTouched, duplicate := 0, 0, 0, 0, 0, false;
      if x.Refused? {
        statusCode := x.statusCode;
      } else {
        entries := |x.request.entries|;
        buckets := HistoryRepository.CountHistoryBuckets(x.request.entries);
        if ValidRequest(x.request) {
          ServedAnswers(repository.State(), x.request, x.fault);
        }
        var outcome := Serve(x.request, x.fault);
        statusCode := StatusCode(outcome);
        if outcome.Some? && outcome.value.Accepted? {
          acceptedEntries := outcome.value.entries;
          acceptedBuckets := outcome.value.rows;
          rowsTouched := outcome.value.touched;
          duplicate := outcome.value.duplicate;
        }
      }
      var o := Account(statusCode, entries, buckets, acceptedEntries, acceptedBuckets, rowsTouched, duplicate);
      metrics.RequestFinished(o);
    }

    /** The service call: None when validation fails. */
    method Serve(r: HistoryRequest, fault: Fault) returns (outcome: Option<IngestRuns.Outcome>)
      modifies repository
      ensures (repository.State(), outcome) == Served(old(repository.State()), Decoded(r, fault))
    {
      var normal := NormalizeRequest(r);
      if normal.None? {
        return None;
      }
      var answer := repository.IngestHistory(normal.value, fault);
      return Some(answer);
    }
  }
}

/**
 Deliveries of ingest requests, for prices and history alike.

 A delivery is one call with the fault that the database or the network injects into it.
 The log of first commits is computed from the deliveries alone; the ingest theorems
 compare the tables with it.
 */
module Deliveries {
  import opened Wrappers

  datatype Server = West | East | Europe | Unknown(name: string)

  function MapServer(s: Server): Option<int> {
    match s
    case West => Some(1)
    case East => Some(2)
    case Europe => Some(3)
    case Unknown(_) => None
  }

  function UnmapServer(id: int): Server {
    match id
    case 1 => West
    case 2 => East
    case 3 => Europe
    case _ => West
  }

  /** A stored server id stands for one server, so that servers never share rows. */
  lemma ServersAreToldApart(s: Server, id: int)
    ensures MapServer(s) == Some(id) <==> 1 <= id <= 3 && UnmapServer(id) == s
  {}

  type Uuid = int

  /** The text of a request id, and the UUID it denotes if it denotes one. */
  datatype RequestId = RequestId(text: string, uuid: Option<Uuid>)

  datatype Request<E> = Request(id: RequestId, server: Server, entries: seq<E>)

  /** Where a call fails. After AckLost the commit stands, but the caller sees an error. */
  datatype Fault = NoFault | AtBegin | AtRegister | AtLookup | AtCopy | AtUpsert | AtComplete | AtCommit | AckLost

  datatype Delivery<E> = Delivery(request: Request<E>, fault: Fault)

  datatype Status = Processing | Completed

  datatype Error = InvalidServer | InvalidRequestId | Database | AlreadyProcessing | PayloadConflict

  predicate WellFormed<E>(r: Request<E>) {
    MapServer(r.server).Some? && r.id.uuid.Some?
  }

  /** The delivery commits unless its request is already registered. */
  predicate CanCommit<E>(d: Delivery<E>) {
    WellFormed(d.request) && d.fault in {NoFault, AtLookup, AckLost}
  }

  function IdsOf<E>(log: seq<Request<E>>): set<Uuid> {
    set i | 0 <= i < |log| && log[i].id.uuid.Some? :: log[i].id.uuid.value
  }

  predicate IsFirstCommit<E>(log: seq<Request<E>>, d: Delivery<E>) {
    CanCommit(d) && d.request.id.uuid.value !in IdsOf(log)
  }

  function LogAfter<E>(log: seq<Request<E>>, d: Delivery<E>): seq<Request<E>> {
    if IsFirstCommit(log, d) then log + [d.request] else log
  }

  /** The requests in the order of their first commit. */
  function FirstCommits<E>(ds: seq<Delivery<E>>): seq<Request<E>> {
    if |ds| == 0 then [] else LogAfter(FirstCommits(ds[..|ds| - 1]), ds[|ds| - 1])
  }

  /** Each request delivered once, without a fault. */
  function Once<E>(log: seq<Request<E>>): seq<Delivery<E>> {
    seq(|log|, i requires 0 <= i < |log| => Delivery(log[i], NoFault))
  }

  ghost predicate WellFormedLog<E>(log: seq<Request<E>>) {
    forall i | 0 <= i < |log| :: WellFormed(log[i])
  }

  ghost predicate DistinctIds<E>(log: seq<Request<E>>) {
    forall i, j | 0 <= i < j < |log| :: log[i].id.uuid != log[j].id.uuid
  }

  lemma {:induction false} FirstCommitsAreDistinct<E>(ds: seq<Delivery<E>>)
    ensures WellFormedLog(FirstCommits(ds)) && DistinctIds(FirstCommits(ds))
  {
    if |ds| > 0 {
      FirstCommitsAreDistinct(ds[..|ds| - 1]);
      var log := FirstCommits(ds[..|ds| - 1]);
      forall i | 0 <= i < |log| ensures log[i].id.uuid.value in IdsOf(log) {}
    }
  }

  /** Delivering a log once commits exactly the log. */
  lemma {:induction false} OnceCommitsAll<E>(log: seq<Request<E>>)
    requires WellFormedLog(log) && DistinctIds(log)
    ensures FirstCommits(Once(log)) == log
  {
    if |log| > 0 {
      var n := |log| - 1;
      OnceCommitsAll(log[..n]);
      assert Once(log)[..n] == Once(log[..n]);
      assert log == log[..n] + [log[n]];
    }
  }

  /** There are always request ids that were not used yet. */
  lemma {:induction false} UnusedId(ids: set<Uuid>)
    ensures exists u :: u !in ids && forall v | v in ids :: v < u
  {
    if v :| v in ids {
      UnusedId(ids - {v});
      var u :| u !in ids - {v} && forall x | x in ids - {v} :: x < u;
      var larger := if u <= v then v + 1 else u;
      forall x | x in ids ensures x < larger {
        assert x == v || x in ids - {v};
      }
      assert larger !in ids;
    } else {
      assert 0 !in ids;
    }
  }

  lemma IdsOfAppend<E>(log: seq<Request<E>>, r: Request<E>)
    requires r.id.uuid.Some?
    ensures IdsOf(log + [r]) == IdsOf(log) + {r.id.uuid.value}
  {
    var log' := log + [r];
    assert log'[|log|] == r;
    forall u | u in IdsOf(log) ensures u in IdsOf(log') {
      var i :| 0 <= i < |log| && log[i].id.uuid == Some(u);
      assert log'[i] == log[i];
    }
  }
}

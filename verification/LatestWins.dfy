/**
 The "latest observation wins" rule, independent of what is observed.

 Observations arrive in batches. A batch is first reduced to one winner per key;
 the winner is then merged into a stored register, which keeps only a value and its
 timestamp. This module relates that incremental rule to a query over the whole trail
 of observations.
 */
module LatestWins {
  import opened Wrappers

  /** One observed row. Without a timestamp it says nothing about its key.
      `tie` ranks equal timestamps of one batch. */
  datatype Obs<K, V> = Obs(key: K, at: Option<int>, tie: int, value: V)

  /** What a register keeps of an observation. */
  datatype Stamp<V> = Stamp(value: V, at: int)

  predicate Counts<K(==), V>(o: Obs<K, V>, k: K) {
    o.key == k && o.at.Some?
  }

  function StampOf<K, V>(o: Obs<K, V>): Stamp<V>
    requires o.at.Some?
  {
    Stamp(o.value, o.at.value)
  }

  // ---------- One batch ----------

  /** Position i is at least as late as position j: by timestamp, then tie, then position. */
  predicate NotBefore<K, V>(batch: seq<Obs<K, V>>, i: nat, j: nat)
    requires i < |batch| && j < |batch|
    requires batch[i].at.Some? && batch[j].at.Some?
  {
    var (p, q) := (batch[i], batch[j]);
    q.at.value < p.at.value || (q.at == p.at && (q.tie < p.tie || (q.tie == p.tie && j <= i)))
  }

  /** The first row of the batch's rows for k in descending order. */
  function LatestIn<K(==), V>(batch: seq<Obs<K, V>>, k: K): (w: Option<nat>)
    ensures w.None? <==> forall i | 0 <= i < |batch| :: !Counts(batch[i], k)
    ensures w.Some? ==> w.value < |batch| && Counts(batch[w.value], k)
    ensures w.Some? ==> forall i | 0 <= i < |batch| && Counts(batch[i], k) :: NotBefore(batch, w.value, i)
  {
    if |batch| == 0 then None
    else
      var n := |batch| - 1;
      var w := LatestIn(batch[..n], k);
      if !Counts(batch[n], k) then w
      else if w.None? || NotBefore(batch, n, w.value) then Some(n)
      else w
  }

  /** What a batch brings for k. */
  function Incoming<K(==), V>(batch: seq<Obs<K, V>>, k: K): Option<Stamp<V>> {
    var w := LatestIn(batch, k);
    if w.None? then None else Some(StampOf(batch[w.value]))
  }

  // ---------- Many batches ----------

  /** An incoming stamp replaces a stored one that is not newer. */
  function Merge<V>(stored: Option<Stamp<V>>, incoming: Option<Stamp<V>>): Option<Stamp<V>> {
    if incoming.Some? && (stored.None? || stored.value.at <= incoming.value.at) then incoming else stored
  }

  /** The register of k after the batches have been merged one after the other. */
  function View<K(==), V>(trail: seq<seq<Obs<K, V>>>, k: K): Option<Stamp<V>> {
    if |trail| == 0 then None
    else Merge(View(trail[..|trail| - 1], k), Incoming(trail[|trail| - 1], k))
  }

  lemma ViewAppend<K, V>(trail: seq<seq<Obs<K, V>>>, batch: seq<Obs<K, V>>, k: K)
    ensures View(trail + [batch], k) == Merge(View(trail, k), Incoming(batch, k))
  {
    assert (trail + [batch])[..|trail|] == trail;
  }

  predicate InTrail<K, V>(trail: seq<seq<Obs<K, V>>>, b: nat, i: nat) {
    b < |trail| && i < |trail[b]|
  }

  /** Row i of batch b is at least as late as row j of batch c:
      by timestamp, then batch, then tie, then position. */
  predicate NotBeforeInTrail<K, V>(trail: seq<seq<Obs<K, V>>>, b: nat, i: nat, c: nat, j: nat)
    requires InTrail(trail, b, i) && InTrail(trail, c, j)
    requires trail[b][i].at.Some? && trail[c][j].at.Some?
  {
    var (p, q) := (trail[b][i], trail[c][j]);
    q.at.value < p.at.value ||
    (q.at == p.at && (c < b || (c == b && (q.tie < p.tie || (q.tie == p.tie && j <= i)))))
  }

  /** Row i of batch b is the latest of all the rows for k. */
  ghost predicate IsLatest<K, V>(trail: seq<seq<Obs<K, V>>>, k: K, b: nat, i: nat) {
    && InTrail(trail, b, i)
    && Counts(trail[b][i], k)
    && (forall c: nat, j: nat | InTrail(trail, c, j) && Counts(trail[c][j], k) ::
          NotBeforeInTrail(trail, b, i, c, j))
  }

  ghost predicate Unobserved<K, V>(trail: seq<seq<Obs<K, V>>>, k: K) {
    forall c: nat, j: nat | InTrail(trail, c, j) :: !Counts(trail[c][j], k)
  }

  /** The incremental register is exactly the answer of a query over the whole trail. */
  lemma {:induction false} ViewIsLatest<K, V>(trail: seq<seq<Obs<K, V>>>, k: K)
    ensures View(trail, k).None? <==> Unobserved(trail, k)
    ensures View(trail, k).Some? ==>
              exists b: nat, i: nat :: IsLatest(trail, k, b, i) && View(trail, k).value == StampOf(trail[b][i])
  {
    if |trail| > 0 {
      var n := |trail| - 1;
      var before := trail[..n];
      ViewIsLatest(before, k);
      var stored, w := View(before, k), LatestIn(trail[n], k);
      if w.Some? && (stored.None? || stored.value.at <= trail[n][w.value].at.value) {
        NewRowIsLatest(trail, k, w.value);
        assert View(trail, k).value == StampOf(trail[n][w.value]);
      } else if stored.Some? {
        var b: nat, i: nat :| IsLatest(before, k, b, i) && stored.value == StampOf(before[b][i]);
        OldRowStaysLatest(trail, k, b, i);
        assert View(trail, k).value == StampOf(trail[b][i]);
      } else {
        StaysUnobserved(trail, k);
      }
    }
  }

  lemma StaysUnobserved<K, V>(trail: seq<seq<Obs<K, V>>>, k: K)
    requires |trail| > 0
    requires Unobserved(trail[..|trail| - 1], k) && LatestIn(trail[|trail| - 1], k).None?
    ensures Unobserved(trail, k)
  {
    forall c: nat, j: nat | InTrail(trail, c, j) ensures !Counts(trail[c][j], k) {
      assert c < |trail| - 1 ==> InTrail(trail[..|trail| - 1], c, j);
    }
  }

  /** A batch without rows for k, or with older ones only, leaves the latest row in place. */
  lemma OldRowStaysLatest<K, V>(trail: seq<seq<Obs<K, V>>>, k: K, b: nat, i: nat)
    requires |trail| > 0
    requires IsLatest(trail[..|trail| - 1], k, b, i)
    requires var w := LatestIn(trail[|trail| - 1], k);
             w.Some? ==> trail[|trail| - 1][w.value].at.value < trail[b][i].at.value
    ensures IsLatest(trail, k, b, i)
  {
    var n := |trail| - 1;
    var before, last := trail[..n], trail[n];
    forall c: nat, j: nat | InTrail(trail, c, j) && Counts(trail[c][j], k)
      ensures NotBeforeInTrail(trail, b, i, c, j)
    {
      if c < n {
        assert InTrail(before, c, j) && Counts(before[c][j], k);
      } else {
        assert Counts(last[j], k);
        assert NotBefore(last, LatestIn(last, k).value, j);
      }
    }
  }

  /** A batch's winner that is not older than every earlier row becomes the latest row. */
  lemma NewRowIsLatest<K, V>(trail: seq<seq<Obs<K, V>>>, k: K, w: nat)
    requires |trail| > 0
    requires LatestIn(trail[|trail| - 1], k) == Some(w)
    requires var before, last := trail[..|trail| - 1], trail[|trail| - 1];
             Unobserved(before, k) ||
             exists b: nat, i: nat :: IsLatest(before, k, b, i) && before[b][i].at.value <= last[w].at.value
    ensures IsLatest(trail, k, |trail| - 1, w)
  {
    var n := |trail| - 1;
    var before, last := trail[..n], trail[n];
    forall c: nat, j: nat | InTrail(trail, c, j) && Counts(trail[c][j], k)
      ensures NotBeforeInTrail(trail, n, w, c, j)
    {
      if c < n {
        assert InTrail(before, c, j) && Counts(before[c][j], k);
        var b: nat, i: nat :| IsLatest(before, k, b, i) && before[b][i].at.value <= last[w].at.value;
        assert NotBeforeInTrail(before, b, i, c, j);
      } else {
        assert Counts(last[j], k);
        assert NotBefore(last, w, j);
      }
    }
  }

  // ---------- Independence of order and batching ----------

  ghost predicate Occurs<K, V>(trail: seq<seq<Obs<K, V>>>, o: Obs<K, V>) {
    exists b: nat, i: nat :: InTrail(trail, b, i) && trail[b][i] == o
  }

  ghost predicate SameRows<K(!new), V(!new)>(trail: seq<seq<Obs<K, V>>>, trail': seq<seq<Obs<K, V>>>) {
    forall o: Obs<K, V> :: Occurs(trail, o) <==> Occurs(trail', o)
  }

  /** No row for k is later than o. */
  ghost predicate Newest<K, V>(trail: seq<seq<Obs<K, V>>>, k: K, o: Obs<K, V>) {
    && Occurs(trail, o) && Counts(o, k)
    && (forall c: nat, j: nat | InTrail(trail, c, j) && Counts(trail[c][j], k) ::
          trail[c][j].at.value <= o.at.value)
  }

  /** The rows for k with the newest timestamp agree on the value. */
  ghost predicate Unambiguous<K(!new), V(!new)>(trail: seq<seq<Obs<K, V>>>, k: K) {
    forall p: Obs<K, V>, q: Obs<K, V> | Newest(trail, k, p) && Newest(trail, k, q) :: p.value == q.value
  }

  /** The register's content is one of the newest rows. */
  lemma ViewIsNewest<K, V>(trail: seq<seq<Obs<K, V>>>, k: K)
    ensures View(trail, k).None? <==> Unobserved(trail, k)
    ensures View(trail, k).Some? ==> exists o :: Newest(trail, k, o) && View(trail, k).value == StampOf(o)
  {
    ViewIsLatest(trail, k);
    if View(trail, k).Some? {
      var b: nat, i: nat :| IsLatest(trail, k, b, i) && View(trail, k).value == StampOf(trail[b][i]);
      assert Newest(trail, k, trail[b][i]);
    }
  }

  lemma NewestInSameRows<K(!new), V(!new)>(trail: seq<seq<Obs<K, V>>>, trail': seq<seq<Obs<K, V>>>, k: K, o: Obs<K, V>)
    requires SameRows(trail, trail') && Newest(trail, k, o)
    ensures Newest(trail', k, o)
  {
    forall c: nat, j: nat | InTrail(trail', c, j) && Counts(trail'[c][j], k)
      ensures trail'[c][j].at.value <= o.at.value
    {
      assert Occurs(trail', trail'[c][j]);
      assert Occurs(trail, trail'[c][j]);
      var b: nat, i: nat :| InTrail(trail, b, i) && trail[b][i] == trail'[c][j];
    }
  }

  lemma NewestIsTheView<K(!new), V(!new)>(trail: seq<seq<Obs<K, V>>>, k: K, o: Obs<K, V>)
    requires Newest(trail, k, o) && Unambiguous(trail, k)
    ensures View(trail, k) == Some(StampOf(o))
  {
    ViewIsNewest(trail, k);
    var b: nat, i: nat :| InTrail(trail, b, i) && trail[b][i] == o;
    assert View(trail, k).Some?;
    var p :| Newest(trail, k, p) && View(trail, k).value == StampOf(p);
    NewestAreEquallyNew(trail, k, o, p);
  }

  lemma NewestAreEquallyNew<K(!new), V(!new)>(trail: seq<seq<Obs<K, V>>>, k: K, o: Obs<K, V>, p: Obs<K, V>)
    requires Newest(trail, k, o) && Newest(trail, k, p)
    ensures o.at == p.at
  {
    var b: nat, i: nat :| InTrail(trail, b, i) && trail[b][i] == o;
    var c: nat, j: nat :| InTrail(trail, c, j) && trail[c][j] == p;
  }

  lemma SameRowsSameView<K(!new), V(!new)>(trail: seq<seq<Obs<K, V>>>, trail': seq<seq<Obs<K, V>>>, k: K)
    requires SameRows(trail, trail') && Unambiguous(trail, k)
    ensures View(trail', k) == View(trail, k)
  {
    forall o | Newest(trail', k, o) ensures Newest(trail, k, o) {
      NewestInSameRows(trail', trail, k, o);
    }
    assert Unambiguous(trail', k);
    ViewIsNewest(trail, k);
    ViewIsNewest(trail', k);
    if o :| Newest(trail', k, o) {
      NewestIsTheView(trail, k, o);
      NewestIsTheView(trail', k, o);
    } else if o :| Newest(trail, k, o) {
      NewestInSameRows(trail, trail', k, o);
    }
  }

  /** Delivering a newest row once more puts its value into the register. */
  lemma RedeliveredNewestWins<K, V>(trail: seq<seq<Obs<K, V>>>, k: K, o: Obs<K, V>)
    requires Newest(trail, k, o)
    ensures View(trail + [[o]], k) == Some(StampOf(o))
  {
    ViewIsNewest(trail, k);
    assert (trail + [[o]])[..|trail|] == trail;
    assert LatestIn([o], k) == Some(0) by { assert Counts([o][0], k); }
  }

  /**
   The register of k depends only on the set of rows, whatever their order and batching,
   exactly when the newest rows for k agree.
   */
  lemma OrderIndependentIff<K(!new), V(!new)>(trail: seq<seq<Obs<K, V>>>, k: K)
    ensures Unambiguous(trail, k) <==>
              forall trail': seq<seq<Obs<K, V>>> | SameRows(trail, trail') :: View(trail', k) == View(trail, k)
  {
    if Unambiguous(trail, k) {
      forall trail': seq<seq<Obs<K, V>>> | SameRows(trail, trail')
        ensures View(trail', k) == View(trail, k)
      {
        SameRowsSameView(trail, trail', k);
      }
    } else {
      var p: Obs<K, V>, q: Obs<K, V> :| Newest(trail, k, p) && Newest(trail, k, q) && p.value != q.value;
      TieShowsOrder(trail, k, p, q);
    }
  }

  /** Of two contradicting newest rows, the one that is delivered once more wins. */
  lemma TieShowsOrder<K(!new), V(!new)>(trail: seq<seq<Obs<K, V>>>, k: K, p: Obs<K, V>, q: Obs<K, V>)
    requires Newest(trail, k, p) && Newest(trail, k, q) && p.value != q.value
    ensures SameRows(trail, trail + [[p]]) && SameRows(trail, trail + [[q]])
    ensures View(trail + [[p]], k) == Some(StampOf(p)) && View(trail + [[q]], k) == Some(StampOf(q))
  {
    AppendKnown(trail, p);
    AppendKnown(trail, q);
    RedeliveredNewestWins(trail, k, p);
    RedeliveredNewestWins(trail, k, q);
  }

  /** Ambiguity, in terms of positions in the trail. */
  lemma ContradictingRows<K(!new), V(!new)>(trail: seq<seq<Obs<K, V>>>, k: K) returns (b: nat, i: nat, c: nat, j: nat)
    requires !Unambiguous(trail, k)
    ensures InTrail(trail, b, i) && InTrail(trail, c, j)
    ensures Newest(trail, k, trail[b][i]) && Newest(trail, k, trail[c][j]) && trail[b][i].value != trail[c][j].value
  {
    var p, q :| Newest(trail, k, p) && Newest(trail, k, q) && p.value != q.value;
    b, i :| InTrail(trail, b, i) && trail[b][i] == p;
    c, j :| InTrail(trail, c, j) && trail[c][j] == q;
  }

  lemma AppendKnown<K(!new), V(!new)>(trail: seq<seq<Obs<K, V>>>, o: Obs<K, V>)
    requires Occurs(trail, o)
    ensures SameRows(trail, trail + [[o]])
  {
    var t := trail + [[o]];
    forall p: Obs<K, V> ensures Occurs(trail, p) <==> Occurs(t, p) {
      if Occurs(trail, p) {
        var b: nat, i: nat :| InTrail(trail, b, i) && trail[b][i] == p;
        assert InTrail(t, b, i) && t[b][i] == p;
      }
      if Occurs(t, p) {
        var b: nat, i: nat :| InTrail(t, b, i) && t[b][i] == p;
        if b < |trail| {
          assert InTrail(trail, b, i) && trail[b][i] == p;
        }
      }
    }
  }
}

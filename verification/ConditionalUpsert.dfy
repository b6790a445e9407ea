/** INSERT ... ON CONFLICT DO UPDATE SET ... WHERE ..., for one row per key. */
module ConditionalUpsert {

  /** The WHERE clause and the SET clause, given the stored row and the proposed (excluded) one. */
  datatype Upsert<!V> = Upsert(where: (V, V) -> bool, assign: (V, V) -> V)

  /** Whether the statement inserts or updates the row of k. */
  predicate Affects<K, V>(u: Upsert<V>, table: map<K, V>, k: K, excluded: V) {
    k !in table || u.where(table[k], excluded)
  }

  function UpsertedRow<K, V>(u: Upsert<V>, table: map<K, V>, k: K, excluded: V): V {
    if k !in table then excluded
    else if u.where(table[k], excluded) then u.assign(table[k], excluded)
    else table[k]
  }

  /** The table after the statement, for all proposed rows at once. */
  function Upserted<K, V>(u: Upsert<V>, table: map<K, V>, proposed: map<K, V>): map<K, V> {
    map k | k in table.Keys + proposed.Keys ::
      if k in proposed then UpsertedRow(u, table, k, proposed[k]) else table[k]
  }

  /** The keys whose rows the statement counts. */
  function AffectedKeys<K, V>(u: Upsert<V>, table: map<K, V>, proposed: map<K, V>): set<K> {
    set k | k in proposed && Affects(u, table, k, proposed[k])
  }

  /** The WHERE clause lets an update through only if the SET clause changes the row. */
  ghost predicate WhereMeansChange<V(!new)>(u: Upsert<V>) {
    forall stored, excluded | u.where(stored, excluded) :: u.assign(stored, excluded) != stored
  }

  /** The keys whose rows are new or different. */
  function ChangedKeys<K, V(==)>(table: map<K, V>, after: map<K, V>): set<K> {
    set k | k in after && (k !in table || table[k] != after[k])
  }

  /** Then the statement counts exactly the keys whose rows are new or different afterwards. */
  lemma CountIsExact<K, V(!new)>(u: Upsert<V>, table: map<K, V>, proposed: map<K, V>)
    requires WhereMeansChange(u)
    ensures var after := Upserted(u, table, proposed);
            |AffectedKeys(u, table, proposed)| == |ChangedKeys(table, after)|
  {
    assert AffectedKeys(u, table, proposed) == ChangedKeys(table, Upserted(u, table, proposed));
  }

  // ---------- One row at a time ----------

  lemma UpsertNone<K, V>(u: Upsert<V>, table: map<K, V>)
    ensures Upserted(u, table, map[]) == table && AffectedKeys(u, table, map[]) == {}
  {
    assert Upserted(u, table, map[]) == table;
  }

  /** Upserting one more row after others is upserting them together. */
  lemma UpsertOneMore<K, V>(u: Upsert<V>, table: map<K, V>, done: map<K, V>, k: K, excluded: V)
    requires k !in done
    ensures var now := Upserted(u, table, done);
            && Affects(u, now, k, excluded) == Affects(u, table, k, excluded)
            && Upserted(u, table, done[k := excluded]) == now[k := UpsertedRow(u, now, k, excluded)]
  {
    var now, more := Upserted(u, table, done), Upserted(u, table, done[k := excluded]);
    assert more.Keys == now.Keys + {k};
    assert UpsertedRow(u, now, k, excluded) == UpsertedRow(u, table, k, excluded);
    forall q | q in more ensures more[q] == now[k := UpsertedRow(u, now, k, excluded)][q] {
      if q != k {
        assert q in done[k := excluded] <==> q in done;
      }
    }
  }

  lemma CountOneMore<K, V>(u: Upsert<V>, table: map<K, V>, done: map<K, V>, k: K, excluded: V)
    requires k !in done
    ensures |AffectedKeys(u, table, done[k := excluded])|
         == |AffectedKeys(u, table, done)| + if Affects(u, table, k, excluded) then 1 else 0
  {
    var fewer, more := AffectedKeys(u, table, done), AffectedKeys(u, table, done[k := excluded]);
    var added := if Affects(u, table, k, excluded) then {k} else {};
    forall q ensures q in more <==> q in fewer + added {
      if q != k {
        assert q in done[k := excluded] <==> q in done;
      }
    }
    assert more == fewer + added;
  }
}

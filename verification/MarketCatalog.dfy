/** The market catalog: public market keys and the internal locations they stand for. */
module MarketCatalog {
  import opened Wrappers
  import opened Text

  datatype Market = Market(key: string, name: string, enabled: bool, location: Option<int>)

  const DEFAULT_MARKETS: seq<Market> := [
    Market("bridgewatch", "Bridgewatch", true, Some(2004)),
    Market("martlock", "Martlock", true, Some(3008)),
    Market("lymhurst", "Lymhurst", true, Some(1002)),
    Market("fort_sterling", "Fort Sterling", true, Some(4002)),
    Market("thetford", "Thetford", true, Some(7)),
    Market("caerleon", "Caerleon", true, Some(3005)),
    Market("brecilien", "Brecilien", true, Some(5003)),
    Market("black_market", "Black Market", false, None)
  ]

  datatype CatalogError = EmptyKey | UnsupportedKey(key: string) | DisabledKey(key: string)

  datatype Resolution = Resolution(locations: seq<int>, keysByLocation: map<int, string>)

  function NormalizeKey(key: string): string {
    ToLower(TrimSpace(key))
  }

  /** Two keys are the same market key iff they spell the same word. */
  lemma SameKeyIffSpelt(key: string, word: string)
    requires IsPlain(word)
    ensures NormalizeKey(key) == word <==> Spells(key, word)
  {
    NormalisedIffSpells(key, word);
  }

  /** Every default key is what its spellings, and nothing else, are resolved as. */
  lemma DefaultKeysAreSpelt(i: nat, key: string)
    requires i < |DEFAULT_MARKETS|
    ensures NormalizeKey(key) == DEFAULT_MARKETS[i].key <==> Spells(key, DEFAULT_MARKETS[i].key)
  {
    SameKeyIffSpelt(key, DEFAULT_MARKETS[i].key);
  }

  predicate Usable(m: Market) {
    m.enabled && m.location.Some?
  }

  /** Different markets have different locations. */
  ghost predicate LocationsAreDistinct(byKey: map<string, Market>) {
    forall k, k' | k in byKey && k' in byKey && byKey[k].location.Some? && byKey[k].location == byKey[k'].location ::
      k == k'
  }

  /** The two indexes are each other's inverse on the markets that have a location. */
  ghost predicate Mirror(byKey: map<string, Market>, byLocation: map<int, string>) {
    && (forall l | l in byLocation :: byLocation[l] in byKey && byKey[byLocation[l]].location == Some(l))
    && (forall k | k in byKey && byKey[k].location.Some? ::
          byKey[k].location.value in byLocation && byLocation[byKey[k].location.value] == k)
  }

  /** The problem with a normalised key, if there is one. */
  function ProblemWith(byKey: map<string, Market>, key: string): Option<CatalogError> {
    if key == "" then Some(EmptyKey)
    else if key !in byKey then Some(UnsupportedKey(key))
    else if !Usable(byKey[key]) then Some(DisabledKey(key))
    else None
  }

  ghost predicate ProblemFree(byKey: map<string, Market>, keys: seq<string>) {
    forall i | 0 <= i < |keys| :: ProblemWith(byKey, NormalizeKey(keys[i])).None?
  }

  /** The normalised keys, each at its first occurrence. */
  function FirstOccurrences(keys: seq<string>): (distinct: seq<string>)
    ensures forall k :: k in distinct <==> exists i :: 0 <= i < |keys| && NormalizeKey(keys[i]) == k
    ensures forall i, j | 0 <= i < j < |distinct| :: distinct[i] != distinct[j]
  {
    if |keys| == 0 then []
    else
      var before, key := FirstOccurrences(keys[..|keys| - 1]), NormalizeKey(keys[|keys| - 1]);
      if key in before then before else before + [key]
  }

  /** Distinct keys stand in the order of their first occurrences. */
  lemma {:induction false} FirstOccurrencesAreInOrder(keys: seq<string>, i: nat, j: nat)
    requires i < j < |FirstOccurrences(keys)|
    ensures exists n :: 0 <= n < |keys| && NormalizeKey(keys[n]) == FirstOccurrences(keys)[i]
                        && forall m | 0 <= m <= n :: NormalizeKey(keys[m]) != FirstOccurrences(keys)[j]
  {
    var last, distinct := |keys| - 1, FirstOccurrences(keys);
    var before := FirstOccurrences(keys[..last]);
    if j < |before| {
      FirstOccurrencesAreInOrder(keys[..last], i, j);
      var n :| 0 <= n < last && NormalizeKey(keys[..last][n]) == before[i]
               && forall m | 0 <= m <= n :: NormalizeKey(keys[..last][m]) != before[j];
      assert keys[n] == keys[..last][n];
      forall m | 0 <= m <= n ensures NormalizeKey(keys[m]) != distinct[j] {
        assert keys[m] == keys[..last][m];
      }
    } else {
      assert before[i] in before;
      var n :| 0 <= n < last && NormalizeKey(keys[..last][n]) == before[i];
      forall m | 0 <= m <= n ensures NormalizeKey(keys[m]) != distinct[j] {
        assert keys[m] == keys[..last][m];
        assert NormalizeKey(keys[..last][m]) in before;
      }
    }
  }

  /** Location i is that of the i-th distinct key, and is mapped back to it. */
  ghost predicate Resolves(byKey: map<string, Market>, distinct: seq<string>, r: Resolution) {
    && |r.locations| == |distinct|
    && (forall i | 0 <= i < |distinct| ::
          && distinct[i] != "" && distinct[i] in byKey && byKey[distinct[i]].enabled
          && byKey[distinct[i]].location == Some(r.locations[i])
          && r.locations[i] in r.keysByLocation && r.keysByLocation[r.locations[i]] == distinct[i])
    && (forall l | l in r.keysByLocation :: l in r.locations)
  }

  /** The key is missing, unknown, or that of a market that is disabled or has no location. */
  predicate Explains(byKey: map<string, Market>, key: string, error: CatalogError) {
    match error
    case EmptyKey => key == ""
    case UnsupportedKey(k) => k == key && key != "" && key !in byKey
    case DisabledKey(k) => k == key && key in byKey && (!byKey[key].enabled || byKey[key].location.None?)
  }

  /** Key i is the first that cannot be resolved. */
  ghost predicate FirstProblem(byKey: map<string, Market>, keys: seq<string>, i: nat, error: CatalogError) {
    && i < |keys| && ProblemWith(byKey, NormalizeKey(keys[i])) == Some(error)
    && Explains(byKey, NormalizeKey(keys[i]), error)
    && (forall j | 0 <= j < i :: ProblemWith(byKey, NormalizeKey(keys[j])).None?)
  }

  ghost predicate DistinctMarkets(markets: seq<Market>) {
    forall i, j | 0 <= i < j < |markets| ::
      && markets[i].key != markets[j].key
      && (markets[i].location.Some? ==> markets[i].location != markets[j].location)
  }

  class Catalog {
    const records: seq<Market>
    var byKey: map<string, Market>
    var byLocation: map<int, string>

    constructor Default()
      ensures records == DEFAULT_MARKETS
      ensures LocationsAreDistinct(byKey) && Mirror(byKey, byLocation)
      ensures forall k | k in byKey :: byKey[k].key == k && byKey[k] in records
      ensures forall m | m in records :: m.key in byKey && byKey[m.key] == m
    {
      records := DEFAULT_MARKETS;
      byKey, byLocation := map[], map[];
      new;
      DefaultsAreDistinct();
      Index();
    }

    method Index()
      requires DistinctMarkets(records)
      modifies this
      ensures LocationsAreDistinct(byKey) && Mirror(byKey, byLocation)
      ensures forall k | k in byKey :: byKey[k].key == k && byKey[k] in records
      ensures forall m | m in records :: m.key in byKey && byKey[m.key] == m
    {
      byKey, byLocation := map[], map[];
      for n := 0 to |records|
        invariant forall k | k in byKey :: byKey[k].key == k && byKey[k] in records[..n]
        invariant Mirror(byKey, byLocation)
        invariant forall i | 0 <= i < n :: records[i].key in byKey && byKey[records[i].key] == records[i]
      {
        assert records[..n + 1] == records[..n] + [records[n]];
        byKey := byKey[records[n].key := records[n]];
        if records[n].location.Some? {
          byLocation := byLocation[records[n].location.value := records[n].key];
        }
      }
      assert records[..|records|] == records;
    }

    method ResolveEnabled(keys: seq<string>) returns (result: Result<Resolution, CatalogError>)
      requires LocationsAreDistinct(byKey)
      ensures result.Ok? <==> ProblemFree(byKey, keys)
      ensures result.Ok? ==> Resolves(byKey, FirstOccurrences(keys), result.value)
      ensures result.Err? ==> exists i :: FirstProblem(byKey, keys, i, result.error)
    {
      var locations: seq<int>, keysByLocation: map<int, string>, seen: set<string> := [], map[], {};
      for n := 0 to |keys|
        invariant Progress(byKey, keys[..n], seen, Resolution(locations, keysByLocation))
      {
        var key := NormalizeKey(keys[n]);
        if key == "" {
          ProblemFound(byKey, keys, n, seen, Resolution(locations, keysByLocation));
          return Err(EmptyKey);
        }
        ghost var r := Resolution(locations, keysByLocation);
        if key in seen {
          ProgressWithKnownKey(byKey, keys, n, seen, r);
        } else {
          if key !in byKey {
            ProblemFound(byKey, keys, n, seen, r);
            return Err(UnsupportedKey(key));
          }
          var item := byKey[key];
          if !item.enabled || item.location.None? {
            ProblemFound(byKey, keys, n, seen, r);
            return Err(DisabledKey(key));
          }
          ProgressWithNewKey(byKey, keys, n, seen, r);
          seen := seen + {key};
          locations := locations + [item.location.value];
          keysByLocation := keysByLocation[item.location.value := key];
        }
      }
      assert keys[..|keys|] == keys;
      return Ok(Resolution(locations, keysByLocation));
    }
  }

  /** What has been resolved after reading `keys`, none of which is a problem. */
  ghost predicate Progress(byKey: map<string, Market>, keys: seq<string>, seen: set<string>, r: Resolution) {
    && ProblemFree(byKey, keys)
    && Resolves(byKey, FirstOccurrences(keys), r)
    && (forall k :: k in seen <==> k in FirstOccurrences(keys))
  }

  lemma ProblemFound(byKey: map<string, Market>, keys: seq<string>, n: nat, seen: set<string>, r: Resolution)
    requires n < |keys| && Progress(byKey, keys[..n], seen, r)
    requires ProblemWith(byKey, NormalizeKey(keys[n])).Some?
    ensures FirstProblem(byKey, keys, n, ProblemWith(byKey, NormalizeKey(keys[n])).value)
  {
    forall j | 0 <= j < n ensures ProblemWith(byKey, NormalizeKey(keys[j])).None? {
      assert keys[..n][j] == keys[j];
    }
  }

  lemma NoProblemInOneMore(byKey: map<string, Market>, keys: seq<string>, n: nat)
    requires n < |keys| && ProblemFree(byKey, keys[..n])
    requires ProblemWith(byKey, NormalizeKey(keys[n])).None?
    ensures ProblemFree(byKey, keys[..n + 1])
  {
    var more := keys[..n + 1];
    forall i | 0 <= i < |more| ensures ProblemWith(byKey, NormalizeKey(more[i])).None? {
      assert i < n ==> more[i] == keys[..n][i];
    }
  }

  lemma ProgressWithKnownKey(byKey: map<string, Market>, keys: seq<string>, n: nat, seen: set<string>, r: Resolution)
    requires n < |keys| && Progress(byKey, keys[..n], seen, r) && NormalizeKey(keys[n]) in seen
    ensures Progress(byKey, keys[..n + 1], seen, r)
  {
    FirstOccurrencesOfOneMore(keys, n);
    KnownKeyHasNoProblem(byKey, FirstOccurrences(keys[..n]), r, NormalizeKey(keys[n]));
    NoProblemInOneMore(byKey, keys, n);
  }

  lemma ProgressWithNewKey(byKey: map<string, Market>, keys: seq<string>, n: nat, seen: set<string>, r: Resolution)
    requires n < |keys| && LocationsAreDistinct(byKey) && Progress(byKey, keys[..n], seen, r)
    requires var key := NormalizeKey(keys[n]); key !in seen && ProblemWith(byKey, key).None?
    ensures var key := NormalizeKey(keys[n]);
            var location := byKey[key].location.value;
            Progress(byKey, keys[..n + 1], seen + {key},
                     Resolution(r.locations + [location], r.keysByLocation[location := key]))
  {
    FirstOccurrencesOfOneMore(keys, n);
    ResolveOneMore(byKey, FirstOccurrences(keys[..n]), r, NormalizeKey(keys[n]));
    NoProblemInOneMore(byKey, keys, n);
  }

  lemma FirstOccurrencesOfOneMore(keys: seq<string>, n: nat)
    requires n < |keys|
    ensures var before, key := FirstOccurrences(keys[..n]), NormalizeKey(keys[n]);
            FirstOccurrences(keys[..n + 1]) == if key in before then before else before + [key]
  {
    assert keys[..n + 1][..n] == keys[..n];
  }

  lemma ResolveOneMore(byKey: map<string, Market>, distinct: seq<string>, r: Resolution, key: string)
    requires LocationsAreDistinct(byKey) && Resolves(byKey, distinct, r)
    requires key !in distinct && ProblemWith(byKey, key).None?
    ensures var location := byKey[key].location.value;
            Resolves(byKey, distinct + [key], Resolution(r.locations + [location], r.keysByLocation[location := key]))
  {
    var location := byKey[key].location.value;
    forall i | 0 <= i < |r.locations| ensures r.locations[i] != location {
      assert byKey[distinct[i]].location == Some(r.locations[i]);
      assert distinct[i] in distinct;
    }
  }

  lemma KnownKeyHasNoProblem(byKey: map<string, Market>, distinct: seq<string>, r: Resolution, key: string)
    requires Resolves(byKey, distinct, r) && key in distinct
    ensures ProblemWith(byKey, key).None?
  {
    var i :| 0 <= i < |distinct| && distinct[i] == key;
  }

  /** The first and the third letter already tell the default keys apart. */
  lemma DefaultKeysDiffer(i: nat, j: nat)
    requires i < j < |DEFAULT_MARKETS|
    ensures DEFAULT_MARKETS[i].key != DEFAULT_MARKETS[j].key
  {
    assert DEFAULT_MARKETS[i].key[0] != DEFAULT_MARKETS[j].key[0] ||
           DEFAULT_MARKETS[i].key[2] != DEFAULT_MARKETS[j].key[2];
  }

  lemma DefaultsAreDistinct()
    ensures DistinctMarkets(DEFAULT_MARKETS)
  {
    forall i, j | 0 <= i < j < |DEFAULT_MARKETS|
      ensures DEFAULT_MARKETS[i].key != DEFAULT_MARKETS[j].key
      ensures DEFAULT_MARKETS[i].location.Some? ==> DEFAULT_MARKETS[i].location != DEFAULT_MARKETS[j].location
    {
      DefaultKeysDiffer(i, j);
    }
  }
}

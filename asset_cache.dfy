/** The price cache in front of the market-data service. Every read first
    makes sure the cache is fresh: when it was never filled, or its last fill
    is `updateInterval` minutes old or older, it asks the service again and
    keeps the `assetLimit` dearest crypto assets, indexed by id. */
module AssetStorage {
  import opened Results
  import opened Platform
  import opened Assets

  const DefaultUpdateInterval: nat := 30
  const DefaultAssetLimit: nat := 150

  /** One answer of the market-data service: its assets, or a failure. */
  datatype Fetch = Fetched(catalog: seq<Asset>) | FetchFailed

  datatype CacheError =
    | CouldNotLoad
    | UnknownAsset(id: string)
    /** `Collectors.toMap` met a second asset with the same id. */
    | DuplicateAsset(first: Asset, second: Asset)
    /** `Collectors.toMap` met an id asked for twice. */
    | DuplicatePrice(key: string, firstPrice: real, secondPrice: real)

  /** The message of `Collectors.toMap`'s `IllegalStateException`. */
  function DuplicateKeyMessage(key: string, first: string, second: string): string {
    "Duplicate key " + key + " (attempted merging values " + first + " and " + second + ")"
  }

  function CacheMessage(p: Platform, e: CacheError): string {
    match e
    case CouldNotLoad => "Could not load data"
    case UnknownAsset(id) => "Unknown asset: " + id
    case DuplicateAsset(a, b) => DuplicateKeyMessage(a.id, AssetText(a), AssetText(b))
    case DuplicatePrice(id, x, y) => DuplicateKeyMessage(id, p.show(x), p.show(y))
  }

  /** What the setters store: a negative value falls back to the default. */
  function Clamp(n: int, default: nat): nat {
    if n >= 0 then n else default
  }

  // ---------------------------------------------------------------------
  // the refresh pipeline: filter, sort by price descending, limit, index

  /** `filter(Asset::isCrypto)`: exactly the crypto assets, as often as they occur. */
  function Cryptos(s: seq<Asset>): (r: seq<Asset>)
    ensures forall a :: multiset(r)[a] == if a.isCrypto then multiset(s)[a] else 0
  {
    if s == [] then []
    else
      assert s == [s[0]] + s[1..];
      (if s[0].isCrypto then [s[0]] else []) + Cryptos(s[1..])
  }

  predicate Descending(s: seq<Asset>) {
    forall i, j :: 0 <= i < j < |s| ==> s[i].price >= s[j].price
  }

  /** Put `a` before the first asset that is not dearer than it. */
  function Insert(a: Asset, s: seq<Asset>): (r: seq<Asset>)
    requires Descending(s)
    ensures Descending(r)
    ensures multiset(r) == multiset(s) + multiset{a}
  {
    if s == [] || a.price >= s[0].price then [a] + s
    else
      var t := Insert(a, s[1..]);
      InsertBehindHead(a, s, t);
      [s[0]] + t
  }

  /** Keeping the head of `s` in front of the insertion into its tail keeps
      the order, since neither `a` nor the rest of `s` is dearer than it. */
  lemma InsertBehindHead(a: Asset, s: seq<Asset>, t: seq<Asset>)
    requires Descending(s) && s != [] && a.price < s[0].price
    requires Descending(t) && multiset(t) == multiset(s[1..]) + multiset{a}
    ensures Descending([s[0]] + t)
    ensures multiset([s[0]] + t) == multiset(s) + multiset{a}
  {
    assert s == [s[0]] + s[1..];
    forall j | 0 <= j < |t| ensures s[0].price >= t[j].price {
      assert t[j] in multiset(t);
      if t[j] != a {
        assert t[j] in multiset(s[1..]);
        var k :| 0 <= k < |s[1..]| && s[1..][k] == t[j];
        assert s[k + 1] == t[j];
      }
    }
    var r := [s[0]] + t;
    forall i, j | 0 <= i < j < |r| ensures r[i].price >= r[j].price {
      assert r[j] == t[j - 1];
      if i > 0 {
        assert r[i] == t[i - 1];
      }
    }
  }

  /** `sorted(comparingDouble(Asset::getPrice).reversed())`. */
  function SortDescending(s: seq<Asset>): (r: seq<Asset>)
    ensures Descending(r)
    ensures multiset(r) == multiset(s)
  {
    if s == [] then []
    else
      assert s == [s[0]] + s[1..];
      Insert(s[0], SortDescending(s[1..]))
  }

  /** The crypto assets of a catalog, dearest first. */
  function Ranked(catalog: seq<Asset>): seq<Asset> {
    SortDescending(Cryptos(catalog))
  }

  function Kept(catalog: seq<Asset>, limit: nat): nat {
    var r := Ranked(catalog);
    if limit < |r| then limit else |r|
  }

  /** `limit(assetLimit)`: the first `limit` of the ranking. */
  function Selected(catalog: seq<Asset>, limit: nat): seq<Asset> {
    Ranked(catalog)[..Kept(catalog, limit)]
  }

  /** The crypto assets the limit leaves out. */
  function Dropped(catalog: seq<Asset>, limit: nat): seq<Asset> {
    Ranked(catalog)[Kept(catalog, limit)..]
  }

  lemma SplitMultiset(r: seq<Asset>, n: nat)
    requires n <= |r|
    ensures multiset(r[..n]) + multiset(r[n..]) == multiset(r)
  {
    assert r == r[..n] + r[n..];
  }

  lemma SelectedFromCatalog(catalog: seq<Asset>, limit: nat)
    ensures var sel := Selected(catalog, limit);
      forall i :: 0 <= i < |sel| ==> sel[i].isCrypto && sel[i] in catalog
  {
    var c := Cryptos(catalog);
    var r := SortDescending(c);
    var sel := r[..Kept(catalog, limit)];
    forall i | 0 <= i < |sel| ensures sel[i].isCrypto && sel[i] in catalog {
      var a := sel[i];
      assert a == r[i];
      assert a in multiset(r);
      assert multiset(c)[a] > 0;
      assert multiset(catalog)[a] > 0;
    }
  }

  /** In a list dearest first, nothing before position `n` is cheaper than
      anything from `n` on. */
  lemma PrefixDominates(r: seq<Asset>, n: nat)
    requires Descending(r) && n <= |r|
    ensures forall i, j :: 0 <= i < |r[..n]| && 0 <= j < |r[n..]| ==> r[..n][i].price >= r[n..][j].price
  {
    forall i, j | 0 <= i < |r[..n]| && 0 <= j < |r[n..]| ensures r[..n][i].price >= r[n..][j].price {
      assert r[..n][i] == r[i] && r[n..][j] == r[n + j];
    }
  }

  lemma SelectedDominates(catalog: seq<Asset>, limit: nat)
    ensures var sel, out := Selected(catalog, limit), Dropped(catalog, limit);
      forall i, j :: 0 <= i < |sel| && 0 <= j < |out| ==> sel[i].price >= out[j].price
  {
    var r := Ranked(catalog);
    assert Descending(r);
    PrefixDominates(r, Kept(catalog, limit));
  }

  /** The selection holds at most `limit` assets (fewer only when there are
      no more), crypto assets of the catalog only; together with what is
      dropped it is exactly the catalog's crypto assets; and no asset kept is
      cheaper than one dropped. */
  lemma SelectedFacts(catalog: seq<Asset>, limit: nat)
    ensures var sel, out := Selected(catalog, limit), Dropped(catalog, limit);
      && |sel| <= limit
      && (|sel| < limit ==> out == [])
      && (forall i :: 0 <= i < |sel| ==> sel[i].isCrypto && sel[i] in catalog)
      && multiset(sel) + multiset(out) == multiset(Cryptos(catalog))
      && (forall i, j :: 0 <= i < |sel| && 0 <= j < |out| ==> sel[i].price >= out[j].price)
  {
    SplitMultiset(Ranked(catalog), Kept(catalog, limit));
    SelectedFromCatalog(catalog, limit);
    SelectedDominates(catalog, limit);
  }

  // ---------------------------------------------------------------------
  // indexing by id

  function Ids(s: seq<Asset>): set<string> {
    set i | 0 <= i < |s| :: s[i].id
  }

  predicate DistinctIds(s: seq<Asset>) {
    forall i, j :: 0 <= i < j < |s| ==> s[i].id != s[j].id
  }

  predicate Keyed(m: map<string, Asset>) {
    forall k :: k in m ==> m[k].id == k
  }

  /** `collect(toMap(Asset::getId, identity()))`, adding to `acc` left to right. */
  function IndexById(s: seq<Asset>, acc: map<string, Asset>): Result<map<string, Asset>, CacheError>
    decreases |s|
  {
    if s == [] then Ok(acc)
    else if s[0].id in acc then Err(DuplicateAsset(acc[s[0].id], s[0]))
    else IndexById(s[1..], acc[s[0].id := s[0]])
  }

  lemma IdsCons(s: seq<Asset>)
    requires s != []
    ensures Ids(s) == {s[0].id} + Ids(s[1..])
  {
    forall k | k in Ids(s) ensures k in {s[0].id} + Ids(s[1..]) {
      var i :| 0 <= i < |s| && s[i].id == k;
      if i > 0 {
        assert s[1..][i - 1].id == k;
      }
    }
    forall k | k in Ids(s[1..]) ensures k in Ids(s) {
      var i :| 0 <= i < |s[1..]| && s[1..][i].id == k;
      assert s[i + 1].id == k;
    }
  }

  /** Indexing succeeds exactly when no id repeats, in the list or against
      `acc`; it then files every asset under its own id, keeps `acc`, and
      adds nothing else. */
  lemma {:induction false} IndexFacts(s: seq<Asset>, acc: map<string, Asset>)
    ensures IndexById(s, acc).Ok? <==> DistinctIds(s) && acc.Keys !! Ids(s)
    ensures IndexById(s, acc).Ok? ==> var m := IndexById(s, acc).value;
      && m.Keys == acc.Keys + Ids(s)
      && (forall k :: k in acc ==> m[k] == acc[k])
      && (forall i :: 0 <= i < |s| ==> m[s[i].id] == s[i])
      && (Keyed(acc) ==> Keyed(m))
    decreases |s|
  {
    if s != [] {
      IdsCons(s);
      var t := s[1..];
      IndexFacts(t, acc[s[0].id := s[0]]);
      if DistinctIds(s) {
        assert DistinctIds(t) by {
          forall i, j | 0 <= i < j < |t| ensures t[i].id != t[j].id {
            assert t[i] == s[i + 1] && t[j] == s[j + 1];
          }
        }
        assert s[0].id !in Ids(t) by {
          forall i | 0 <= i < |t| ensures t[i].id != s[0].id {
            assert t[i] == s[i + 1];
          }
        }
      }
      if IndexById(s, acc).Ok? {
        assert s[0].id !in acc;
        var m := IndexById(s, acc).value;
        assert DistinctIds(s) by {
          forall i, j | 0 <= i < j < |s| ensures s[i].id != s[j].id {
            if i == 0 {
              assert s[j] == t[j - 1];
            } else {
              assert s[i] == t[i - 1] && s[j] == t[j - 1];
            }
          }
        }
        forall i | 0 <= i < |s| ensures m[s[i].id] == s[i] {
          if i > 0 {
            assert s[i] == t[i - 1];
          }
        }
      }
    } else {
      assert Ids(s) == {};
    }
  }

  lemma {:induction false} IndexError(s: seq<Asset>, acc: map<string, Asset>)
    ensures IndexById(s, acc).Err? ==> IndexById(s, acc).error.DuplicateAsset?
    decreases |s|
  {
    if s != [] && s[0].id !in acc {
      IndexError(s[1..], acc[s[0].id := s[0]]);
    }
  }

  lemma IdsBound(s: seq<Asset>)
    ensures |Ids(s)| <= |s|
    decreases |s|
  {
    if s == [] {
      assert Ids(s) == {};
    } else {
      IdsCons(s);
      IdsBound(s[1..]);
    }
  }

  /** At most one asset per id, counted in a multiset. */
  ghost predicate OnePerId(m: multiset<Asset>) {
    && (forall a :: a in m ==> m[a] <= 1)
    && (forall a, b :: a in m && b in m && a.id == b.id ==> a == b)
  }

  lemma {:induction false} DistinctHasOnePerId(s: seq<Asset>)
    requires DistinctIds(s)
    ensures OnePerId(multiset(s))
    decreases |s|
  {
    if s != [] {
      var x, t := s[0], s[1..];
      assert s == [x] + t;
      assert DistinctIds(t) by {
        forall i, j | 0 <= i < j < |t| ensures t[i].id != t[j].id {
          assert t[i] == s[i + 1] && t[j] == s[j + 1];
        }
      }
      DistinctHasOnePerId(t);
      forall b | b in multiset(t) ensures b.id != x.id {
        var j :| 0 <= j < |t| && t[j] == b;
        assert s[j + 1] == b;
      }
      assert multiset(s) == multiset(t) + multiset{x};
    }
  }

  lemma {:induction false} OnePerIdIsDistinct(s: seq<Asset>)
    requires OnePerId(multiset(s))
    ensures DistinctIds(s)
    decreases |s|
  {
    if s != [] {
      var x, t := s[0], s[1..];
      assert s == [x] + t;
      assert multiset(s) == multiset(t) + multiset{x};
      assert OnePerId(multiset(t)) by {
        forall a | a in multiset(t) ensures multiset(t)[a] <= 1 {
          assert multiset(t)[a] <= multiset(s)[a];
        }
      }
      OnePerIdIsDistinct(t);
      forall i, j | 0 <= i < j < |s| ensures s[i].id != s[j].id {
        if i == 0 {
          var b := t[j - 1];
          assert s[j] == b && b in multiset(t);
          assert multiset(s)[x] == multiset(t)[x] + 1;
          assert b != x;
        } else {
          assert s[i] == t[i - 1] && s[j] == t[j - 1];
        }
      }
    }
  }

  /** A list holds distinct ids exactly when its multiset holds one asset per
      id, so the property survives any reordering and any sub-collection. */
  lemma DistinctIffOnePerId(s: seq<Asset>)
    ensures DistinctIds(s) <==> OnePerId(multiset(s))
  {
    if DistinctIds(s) {
      DistinctHasOnePerId(s);
    }
    if OnePerId(multiset(s)) {
      OnePerIdIsDistinct(s);
    }
  }

  /** `getAssets` of the service answers a `Set<Asset>`, and assets are equal
      when their ids are, so a real catalog holds one asset per id; such a
      catalog is always indexed without a duplicate key. */
  lemma DistinctCatalogIndexes(catalog: seq<Asset>, limit: nat)
    requires DistinctIds(catalog)
    ensures IndexById(Selected(catalog, limit), map[]).Ok?
  {
    var c := Cryptos(catalog);
    var sel := Selected(catalog, limit);
    DistinctIffOnePerId(catalog);
    assert multiset(c) <= multiset(catalog) by {
      forall a ensures multiset(c)[a] <= multiset(catalog)[a] {
      }
    }
    FewerOnePerId(multiset(c), multiset(catalog));
    SplitMultiset(Ranked(catalog), Kept(catalog, limit));
    FewerOnePerId(multiset(sel), multiset(c));
    DistinctIffOnePerId(sel);
    IndexFacts(sel, map[]);
  }

  /** A sub-collection of one holding one asset per id holds one per id too. */
  lemma FewerOnePerId(a: multiset<Asset>, b: multiset<Asset>)
    requires a <= b && OnePerId(b)
    ensures OnePerId(a)
  {
    forall x | x in a ensures a[x] <= 1 {
      assert a[x] <= b[x];
    }
  }

  // ---------------------------------------------------------------------
  // the cache as a value, and each operation as a function of it

  /** `assets`, `lastUpdate`, `updateInterval`, `assetLimit`, and how many
      times the service has been asked so far. */
  datatype CacheState = CacheState(
    assets: map<string, Asset>,
    lastUpdate: Option<int>,
    interval: nat,
    limit: nat,
    calls: nat)

  /** The cache after an operation, and what the operation answered. */
  datatype Step<+T> = Step(state: CacheState, result: Result<T, CacheError>)

  /** `isUpToDate` at minute `now`. */
  predicate UpToDate(s: CacheState, now: int) {
    s.lastUpdate.Some? && s.lastUpdate.value + s.interval > now
  }

  /** `update`: one request to the service, whose answer is `outcomes(calls)`. */
  function Refresh(s: CacheState, outcomes: nat -> Fetch, now: int): Step<()> {
    var asked := s.(calls := s.calls + 1);
    match outcomes(s.calls)
    case FetchFailed => Step(asked, Err(CouldNotLoad))
    case Fetched(catalog) =>
      match IndexById(Selected(catalog, s.limit), map[])
      case Err(e) => Step(asked, Err(e))
      case Ok(m) => Step(asked.(assets := m, lastUpdate := Some(now)), Ok(()))
  }

  /** `requireUpToDate`. */
  function EnsureFresh(s: CacheState, outcomes: nat -> Fetch, now: int): Step<()> {
    if UpToDate(s, now) then Step(s, Ok(())) else Refresh(s, outcomes, now)
  }

  /** `getAsset`. */
  function LookupAsset(s: CacheState, outcomes: nat -> Fetch, now: int, id: string): Step<Asset> {
    var f := EnsureFresh(s, outcomes, now);
    if f.result.Err? then Step(f.state, Err(f.result.error))
    else if id !in f.state.assets then Step(f.state, Err(UnknownAsset(id)))
    else Step(f.state, Ok(f.state.assets[id]))
  }

  /** `getAssets`: the cached assets in the map's order. */
  function ListAssets(p: Platform, s: CacheState, outcomes: nat -> Fetch, now: int): Step<seq<Asset>>
    requires Lawful(p)
  {
    var f := EnsureFresh(s, outcomes, now);
    if f.result.Err? then Step(f.state, Err(f.result.error))
    else
      var m := f.state.assets;
      var ks := p.keyOrder(m.Keys);
      Step(f.state, Ok(seq(|ks|, i requires 0 <= i < |ks| => m[ks[i]])))
  }

  /** `getAssetPrice`: an id that is not cached costs nothing. */
  function LookupPrice(s: CacheState, outcomes: nat -> Fetch, now: int, id: string): Step<real> {
    var f := EnsureFresh(s, outcomes, now);
    if f.result.Err? then Step(f.state, Err(f.result.error))
    else Step(f.state, Ok(if id in f.state.assets then f.state.assets[id].price else 0.0))
  }

  /** The stream inside `getAssetPrices`: each id's price is looked up (which
      may refresh again), a failed refresh counts as 0.0, and an id met twice
      stops the collection. */
  function SweepPrices(s: CacheState, outcomes: nat -> Fetch, now: int, ids: seq<string>,
                       acc: map<string, real>): Step<map<string, real>>
    decreases |ids|
  {
    if ids == [] then Step(s, Ok(acc))
    else
      var r := LookupPrice(s, outcomes, now, ids[0]);
      if r.result.Err? && r.result.error != CouldNotLoad then Step(r.state, Err(r.result.error))
      else
        var price := if r.result.Ok? then r.result.value else 0.0;
        if ids[0] in acc then Step(r.state, Err(DuplicatePrice(ids[0], acc[ids[0]], price)))
        else SweepPrices(r.state, outcomes, now, ids[1..], acc[ids[0] := price])
  }

  /** One step of a sweep, given the lookup of its first id. */
  lemma SweepUnfold(s: CacheState, outcomes: nat -> Fetch, now: int, ids: seq<string>,
                    acc: map<string, real>, r: Step<real>)
    requires ids != [] && r == LookupPrice(s, outcomes, now, ids[0])
    ensures var price := if r.result.Ok? then r.result.value else 0.0;
      SweepPrices(s, outcomes, now, ids, acc) ==
        if r.result.Err? && r.result.error != CouldNotLoad then Step(r.state, Err(r.result.error))
        else if ids[0] in acc then Step(r.state, Err(DuplicatePrice(ids[0], acc[ids[0]], price)))
        else SweepPrices(r.state, outcomes, now, ids[1..], acc[ids[0] := price])
  {
  }

  /** `getAssetPrices`. */
  function LookupPrices(s: CacheState, outcomes: nat -> Fetch, now: int, ids: seq<string>): Step<map<string, real>> {
    var f := EnsureFresh(s, outcomes, now);
    if f.result.Err? then Step(f.state, Err(f.result.error))
    else SweepPrices(f.state, outcomes, now, ids, map[])
  }

  // ---------------------------------------------------------------------
  // properties of the operations

  /** A refresh asks the service once and changes neither setting; a failed
      one leaves the assets and the time of the last fill as they were, and
      fails only for want of data or on a duplicate id; a successful one
      records `now`. */
  lemma RefreshCounts(s: CacheState, outcomes: nat -> Fetch, now: int)
    ensures var r := Refresh(s, outcomes, now);
      && r.state.calls == s.calls + 1 && r.state.interval == s.interval && r.state.limit == s.limit
      && (outcomes(s.calls).FetchFailed? ==> r.result == Err(CouldNotLoad))
      && (r.result.Err? ==> r.state.assets == s.assets && r.state.lastUpdate == s.lastUpdate)
      && (r.result.Err? ==> r.result.error.CouldNotLoad? || r.result.error.DuplicateAsset?)
      && (r.result.Ok? ==> r.state.lastUpdate == Some(now))
  {
    if outcomes(s.calls).Fetched? {
      IndexError(Selected(outcomes(s.calls).catalog, s.limit), map[]);
    }
  }

  /** A refresh asks the service once and changes neither setting. A failed
      request, or a catalog that cannot be indexed, leaves the assets and the
      time of the last fill as they were. A successful one files the
      selected assets (crypto only, at most `limit`, none cheaper than one
      left out) under their own ids and records `now`. */
  lemma RefreshFacts(s: CacheState, outcomes: nat -> Fetch, now: int)
    ensures var r := Refresh(s, outcomes, now);
      && r.state.calls == s.calls + 1 && r.state.interval == s.interval && r.state.limit == s.limit
      && (outcomes(s.calls).FetchFailed? ==> r.result == Err(CouldNotLoad))
      && (r.result.Err? ==> r.state.assets == s.assets && r.state.lastUpdate == s.lastUpdate)
      && (r.result.Ok? ==>
            && outcomes(s.calls).Fetched? && r.state.lastUpdate == Some(now)
            && var m, out := r.state.assets, Dropped(outcomes(s.calls).catalog, s.limit);
            && Keyed(m) && |m| <= s.limit
            && (forall k :: k in m ==> m[k].isCrypto && m[k] in outcomes(s.calls).catalog)
            && (forall k, j :: k in m && 0 <= j < |out| ==> m[k].price >= out[j].price))
      && (outcomes(s.calls).Fetched? && DistinctIds(outcomes(s.calls).catalog) ==> r.result.Ok?)
  {
    RefreshCounts(s, outcomes, now);
    if outcomes(s.calls).Fetched? {
      var catalog := outcomes(s.calls).catalog;
      if IndexById(Selected(catalog, s.limit), map[]).Ok? {
        IndexedSelection(catalog, s.limit);
      }
      if DistinctIds(catalog) {
        DistinctCatalogIndexes(catalog, s.limit);
      }
    }
  }

  /** Every asset an indexing files is one of the list's, under its own id,
      and there are no more of them than assets in the list. */
  lemma IndexedFromList(sel: seq<Asset>)
    requires IndexById(sel, map[]).Ok?
    ensures var m := IndexById(sel, map[]).value;
      && Keyed(m) && |m| <= |sel|
      && forall k :: k in m ==> m[k] in sel
  {
    var m := IndexById(sel, map[]).value;
    IndexFacts(sel, map[]);
    assert m.Keys == Ids(sel);
    IdsBound(sel);
    forall k | k in m ensures m[k] in sel {
      var i :| 0 <= i < |sel| && sel[i].id == k;
    }
  }

  /** The index of a selection holds at most `limit` crypto assets of the
      catalog, filed by id, none cheaper than an asset left out. */
  lemma IndexedSelection(catalog: seq<Asset>, limit: nat)
    requires IndexById(Selected(catalog, limit), map[]).Ok?
    ensures var m, out := IndexById(Selected(catalog, limit), map[]).value, Dropped(catalog, limit);
      && Keyed(m) && |m| <= limit
      && (forall k :: k in m ==> m[k].isCrypto && m[k] in catalog)
      && (forall k, j :: k in m && 0 <= j < |out| ==> m[k].price >= out[j].price)
  {
    var sel, out := Selected(catalog, limit), Dropped(catalog, limit);
    var m := IndexById(sel, map[]).value;
    IndexedFromList(sel);
    SelectedFromCatalog(catalog, limit);
    SelectedDominates(catalog, limit);
    forall k | k in m ensures m[k].isCrypto && m[k] in catalog {
      var i :| 0 <= i < |sel| && sel[i] == m[k];
    }
    forall k, j | k in m && 0 <= j < |out| ensures m[k].price >= out[j].price {
      var i :| 0 <= i < |sel| && sel[i] == m[k];
    }
    assert |sel| <= limit;
  }

  /** A read asks the service exactly when the cache is stale; a fresh cache
      is left exactly as it is. */
  lemma ReadFetchesIffStale(s: CacheState, outcomes: nat -> Fetch, now: int)
    ensures var f := EnsureFresh(s, outcomes, now);
      && (UpToDate(s, now) ==> f == Step(s, Ok(())))
      && (!UpToDate(s, now) ==> f.state.calls == s.calls + 1)
  {
  }

  /** With an interval of 0 every read asks the service, and the next read
      at the same minute or later will ask again. */
  lemma ZeroIntervalFetchesEveryRead(s: CacheState, outcomes: nat -> Fetch, now: int, later: int)
    requires s.interval == 0 && (s.lastUpdate.None? || s.lastUpdate.value <= now) && now <= later
    ensures var f := EnsureFresh(s, outcomes, now);
      && f.state.calls == s.calls + 1
      && EnsureFresh(f.state, outcomes, later).state.calls == s.calls + 2
  {
    RefreshCounts(s, outcomes, now);
    RefreshCounts(EnsureFresh(s, outcomes, now).state, outcomes, later);
  }

  /** After a read that refreshed successfully at minute `t0`, every read
      before `t0 + interval` finds the cache fresh: one request serves the
      whole window. */
  lemma WindowFetchesOnce(s: CacheState, outcomes: nat -> Fetch, t0: int, t1: int)
    requires !UpToDate(s, t0) && EnsureFresh(s, outcomes, t0).result.Ok?
    requires t1 < t0 + s.interval
    ensures var f := EnsureFresh(s, outcomes, t0);
      && f.state.calls == s.calls + 1
      && EnsureFresh(f.state, outcomes, t1) == Step(f.state, Ok(()))
  {
    RefreshCounts(s, outcomes, t0);
  }

  /** A refresh keeps the cache filed by id. */
  lemma EnsureFreshKeyed(s: CacheState, outcomes: nat -> Fetch, now: int)
    requires Keyed(s.assets)
    ensures Keyed(EnsureFresh(s, outcomes, now).state.assets)
  {
    RefreshFacts(s, outcomes, now);
  }

  /** `getAsset` answers the cached asset of that very id; an id that is not
      cached after the refresh is `Unknown asset: <id>`; a failed refresh is
      passed on. */
  lemma LookupAssetFacts(p: Platform, s: CacheState, outcomes: nat -> Fetch, now: int, id: string)
    requires Keyed(s.assets)
    ensures var f, r := EnsureFresh(s, outcomes, now), LookupAsset(s, outcomes, now, id);
      && r.state == f.state
      && (r.result.Ok? ==> r.result.value.id == id && id in f.state.assets)
      && (f.result.Ok? && id !in f.state.assets ==>
            r.result.Err? && CacheMessage(p, r.result.error) == "Unknown asset: " + id)
      && (f.result.Err? ==> r.result == Err(f.result.error))
  {
    EnsureFreshKeyed(s, outcomes, now);
  }

  /** `getAssets` lists every cached asset once and nothing else. */
  lemma ListAssetsFacts(p: Platform, s: CacheState, outcomes: nat -> Fetch, now: int)
    requires Lawful(p)
    ensures var f, r := EnsureFresh(s, outcomes, now), ListAssets(p, s, outcomes, now);
      && r.state == f.state
      && (r.result.Ok? ==>
            && |r.result.value| == |f.state.assets|
            && (forall a :: a in r.result.value <==> a in f.state.assets.Values))
      && (r.result.Err? ==> f.result == Err(r.result.error))
  {
    var f := EnsureFresh(s, outcomes, now);
    if f.result.Ok? {
      var m := f.state.assets;
      var ks := p.keyOrder(m.Keys);
      EnumeratesLength(ks, m.Keys);
      var l := ListAssets(p, s, outcomes, now).result.value;
      forall a | a in m.Values ensures a in l {
        var k :| k in m && m[k] == a;
        var i :| 0 <= i < |ks| && ks[i] == k;
        assert l[i] == a;
      }
    }
  }

  /** `getAssetPrice` never reports an unknown id: it answers the cached
      price, or 0.0 for an id that is not cached, unless the refresh failed. */
  lemma LookupPriceFacts(s: CacheState, outcomes: nat -> Fetch, now: int, id: string)
    ensures var f, r := EnsureFresh(s, outcomes, now), LookupPrice(s, outcomes, now, id);
      && r.state == f.state
      && (f.result.Ok? <==> r.result.Ok?)
      && (r.result.Ok? && id in f.state.assets ==> r.result.value == f.state.assets[id].price)
      && (r.result.Ok? && id !in f.state.assets ==> r.result.value == 0.0)
      && (r.result.Err? ==> r.result.error == f.result.error)
      && (r.result.Err? ==> r.result.error.CouldNotLoad? || r.result.error.DuplicateAsset?)
  {
    RefreshCounts(s, outcomes, now);
  }

  predicate Distinct(ids: seq<string>) {
    forall i, j :: 0 <= i < j < |ids| ==> ids[i] != ids[j]
  }

  /** A finished sweep has one price for each id asked for, on top of `acc`;
      distinct new ids never clash; and it fails only on an unindexable
      catalog met by a refresh on the way. */
  lemma {:induction false} SweepFacts(s: CacheState, outcomes: nat -> Fetch, now: int,
                                      ids: seq<string>, acc: map<string, real>)
    ensures var r := SweepPrices(s, outcomes, now, ids, acc);
      && (r.result.Ok? ==> forall k :: k in r.result.value <==> k in acc || k in ids)
      && (r.result.Ok? ==> forall k :: k in acc && k !in ids ==> r.result.value[k] == acc[k])
      && (r.result.Err? ==> r.result.error.DuplicateAsset? || r.result.error.DuplicatePrice?)
      && (Distinct(ids) && (forall i :: 0 <= i < |ids| ==> ids[i] !in acc) ==> !(r.result.Err? && r.result.error.DuplicatePrice?))
    decreases |ids|
  {
    if ids != [] {
      var r := LookupPrice(s, outcomes, now, ids[0]);
      LookupPriceFacts(s, outcomes, now, ids[0]);
      SweepUnfold(s, outcomes, now, ids, acc, r);
      var price := if r.result.Ok? then r.result.value else 0.0;
      var rest := ids[1..];
      var acc' := acc[ids[0] := price];
      SweepFacts(r.state, outcomes, now, rest, acc');
      if Distinct(ids) && (forall i :: 0 <= i < |ids| ==> ids[i] !in acc) {
        assert ids[0] !in acc;
        assert Distinct(rest) by {
          forall i, j | 0 <= i < j < |rest| ensures rest[i] != rest[j] {
            assert rest[i] == ids[i + 1] && rest[j] == ids[j + 1];
          }
        }
        forall i | 0 <= i < |rest| ensures rest[i] !in acc' {
          assert rest[i] == ids[i + 1];
        }
      }
      assert forall k :: k in ids <==> k == ids[0] || k in rest;
    }
  }

  /** On a fresh cache (no refresh on the way) a sweep of distinct ids changes
      nothing and prices each id at its cached price, 0.0 when not cached. */
  lemma {:induction false} FreshSweep(s: CacheState, outcomes: nat -> Fetch, now: int,
                                      ids: seq<string>, acc: map<string, real>)
    requires UpToDate(s, now) && Distinct(ids) && (forall i :: 0 <= i < |ids| ==> ids[i] !in acc)
    ensures var r := SweepPrices(s, outcomes, now, ids, acc);
      && r.state == s && r.result.Ok?
      && (forall k :: k in r.result.value <==> k in acc || k in ids)
      && (forall k :: k in acc ==> r.result.value[k] == acc[k])
      && (forall k :: k in ids ==>
            r.result.value[k] == if k in s.assets then s.assets[k].price else 0.0)
    decreases |ids|
  {
    if ids != [] {
      var rest := ids[1..];
      var price := if ids[0] in s.assets then s.assets[ids[0]].price else 0.0;
      var acc' := acc[ids[0] := price];
      assert Distinct(rest) by {
        forall i, j | 0 <= i < j < |rest| ensures rest[i] != rest[j] {
          assert rest[i] == ids[i + 1] && rest[j] == ids[j + 1];
        }
      }
      forall i | 0 <= i < |rest| ensures rest[i] !in acc' {
        assert rest[i] == ids[i + 1];
      }
      FreshSweep(s, outcomes, now, rest, acc');
      assert ids[0] !in rest;
      assert forall k :: k in ids <==> k == ids[0] || k in rest;
    }
  }

  /** `getAssetPrices` of distinct ids: exactly those ids as keys; it fails
      only when a refresh fails or meets an unindexable catalog; and when no
      refresh is needed after the first, each id has its cached price, 0.0
      when it is not cached. */
  lemma LookupPricesFacts(s: CacheState, outcomes: nat -> Fetch, now: int, ids: seq<string>)
    requires Distinct(ids)
    ensures var f, r := EnsureFresh(s, outcomes, now), LookupPrices(s, outcomes, now, ids);
      && (r.result.Ok? ==> forall k :: k in r.result.value <==> k in ids)
      && (r.result.Err? ==> r.result.error.CouldNotLoad? || r.result.error.DuplicateAsset?)
      && (f.result.Ok? && UpToDate(f.state, now) ==>
            && r.state == f.state && r.result.Ok?
            && forall k :: k in ids ==>
                 r.result.value[k] == if k in f.state.assets then f.state.assets[k].price else 0.0)
  {
    var f := EnsureFresh(s, outcomes, now);
    RefreshCounts(s, outcomes, now);
    if f.result.Ok? {
      SweepFacts(f.state, outcomes, now, ids, map[]);
      if UpToDate(f.state, now) {
        FreshSweep(f.state, outcomes, now, ids, map[]);
      }
    }
  }

  // ---------------------------------------------------------------------
  // positive prices

  /** The service prices every crypto asset it serves above zero. */
  ghost predicate FeedPositive(outcomes: nat -> Fetch) {
    forall n: nat, i ::
      outcomes(n).Fetched? && 0 <= i < |outcomes(n).catalog| && outcomes(n).catalog[i].isCrypto
      ==> outcomes(n).catalog[i].price > 0.0
  }

  /** Filed by id, every price above zero. */
  ghost predicate CacheSound(s: CacheState) {
    Keyed(s.assets) && forall k :: k in s.assets ==> s.assets[k].price > 0.0
  }

  lemma EnsureFreshSound(s: CacheState, outcomes: nat -> Fetch, now: int)
    requires CacheSound(s) && FeedPositive(outcomes)
    ensures CacheSound(EnsureFresh(s, outcomes, now).state)
  {
    if !UpToDate(s, now) {
      RefreshFacts(s, outcomes, now);
      var r := Refresh(s, outcomes, now);
      if r.result.Ok? {
        var catalog := outcomes(s.calls).catalog;
        forall k | k in r.state.assets ensures r.state.assets[k].price > 0.0 {
          var a := r.state.assets[k];
          var i :| 0 <= i < |catalog| && catalog[i] == a;
        }
      }
    }
  }

  lemma {:induction false} SweepSound(s: CacheState, outcomes: nat -> Fetch, now: int,
                                      ids: seq<string>, acc: map<string, real>)
    requires CacheSound(s) && FeedPositive(outcomes)
    ensures CacheSound(SweepPrices(s, outcomes, now, ids, acc).state)
    decreases |ids|
  {
    if ids != [] {
      var r := LookupPrice(s, outcomes, now, ids[0]);
      EnsureFreshSound(s, outcomes, now);
      SweepUnfold(s, outcomes, now, ids, acc, r);
      var price := if r.result.Ok? then r.result.value else 0.0;
      SweepSound(r.state, outcomes, now, ids[1..], acc[ids[0] := price]);
    }
  }

  /** With a service that prices above zero, `getAsset` keeps the cache
      sound and answers an asset priced above zero. */
  lemma LookupKeepsSound(s: CacheState, outcomes: nat -> Fetch, now: int, id: string)
    requires CacheSound(s) && FeedPositive(outcomes)
    ensures CacheSound(LookupAsset(s, outcomes, now, id).state)
    ensures LookupAsset(s, outcomes, now, id).result.Ok? ==> LookupAsset(s, outcomes, now, id).result.value.price > 0.0
  {
    EnsureFreshSound(s, outcomes, now);
  }

  lemma ListKeepsSound(p: Platform, s: CacheState, outcomes: nat -> Fetch, now: int)
    requires Lawful(p) && CacheSound(s) && FeedPositive(outcomes)
    ensures CacheSound(ListAssets(p, s, outcomes, now).state)
  {
    EnsureFreshSound(s, outcomes, now);
  }

  lemma PricesKeepSound(s: CacheState, outcomes: nat -> Fetch, now: int, ids: seq<string>)
    requires CacheSound(s) && FeedPositive(outcomes)
    ensures CacheSound(LookupPrices(s, outcomes, now, ids).state)
  {
    EnsureFreshSound(s, outcomes, now);
    var f := EnsureFresh(s, outcomes, now);
    if f.result.Ok? {
      SweepSound(f.state, outcomes, now, ids, map[]);
    }
  }

  // ---------------------------------------------------------------------
  // the objects

  /** The market-data service, seen from the cache: its answers to the
      successive requests, and how many requests have been made. */
  class AssetFeed {
    const outcomes: nat -> Fetch
    var calls: nat

    constructor (outcomes: nat -> Fetch)
      ensures this.outcomes == outcomes && calls == 0
    {
      this.outcomes := outcomes;
      calls := 0;
    }

    /** `AssetService.getAssets`. */
    method GetAssets() returns (f: Fetch)
      modifies this
      ensures f == outcomes(old(calls)) && calls == old(calls) + 1
    {
      f := outcomes(calls);
      calls := calls + 1;
    }
  }

  class AssetCache {
    const feed: AssetFeed
    var assets: map<string, Asset>
    var lastUpdate: Option<int>
    var updateInterval: nat
    var assetLimit: nat

    function State(): CacheState
      reads this, feed
    {
      CacheState(assets, lastUpdate, updateInterval, assetLimit, feed.calls)
    }

    constructor (feed: AssetFeed, updateInterval: int, assetLimit: int)
      ensures this.feed == feed
      ensures State() == CacheState(map[], None, Clamp(updateInterval, DefaultUpdateInterval),
                                    Clamp(assetLimit, DefaultAssetLimit), feed.calls)
    {
      this.feed := feed;
      assets := map[];
      lastUpdate := None;
      this.updateInterval := Clamp(updateInterval, DefaultUpdateInterval);
      this.assetLimit := Clamp(assetLimit, DefaultAssetLimit);
    }

    /** `setUpdateInterval`: a negative interval becomes 30 minutes. */
    method SetUpdateInterval(n: int)
      modifies this
      ensures State() == old(State()).(interval := if n >= 0 then n else DefaultUpdateInterval)
    {
      updateInterval := if n >= 0 then n else DefaultUpdateInterval;
    }

    /** `setAssetLimit`: a negative limit becomes 150 assets. */
    method SetAssetLimit(n: int)
      modifies this
      ensures State() == old(State()).(limit := if n >= 0 then n else DefaultAssetLimit)
    {
      assetLimit := if n >= 0 then n else DefaultAssetLimit;
    }

    method IsUpToDate(now: int) returns (b: bool)
      ensures b == UpToDate(State(), now)
    {
      b := lastUpdate.Some? && lastUpdate.value + updateInterval > now;
    }

    method Update(now: int) returns (r: Result<(), CacheError>)
      modifies this, feed
      ensures Step(State(), r) == Refresh(old(State()), feed.outcomes, now)
    {
      ghost var before := State();
      var f := feed.GetAssets();
      assert f == feed.outcomes(before.calls);
      assert State() == before.(calls := before.calls + 1);
      if f.FetchFailed? {
        return Err(CouldNotLoad);
      }
      var indexed := IndexById(Selected(f.catalog, assetLimit), map[]);
      if indexed.Err? {
        return Err(indexed.error);
      }
      assets := indexed.value;
      lastUpdate := Some(now);
      return Ok(());
    }

    method RequireUpToDate(now: int) returns (r: Result<(), CacheError>)
      modifies this, feed
      ensures Step(State(), r) == EnsureFresh(old(State()), feed.outcomes, now)
    {
      var current := IsUpToDate(now);
      if current {
        return Ok(());
      }
      r := Update(now);
    }

    method GetAsset(id: string, now: int) returns (r: Result<Asset, CacheError>)
      modifies this, feed
      ensures Step(State(), r) == LookupAsset(old(State()), feed.outcomes, now, id)
    {
      var f := RequireUpToDate(now);
      if f.Err? {
        return Err(f.error);
      }
      if id !in assets {
        return Err(UnknownAsset(id));
      }
      return Ok(assets[id]);
    }

    method GetAssets(p: Platform, now: int) returns (r: Result<seq<Asset>, CacheError>)
      requires Lawful(p)
      modifies this, feed
      ensures Step(State(), r) == ListAssets(p, old(State()), feed.outcomes, now)
    {
      var f := RequireUpToDate(now);
      if f.Err? {
        return Err(f.error);
      }
      var ks := p.keyOrder(assets.Keys);
      var m := assets;
      return Ok(seq(|ks|, i requires 0 <= i < |ks| => m[ks[i]]));
    }

    method GetAssetPrice(id: string, now: int) returns (r: Result<real, CacheError>)
      modifies this, feed
      ensures Step(State(), r) == LookupPrice(old(State()), feed.outcomes, now, id)
    {
      var f := RequireUpToDate(now);
      if f.Err? {
        return Err(f.error);
      }
      return Ok(if id in assets then assets[id].price else 0.0);
    }

    method GetAssetPrices(ids: seq<string>, now: int) returns (r: Result<map<string, real>, CacheError>)
      modifies this, feed
      ensures Step(State(), r) == LookupPrices(old(State()), feed.outcomes, now, ids)
    {
      ghost var goal := LookupPrices(State(), feed.outcomes, now, ids);
      var f := RequireUpToDate(now);
      if f.Err? {
        return Err(f.error);
      }
      var prices: map<string, real> := map[];
      var i := 0;
      assert ids[0..] == ids;
      while i < |ids|
        invariant 0 <= i <= |ids|
        invariant SweepPrices(State(), feed.outcomes, now, ids[i..], prices) == goal
      {
        ghost var before := State();
        ghost var rest := ids[i..];
        assert rest[0] == ids[i] && rest[1..] == ids[i + 1..];
        var price := GetAssetPrice(ids[i], now);
        SweepUnfold(before, feed.outcomes, now, rest, prices, Step(State(), price));
        if price.Err? && price.error != CouldNotLoad {
          return Err(price.error);
        }
        var v := if price.Ok? then price.value else 0.0;
        if ids[i] in prices {
          return Err(DuplicatePrice(ids[i], prices[ids[i]], v));
        }
        prices := prices[ids[i] := v];
        i := i + 1;
      }
      return Ok(prices);
    }
  }
}

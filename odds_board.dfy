/**
 * The odds board (app/sports/nba/components/oddsBoard.tsx): which fixtures to fetch,
 * how fetched snapshots are merged into the fixture-to-snapshot map, and how the map is
 * flattened into rows.
 */
module OddsBoard {
  import opened Wrappers
  import opened OddsTypes
  import opened OddsCache
  import opened Seqs

  // ---- Which fixtures to fetch -----------------------------------------------

  /** With an update batch the board reads each fixture's latest snapshot; otherwise its (cached) history. */
  datatype FetchMode = LatestReads | HistoryReads

  datatype FetchPlan = FetchPlan(ids: seq<int>, mode: FetchMode)

  function FixtureIds(fixtures: seq<Fixture>): (ids: seq<int>)
    ensures |ids| == |fixtures|
    ensures forall i :: 0 <= i < |fixtures| ==> ids[i] == fixtures[i].id
  {
    seq(|fixtures|, i requires 0 <= i < |fixtures| => fixtures[i].id)
  }

  /**
   * The ids to fetch: the update batch when it is non-empty, otherwise every fixture;
   * nothing at all when both are empty.
   */
  function PlanFetch(updated: seq<int>, fixtures: seq<Fixture>): (r: Option<FetchPlan>)
    ensures r.None? <==> updated == [] && fixtures == []
    ensures updated != [] ==> r == Some(FetchPlan(updated, LatestReads))
    ensures updated == [] && r.Some? ==>
      r.value.mode == HistoryReads && |r.value.ids| == |fixtures|
      && forall i :: 0 <= i < |fixtures| ==> r.value.ids[i] == fixtures[i].id
  {
    var ids := if |updated| > 0 then updated else FixtureIds(fixtures);
    if |ids| == 0 then None
    else Some(FetchPlan(ids, if |updated| > 0 then LatestReads else HistoryReads))
  }

  /** What one fetch yields: the fixture and its latest snapshot, or none. */
  datatype FetchResult = FetchResult(id: int, latest: Option<Snapshot>)

  /** The latest snapshot of a read history, with the read's failure passed on. */
  function LatestOfResult(h: Result<seq<Snapshot>, StoreError>): (r: Result<Option<Snapshot>, StoreError>)
    ensures r.Success? <==> h.Success?
    ensures r.Success? ==> r.value == LatestOf(h.value)
  {
    match h
    case Success(s) => Success(LatestOf(s))
    case Failure(e) => Failure(e)
  }

  /**
   * One fetch as the server routes answer it. A latest read asks the store for the newest
   * snapshot and appends it to the cache; a history read goes through the cache and keeps
   * the last snapshot of the history, or none when the history is empty.
   */
  method FetchLatestOdds(cache: SnapshotCache, store: Store, fixtureId: int, mode: FetchMode)
    returns (r: Result<Option<Snapshot>, StoreError>)
    modifies cache
    ensures mode == LatestReads ==>
      && r == ReadLatest(store, fixtureId)
      && cache.storeReads == old(cache.storeReads)
      && cache.entries == (if r.Success? && r.value.Some? then Added(old(cache.entries), fixtureId, r.value.value)
                           else old(cache.entries))
    ensures mode == HistoryReads ==>
      && r == LatestOfResult(Get(old(cache.entries), store, fixtureId).result)
      && cache.entries == Get(old(cache.entries), store, fixtureId).entries
      && cache.storeReads == old(cache.storeReads) + Get(old(cache.entries), store, fixtureId).storeReads
    ensures CacheState(cache.entries, cache.storeReads)
         == AfterFetch(CacheState(old(cache.entries), old(cache.storeReads)), store, fixtureId, mode)
    ensures r.Failure? <==> !store.reachable && (mode == LatestReads || !IsHit(old(cache.entries), fixtureId))
    ensures r.Success? && mode == HistoryReads ==> r.value == LatestOf(ServedHistory(old(cache.entries), store, fixtureId))
  {
    HistoryOutcome(cache.entries, store, fixtureId);
    if mode == LatestReads {
      r := ReadLatest(store, fixtureId);
      if r.Success? && r.value.Some? {
        cache.AddSnapshot(fixtureId, r.value.value);
      }
    } else {
      var h := cache.GetCachedOdds(store, fixtureId);
      r := LatestOfResult(h);
    }
  }

  /** What a history read of `fixtureId` serves when it succeeds: the cached list on a hit, else the store's history. */
  function ServedHistory(entries: map<int, seq<Snapshot>>, store: Store, fixtureId: int): seq<Snapshot> {
    if IsHit(entries, fixtureId) then entries[fixtureId]
    else match ReadHistory(store, fixtureId)
      case Success(h) => h
      case Failure(_) => []
  }

  /**
   * What one fetch yields for the board: the store's newest snapshot on a latest read, the
   * last snapshot of the served history on a history read, and none when the read fails.
   */
  function Fetched(entries: map<int, seq<Snapshot>>, store: Store, id: int, mode: FetchMode): FetchResult {
    match mode
    case LatestReads => FetchResult(id, match ReadLatest(store, id) case Success(l) => l case Failure(_) => None)
    case HistoryReads => FetchResult(id, LatestOf(ServedHistory(entries, store, id)))
  }

  /** The results of a batch, one per id, in plan order. */
  function FetchedAll(entries: map<int, seq<Snapshot>>, store: Store, ids: seq<int>, mode: FetchMode): seq<FetchResult> {
    seq(|ids|, i requires 0 <= i < |ids| => Fetched(entries, store, ids[i], mode))
  }

  /** A batch yields one result per id, in order: the newest stored snapshot, or the last one of the served history. */
  lemma FetchedAllSpec(entries: map<int, seq<Snapshot>>, store: Store, ids: seq<int>, mode: FetchMode)
    ensures var r := FetchedAll(entries, store, ids, mode);
      && |r| == |ids|
      && (forall i :: 0 <= i < |ids| ==> r[i].id == ids[i])
      && (store.reachable && mode == LatestReads ==>
            forall i :: 0 <= i < |ids| ==> ReadLatest(store, ids[i]) == Success(r[i].latest))
      && (mode == HistoryReads ==>
            forall i :: 0 <= i < |ids| ==> r[i].latest == LatestOf(ServedHistory(entries, store, ids[i])))
  {
  }

  lemma FetchedAllStep(entries: map<int, seq<Snapshot>>, store: Store, ids: seq<int>, i: nat, mode: FetchMode)
    requires i < |ids|
    ensures FetchedAll(entries, store, ids[..i + 1], mode) == FetchedAll(entries, store, ids[..i], mode) + [Fetched(entries, store, ids[i], mode)]
  {
    var longer := FetchedAll(entries, store, ids[..i + 1], mode);
    var shorter := FetchedAll(entries, store, ids[..i], mode);
    assert |longer| == |shorter| + 1;
    forall j | 0 <= j < |longer|
      ensures longer[j] == (shorter + [Fetched(entries, store, ids[i], mode)])[j]
    {
      if j < i {
        assert ids[..i + 1][j] == ids[..i][j];
      }
    }
  }

  /** The cache's contents and its count of store reads, as a value. */
  datatype CacheState = CacheState(entries: map<int, seq<Snapshot>>, storeReads: nat)

  /** What one fetch leaves in the cache: a latest read appends the newest snapshot, a history read is a get. */
  function AfterFetch(c: CacheState, store: Store, id: int, mode: FetchMode): CacheState {
    match mode
    case LatestReads =>
      (match ReadLatest(store, id)
       case Success(Some(s)) => CacheState(Added(c.entries, id, s), c.storeReads)
       case _ => c)
    case HistoryReads =>
      var o := Get(c.entries, store, id);
      CacheState(o.entries, c.storeReads + o.storeReads)
  }

  /** What the fetches of `ids`, made in order, leave in the cache. */
  function CacheAfter(c: CacheState, store: Store, ids: seq<int>, mode: FetchMode): CacheState {
    if ids == [] then c
    else AfterFetch(CacheAfter(c, store, ids[..|ids| - 1], mode), store, ids[|ids| - 1], mode)
  }

  /** A batch fails when the store is down and some fetch needs it: every latest read does, a history read only on a miss. */
  predicate BatchFails(entries: map<int, seq<Snapshot>>, store: Store, plan: FetchPlan) {
    !store.reachable
    && exists i :: 0 <= i < |plan.ids| && (plan.mode == LatestReads || !IsHit(entries, plan.ids[i]))
  }

  /** A history read that needs the store fails exactly when the store is down; it otherwise keeps the served history's last snapshot. */
  lemma HistoryOutcome(entries: map<int, seq<Snapshot>>, store: Store, id: int)
    ensures var r := LatestOfResult(Get(entries, store, id).result);
      (r.Failure? <==> !store.reachable && !IsHit(entries, id))
      && (r.Success? ==> r.value == LatestOf(ServedHistory(entries, store, id)))
  {
  }

  /** History reads against a reachable store never change what a later read of any fixture is served. */
  lemma ServedAfter(c: CacheState, store: Store, ids: seq<int>, id: int)
    requires store.reachable
    ensures ServedHistory(CacheAfter(c, store, ids, HistoryReads).entries, store, id) == ServedHistory(c.entries, store, id)
  {
    var e := CacheAfter(c, store, ids, HistoryReads).entries;
    if id in ids {
      CacheAfterHistory(c, store, ids, id);
    } else {
      CacheAfterKeepsOthers(c, store, ids, HistoryReads, id);
    }
  }

  /** One more fetch is one more step of the cache fold. */
  lemma CacheAfterStep(c: CacheState, store: Store, ids: seq<int>, i: nat, mode: FetchMode)
    requires i < |ids|
    ensures CacheAfter(c, store, ids[..i + 1], mode) == AfterFetch(CacheAfter(c, store, ids[..i], mode), store, ids[i], mode)
  {
    assert ids[..i + 1][..i] == ids[..i];
  }

  /** One more fetch fails the batch exactly when it needs the store and the store is down. */
  lemma BatchFailsStep(entries: map<int, seq<Snapshot>>, store: Store, ids: seq<int>, i: nat, mode: FetchMode)
    requires i < |ids|
    ensures BatchFails(entries, store, FetchPlan(ids[..i + 1], mode))
        <==> BatchFails(entries, store, FetchPlan(ids[..i], mode))
             || (!store.reachable && (mode == LatestReads || !IsHit(entries, ids[i])))
  {
    var longer := ids[..i + 1];
    assert longer[i] == ids[i];
    assert forall j :: 0 <= j < i ==> longer[j] == ids[..i][j];
  }

  /** Fixtures outside the batch keep their cache entries. */
  lemma {:induction false} CacheAfterKeepsOthers(c: CacheState, store: Store, ids: seq<int>, mode: FetchMode, k: int)
    requires k !in ids
    ensures var r := CacheAfter(c, store, ids, mode);
      (k in r.entries <==> k in c.entries) && (k in c.entries ==> r.entries[k] == c.entries[k])
  {
    if ids != [] {
      var init := ids[..|ids| - 1];
      assert forall j :: 0 <= j < |init| ==> init[j] == ids[j];
      CacheAfterKeepsOthers(c, store, init, mode, k);
    }
  }

  /** With the store down nothing is cached, whichever mode. */
  lemma {:induction false} CacheAfterUnreachable(c: CacheState, store: Store, ids: seq<int>, mode: FetchMode)
    requires !store.reachable
    ensures CacheAfter(c, store, ids, mode).entries == c.entries
  {
    if ids != [] {
      CacheAfterUnreachable(c, store, ids[..|ids| - 1], mode);
    }
  }

  /** Latest reads never read history. */
  lemma {:induction false} CacheAfterLatestReads(c: CacheState, store: Store, ids: seq<int>)
    ensures CacheAfter(c, store, ids, LatestReads).storeReads == c.storeReads
  {
    if ids != [] {
      CacheAfterLatestReads(c, store, ids[..|ids| - 1]);
    }
  }

  /** The cached entry of `k` is non-empty and ends with `s`. */
  predicate EndsWith(e: map<int, seq<Snapshot>>, k: int, s: Snapshot) {
    k in e && |e[k]| > 0 && e[k][|e[k]| - 1] == s
  }

  /** One latest read of a fixture with rows ends that fixture's entry with the newest snapshot. */
  lemma LatestFetchEntry(c: CacheState, store: Store, k: int, newest: Snapshot)
    requires ReadLatest(store, k) == Success(Some(newest))
    ensures EndsWith(AfterFetch(c, store, k, LatestReads).entries, k, newest)
  {
  }

  /** A latest read of one fixture leaves every other fixture's entry alone. */
  lemma LatestFetchKeeps(c: CacheState, store: Store, id: int, k: int, s: Snapshot)
    requires id != k && EndsWith(c.entries, k, s)
    ensures EndsWith(AfterFetch(c, store, id, LatestReads).entries, k, s)
  {
    match ReadLatest(store, id)
    case Success(Some(n)) =>
      assert AfterFetch(c, store, id, LatestReads).entries == Added(c.entries, id, n);
    case _ =>
      assert AfterFetch(c, store, id, LatestReads).entries == c.entries;
  }

  /** A latest read of a fixture with rows ends its cache entry with the store's newest snapshot, whatever is read after it. */
  lemma {:induction false} CacheAfterLatest(c: CacheState, store: Store, ids: seq<int>, at: nat, newest: Snapshot)
    requires at < |ids| && ReadLatest(store, ids[at]) == Success(Some(newest))
    ensures EndsWith(CacheAfter(c, store, ids, LatestReads).entries, ids[at], newest)
  {
    var n := |ids| - 1;
    var init := ids[..n];
    var k := ids[at];
    var mid := CacheAfter(c, store, init, LatestReads);
    if ids[n] != k {
      assert at < n;
      assert init[at] == k;
      CacheAfterLatest(c, store, init, at, newest);
      LatestFetchKeeps(mid, store, ids[n], k, newest);
    } else {
      LatestFetchEntry(mid, store, k, newest);
    }
    assert CacheAfter(c, store, ids, LatestReads) == AfterFetch(mid, store, ids[n], LatestReads);
  }

  /** History reads against a reachable store leave each fixture of the batch cached with the history it was served. */
  lemma {:induction false} CacheAfterHistory(c: CacheState, store: Store, ids: seq<int>, k: int)
    requires store.reachable
    ensures var r := CacheAfter(c, store, ids, HistoryReads);
      c.storeReads <= r.storeReads <= c.storeReads + |ids|
    ensures k in ids ==>
      var e := CacheAfter(c, store, ids, HistoryReads).entries;
      k in e && e[k] == ServedHistory(c.entries, store, k)
  {
    if ids != [] {
      var n := |ids| - 1;
      var init := ids[..n];
      CacheAfterHistory(c, store, init, k);
      CacheAfterHistory(c, store, init, ids[n]);
      var mid := CacheAfter(c, store, init, HistoryReads);
      if ids[n] !in init {
        CacheAfterKeepsOthers(c, store, init, HistoryReads, ids[n]);
      }
      if k in ids && ids[n] != k {
        var j :| 0 <= j < |ids| && ids[j] == k;
        assert init[j] == k;
      }
    }
  }

  /**
   * All fetches of a plan, in order. The board awaits them together: one failed fetch
   * fails the whole batch, after every fetch has run.
   */
  method FetchAll(cache: SnapshotCache, store: Store, plan: FetchPlan)
    returns (r: Result<seq<FetchResult>, StoreError>)
    modifies cache
    ensures r.Failure? <==> BatchFails(old(cache.entries), store, plan)
    ensures CacheState(cache.entries, cache.storeReads)
         == CacheAfter(CacheState(old(cache.entries), old(cache.storeReads)), store, plan.ids, plan.mode)
    ensures r.Success? ==> r.value == FetchedAll(old(cache.entries), store, plan.ids, plan.mode)
  {
    ghost var start := CacheState(cache.entries, cache.storeReads);
    var results: seq<FetchResult> := [];
    var failed: Option<StoreError> := None;
    var i := 0;
    while i < |plan.ids|
      invariant 0 <= i <= |plan.ids|
      invariant |results| == i
      invariant CacheState(cache.entries, cache.storeReads) == CacheAfter(start, store, plan.ids[..i], plan.mode)
      invariant failed.Some? <==> BatchFails(old(cache.entries), store, FetchPlan(plan.ids[..i], plan.mode))
      invariant results == FetchedAll(old(cache.entries), store, plan.ids[..i], plan.mode)
    {
      var id := plan.ids[i];
      CacheAfterStep(start, store, plan.ids, i, plan.mode);
      BatchFailsStep(old(cache.entries), store, plan.ids, i, plan.mode);
      FetchedAllStep(old(cache.entries), store, plan.ids, i, plan.mode);
      if !store.reachable {
        CacheAfterUnreachable(start, store, plan.ids[..i], plan.mode);
      } else if plan.mode == HistoryReads {
        ServedAfter(start, store, plan.ids[..i], id);
      }
      var one := FetchLatestOdds(cache, store, id, plan.mode);
      if one.Success? {
        results := results + [FetchResult(id, one.value)];
      } else {
        results := results + [FetchResult(id, None)];
        failed := Some(one.error);
      }
      i := i + 1;
    }
    assert plan.ids[..i] == plan.ids;
    if failed.Some? {
      r := Failure(failed.value);
    } else {
      r := Success(results);
    }
  }

  // ---- Merging fetched snapshots into the board's map ---------------------------

  /** One merge step: a found snapshot overwrites the fixture's entry; none leaves the map as it is. */
  function MergeOne(m: map<int, Snapshot>, id: int, latest: Option<Snapshot>): (r: map<int, Snapshot>)
    ensures latest.Some? ==> id in r && r[id] == latest.value
    ensures latest.None? ==> r == m
    ensures forall k :: k != id ==> (k in r <==> k in m) && (k in r ==> r[k] == m[k])
  {
    if latest.Some? then m[id := latest.value] else m
  }

  /** The map after merging `results` in order into `prev`. */
  function Merged(prev: map<int, Snapshot>, results: seq<FetchResult>): map<int, Snapshot> {
    if results == [] then prev
    else
      var last := results[|results| - 1];
      MergeOne(Merged(prev, results[..|results| - 1]), last.id, last.latest)
  }

  /** The last snapshot found for `id` among `results`, if any was found. */
  function LastFound(results: seq<FetchResult>, id: int): Option<Snapshot> {
    if results == [] then None
    else
      var last := results[|results| - 1];
      if last.id == id && last.latest.Some? then last.latest
      else LastFound(results[..|results| - 1], id)
  }

  /** Result `i` is the last one for `id`, and it holds a snapshot. */
  ghost predicate IsLastFound(results: seq<FetchResult>, i: int, id: int) {
    && 0 <= i < |results|
    && results[i].id == id && results[i].latest.Some?
    && forall j :: i < j < |results| && results[j].id == id ==> results[j].latest.None?
  }

  /**
   * A snapshot is found for `id` iff some result for `id` holds one, and the snapshot
   * found is that of the last such result.
   */
  lemma {:induction false} LastFoundSpec(results: seq<FetchResult>, id: int)
    ensures LastFound(results, id).Some? <==>
      exists i :: 0 <= i < |results| && results[i].id == id && results[i].latest.Some?
    ensures LastFound(results, id).Some? ==>
      exists i :: IsLastFound(results, i, id) && results[i].latest == LastFound(results, id)
  {
    if results != [] {
      var n := |results| - 1;
      var init := results[..n];
      if results[n].id == id && results[n].latest.Some? {
        assert IsLastFound(results, n, id);
      } else {
        LastFoundSpec(init, id);
        var r := LastFound(init, id);
        assert LastFound(results, id) == r;
        if r.Some? {
          var i :| IsLastFound(init, i, id) && init[i].latest == r;
          assert results[i] == init[i];
          forall j | i < j < |results| && results[j].id == id
            ensures results[j].latest.None?
          {
            if j < n {
              assert results[j] == init[j];
            }
          }
          assert IsLastFound(results, i, id);
        }
        forall k | 0 <= k < |results| && results[k].id == id && results[k].latest.Some?
          ensures exists i :: 0 <= i < |init| && init[i].id == id && init[i].latest.Some?
        {
          assert k < n;
          assert init[k] == results[k];
        }
      }
    }
  }

  /**
   * The merge: a fetched id with a snapshot takes the last one fetched for it; every other
   * id, fetched with no snapshot or not fetched at all, keeps its previous entry or absence.
   */
  lemma {:induction false} MergedKeepsOrOverwrites(prev: map<int, Snapshot>, results: seq<FetchResult>, id: int)
    ensures LastFound(results, id).Some? ==> id in Merged(prev, results) && Merged(prev, results)[id] == LastFound(results, id).value
    ensures LastFound(results, id).None? ==>
      (id in Merged(prev, results) <==> id in prev) && (id in prev ==> Merged(prev, results)[id] == prev[id])
  {
    if results != [] {
      MergedKeepsOrOverwrites(prev, results[..|results| - 1], id);
    }
  }

  lemma MergedSnoc(prev: map<int, Snapshot>, results: seq<FetchResult>, r: FetchResult)
    ensures Merged(prev, results + [r]) == MergeOne(Merged(prev, results), r.id, r.latest)
  {
    assert (results + [r])[..|results|] == results;
  }

  /** `setOddsMap(prev => ...)`: copy the previous map and assign every fetched id that has a snapshot. */
  method MergeFetched(prev: map<int, Snapshot>, results: seq<FetchResult>) returns (next: map<int, Snapshot>)
    ensures next == Merged(prev, results)
  {
    next := prev;
    var i := 0;
    while i < |results|
      invariant 0 <= i <= |results|
      invariant next == Merged(prev, results[..i])
    {
      assert results[..i + 1][..i] == results[..i];
      var r := results[i];
      if r.latest.Some? {
        next := next[r.id := r.latest.value];
      }
      i := i + 1;
    }
    assert results[..i] == results;
  }

  /** When every fetched id is distinct, the order in which the results arrive does not matter. */
  lemma {:induction false} LastFoundOfDistinct(results: seq<FetchResult>, i: nat)
    requires i < |results|
    requires forall a, b :: 0 <= a < b < |results| ==> results[a].id != results[b].id
    ensures LastFound(results, results[i].id) == results[i].latest
  {
    var id := results[i].id;
    LastFoundSpec(results, id);
    var r := LastFound(results, id);
    if r.Some? {
      var k :| IsLastFound(results, k, id) && results[k].latest == r;
      assert k == i;
    }
  }

  lemma {:induction false} LastFoundOfUnfetched(results: seq<FetchResult>, id: int)
    requires forall a :: 0 <= a < |results| ==> results[a].id != id
    ensures LastFound(results, id).None?
  {
    LastFoundSpec(results, id);
  }

  /**
   * Per-fixture isolation of the merge: for results with distinct ids, any reordering of
   * their arrival yields the same map.
   */
  lemma MergeOrderIrrelevant(prev: map<int, Snapshot>, results: seq<FetchResult>, arrived: seq<FetchResult>)
    requires forall a, b :: 0 <= a < b < |results| ==> results[a].id != results[b].id
    requires forall a, b :: 0 <= a < b < |arrived| ==> arrived[a].id != arrived[b].id
    requires multiset(arrived) == multiset(results)
    ensures Merged(prev, arrived) == Merged(prev, results)
  {
    forall id
      ensures LastFound(arrived, id) == LastFound(results, id)
    {
      if exists x :: 0 <= x < |results| && results[x].id == id {
        var x :| 0 <= x < |results| && results[x].id == id;
        LastFoundOfDistinct(results, x);
        assert results[x] in multiset(arrived);
        var y :| 0 <= y < |arrived| && arrived[y] == results[x];
        LastFoundOfDistinct(arrived, y);
      } else {
        LastFoundOfUnfetched(results, id);
        forall a | 0 <= a < |arrived|
          ensures arrived[a].id != id
        {
          assert arrived[a] in multiset(results);
        }
        LastFoundOfUnfetched(arrived, id);
      }
    }
    var m1 := Merged(prev, arrived);
    var m2 := Merged(prev, results);
    forall id
      ensures (id in m1 <==> id in m2) && (id in m1 ==> m1[id] == m2[id])
    {
      MergedKeepsOrOverwrites(prev, arrived, id);
      MergedKeepsOrOverwrites(prev, results, id);
    }
    assert m1 == m2;
  }

  // ---- Flattening the map into rows ----------------------------------------------

  /** The row for one (player, propType) entry of fixture `f`. */
  function MkRow(f: Fixture, player: string, e: PropEntry): PropRow {
    PropRow(player, e.propType, e.prop, f.homeTeam, f.awayTeam, f.startDate, f.id)
  }

  /** `row` carries fixture `f`'s teams, start date and id. */
  predicate RowOf(row: PropRow, f: Fixture) {
    row.homeTeam == f.homeTeam && row.awayTeam == f.awayTeam && row.startDate == f.startDate && row.fixtureId == f.id
  }

  /** Rows of one player's props, in the record's order. */
  function EntryRows(f: Fixture, player: string, es: seq<PropEntry>): seq<PropRow> {
    if es == [] then []
    else EntryRows(f, player, es[..|es| - 1]) + [MkRow(f, player, es[|es| - 1])]
  }

  /** Rows of a payload's players, in the record's order. */
  function PlayerRows(f: Fixture, ps: seq<PlayerProps>): seq<PropRow> {
    if ps == [] then []
    else PlayerRows(f, ps[..|ps| - 1]) + EntryRows(f, ps[|ps| - 1].player, ps[|ps| - 1].entries)
  }

  /** Rows of one fixture: none when the map has no snapshot for it. */
  function FixtureRows(f: Fixture, m: map<int, Snapshot>): seq<PropRow> {
    if f.id in m then PlayerRows(f, m[f.id].odds.props) else []
  }

  /** `allProps`: every fixture's rows, in fixture order. */
  function AllRows(fs: seq<Fixture>, m: map<int, Snapshot>): seq<PropRow> {
    if fs == [] then []
    else AllRows(fs[..|fs| - 1], m) + FixtureRows(fs[|fs| - 1], m)
  }

  /** Number of (player, propType) entries in a payload. */
  function PropCount(ps: seq<PlayerProps>): nat {
    if ps == [] then 0 else PropCount(ps[..|ps| - 1]) + |ps[|ps| - 1].entries|
  }

  /** The nested loops that push one row per (player, propType) of every fixture that has a snapshot. */
  method FlattenRows(fixtures: seq<Fixture>, oddsMap: map<int, Snapshot>) returns (rows: seq<PropRow>)
    ensures rows == AllRows(fixtures, oddsMap)
  {
    rows := [];
    var i := 0;
    while i < |fixtures|
      invariant 0 <= i <= |fixtures|
      invariant rows == AllRows(fixtures[..i], oddsMap)
    {
      assert fixtures[..i + 1][..i] == fixtures[..i];
      var f := fixtures[i];
      if f.id in oddsMap {
        rows := PushPlayerRows(rows, f, oddsMap[f.id].odds.props);
      }
      i := i + 1;
    }
    assert fixtures[..i] == fixtures;
  }

  /** The loop over `Object.entries(oddsData.props)`. */
  method PushPlayerRows(rows0: seq<PropRow>, f: Fixture, props: seq<PlayerProps>) returns (rows: seq<PropRow>)
    ensures rows == rows0 + PlayerRows(f, props)
  {
    rows := rows0;
    var p := 0;
    while p < |props|
      invariant 0 <= p <= |props|
      invariant rows == rows0 + PlayerRows(f, props[..p])
    {
      assert props[..p + 1][..p] == props[..p];
      rows := PushEntryRows(rows, f, props[p].player, props[p].entries);
      p := p + 1;
    }
    assert props[..p] == props;
  }

  /** The loop over `Object.entries(props)` of one player. */
  method PushEntryRows(rows0: seq<PropRow>, f: Fixture, player: string, entries: seq<PropEntry>) returns (rows: seq<PropRow>)
    ensures rows == rows0 + EntryRows(f, player, entries)
  {
    rows := rows0;
    var e := 0;
    while e < |entries|
      invariant 0 <= e <= |entries|
      invariant rows == rows0 + EntryRows(f, player, entries[..e])
    {
      assert entries[..e + 1][..e] == entries[..e];
      rows := rows + [MkRow(f, player, entries[e])];
      e := e + 1;
    }
    assert entries[..e] == entries;
  }

  lemma {:induction false} EntryRowsShape(f: Fixture, player: string, es: seq<PropEntry>)
    ensures |EntryRows(f, player, es)| == |es|
    ensures forall k :: 0 <= k < |es| ==> EntryRows(f, player, es)[k] == MkRow(f, player, es[k])
  {
    if es != [] {
      EntryRowsShape(f, player, es[..|es| - 1]);
    }
  }

  /** A payload yields exactly as many rows as it has (player, propType) entries. */
  lemma {:induction false} PlayerRowsCount(f: Fixture, ps: seq<PlayerProps>)
    ensures |PlayerRows(f, ps)| == PropCount(ps)
  {
    if ps != [] {
      PlayerRowsCount(f, ps[..|ps| - 1]);
      EntryRowsShape(f, ps[|ps| - 1].player, ps[|ps| - 1].entries);
    }
  }

  /** The rows of a payload are exactly the rows of its entries. */
  lemma {:induction false} PlayerRowsMembers(f: Fixture, ps: seq<PlayerProps>, row: PropRow)
    ensures row in PlayerRows(f, ps) <==>
      exists i, e :: 0 <= i < |ps| && e in ps[i].entries && row == MkRow(f, ps[i].player, e)
  {
    if ps != [] {
      var init := ps[..|ps| - 1];
      var last := ps[|ps| - 1];
      PlayerRowsMembers(f, init, row);
      EntryRowsShape(f, last.player, last.entries);
      if row in EntryRows(f, last.player, last.entries) {
        var k :| 0 <= k < |last.entries| && EntryRows(f, last.player, last.entries)[k] == row;
        assert last.entries[k] in ps[|ps| - 1].entries;
      }
      if exists i, e :: 0 <= i < |ps| && e in ps[i].entries && row == MkRow(f, ps[i].player, e) {
        var i, e :| 0 <= i < |ps| && e in ps[i].entries && row == MkRow(f, ps[i].player, e);
        if i < |ps| - 1 {
          assert init[i] == ps[i];
        } else {
          var k :| 0 <= k < |last.entries| && last.entries[k] == e;
          assert EntryRows(f, last.player, last.entries)[k] == row;
        }
      }
    }
  }

  /**
   * A fixture's rows: none without a snapshot; otherwise one row per (player, propType)
   * of its snapshot, each carrying the fixture's teams, start date and id.
   */
  lemma FixtureRowsSpec(f: Fixture, m: map<int, Snapshot>, row: PropRow)
    ensures f.id !in m ==> FixtureRows(f, m) == []
    ensures f.id in m ==> |FixtureRows(f, m)| == PropCount(m[f.id].odds.props)
    ensures row in FixtureRows(f, m) <==>
      f.id in m && RowOf(row, f) && HasEntry(m[f.id].odds, row.player, row.propType, row.prop)
  {
    if f.id in m {
      var odds := m[f.id].odds;
      PlayerRowsCount(f, odds.props);
      PlayerRowsMembers(f, odds.props, row);
      if RowOf(row, f) && HasEntry(odds, row.player, row.propType, row.prop) {
        var i :| 0 <= i < |odds.props| && odds.props[i].player == row.player
          && PropEntry(row.propType, row.prop) in odds.props[i].entries;
        assert row == MkRow(f, odds.props[i].player, PropEntry(row.propType, row.prop));
      }
    }
  }

  /** Rows follow fixture order: the rows of two fixture lists are the rows of each, in turn. */
  lemma {:induction false} AllRowsConcat(fs: seq<Fixture>, gs: seq<Fixture>, m: map<int, Snapshot>)
    ensures AllRows(fs + gs, m) == AllRows(fs, m) + AllRows(gs, m)
  {
    if gs == [] {
      assert fs + gs == fs;
    } else {
      InitOfConcat(fs, gs);
      AllRowsConcat(fs, gs[..|gs| - 1], m);
    }
  }

  /** A row comes from some listed fixture, and carries that fixture's fields. */
  lemma {:induction false} AllRowsMembers(fs: seq<Fixture>, m: map<int, Snapshot>, row: PropRow)
    ensures row in AllRows(fs, m) <==> exists i :: 0 <= i < |fs| && row in FixtureRows(fs[i], m)
  {
    if row in AllRows(fs, m) {
      var i := AllRowsSource(fs, m, row);
    }
    if exists i :: 0 <= i < |fs| && row in FixtureRows(fs[i], m) {
      var i :| 0 <= i < |fs| && row in FixtureRows(fs[i], m);
      AllRowsContains(fs, m, i, row);
    }
  }

  /** Every flattened row comes from some listed fixture. */
  lemma {:induction false} AllRowsSource(fs: seq<Fixture>, m: map<int, Snapshot>, row: PropRow) returns (i: nat)
    requires row in AllRows(fs, m)
    ensures i < |fs| && row in FixtureRows(fs[i], m)
  {
    var n := |fs| - 1;
    if row in FixtureRows(fs[n], m) {
      i := n;
    } else {
      i := AllRowsSource(fs[..n], m, row);
      assert fs[..n][i] == fs[i];
    }
  }

  /** Every row of a listed fixture is flattened. */
  lemma {:induction false} AllRowsContains(fs: seq<Fixture>, m: map<int, Snapshot>, i: nat, row: PropRow)
    requires i < |fs| && row in FixtureRows(fs[i], m)
    ensures row in AllRows(fs, m)
  {
    var n := |fs| - 1;
    if i < n {
      assert fs[..n][i] == fs[i];
      AllRowsContains(fs[..n], m, i, row);
    }
  }

  /** Only listed fixtures contribute rows: map keys of other fixtures are ignored. */
  lemma {:induction false} AllRowsIgnoresOtherKeys(fs: seq<Fixture>, m1: map<int, Snapshot>, m2: map<int, Snapshot>)
    requires forall i :: 0 <= i < |fs| ==> (fs[i].id in m1 <==> fs[i].id in m2)
    requires forall i :: 0 <= i < |fs| && fs[i].id in m1 ==> m1[fs[i].id] == m2[fs[i].id]
    ensures AllRows(fs, m1) == AllRows(fs, m2)
  {
    if fs != [] {
      AllRowsIgnoresOtherKeys(fs[..|fs| - 1], m1, m2);
    }
  }
}

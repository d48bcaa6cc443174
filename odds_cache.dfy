/**
 * The snapshot store and the process-local snapshot cache (lib/oddsCache.ts).
 *
 * The store is an external collaborator: it is a value here, holding each fixture's
 * snapshots in the order they were written, and a flag saying whether reads succeed.
 * The cache is an object whose map is updated in place; a read counter makes the
 * number of store reads observable.
 */
module OddsCache {
  import opened Wrappers
  import opened OddsTypes
  import opened StableSort

  datatype StoreError = StoreUnavailable

  /** The persistent store as the cache sees it. */
  datatype Store = Store(rows: map<int, seq<Snapshot>>, reachable: bool)

  /** Sort key of a snapshot: the time it was taken. */
  function TakenAt(s: Snapshot): SortValue {
    Num(s.takenAt as real)
  }

  ghost predicate Chronological(h: seq<Snapshot>) {
    forall i, j :: 0 <= i < j < |h| ==> h[i].takenAt <= h[j].takenAt
  }

  /** The snapshots stored for `fixtureId`, in insertion order; none when the fixture is unknown. */
  function StoredRows(store: Store, fixtureId: int): seq<Snapshot> {
    if fixtureId in store.rows then store.rows[fixtureId] else []
  }

  /**
   * The full-history read: every snapshot of the fixture, oldest first
   * (the store's query orders by snapshot time ascending).
   */
  function ReadHistory(store: Store, fixtureId: int): (r: Result<seq<Snapshot>, StoreError>)
    ensures r.Success? <==> store.reachable
    ensures r.Success? ==> Chronological(r.value)
    ensures r.Success? ==> multiset(r.value) == multiset(StoredRows(store, fixtureId))
  {
    if !store.reachable then Failure(StoreUnavailable)
    else
      var h := Sort(StoredRows(store, fixtureId), TakenAt, true);
      SortOrdered(StoredRows(store, fixtureId), TakenAt, true);
      assert Chronological(h) by {
        forall i, j | 0 <= i < j < |h|
          ensures h[i].takenAt <= h[j].takenAt
        {
          assert !Before(TakenAt(h[j]), TakenAt(h[i]), true);
        }
      }
      Success(h)
  }

  /** A history that is already oldest-first comes back from the store exactly as written. */
  lemma ReadHistoryOfChronologicalRows(store: Store, fixtureId: int)
    requires store.reachable
    requires Chronological(StoredRows(store, fixtureId))
    ensures ReadHistory(store, fixtureId) == Success(StoredRows(store, fixtureId))
  {
    var rows := StoredRows(store, fixtureId);
    assert Ordered(rows, TakenAt, true) by {
      forall i, j | 0 <= i < j < |rows|
        ensures !Before(TakenAt(rows[j]), TakenAt(rows[i]), true)
      {
        assert rows[i].takenAt <= rows[j].takenAt;
      }
    }
    SortOfOrdered(rows, TakenAt, true);
  }

  /** The latest snapshot of a history: its last element, or none when it is empty. */
  function LatestOf(h: seq<Snapshot>): (r: Option<Snapshot>)
    ensures r.None? <==> h == []
    ensures r.Some? ==> r.value in h && (Chronological(h) ==> forall s :: s in h ==> s.takenAt <= r.value.takenAt)
  {
    if h == [] then None else Some(h[|h| - 1])
  }

  /** The latest-snapshot read (newest first, one row), or none when the fixture has no snapshot. */
  function ReadLatest(store: Store, fixtureId: int): (r: Result<Option<Snapshot>, StoreError>)
    ensures r.Success? <==> store.reachable
    ensures r.Success? ==> (r.value.None? <==> StoredRows(store, fixtureId) == [])
    ensures r.Success? && r.value.Some? ==>
      r.value.value in StoredRows(store, fixtureId)
      && forall s :: s in StoredRows(store, fixtureId) ==> s.takenAt <= r.value.value.takenAt
  {
    match ReadHistory(store, fixtureId)
    case Failure(e) => Failure(e)
    case Success(h) =>
      assert forall s :: s in h <==> s in StoredRows(store, fixtureId) by {
        forall s ensures s in h <==> s in StoredRows(store, fixtureId) {
          assert s in h <==> s in multiset(h);
        }
      }
      Success(LatestOf(h))
  }

  /** A cached entry is served only when it is present and non-empty. */
  predicate IsHit(entries: map<int, seq<Snapshot>>, fixtureId: int) {
    fixtureId in entries && |entries[fixtureId]| > 0
  }

  /** The entry `addSnapshot` appends to: the cached list, or a fresh empty one. */
  function Prior(entries: map<int, seq<Snapshot>>, fixtureId: int): seq<Snapshot> {
    if fixtureId in entries then entries[fixtureId] else []
  }

  /** The cache after `addSnapshot(fixtureId, snap)`. */
  function Added(entries: map<int, seq<Snapshot>>, fixtureId: int, snap: Snapshot): (r: map<int, seq<Snapshot>>)
    ensures r.Keys == entries.Keys + {fixtureId}
    ensures |r[fixtureId]| == |Prior(entries, fixtureId)| + 1
    ensures r[fixtureId][..|r[fixtureId]| - 1] == Prior(entries, fixtureId)
    ensures r[fixtureId][|r[fixtureId]| - 1] == snap
    ensures forall k :: k in entries && k != fixtureId ==> r[k] == entries[k]
  {
    var h := Prior(entries, fixtureId) + [snap];
    assert h[..|h| - 1] == Prior(entries, fixtureId);
    entries[fixtureId := h]
  }

  /** What one `getCachedOdds` call leaves behind: the cache, the answer, and how many store reads it made. */
  datatype GetOutcome = GetOutcome(
    entries: map<int, seq<Snapshot>>,
    result: Result<seq<Snapshot>, StoreError>,
    storeReads: nat)

  /** `getCachedOdds(fixtureId)` against the cache `entries` and the store `store`. */
  function Get(entries: map<int, seq<Snapshot>>, store: Store, fixtureId: int): (o: GetOutcome)
    ensures IsHit(entries, fixtureId) ==>
      o.storeReads == 0 && o.entries == entries && o.result == Success(entries[fixtureId])
    ensures !IsHit(entries, fixtureId) ==>
      o.storeReads == 1 && o.result == ReadHistory(store, fixtureId)
    ensures o.result.Success? ==> o.entries == entries[fixtureId := o.result.value]
    ensures o.result.Failure? ==> o.entries == entries
  {
    if IsHit(entries, fixtureId) then GetOutcome(entries, Success(entries[fixtureId]), 0)
    else
      match ReadHistory(store, fixtureId)
      case Success(h) => GetOutcome(entries[fixtureId := h], Success(h), 1)
      case Failure(e) => GetOutcome(entries, Failure(e), 1)
  }

  /**
   * A get that returned a non-empty list leaves it cached: a second get, even against a
   * store that has changed since, returns the same list and reads nothing.
   */
  lemma RepeatedGetIsServedFromCache(entries: map<int, seq<Snapshot>>, store: Store, later: Store, fixtureId: int)
    requires Get(entries, store, fixtureId).result.Success?
    requires |Get(entries, store, fixtureId).result.value| > 0
    ensures var first := Get(entries, store, fixtureId);
            Get(first.entries, later, fixtureId) == GetOutcome(first.entries, first.result, 0)
  {
    var first := Get(entries, store, fixtureId);
    assert IsHit(first.entries, fixtureId);
  }

  /** An empty history is stored but is not a hit: the next get reads the store again. */
  lemma EmptyHistoryIsReadAgain(entries: map<int, seq<Snapshot>>, store: Store, fixtureId: int)
    requires !IsHit(entries, fixtureId)
    requires ReadHistory(store, fixtureId) == Success([])
    ensures var first := Get(entries, store, fixtureId);
            && first.entries == entries[fixtureId := []]
            && first.result == Success([])
            && Get(first.entries, store, fixtureId).storeReads == 1
  {
  }

  /** After `addSnapshot`, a get returns the earlier entry plus the new snapshot, without a store read. */
  lemma GetAfterAdd(entries: map<int, seq<Snapshot>>, store: Store, fixtureId: int, snap: Snapshot)
    ensures var o := Get(Added(entries, fixtureId, snap), store, fixtureId);
            && o.storeReads == 0
            && o.result == Success(Prior(entries, fixtureId) + [snap])
            && o.entries == Added(entries, fixtureId, snap)
  {
    var h := Added(entries, fixtureId, snap)[fixtureId];
    assert h == h[..|h| - 1] + [h[|h| - 1]];
  }

  /** A get on an empty cache returns exactly the store's history, oldest first, and caches it. */
  lemma ColdGetReturnsStoredHistory(store: Store, fixtureId: int)
    requires store.reachable
    requires Chronological(StoredRows(store, fixtureId))
    ensures var o := Get(map[], store, fixtureId);
            && o.result == Success(StoredRows(store, fixtureId))
            && o.storeReads == 1
            && o.entries == map[fixtureId := StoredRows(store, fixtureId)]
  {
    ReadHistoryOfChronologicalRows(store, fixtureId);
  }

  /** The cache object. `entries` is the module-level `Map` from fixture id to snapshot history. */
  class SnapshotCache {
    var entries: map<int, seq<Snapshot>>
    var storeReads: nat

    constructor ()
      ensures entries == map[] && storeReads == 0
    {
      entries := map[];
      storeReads := 0;
    }

    /** Appends `snap` to the fixture's history, creating a one-element history when there is none. */
    method AddSnapshot(fixtureId: int, snap: Snapshot)
      modifies this
      ensures entries == Added(old(entries), fixtureId, snap)
      ensures storeReads == old(storeReads)
    {
      var existing := if fixtureId in entries then entries[fixtureId] else [];
      existing := existing + [snap];
      entries := entries[fixtureId := existing];
    }

    /**
     * Serves a non-empty cached history; otherwise reads the store once, caches what it
     * returns and returns it. A failed read propagates and leaves the cache as it was.
     */
    method GetCachedOdds(store: Store, fixtureId: int) returns (r: Result<seq<Snapshot>, StoreError>)
      modifies this
      ensures var o := Get(old(entries), store, fixtureId);
              && r == o.result
              && entries == o.entries
              && storeReads == old(storeReads) + o.storeReads
    {
      if fixtureId in entries && |entries[fixtureId]| > 0 {
        return Success(entries[fixtureId]);
      }
      storeReads := storeReads + 1;
      var history := ReadHistory(store, fixtureId);
      if history.Failure? {
        return history;
      }
      entries := entries[fixtureId := history.value];
      r := history;
    }
  }

  /**
   * Two gets in a row with nothing in between: the second returns the same list as the
   * first and reads nothing, whenever the first returned a non-empty list.
   */
  method GetTwice(cache: SnapshotCache, store: Store, fixtureId: int)
    returns (first: Result<seq<Snapshot>, StoreError>, second: Result<seq<Snapshot>, StoreError>)
    modifies cache
    ensures first.Success? && |first.value| > 0 ==> second == first
    ensures first.Success? && |first.value| > 0 ==> cache.storeReads == old(cache.storeReads) + Get(old(cache.entries), store, fixtureId).storeReads
  {
    first := cache.GetCachedOdds(store, fixtureId);
    second := cache.GetCachedOdds(store, fixtureId);
  }
}

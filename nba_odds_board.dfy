/**
 * The live board (app/sports/nba/components/nbaOddsBoard.tsx): one latest-odds read per
 * fixture, each result merged into the fixture→snapshot map as it arrives, the map
 * flattened into table rows, and a waiting message while there are none.
 */
module LiveBoard {
  import opened Wrappers
  import opened OddsTypes
  import opened OddsCache
  import opened OddsBoard
  import opened Seqs

  /**
   * What one fixture's read delivers to the merge: the latest snapshot, or nothing when
   * there is none or the read fails (a failed read never reaches the state update).
   */
  function Arrival(store: Store, id: int): (r: FetchResult)
    ensures r.id == id
    ensures r.latest.Some? <==> store.reachable && StoredRows(store, id) != []
    ensures r.latest.Some? ==> ReadLatest(store, id) == Success(r.latest)
    ensures r.latest.Some? ==>
      r.latest.value in StoredRows(store, id)
      && forall s :: s in StoredRows(store, id) ==> s.takenAt <= r.latest.value.takenAt
  {
    Fetched(map[], store, id, LatestReads)
  }

  /** The results of reading the fixtures `ids`, in the order they arrived. */
  function Arrivals(store: Store, ids: seq<int>): (r: seq<FetchResult>)
    ensures |r| == |ids|
    ensures forall i :: 0 <= i < |ids| ==> r[i] == Arrival(store, ids[i])
  {
    if ids == [] then [] else Arrivals(store, ids[..|ids| - 1]) + [Arrival(store, ids[|ids| - 1])]
  }

  lemma ArrivalsSnoc(store: Store, ids: seq<int>, id: int)
    ensures Arrivals(store, ids + [id]) == Arrivals(store, ids) + [Arrival(store, id)]
  {
    assert (ids + [id])[..|ids|] == ids;
  }

  /** Merging one more arrival is one more merge step. */
  lemma LoadStep(prev: map<int, Snapshot>, store: Store, arrived: seq<int>, i: nat)
    requires i < |arrived|
    ensures Merged(prev, Arrivals(store, arrived[..i + 1]))
         == MergeOne(Merged(prev, Arrivals(store, arrived[..i])), arrived[i], Arrival(store, arrived[i]).latest)
  {
    assert arrived[..i + 1] == arrived[..i] + [arrived[i]];
    ArrivalsSnoc(store, arrived[..i], arrived[i]);
    MergedSnoc(prev, Arrivals(store, arrived[..i]), Arrival(store, arrived[i]));
  }

  /** Every read of the same fixture delivers the same result, so the last one found is the fixture's own. */
  lemma ArrivalsLastFound(store: Store, ids: seq<int>, id: int)
    ensures LastFound(Arrivals(store, ids), id) == if id in ids then Arrival(store, id).latest else None
  {
    var r := Arrivals(store, ids);
    LastFoundSpec(r, id);
    var l := LastFound(r, id);
    if l.Some? {
      var i :| IsLastFound(r, i, id) && r[i].latest == l;
      assert ids[i] == id;
    } else if id in ids {
      var i :| 0 <= i < |ids| && ids[i] == id;
      assert r[i].id == id;
    }
  }

  /**
   * The merged map depends only on which fixtures were read, not on the order their reads
   * arrived in nor on repeats: each read fixture with a latest snapshot gets it, every
   * other key keeps its previous entry or absence.
   */
  lemma ArrivalOrderIrrelevant(prev: map<int, Snapshot>, store: Store, a: seq<int>, b: seq<int>)
    requires forall id :: id in a <==> id in b
    ensures Merged(prev, Arrivals(store, a)) == Merged(prev, Arrivals(store, b))
  {
    var m1 := Merged(prev, Arrivals(store, a));
    var m2 := Merged(prev, Arrivals(store, b));
    forall id
      ensures (id in m1 <==> id in m2) && (id in m1 ==> m1[id] == m2[id])
    {
      ArrivalsLastFound(store, a, id);
      ArrivalsLastFound(store, b, id);
      MergedKeepsOrOverwrites(prev, Arrivals(store, a), id);
      MergedKeepsOrOverwrites(prev, Arrivals(store, b), id);
    }
    assert m1 == m2;
  }

  /** What the live board renders. */
  datatype LiveView = Waiting | Table(rows: seq<PropRow>)

  function LiveViewOf(fixtures: seq<Fixture>, oddsMap: map<int, Snapshot>): (v: LiveView)
    ensures v.Waiting? <==> AllRows(fixtures, oddsMap) == []
    ensures v.Table? ==> v.rows == AllRows(fixtures, oddsMap)
  {
    var rows := AllRows(fixtures, oddsMap);
    if rows == [] then Waiting else Table(rows)
  }

  /** The board before any snapshot arrives shows the waiting message. */
  lemma {:induction false} EmptyMapWaits(fixtures: seq<Fixture>)
    ensures AllRows(fixtures, map[]) == []
    ensures LiveViewOf(fixtures, map[]) == Waiting
  {
    if fixtures != [] {
      EmptyMapWaits(fixtures[..|fixtures| - 1]);
    }
  }

  /** The live board's state: its fixtures and the fixture→snapshot map. */
  class LiveOddsBoard {
    const fixtures: seq<Fixture>
    var oddsMap: map<int, Snapshot>

    constructor (fixtures: seq<Fixture>)
      ensures this.fixtures == fixtures && oddsMap == map[]
    {
      this.fixtures := fixtures;
      oddsMap := map[];
    }

    /** One read resolved: a snapshot replaces the fixture's entry, nothing leaves the map as it is. */
    method Receive(arrival: FetchResult)
      modifies this
      ensures oddsMap == MergeOne(old(oddsMap), arrival.id, arrival.latest)
    {
      if arrival.latest.Some? {
        oddsMap := oddsMap[arrival.id := arrival.latest.value];
      }
    }

    /**
     * The initial load: one read per fixture, merged in the order `arrived` the reads
     * resolved in; every fixture's read arrives exactly once.
     */
    method InitialLoad(store: Store, arrived: seq<int>)
      requires multiset(arrived) == multiset(FixtureIds(fixtures))
      modifies this
      ensures oddsMap == Merged(old(oddsMap), Arrivals(store, arrived))
      ensures oddsMap == Merged(old(oddsMap), Arrivals(store, FixtureIds(fixtures)))
    {
      ghost var prev := oddsMap;
      var i := 0;
      while i < |arrived|
        invariant 0 <= i <= |arrived|
        invariant oddsMap == Merged(prev, Arrivals(store, arrived[..i]))
      {
        LoadStep(prev, store, arrived, i);
        Receive(Arrival(store, arrived[i]));
        i := i + 1;
      }
      assert arrived[..i] == arrived;
      SameMembers(arrived, FixtureIds(fixtures));
      ArrivalOrderIrrelevant(prev, store, arrived, FixtureIds(fixtures));
    }

    /** The rows built on each render. */
    method Rows() returns (rows: seq<PropRow>)
      ensures rows == AllRows(fixtures, oddsMap)
    {
      rows := FlattenRows(fixtures, oddsMap);
    }

    function View(): LiveView
      reads this
    {
      LiveViewOf(fixtures, oddsMap)
    }
  }
}

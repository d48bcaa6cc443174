/**
 * The history charts (app/sports/nba/components/gapChart.tsx and oddsChart.tsx): a
 * fixture's cached history, one point per snapshot that holds the selected player's prop,
 * in history order; the gap chart hides itself below two points, the odds chart shows a
 * placeholder while it has none.
 */
module HistoryCharts {
  import opened Wrappers
  import opened OddsTypes
  import opened OddsCache
  import opened Seqs

  /** A snapshot holding the selected prop: its time and the prop. */
  datatype Sample = Sample(takenAt: int, prop: NormalizedProp)

  /** The samples of `snaps` for `props[player][propType]`, skipping snapshots without it. */
  function Selected(snaps: seq<Snapshot>, player: string, propType: string): (r: seq<Sample>)
    ensures |r| <= |snaps|
  {
    if snaps == [] then []
    else
      var init := Selected(snaps[..|snaps| - 1], player, propType);
      var last := snaps[|snaps| - 1];
      match LookupProp(last.odds, player, propType)
      case None => init
      case Some(p) => init + [Sample(last.takenAt, p)]
  }

  /** A sample comes from a snapshot holding exactly that prop at that time, and every such snapshot gives one. */
  lemma {:induction false} SelectedMembers(snaps: seq<Snapshot>, player: string, propType: string, x: Sample)
    ensures x in Selected(snaps, player, propType) <==>
      exists i :: 0 <= i < |snaps| && snaps[i].takenAt == x.takenAt && LookupProp(snaps[i].odds, player, propType) == Some(x.prop)
  {
    if snaps != [] {
      var init := snaps[..|snaps| - 1];
      SelectedMembers(init, player, propType, x);
      if exists i :: 0 <= i < |snaps| && snaps[i].takenAt == x.takenAt && LookupProp(snaps[i].odds, player, propType) == Some(x.prop) {
        var i :| 0 <= i < |snaps| && snaps[i].takenAt == x.takenAt && LookupProp(snaps[i].odds, player, propType) == Some(x.prop);
        if i < |snaps| - 1 {
          assert init[i] == snaps[i];
        }
      }
    }
  }

  /** Selection works snapshot by snapshot: the samples of two histories are those of each, in turn. */
  lemma {:induction false} SelectedConcat(a: seq<Snapshot>, b: seq<Snapshot>, player: string, propType: string)
    ensures Selected(a + b, player, propType) == Selected(a, player, propType) + Selected(b, player, propType)
  {
    if b == [] {
      assert a + b == a;
    } else {
      InitOfConcat(a, b);
      SelectedConcat(a, b[..|b| - 1], player, propType);
    }
  }

  /** When every snapshot holds the prop there is one sample per snapshot; when none does, none. */
  lemma {:induction false} SelectedCount(snaps: seq<Snapshot>, player: string, propType: string)
    ensures (forall i :: 0 <= i < |snaps| ==> LookupProp(snaps[i].odds, player, propType).Some?) ==>
      |Selected(snaps, player, propType)| == |snaps|
    ensures (forall i :: 0 <= i < |snaps| ==> LookupProp(snaps[i].odds, player, propType).None?) ==>
      Selected(snaps, player, propType) == []
  {
    if snaps != [] {
      SelectedCount(snaps[..|snaps| - 1], player, propType);
    }
  }

  /** Samples keep history order: a chronological history gives samples in time order. */
  lemma {:induction false} SelectedChronological(snaps: seq<Snapshot>, player: string, propType: string)
    requires Chronological(snaps)
    ensures forall i, j :: 0 <= i < j < |Selected(snaps, player, propType)| ==>
      Selected(snaps, player, propType)[i].takenAt <= Selected(snaps, player, propType)[j].takenAt
  {
    if snaps != [] {
      var init := snaps[..|snaps| - 1];
      var last := snaps[|snaps| - 1];
      SelectedChronological(init, player, propType);
      var s := Selected(init, player, propType);
      forall k | 0 <= k < |s|
        ensures s[k].takenAt <= last.takenAt
      {
        SelectedMembers(init, player, propType, s[k]);
      }
    }
  }

  // ---- Gap chart -----------------------------------------------------------------

  /** A gap-chart point: the over and under gaps in percentage points. */
  datatype GapPoint = GapPoint(takenAt: int, overGap: real, underGap: real)

  function GapPoints(samples: seq<Sample>): (r: seq<GapPoint>)
    ensures |r| == |samples|
    ensures forall i :: 0 <= i < |r| ==>
      r[i].takenAt == samples[i].takenAt
      && (r[i].overGap > 0.0 <==> samples[i].prop.fdNoVig.over > samples[i].prop.siaNoVig.over)
      && (r[i].underGap > 0.0 <==> samples[i].prop.fdNoVig.under > samples[i].prop.siaNoVig.under)
  {
    seq(|samples|, i requires 0 <= i < |samples| => GapPointOf(samples[i]))
  }

  function GapPointOf(x: Sample): GapPoint {
    GapPoint(x.takenAt, OverGap(x.prop) * 100.0, UnderGap(x.prop) * 100.0)
  }

  lemma GapPointsSnoc(samples: seq<Sample>, x: Sample)
    ensures GapPoints(samples + [x]) == GapPoints(samples) + [GapPointOf(x)]
  {
    assert forall i :: 0 <= i < |samples| ==> (samples + [x])[i] == samples[i];
  }

  /** The loop in the gap chart's `load`: one point per snapshot that holds the prop. */
  method BuildGapPoints(snaps: seq<Snapshot>, player: string, propType: string) returns (points: seq<GapPoint>)
    ensures points == GapPoints(Selected(snaps, player, propType))
  {
    points := [];
    var i := 0;
    while i < |snaps|
      invariant 0 <= i <= |snaps|
      invariant points == GapPoints(Selected(snaps[..i], player, propType))
    {
      assert snaps[..i + 1][..i] == snaps[..i];
      var p := LookupProp(snaps[i].odds, player, propType);
      if p.Some? {
        var x := Sample(snaps[i].takenAt, p.value);
        GapPointsSnoc(Selected(snaps[..i], player, propType), x);
        points := points + [GapPointOf(x)];
      }
      i := i + 1;
    }
    assert snaps[..i] == snaps;
  }

  /** The gap chart's state. */
  class GapChart {
    const fixtureId: int
    const player: string
    const propType: string
    var data: seq<GapPoint>

    constructor (fixtureId: int, player: string, propType: string)
      ensures this.fixtureId == fixtureId && this.player == player && this.propType == propType
      ensures data == []
    {
      this.fixtureId := fixtureId;
      this.player := player;
      this.propType := propType;
      data := [];
    }

    /** `load`: read the cached history; a failed read leaves the data as it was. */
    method Load(cache: SnapshotCache, store: Store)
      modifies this, cache
      ensures var o := Get(old(cache.entries), store, fixtureId);
              && cache.entries == o.entries
              && cache.storeReads == old(cache.storeReads) + o.storeReads
              && (o.result.Failure? ==> data == old(data))
              && (o.result.Success? ==> data == GapPoints(Selected(o.result.value, player, propType)))
    {
      var h := cache.GetCachedOdds(store, fixtureId);
      if h.Success? {
        data := BuildGapPoints(h.value, player, propType);
      }
    }

    /** The chart renders only with at least two points. */
    predicate Rendered()
      reads this
    {
      |data| >= 2
    }
  }

  /**
   * Loaded on a cold cache from a reachable store, the gap chart's points are the
   * fixture's stored snapshots holding the prop, in time order, and it renders iff at
   * least two of them hold it.
   */
  lemma ColdGapChart(store: Store, fixtureId: int, player: string, propType: string)
    requires store.reachable
    ensures var h := ReadHistory(store, fixtureId).value;
            var pts := GapPoints(Selected(h, player, propType));
            && Get(map[], store, fixtureId).result == Success(h)
            && (forall i, j :: 0 <= i < j < |pts| ==> pts[i].takenAt <= pts[j].takenAt)
            && (|pts| >= 2 <==> |Selected(h, player, propType)| >= 2)
  {
    SelectedChronological(ReadHistory(store, fixtureId).value, player, propType);
  }

  // ---- Odds chart ----------------------------------------------------------------

  /** An odds-chart point: both books' no-vig probabilities on both sides, in percent. */
  datatype OddsPoint = OddsPoint(takenAt: int, siaOver: real, fdOver: real, siaUnder: real, fdUnder: real)

  function OddsPoints(samples: seq<Sample>): (r: seq<OddsPoint>)
    ensures |r| == |samples|
    ensures forall i :: 0 <= i < |r| ==>
      r[i].takenAt == samples[i].takenAt
      && r[i].fdOver - r[i].siaOver == OverGap(samples[i].prop) * 100.0
      && r[i].fdUnder - r[i].siaUnder == UnderGap(samples[i].prop) * 100.0
  {
    seq(|samples|, i requires 0 <= i < |samples| => OddsPointOf(samples[i]))
  }

  function OddsPointOf(x: Sample): OddsPoint {
    OddsPoint(x.takenAt, x.prop.siaNoVig.over * 100.0, x.prop.fdNoVig.over * 100.0,
              x.prop.siaNoVig.under * 100.0, x.prop.fdNoVig.under * 100.0)
  }

  lemma OddsPointsSnoc(samples: seq<Sample>, x: Sample)
    ensures OddsPoints(samples + [x]) == OddsPoints(samples) + [OddsPointOf(x)]
  {
    assert forall i :: 0 <= i < |samples| ==> (samples + [x])[i] == samples[i];
  }

  /** The two charts agree: each odds point's book difference is the gap point at the same position. */
  lemma ChartsAgree(snaps: seq<Snapshot>, player: string, propType: string)
    ensures var g := GapPoints(Selected(snaps, player, propType));
            var o := OddsPoints(Selected(snaps, player, propType));
            |g| == |o|
            && forall i :: 0 <= i < |g| ==>
                 g[i].takenAt == o[i].takenAt
                 && g[i].overGap == o[i].fdOver - o[i].siaOver
                 && g[i].underGap == o[i].fdUnder - o[i].siaUnder
  {
  }

  /** The loop in the odds chart's `loadData`. */
  method BuildOddsPoints(snaps: seq<Snapshot>, player: string, propType: string) returns (points: seq<OddsPoint>)
    ensures points == OddsPoints(Selected(snaps, player, propType))
  {
    points := [];
    var i := 0;
    while i < |snaps|
      invariant 0 <= i <= |snaps|
      invariant points == OddsPoints(Selected(snaps[..i], player, propType))
    {
      assert snaps[..i + 1][..i] == snaps[..i];
      var p := LookupProp(snaps[i].odds, player, propType);
      if p.Some? {
        var x := Sample(snaps[i].takenAt, p.value);
        OddsPointsSnoc(Selected(snaps[..i], player, propType), x);
        points := points + [OddsPointOf(x)];
      }
      i := i + 1;
    }
    assert snaps[..i] == snaps;
  }

  /** The odds chart's state. */
  class OddsChart {
    const fixtureId: int
    const player: string
    const propType: string
    var data: seq<OddsPoint>

    constructor (fixtureId: int, player: string, propType: string)
      ensures this.fixtureId == fixtureId && this.player == player && this.propType == propType
      ensures data == []
    {
      this.fixtureId := fixtureId;
      this.player := player;
      this.propType := propType;
      data := [];
    }

    /** `loadData`: read the cached history; a failed read leaves the data as it was. */
    method LoadData(cache: SnapshotCache, store: Store)
      modifies this, cache
      ensures var o := Get(old(cache.entries), store, fixtureId);
              && cache.entries == o.entries
              && cache.storeReads == old(cache.storeReads) + o.storeReads
              && (o.result.Failure? ==> data == old(data))
              && (o.result.Success? ==> data == OddsPoints(Selected(o.result.value, player, propType)))
    {
      var h := cache.GetCachedOdds(store, fixtureId);
      if h.Success? {
        data := BuildOddsPoints(h.value, player, propType);
      }
    }

    /** The waiting placeholder is shown while there are no points. */
    predicate ShowsPlaceholder()
      reads this
    {
      |data| == 0
    }
  }

  /**
   * A history in which no snapshot holds the prop leaves the odds chart on its
   * placeholder and the gap chart hidden.
   */
  lemma PropNeverQuotedShowsNothing(snaps: seq<Snapshot>, player: string, propType: string)
    requires forall i :: 0 <= i < |snaps| ==> LookupProp(snaps[i].odds, player, propType).None?
    ensures OddsPoints(Selected(snaps, player, propType)) == []
    ensures |GapPoints(Selected(snaps, player, propType))| < 2
  {
    SelectedCount(snaps, player, propType);
  }
}

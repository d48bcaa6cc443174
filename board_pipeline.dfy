/**
 * The odds board's derivation chain (app/sports/nba/components/oddsBoard.tsx):
 * rows, filtered by the filter record, stably sorted by its sort settings, shown
 * through a window that grows a page at a time; plus the team and prop-type lists
 * offered by the filter controls, and the board's state.
 */
module BoardPipeline {
  import opened Wrappers
  import opened OddsTypes
  import opened StableSort
  import opened OddsCache
  import opened FilterState
  import opened OddsBoard

  // ---- Filter ------------------------------------------------------------------

  function Max(a: real, b: real): real {
    if a >= b then a else b
  }

  /** The gap, in percent, the minimum-gap filter tests: that side's, or the larger of the two. */
  function FilterGap(row: PropRow, dir: Direction): real {
    match dir
    case Over => OverGap(row.prop) * 100.0
    case Under => UnderGap(row.prop) * 100.0
    case AnySide => Max(OverGap(row.prop) * 100.0, UnderGap(row.prop) * 100.0)
  }

  /** FanDuel's no-vig probability, in percent, for the chosen side (0 when no side is chosen). */
  function FilterNoVig(row: PropRow, dir: Direction): real {
    match dir
    case Over => row.prop.fdNoVig.over * 100.0
    case Under => row.prop.fdNoVig.under * 100.0
    case AnySide => 0.0
  }

  /** The filter callback: each test that fails rejects the row. */
  predicate Passes(row: PropRow, f: Filters) {
    if f.team != "" && row.homeTeam != f.team && row.awayTeam != f.team then false
    else if f.propType != "" && row.propType != f.propType then false
    else if f.minGap != 0.0 && FilterGap(row, f.direction) < f.minGap then false
    else if f.direction != AnySide && f.minFdNoVig != 0.0 && FilterNoVig(row, f.direction) < f.minFdNoVig then false
    else true
  }

  /** A row passes iff every one of the four conditions holds. */
  lemma PassesIff(row: PropRow, f: Filters)
    ensures Passes(row, f) <==>
      && (f.team == "" || row.homeTeam == f.team || row.awayTeam == f.team)
      && (f.propType == "" || row.propType == f.propType)
      && (f.minGap == 0.0 || FilterGap(row, f.direction) >= f.minGap)
      && (f.direction == AnySide || f.minFdNoVig == 0.0 || FilterNoVig(row, f.direction) >= f.minFdNoVig)
  {
  }

  /** `allProps.filter(...)`. */
  function FilterRows(rows: seq<PropRow>, f: Filters): (r: seq<PropRow>)
    ensures |r| <= |rows|
    ensures forall i :: 0 <= i < |r| ==> Passes(r[i], f)
    ensures forall x :: x in r <==> x in rows && Passes(x, f)
  {
    if rows == [] then []
    else (if Passes(rows[0], f) then [rows[0]] else []) + FilterRows(rows[1..], f)
  }

  /** `a` is `b` with some elements left out. */
  predicate IsSubsequence<T(==)>(a: seq<T>, b: seq<T>) {
    if a == [] then true
    else if b == [] then false
    else if a[0] == b[0] then IsSubsequence(a[1..], b[1..])
    else IsSubsequence(a, b[1..])
  }

  /** Filtering keeps the rows' order: the result is a subsequence of the rows. */
  lemma {:induction false} FilterIsSubsequence(rows: seq<PropRow>, f: Filters)
    ensures IsSubsequence(FilterRows(rows, f), rows)
  {
    if rows != [] {
      FilterIsSubsequence(rows[1..], f);
      if !Passes(rows[0], f) {
        assert FilterRows(rows, f) == FilterRows(rows[1..], f);
        SubsequenceOfTail(FilterRows(rows[1..], f), rows);
      } else {
        assert FilterRows(rows, f) == [rows[0]] + FilterRows(rows[1..], f);
        assert ([rows[0]] + FilterRows(rows[1..], f))[1..] == FilterRows(rows[1..], f);
      }
    }
  }

  lemma {:induction false} SubsequenceOfTail<T>(a: seq<T>, b: seq<T>)
    requires b != [] && IsSubsequence(a, b[1..])
    ensures IsSubsequence(a, b)
  {
    if a != [] && a[0] == b[0] {
      // the head of `a` matches here; the rest is a subsequence of what follows its later match
      SubsequenceDropHead(a, b[1..]);
    }
  }

  lemma {:induction false} SubsequenceDropHead<T>(a: seq<T>, b: seq<T>)
    requires a != [] && IsSubsequence(a, b)
    ensures IsSubsequence(a[1..], b)
  {
    if a[0] == b[0] {
      if b[1..] != [] {
        SubsequenceOfTail(a[1..], b);
      } else if a[1..] != [] {
        assert false;
      }
    } else {
      SubsequenceDropHead(a, b[1..]);
      SubsequenceOfTail(a[1..], b);
    }
  }

  /** Filtering already-filtered rows with the same filters changes nothing. */
  lemma {:induction false} FilterIdempotent(rows: seq<PropRow>, f: Filters)
    ensures FilterRows(FilterRows(rows, f), f) == FilterRows(rows, f)
  {
    if rows != [] {
      FilterIdempotent(rows[1..], f);
      var rest := FilterRows(rows[1..], f);
      if Passes(rows[0], f) {
        var once := [rows[0]] + rest;
        assert FilterRows(rows, f) == once;
        assert once[0] == rows[0] && once[1..] == rest;
        assert FilterRows(once, f) == [rows[0]] + FilterRows(rest, f);
      } else {
        assert FilterRows(rows, f) == rest;
      }
    }
  }

  /** The sort settings play no part in which rows pass. */
  lemma {:induction false} SortSettingsDoNotFilter(rows: seq<PropRow>, f: Filters, sortBy: SortBy, sortDir: SortDir)
    ensures FilterRows(rows, f.(sortBy := sortBy, sortDir := sortDir)) == FilterRows(rows, f)
  {
    if rows != [] {
      SortSettingsDoNotFilter(rows[1..], f, sortBy, sortDir);
    }
  }

  /** Without a chosen side the minimum no-vig threshold has no effect, although it still counts as active. */
  lemma NoVigThresholdNeedsDirection(rows: seq<PropRow>, f: Filters, threshold: real)
    requires f.direction == AnySide && threshold != 0.0
    ensures FilterRows(rows, f.(minFdNoVig := threshold)) == FilterRows(rows, f.(minFdNoVig := 0.0))
    ensures ActiveCount(f.(minFdNoVig := threshold)) == ActiveCount(f.(minFdNoVig := 0.0)) + 1
  {
    FilterSameVerdicts(rows, f.(minFdNoVig := threshold), f.(minFdNoVig := 0.0));
  }

  lemma {:induction false} FilterSameVerdicts(rows: seq<PropRow>, f: Filters, g: Filters)
    requires forall x :: x in rows ==> (Passes(x, f) <==> Passes(x, g))
    ensures FilterRows(rows, f) == FilterRows(rows, g)
  {
    if rows != [] {
      FilterSameVerdicts(rows[1..], f, g);
    }
  }

  // ---- Sort --------------------------------------------------------------------

  /**
   * The value the board's comparator compares: the gap or FanDuel's no-vig probability
   * on the chosen side, the over side when none is chosen; a constant when unsorted
   * (the comparator then always returns 0).
   */
  function BoardSortValue(row: PropRow, f: Filters): real {
    var isOver := f.direction != Under;
    match f.sortBy
    case Unsorted => 0.0
    case ByGap => if isOver then OverGap(row.prop) else UnderGap(row.prop)
    case ByFdNoVig => if isOver then row.prop.fdNoVig.over else row.prop.fdNoVig.under
  }

  function BoardKey(f: Filters): PropRow -> SortValue {
    row => Num(BoardSortValue(row, f))
  }

  /** `[...filtered].sort(...)`. */
  function SortRows(filtered: seq<PropRow>, f: Filters): seq<PropRow> {
    Sort(filtered, BoardKey(f), f.sortDir == Asc)
  }

  /**
   * The sorted rows are a permutation of the filtered rows, in order of the sort value
   * (non-increasing for desc, non-decreasing for asc), rows with equal values keeping
   * their order; unsorted, the order is the filtered order.
   */
  lemma SortRowsSpec(filtered: seq<PropRow>, f: Filters)
    ensures multiset(SortRows(filtered, f)) == multiset(filtered)
    ensures f.sortDir == Desc ==> forall i, j :: 0 <= i < j < |SortRows(filtered, f)| ==>
      BoardSortValue(SortRows(filtered, f)[i], f) >= BoardSortValue(SortRows(filtered, f)[j], f)
    ensures f.sortDir == Asc ==> forall i, j :: 0 <= i < j < |SortRows(filtered, f)| ==>
      BoardSortValue(SortRows(filtered, f)[i], f) <= BoardSortValue(SortRows(filtered, f)[j], f)
    ensures SameKeyOrder(filtered, SortRows(filtered, f), BoardKey(f))
    ensures f.sortBy == Unsorted ==> SortRows(filtered, f) == filtered
  {
    var r := SortRows(filtered, f);
    var asc := f.sortDir == Asc;
    SortOrdered(filtered, BoardKey(f), asc);
    SortStable(filtered, BoardKey(f), asc);
    assert |r| == |filtered| by {
      assert |multiset(r)| == |multiset(filtered)|;
    }
    forall i, j | 0 <= i < j < |r|
      ensures asc ==> BoardSortValue(r[i], f) <= BoardSortValue(r[j], f)
      ensures !asc ==> BoardSortValue(r[i], f) >= BoardSortValue(r[j], f)
    {
      assert !Before(BoardKey(f)(r[j]), BoardKey(f)(r[i]), asc);
    }
    if f.sortBy == Unsorted {
      UniformKeyKeepsOrder(filtered, BoardKey(f), asc, Num(0.0));
    }
  }

  /**
   * With no side chosen the filter tests the larger gap while the sort orders by the over
   * gap: a row can pass on its under gap yet sort by its over gap.
   */
  lemma UndirectedFilterAndSortDiffer()
    ensures var prop := NormalizedProp(0.0, AmericanOdds(0, 0), AmericanOdds(0, 0), Sides(0.5, 0.5), Sides(0.45, 0.55));
            var row := PropRow("p", "points", prop, "h", "a", "d", 1);
            var f := DefaultFilters.(minGap := 2.0, sortBy := ByGap);
            Passes(row, f) && FilterGap(row, f.direction) == 5.0 && BoardSortValue(row, f) < 0.0
  {
  }

  /**
   * Team "Lakers", prop "points", gap at least 2 on the over side: of a Lakers points row
   * with a 3.2-point over gap and a Lakers rebounds row with 5.0, only the first passes.
   */
  lemma LakersPointsExample()
    ensures var f := DefaultFilters.(team := "Lakers", propType := "points", minGap := 2.0, direction := Over);
            var points := PropRow("p", "points", NormalizedProp(0.0, AmericanOdds(0, 0), AmericanOdds(0, 0), Sides(0.5, 0.5), Sides(0.532, 0.468)), "Lakers", "Celtics", "d", 1);
            var rebounds := PropRow("p", "rebounds", NormalizedProp(0.0, AmericanOdds(0, 0), AmericanOdds(0, 0), Sides(0.5, 0.5), Sides(0.55, 0.45)), "Lakers", "Celtics", "d", 1);
            FilterRows([points, rebounds], f) == [points]
  {
  }

  // ---- Team and prop-type lists --------------------------------------------------

  /** `[...new Set(s)]`: the distinct values of `s`, in order of first occurrence. */
  function Dedupe(s: seq<string>): (r: seq<string>)
    ensures forall x :: x in r <==> x in s
    ensures forall i, j :: 0 <= i < j < |r| ==> r[i] != r[j]
  {
    if s == [] then []
    else
      var d := Dedupe(s[..|s| - 1]);
      var x := s[|s| - 1];
      assert forall y :: y in s <==> y in s[..|s| - 1] || y == x by {
        assert s == s[..|s| - 1] + [x];
      }
      if x in d then d else d + [x]
  }

  /** Position of the first occurrence of `x` in `s`. */
  function FirstIndex(s: seq<string>, x: string): (i: nat)
    requires x in s
    ensures i < |s| && s[i] == x && x !in s[..i]
  {
    if s[0] == x then 0 else 1 + FirstIndex(s[1..], x)
  }

  lemma FirstIndexOfExtension(s: seq<string>, y: string, x: string)
    requires x in s
    ensures FirstIndex(s + [y], x) == FirstIndex(s, x)
  {
    var i := FirstIndex(s, x);
    var k := FirstIndex(s + [y], x);
    assert (s + [y])[..i] == s[..i];
    assert (s + [y])[i] == x;
  }

  /** The distinct values appear in the order of their first occurrence. */
  lemma {:induction false} DedupeFirstOccurrenceOrder(s: seq<string>)
    ensures forall i, j :: 0 <= i < j < |Dedupe(s)| ==> FirstIndex(s, Dedupe(s)[i]) < FirstIndex(s, Dedupe(s)[j])
  {
    if s != [] {
      var init := s[..|s| - 1];
      var x := s[|s| - 1];
      var d := Dedupe(init);
      DedupeFirstOccurrenceOrder(init);
      assert s == init + [x];
      forall y | y in d
        ensures FirstIndex(s, y) == FirstIndex(init, y)
      {
        FirstIndexOfExtension(init, x, y);
      }
      if x !in d {
        assert x !in init;
        assert FirstIndex(s, x) == |init|;
        var r := d + [x];
        forall i, j | 0 <= i < j < |r|
          ensures FirstIndex(s, r[i]) < FirstIndex(s, r[j])
        {
          assert r[i] in d;
          if j < |d| {
            assert r[j] in d;
          }
        }
      }
    }
  }

  function TeamsOf(rows: seq<PropRow>): seq<string> {
    if rows == [] then [] else [rows[0].homeTeam, rows[0].awayTeam] + TeamsOf(rows[1..])
  }

  function PropTypesOf(rows: seq<PropRow>): seq<string> {
    if rows == [] then [] else [rows[0].propType] + PropTypesOf(rows[1..])
  }

  /** The teams offered by the filter: every home or away team of a row, once each, in first-seen order. */
  function TeamNames(rows: seq<PropRow>): (r: seq<string>)
    ensures forall i, j :: 0 <= i < j < |r| ==> r[i] != r[j]
    ensures forall t :: t in r <==> exists k :: 0 <= k < |rows| && (rows[k].homeTeam == t || rows[k].awayTeam == t)
  {
    TeamsOfMembers(rows);
    Dedupe(TeamsOf(rows))
  }

  /** The prop types offered by the filter: every row's prop type, once each, in first-seen order. */
  function PropTypeNames(rows: seq<PropRow>): (r: seq<string>)
    ensures forall i, j :: 0 <= i < j < |r| ==> r[i] != r[j]
    ensures forall p :: p in r <==> exists k :: 0 <= k < |rows| && rows[k].propType == p
  {
    PropTypesOfMembers(rows);
    Dedupe(PropTypesOf(rows))
  }

  lemma {:induction false} TeamsOfMembers(rows: seq<PropRow>)
    ensures forall t :: t in TeamsOf(rows) <==> exists k :: 0 <= k < |rows| && (rows[k].homeTeam == t || rows[k].awayTeam == t)
  {
    if rows != [] {
      TeamsOfMembers(rows[1..]);
      forall t | exists k :: 0 <= k < |rows| && (rows[k].homeTeam == t || rows[k].awayTeam == t)
        ensures t in TeamsOf(rows)
      {
        var k :| 0 <= k < |rows| && (rows[k].homeTeam == t || rows[k].awayTeam == t);
        if k > 0 {
          assert rows[1..][k - 1] == rows[k];
        }
      }
    }
  }

  lemma {:induction false} PropTypesOfMembers(rows: seq<PropRow>)
    ensures forall p :: p in PropTypesOf(rows) <==> exists k :: 0 <= k < |rows| && rows[k].propType == p
  {
    if rows != [] {
      PropTypesOfMembers(rows[1..]);
      forall p | exists k :: 0 <= k < |rows| && rows[k].propType == p
        ensures p in PropTypesOf(rows)
      {
        var k :| 0 <= k < |rows| && rows[k].propType == p;
        if k > 0 {
          assert rows[1..][k - 1] == rows[k];
        }
      }
    }
  }

  // ---- Window ------------------------------------------------------------------

  /** Rows per page: the window starts at one page and grows a page at a time. */
  const PageSize: nat := 12

  /** Load-more: one page more, capped at the number of sorted rows. */
  function LoadMoreCount(prev: nat, total: nat): (r: nat)
    ensures r <= total && r <= prev + PageSize
    ensures prev < total ==> prev < r
    ensures r < prev ==> total < prev
  {
    if prev + PageSize <= total then prev + PageSize else total
  }

  /** The window after `k` load-more signals. */
  function LoadMoreTimes(prev: nat, total: nat, k: nat): nat {
    if k == 0 then prev else LoadMoreCount(LoadMoreTimes(prev, total, k - 1), total)
  }

  /** From inside the rows, `k` load-more signals show `min(prev + 12k, total)` rows. */
  lemma {:induction false} LoadMoreTimesValue(prev: nat, total: nat, k: nat)
    requires prev <= total
    ensures LoadMoreTimes(prev, total, k) == if prev + PageSize * k <= total then prev + PageSize * k else total
  {
    if k > 0 {
      LoadMoreTimesValue(prev, total, k - 1);
    }
  }

  /** Enough load-more signals show every row, provided each signal arrives; the model assumes the observer keeps firing. */
  lemma LoadMoreReachesEnd(prev: nat, total: nat)
    requires prev <= total
    ensures LoadMoreTimes(prev, total, (total - prev + PageSize - 1) / PageSize) == total
  {
    var k := (total - prev + PageSize - 1) / PageSize;
    LoadMoreTimesValue(prev, total, k);
    assert PageSize * k >= total - prev;
  }

  /** `sorted.slice(0, visibleCount)`. */
  function VisibleRows(sorted: seq<PropRow>, visibleCount: nat): (r: seq<PropRow>)
    ensures |r| <= |sorted| && |r| <= visibleCount
    ensures |r| == visibleCount || |r| == |sorted|
    ensures forall i :: 0 <= i < |r| ==> r[i] == sorted[i]
  {
    if visibleCount <= |sorted| then sorted[..visibleCount] else sorted
  }

  /** The load-more sentinel is rendered while rows remain hidden. */
  predicate LoaderShown(visibleCount: nat, total: nat) {
    visibleCount < total
  }

  /** While the sentinel shows, a load-more signal reveals more rows and never more than there are. */
  lemma LoadMoreWhileLoaderShown(sorted: seq<PropRow>, visibleCount: nat)
    requires LoaderShown(visibleCount, |sorted|)
    ensures |VisibleRows(sorted, visibleCount)| < |VisibleRows(sorted, LoadMoreCount(visibleCount, |sorted|))| <= |sorted|
  {
  }

  /**
   * A filter change resets the window to one page even when fewer rows match; the
   * rendered slice still never exceeds the rows.
   */
  lemma ResetWindowMayExceedRows(sorted: seq<PropRow>)
    requires |sorted| < PageSize
    ensures !LoaderShown(PageSize, |sorted|) && VisibleRows(sorted, PageSize) == sorted
  {
  }

  // ---- What the board shows ------------------------------------------------------

  datatype SpaceView =
    | Spinner                                     // first fetch still pending
    | Schedule(fixtures: seq<Fixture>)            // fixtures but no props yet
    | NoGames                                     // no fixtures at all
    | Board(teams: seq<string>, propTypes: seq<string>, visible: seq<PropRow>, loader: bool)

  /** The rows after filtering and sorting. */
  function SortedRows(rows: seq<PropRow>, f: Filters): seq<PropRow> {
    SortRows(FilterRows(rows, f), f)
  }

  /** What `NbaOddsSpace` renders for a state. */
  function View(fixtures: seq<Fixture>, oddsMap: map<int, Snapshot>, hasFetched: bool, f: Filters, visibleCount: nat): (v: SpaceView)
    ensures v.Spinner? <==> !hasFetched && fixtures != []
    ensures v.Board? <==> !v.Spinner? && AllRows(fixtures, oddsMap) != []
    ensures v.Schedule? <==> !v.Spinner? && AllRows(fixtures, oddsMap) == [] && fixtures != []
    ensures v.Schedule? ==> v.fixtures == fixtures
    ensures v.NoGames? <==> fixtures == []
    ensures v.Board? ==> v.teams == TeamNames(AllRows(fixtures, oddsMap))
    ensures v.Board? ==> v.propTypes == PropTypeNames(AllRows(fixtures, oddsMap))
    ensures v.Board? ==> v.visible == VisibleRows(SortedRows(AllRows(fixtures, oddsMap), f), visibleCount)
    ensures v.Board? ==> forall i :: 0 <= i < |v.visible| ==> Passes(v.visible[i], f)
    ensures v.Board? ==> (v.loader <==> visibleCount < |SortedRows(AllRows(fixtures, oddsMap), f)|)
  {
    if !hasFetched && |fixtures| > 0 then Spinner
    else
      var rows := AllRows(fixtures, oddsMap);
      if rows == [] then (if |fixtures| > 0 then Schedule(fixtures) else NoGames)
      else
        var filtered := FilterRows(rows, f);
        var sorted := SortRows(filtered, f);
        assert forall i :: 0 <= i < |sorted| ==> Passes(sorted[i], f) by {
          forall i | 0 <= i < |sorted|
            ensures Passes(sorted[i], f)
          {
            assert sorted[i] in multiset(filtered);
          }
        }
        Board(TeamNames(rows), PropTypeNames(rows), VisibleRows(sorted, visibleCount), LoaderShown(visibleCount, |sorted|))
  }

  /**
   * The board's window (what `View` shows on the board for `rows`) holds passing rows, best
   * first, as many as fit: the loader shows while passing rows remain hidden, and a window
   * that covers them shows every one of them.
   */
  lemma BoardViewShows(rows: seq<PropRow>, f: Filters, visibleCount: nat)
    ensures var passing := FilterRows(rows, f);
      var w := VisibleRows(SortedRows(rows, f), visibleCount);
      && |w| == (if visibleCount < |passing| then visibleCount else |passing|)
      && (LoaderShown(visibleCount, |SortedRows(rows, f)|) <==> visibleCount < |passing|)
      && (forall i :: 0 <= i < |w| ==> Passes(w[i], f) && w[i] in rows)
      && (f.sortDir == Desc ==> forall i, j :: 0 <= i < j < |w| ==> BoardSortValue(w[i], f) >= BoardSortValue(w[j], f))
      && (f.sortDir == Asc ==> forall i, j :: 0 <= i < j < |w| ==> BoardSortValue(w[i], f) <= BoardSortValue(w[j], f))
      && (visibleCount >= |passing| ==> multiset(w) == multiset(passing))
  {
    var passing := FilterRows(rows, f);
    SortRowsSpec(passing, f);
    WindowOfPermutation(SortRows(passing, f), passing, visibleCount);
  }

  /** A window over any arrangement of the passing rows shows as many as fit, and all of them once it covers them. */
  lemma WindowOfPermutation(sorted: seq<PropRow>, passing: seq<PropRow>, visibleCount: nat)
    requires multiset(sorted) == multiset(passing)
    ensures var w := VisibleRows(sorted, visibleCount);
      && |w| == (if visibleCount < |passing| then visibleCount else |passing|)
      && (LoaderShown(visibleCount, |sorted|) <==> visibleCount < |passing|)
      && (forall i :: 0 <= i < |w| ==> w[i] in passing)
      && (visibleCount >= |passing| ==> multiset(w) == multiset(passing))
  {
    assert |sorted| == |passing| by {
      assert |multiset(sorted)| == |multiset(passing)|;
    }
    var w := VisibleRows(sorted, visibleCount);
    forall i | 0 <= i < |w|
      ensures w[i] in passing
    {
      assert w[i] in multiset(sorted);
    }
    if visibleCount >= |passing| {
      assert w == sorted;
    }
  }

  /** The state of `NbaOddsSpace`. */
  class BoardState {
    const fixtures: seq<Fixture>
    var oddsMap: map<int, Snapshot>
    var hasFetched: bool
    var filters: Filters
    var visibleCount: nat

    /** The initial state: nothing fetched, the saved filters (or the defaults), one page. */
    constructor (fixtures: seq<Fixture>, saved: Option<Filters>)
      ensures this.fixtures == fixtures && oddsMap == map[] && !hasFetched
      ensures filters == InitialFilters(saved) && visibleCount == PageSize
    {
      this.fixtures := fixtures;
      oddsMap := map[];
      hasFetched := false;
      filters := InitialFilters(saved);
      visibleCount := PageSize;
    }

    function Sorted(): seq<PropRow>
      reads this
    {
      SortedRows(AllRows(fixtures, oddsMap), filters)
    }

    /**
     * The fetch effect: plan the ids, fetch them all, and when every fetch succeeded merge
     * the results into the map and mark the board as fetched. Returns what was merged.
     */
    method Refresh(cache: SnapshotCache, store: Store, updated: seq<int>) returns (merged: Option<seq<FetchResult>>)
      modifies this, cache
      ensures filters == old(filters) && visibleCount == old(visibleCount)
      ensures merged.None? ==> oddsMap == old(oddsMap) && hasFetched == old(hasFetched)
      ensures merged.Some? ==> oddsMap == Merged(old(oddsMap), merged.value) && hasFetched
      ensures updated == [] && fixtures == [] ==> merged.None?
      ensures store.reachable && (updated != [] || fixtures != []) ==> merged.Some?
      ensures PlanFetch(updated, fixtures).None? ==>
        cache.entries == old(cache.entries) && cache.storeReads == old(cache.storeReads)
      ensures PlanFetch(updated, fixtures).Some? ==>
        var plan := PlanFetch(updated, fixtures).value;
        && CacheState(cache.entries, cache.storeReads)
           == CacheAfter(CacheState(old(cache.entries), old(cache.storeReads)), store, plan.ids, plan.mode)
        && (merged.None? <==> BatchFails(old(cache.entries), store, plan))
        && (merged.Some? ==> merged.value == FetchedAll(old(cache.entries), store, plan.ids, plan.mode))
      ensures merged.Some? && updated != [] ==>
        |merged.value| == |updated|
        && forall i :: 0 <= i < |updated| ==>
             merged.value[i].id == updated[i] && ReadLatest(store, updated[i]) == Success(merged.value[i].latest)
      ensures merged.Some? && updated == [] ==>
        |merged.value| == |fixtures|
        && forall i :: 0 <= i < |fixtures| ==>
             merged.value[i].id == fixtures[i].id
             && merged.value[i].latest == LatestOf(ServedHistory(old(cache.entries), store, fixtures[i].id))
    {
      var plan := PlanFetch(updated, fixtures);
      if plan.None? {
        return None;
      }
      FetchedAllSpec(cache.entries, store, plan.value.ids, plan.value.mode);
      var results := FetchAll(cache, store, plan.value);
      if results.Failure? {
        return None;
      }
      var next := MergeFetched(oddsMap, results.value);
      oddsMap := next;
      hasFetched := true;
      merged := Some(results.value);
    }

    /** A filter control fires: the new record replaces the old and the window goes back to one page. */
    method ChangeFilters(c: Control)
      modifies this
      ensures filters == Apply(old(filters), c) && visibleCount == PageSize
      ensures oddsMap == old(oddsMap) && hasFetched == old(hasFetched)
    {
      filters := Apply(filters, c);
      visibleCount := PageSize;
    }

    /** The sentinel came into view: show one page more, capped at the sorted rows. */
    method LoadMore()
      modifies this
      ensures visibleCount == LoadMoreCount(old(visibleCount), |Sorted()|)
      ensures oddsMap == old(oddsMap) && filters == old(filters) && hasFetched == old(hasFetched)
    {
      visibleCount := LoadMoreCount(visibleCount, |Sorted()|);
    }

    function Render(): SpaceView
      reads this
    {
      View(fixtures, oddsMap, hasFetched, filters, visibleCount)
    }
  }
}

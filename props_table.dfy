/**
 * The props table (app/sports/nba/components/propsTable.tsx): the value each sortable
 * column sorts by, the stable ascending/descending ordering of a copy of the rows, and
 * the header-click rule that updates the table's sort state.
 */
module PropsTable {
  import opened OddsTypes
  import opened StableSort
  import opened FilterState

  /** The sortable columns. */
  datatype SortKey = PlayerKey | MatchupKey | PropKey | OverGapKey | UnderGapKey

  function LowerChar(c: char): char {
    if 'A' <= c <= 'Z' then (c as int + 32) as char else c
  }

  /** `toLowerCase` on ASCII letters; other characters are kept. */
  function Lower(s: string): (r: string)
    ensures |r| == |s|
    ensures forall i :: 0 <= i < |s| ==> r[i] == LowerChar(s[i])
  {
    if s == [] then [] else [LowerChar(s[0])] + Lower(s[1..])
  }

  /** Lower-casing leaves no upper-case letter, so doing it twice changes nothing. */
  lemma LowerIdempotent(s: string)
    ensures forall i :: 0 <= i < |Lower(s)| ==> !('A' <= Lower(s)[i] <= 'Z')
    ensures Lower(Lower(s)) == Lower(s)
  {
  }

  lemma LowerConcat(a: string, b: string)
    ensures Lower(a + b) == Lower(a) + Lower(b)
  {
    assert forall i :: 0 <= i < |a + b| ==> Lower(a + b)[i] == (Lower(a) + Lower(b))[i];
  }

  /** The value a row sorts by under a column. */
  function SortValueOf(row: PropRow, key: SortKey): SortValue {
    match key
    case PlayerKey => Str(Lower(row.player))
    case MatchupKey => Str(Lower(row.awayTeam + " " + row.homeTeam))
    case PropKey => Str(row.propType)
    case OverGapKey => Num(OverGap(row.prop))
    case UnderGapKey => Num(UnderGap(row.prop))
  }

  /**
   * Player and matchup sort without regard to letter case: rows whose names differ only
   * in case sort alike. Prop types sort as written.
   */
  lemma TextColumnsIgnoreCase(row: PropRow)
    ensures SortValueOf(row.(player := Lower(row.player)), PlayerKey) == SortValueOf(row, PlayerKey)
    ensures SortValueOf(row.(homeTeam := Lower(row.homeTeam), awayTeam := Lower(row.awayTeam)), MatchupKey)
            == SortValueOf(row, MatchupKey)
  {
    LowerIdempotent(row.player);
    LowerIdempotent(row.homeTeam);
    LowerIdempotent(row.awayTeam);
    LowerConcat(row.awayTeam + " ", row.homeTeam);
    LowerConcat(row.awayTeam, " ");
    LowerConcat(Lower(row.awayTeam) + " ", Lower(row.homeTeam));
    LowerConcat(Lower(row.awayTeam), " ");
  }

  function KeyOf(key: SortKey): PropRow -> SortValue {
    row => SortValueOf(row, key)
  }

  /** `[...rows].sort(...)` under the current sort state. */
  function TableRows(rows: seq<PropRow>, key: SortKey, dir: SortDir): seq<PropRow> {
    Sort(rows, KeyOf(key), dir == Asc)
  }

  /**
   * The table shows a permutation of the rows, ordered by the column's value ascending or
   * descending, rows with equal values in their incoming order; on a gap column that is
   * the gap itself, largest first when descending.
   */
  lemma TableRowsSpec(rows: seq<PropRow>, key: SortKey, dir: SortDir)
    ensures multiset(TableRows(rows, key, dir)) == multiset(rows)
    ensures |TableRows(rows, key, dir)| == |rows|
    ensures Ordered(TableRows(rows, key, dir), KeyOf(key), dir == Asc)
    ensures SameKeyOrder(rows, TableRows(rows, key, dir), KeyOf(key))
    ensures key == OverGapKey && dir == Desc ==> forall i, j :: 0 <= i < j < |rows| ==>
      OverGap(TableRows(rows, key, dir)[i].prop) >= OverGap(TableRows(rows, key, dir)[j].prop)
    ensures key == UnderGapKey && dir == Desc ==> forall i, j :: 0 <= i < j < |rows| ==>
      UnderGap(TableRows(rows, key, dir)[i].prop) >= UnderGap(TableRows(rows, key, dir)[j].prop)
  {
    var r := TableRows(rows, key, dir);
    SortOrdered(rows, KeyOf(key), dir == Asc);
    SortStable(rows, KeyOf(key), dir == Asc);
    assert |multiset(r)| == |multiset(rows)|;
    forall i, j | 0 <= i < j < |r|
      ensures !Before(KeyOf(key)(r[j]), KeyOf(key)(r[i]), dir == Asc)
    {
    }
  }

  /** Rows already in table order are shown as they come. */
  lemma TableRowsOfOrdered(rows: seq<PropRow>, key: SortKey, dir: SortDir)
    requires Ordered(rows, KeyOf(key), dir == Asc)
    ensures TableRows(rows, key, dir) == rows
  {
    SortOfOrdered(rows, KeyOf(key), dir == Asc);
  }

  // ---- Sort state ----------------------------------------------------------------

  datatype SortState = SortState(key: SortKey, dir: SortDir)

  /** The table opens sorted by over gap, largest first. */
  const InitialSort := SortState(OverGapKey, Desc)

  /** A header click: the same column flips direction, another column starts descending. */
  function NextSort(s: SortState, clicked: SortKey): (n: SortState)
    ensures n.key == clicked
    ensures s.key == clicked ==> n.dir != s.dir
    ensures s.key != clicked ==> n.dir == Desc
  {
    if s.key == clicked then s.(dir := Flip(s.dir)) else SortState(clicked, Desc)
  }

  /** Clicking a column twice from another column leaves it sorted ascending; a third click restores descending. */
  lemma ClickSequences(s: SortState, k: SortKey)
    ensures NextSort(NextSort(s, k), k).key == k
    ensures s.key == k ==> NextSort(NextSort(s, k), k) == s
    ensures s.key != k ==> NextSort(NextSort(s, k), k).dir == Asc
    ensures s.key != k ==> NextSort(NextSort(NextSort(s, k), k), k) == SortState(k, Desc)
  {
  }

  /** The table's sort state. */
  class TableSort {
    var key: SortKey
    var dir: SortDir

    constructor ()
      ensures SortState(key, dir) == InitialSort
    {
      key := OverGapKey;
      dir := Desc;
    }

    /** `handleSort`. */
    method HandleSort(clicked: SortKey)
      modifies this
      ensures SortState(key, dir) == NextSort(old(SortState(key, dir)), clicked)
    {
      if key == clicked {
        dir := if dir == Asc then Desc else Asc;
      } else {
        key := clicked;
        dir := Desc;
      }
    }

    function Rows(rows: seq<PropRow>): seq<PropRow>
      reads this
    {
      TableRows(rows, key, dir)
    }
  }
}

/**
 * The filter record and the filter controls (app/sports/nba/components/filter.tsx;
 * the record type is declared in oddsBoard.tsx).
 *
 * Every control hands the board a new record that copies the current one with one
 * field replaced; Reset hands it the defaults.
 */
module FilterState {
  import opened Wrappers

  /** `""` (both sides), `"over"` or `"under"`. */
  datatype Direction = AnySide | Over | Under

  /** `""` (no sorting), `"gap"` or `"fdNoVig"`. */
  datatype SortBy = Unsorted | ByGap | ByFdNoVig

  datatype SortDir = Asc | Desc

  datatype Filters = Filters(
    team: string,
    propType: string,
    minGap: real,
    direction: Direction,
    minFdNoVig: real,
    sortBy: SortBy,
    sortDir: SortDir)

  /** `DEFAULT_FILTERS`: nothing selected, no thresholds, unsorted, descending. */
  const DefaultFilters := Filters("", "", 0.0, AnySide, 0.0, Unsorted, Desc)

  /** The board's first filters: the saved record of this session if there is one, else the defaults. */
  function InitialFilters(saved: Option<Filters>): (f: Filters)
    ensures saved.None? ==> f == DefaultFilters
    ensures saved.Some? ==> f == saved.value
  {
    match saved
    case Some(s) => s
    case None => DefaultFilters
  }

  /** 1 when the field is truthy in JavaScript, else 0. */
  function Truthy(b: bool): nat {
    if b then 1 else 0
  }

  /**
   * `activeCount`: how many of team, propType, direction, minGap and minFdNoVig are
   * truthy (a non-empty string, a non-zero number). Sorting settings never count.
   */
  function ActiveCount(f: Filters): (n: nat)
    ensures n <= 5
    ensures n == 0 <==> f.team == "" && f.propType == "" && f.direction == AnySide
                        && f.minGap == 0.0 && f.minFdNoVig == 0.0
  {
    Truthy(f.team != "") + Truthy(f.propType != "") + Truthy(f.direction != AnySide)
    + Truthy(f.minGap != 0.0) + Truthy(f.minFdNoVig != 0.0)
  }

  /** What a number input yields: `parseFloat(value) || 0`, with `None` for empty or unparsable text. */
  function NumberInput(parsed: Option<real>): (x: real)
    ensures parsed.None? ==> x == 0.0
    ensures parsed.Some? ==> x == parsed.value
  {
    match parsed
    case Some(v) => v
    case None => 0.0
  }

  /** One user action on the filter controls. */
  datatype Control =
    | PickTeam(team: string)              // "All Teams" is PickTeam("")
    | PickPropType(propType: string)      // "All" is PickPropType("")
    | PickDirection(direction: Direction)
    | SlideMinGap(value: real)            // the range slider always yields a number
    | TypeMinGap(parsed: Option<real>)
    | TypeMinFdNoVig(parsed: Option<real>)
    | PickSortBy(sortBy: SortBy)
    | ToggleSortDir
    | Reset

  datatype Field = TeamField | PropTypeField | MinGapField | DirectionField | MinFdNoVigField | SortByField | SortDirField

  /** The field a control replaces (Reset replaces them all). */
  function FieldOf(c: Control): Option<Field> {
    match c
    case PickTeam(_) => Some(TeamField)
    case PickPropType(_) => Some(PropTypeField)
    case PickDirection(_) => Some(DirectionField)
    case SlideMinGap(_) => Some(MinGapField)
    case TypeMinGap(_) => Some(MinGapField)
    case TypeMinFdNoVig(_) => Some(MinFdNoVigField)
    case PickSortBy(_) => Some(SortByField)
    case ToggleSortDir => Some(SortDirField)
    case Reset => None
  }

  /** `a` and `b` agree on every field except possibly `field`. */
  predicate SameExcept(a: Filters, b: Filters, field: Field) {
    && (field == TeamField || a.team == b.team)
    && (field == PropTypeField || a.propType == b.propType)
    && (field == MinGapField || a.minGap == b.minGap)
    && (field == DirectionField || a.direction == b.direction)
    && (field == MinFdNoVigField || a.minFdNoVig == b.minFdNoVig)
    && (field == SortByField || a.sortBy == b.sortBy)
    && (field == SortDirField || a.sortDir == b.sortDir)
  }

  /** The sort-direction button: descending becomes ascending and back. */
  function Flip(d: SortDir): (r: SortDir)
    ensures r != d
  {
    if d == Desc then Asc else Desc
  }

  /** The record a control emits, given the current one. */
  function Apply(f: Filters, c: Control): Filters {
    match c
    case PickTeam(t) => f.(team := t)
    case PickPropType(p) => f.(propType := p)
    case PickDirection(d) => f.(direction := d)
    case SlideMinGap(v) => f.(minGap := v)
    case TypeMinGap(parsed) => f.(minGap := NumberInput(parsed))
    case TypeMinFdNoVig(parsed) => f.(minFdNoVig := NumberInput(parsed))
    case PickSortBy(s) => f.(sortBy := s)
    case ToggleSortDir => f.(sortDir := Flip(f.sortDir))
    case Reset => DefaultFilters
  }

  /** Every control but Reset replaces exactly its own field; Reset yields the defaults whatever the state. */
  lemma ControlsReplaceOneField(f: Filters, c: Control)
    ensures FieldOf(c).Some? ==> SameExcept(f, Apply(f, c), FieldOf(c).value)
    ensures c.PickTeam? ==> Apply(f, c).team == c.team
    ensures c.PickPropType? ==> Apply(f, c).propType == c.propType
    ensures c.PickDirection? ==> Apply(f, c).direction == c.direction
    ensures c.SlideMinGap? ==> Apply(f, c).minGap == c.value
    ensures c.TypeMinGap? ==> Apply(f, c).minGap == NumberInput(c.parsed)
    ensures c.TypeMinFdNoVig? ==> Apply(f, c).minFdNoVig == NumberInput(c.parsed)
    ensures c.PickSortBy? ==> Apply(f, c).sortBy == c.sortBy
    ensures c.ToggleSortDir? ==> Apply(f, c).sortDir != f.sortDir
    ensures c.Reset? ==> Apply(f, c) == DefaultFilters && ActiveCount(Apply(f, c)) == 0
  {
  }

  /** Toggling the sort direction twice restores the record. */
  lemma ToggleTwiceRestores(f: Filters)
    ensures Apply(Apply(f, ToggleSortDir), ToggleSortDir) == f
  {
  }

  /** Sorting controls never change the active-filter count. */
  lemma SortControlsNotCounted(f: Filters, c: Control)
    requires c.PickSortBy? || c.ToggleSortDir?
    ensures ActiveCount(Apply(f, c)) == ActiveCount(f)
  {
  }
}

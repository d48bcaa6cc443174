/**
 * The odds payload a snapshot carries and the rows derived from it.
 *
 * A JavaScript record `props[player][propType]` is modelled as an association
 * list kept in the record's key order (the order `Object.entries` yields).
 * Probabilities are exact reals; American odds are integers.
 */
module OddsTypes {
  import opened Wrappers

  /** A pair of values for the two sides of a prop. */
  datatype Sides = Sides(over: real, under: real)

  /** American odds for the two sides of a prop. */
  datatype AmericanOdds = AmericanOdds(over: int, under: int)

  /** One prop line as both books price it: raw odds and vig-free probabilities. */
  datatype NormalizedProp = NormalizedProp(
    line: real,
    siaOdds: AmericanOdds,
    fdOdds: AmericanOdds,
    siaNoVig: Sides,
    fdNoVig: Sides)

  datatype PropEntry = PropEntry(propType: string, prop: NormalizedProp)

  /** All props of one player: the inner record `props[player]`. */
  datatype PlayerProps = PlayerProps(player: string, entries: seq<PropEntry>)

  /** A decoded snapshot payload. */
  datatype NormalizedOdds = NormalizedOdds(homeTeam: string, awayTeam: string, props: seq<PlayerProps>)

  /** One stored scrape of a fixture: when it was taken and what it holds. */
  datatype Snapshot = Snapshot(takenAt: int, odds: NormalizedOdds)

  datatype Fixture = Fixture(id: int, homeTeam: string, awayTeam: string, startDate: string, status: string)

  /** A flattened row: one (player, propType) of one fixture. */
  datatype PropRow = PropRow(
    player: string,
    propType: string,
    prop: NormalizedProp,
    homeTeam: string,
    awayTeam: string,
    startDate: string,
    fixtureId: int)

  /** Record keys are unique: no player twice, and no prop type twice for one player. */
  ghost predicate WellFormedOdds(odds: NormalizedOdds) {
    && (forall i, j :: 0 <= i < j < |odds.props| ==> odds.props[i].player != odds.props[j].player)
    && (forall i :: 0 <= i < |odds.props| ==> DistinctPropTypes(odds.props[i].entries))
  }

  ghost predicate DistinctPropTypes(es: seq<PropEntry>) {
    forall i, j :: 0 <= i < j < |es| ==> es[i].propType != es[j].propType
  }

  /** The inner record of `player`, if the payload has one. */
  function FindPlayer(props: seq<PlayerProps>, player: string): (r: Option<seq<PropEntry>>)
    ensures r.Some? <==> exists i :: 0 <= i < |props| && props[i].player == player
    ensures r.Some? ==> exists i :: 0 <= i < |props| && props[i] == PlayerProps(player, r.value)
  {
    if props == [] then None
    else if props[0].player == player then Some(props[0].entries)
    else
      var r := FindPlayer(props[1..], player);
      assert r.Some? ==> exists i :: 0 <= i < |props[1..]| && props[1..][i] == PlayerProps(player, r.value);
      r
  }

  /** The prop stored under `propType`, if any. */
  function FindProp(es: seq<PropEntry>, propType: string): (r: Option<NormalizedProp>)
    ensures r.Some? <==> exists i :: 0 <= i < |es| && es[i].propType == propType
    ensures r.Some? ==> PropEntry(propType, r.value) in es
  {
    if es == [] then None
    else if es[0].propType == propType then Some(es[0].prop)
    else FindProp(es[1..], propType)
  }

  /** `odds.props[player][propType]`, absent when either key is missing. */
  function LookupProp(odds: NormalizedOdds, player: string, propType: string): Option<NormalizedProp> {
    match FindPlayer(odds.props, player)
    case None => None
    case Some(es) => FindProp(es, propType)
  }

  /** The payload holds `prop` under `props[player][propType]`. */
  ghost predicate HasEntry(odds: NormalizedOdds, player: string, propType: string, prop: NormalizedProp) {
    exists i :: 0 <= i < |odds.props| && odds.props[i].player == player
      && PropEntry(propType, prop) in odds.props[i].entries
  }

  /** Gap on the over side: FanDuel's no-vig probability minus SIA's. */
  function OverGap(p: NormalizedProp): real {
    p.fdNoVig.over - p.siaNoVig.over
  }

  /** Gap on the under side: FanDuel's no-vig probability minus SIA's. */
  function UnderGap(p: NormalizedProp): real {
    p.fdNoVig.under - p.siaNoVig.under
  }

  /** In a well-formed payload the lookup finds exactly the entries the payload holds. */
  lemma {:induction false} LookupFindsEntry(odds: NormalizedOdds, player: string, propType: string, prop: NormalizedProp)
    requires WellFormedOdds(odds)
    ensures LookupProp(odds, player, propType) == Some(prop) <==> HasEntry(odds, player, propType, prop)
  {
    if HasEntry(odds, player, propType, prop) {
      var i :| 0 <= i < |odds.props| && odds.props[i].player == player
        && PropEntry(propType, prop) in odds.props[i].entries;
      FindPlayerUnique(odds.props, i);
      FindPropUnique(odds.props[i].entries, propType, prop);
    }
    if LookupProp(odds, player, propType) == Some(prop) {
      var es := FindPlayer(odds.props, player).value;
      var i :| 0 <= i < |odds.props| && odds.props[i] == PlayerProps(player, es);
      assert PropEntry(propType, prop) in es;
    }
  }

  lemma {:induction false} FindPlayerUnique(props: seq<PlayerProps>, i: nat)
    requires i < |props|
    requires forall a, b :: 0 <= a < b < |props| ==> props[a].player != props[b].player
    ensures FindPlayer(props, props[i].player) == Some(props[i].entries)
  {
    if i > 0 {
      assert props[0].player != props[i].player;
      FindPlayerUnique(props[1..], i - 1);
    }
  }

  lemma {:induction false} FindPropUnique(es: seq<PropEntry>, propType: string, prop: NormalizedProp)
    requires DistinctPropTypes(es)
    requires PropEntry(propType, prop) in es
    ensures FindProp(es, propType) == Some(prop)
  {
    if es[0] != PropEntry(propType, prop) {
      var k :| 0 <= k < |es| && es[k] == PropEntry(propType, prop);
      assert es[0].propType != propType;
      assert es[1..][k - 1] == es[k];
      FindPropUnique(es[1..], propType, prop);
    }
  }
}

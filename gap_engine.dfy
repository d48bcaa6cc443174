/**
 * Gap classification and display helpers shared by the odds card
 * (app/sports/nba/components/oddsCard.tsx) and the props table
 * (app/sports/nba/components/propsTable.tsx). Both files define `gapType` and the
 * sign prefix of `gapDisplay` identically; they are defined once here.
 */
module GapEngine {
  import opened Wrappers
  import opened OddsTypes

  datatype GapClass = Positive | Negative | Neutral

  /** Half-width of the dead zone around zero. */
  const DeadZone: real := 0.001

  /** `gapType`: positive above the dead zone, negative below it, neutral inside it. */
  function GapType(gap: real): (c: GapClass)
    ensures c == Positive <==> gap > DeadZone
    ensures c == Negative <==> gap < -DeadZone
    ensures c == Neutral <==> -DeadZone <= gap <= DeadZone
  {
    if gap > DeadZone then Positive
    else if gap < -DeadZone then Negative
    else Neutral
  }

  /** The sign prefix of `gapDisplay`: "+" for a positive gap, nothing otherwise (a negative number prints its own "-"). */
  function GapSignPrefix(gap: real): (p: string)
    ensures p == "+" <==> gap > 0.0
    ensures p == "" <==> gap <= 0.0
  {
    if gap > 0.0 then "+" else ""
  }

  /**
   * The colour class and the sign prefix agree outside the dead zone; inside it a
   * small positive gap is shown with "+" yet coloured neutral.
   */
  lemma ClassAgreesWithSign(gap: real)
    ensures GapType(gap) == Positive ==> GapSignPrefix(gap) == "+"
    ensures GapType(gap) == Negative ==> GapSignPrefix(gap) == ""
    ensures GapType(0.0005) == Neutral && GapSignPrefix(0.0005) == "+"
  {
  }

  /** `OddsComparison`: each side's gap, classified on its own. */
  function CardGapClasses(p: NormalizedProp): (r: (GapClass, GapClass))
    ensures r.0 == GapType(p.fdNoVig.over - p.siaNoVig.over)
    ensures r.1 == GapType(p.fdNoVig.under - p.siaNoVig.under)
  {
    (GapType(OverGap(p)), GapType(UnderGap(p)))
  }

  // ---- American odds as text -------------------------------------------------

  function DigitChar(d: nat): char
    requires d < 10
  {
    "0123456789"[d]
  }

  predicate IsDigit(c: char) {
    '0' <= c <= '9'
  }

  function DigitValue(c: char): nat
    requires IsDigit(c)
  {
    c as nat - '0' as nat
  }

  /** Decimal text of a natural number, no leading zeros. */
  function NatToString(n: nat): (s: string)
    ensures |s| > 0 && forall i :: 0 <= i < |s| ==> IsDigit(s[i])
    decreases n
  {
    if n < 10 then [DigitChar(n)] else NatToString(n / 10) + [DigitChar(n % 10)]
  }

  /** How JavaScript writes an integer: decimal, with "-" for a negative one. */
  function IntToString(n: int): string {
    if n < 0 then "-" + NatToString(-n) else NatToString(n)
  }

  /** `fmtOdds`: "+" in front of a positive number; zero and negatives as they print. */
  function FmtOdds(n: int): (s: string)
    ensures |s| > 0
    ensures s[0] == '+' <==> n > 0
    ensures s[0] == '-' <==> n < 0
  {
    if n > 0 then "+" + IntToString(n) else IntToString(n)
  }

  /** Reads a string of digits back as a number. */
  function ParseDigits(s: string): Option<nat>
    decreases |s|
  {
    if s == [] || !IsDigit(s[|s| - 1]) then None
    else if |s| == 1 then Some(DigitValue(s[0]))
    else match ParseDigits(s[..|s| - 1])
      case None => None
      case Some(v) => Some(v * 10 + DigitValue(s[|s| - 1]))
  }

  /** Reads odds text: an optional "+" or "-" sign, then digits. */
  function ParseOdds(s: string): Option<int> {
    if s == [] then None
    else if s[0] == '+' then ParseDigits(s[1..])
    else if s[0] == '-' then
      match ParseDigits(s[1..])
      case None => None
      case Some(v) => Some(-(v as int))
    else ParseDigits(s)
  }

  lemma {:induction false} ParseNatToString(n: nat)
    ensures ParseDigits(NatToString(n)) == Some(n)
    decreases n
  {
    if n >= 10 {
      var s := NatToString(n);
      assert s[..|s| - 1] == NatToString(n / 10);
      ParseNatToString(n / 10);
    }
  }

  /** The formatted odds read back as the same number: `fmtOdds` loses nothing. */
  lemma FmtOddsRoundTrip(n: int)
    ensures ParseOdds(FmtOdds(n)) == Some(n)
  {
    if n > 0 {
      SignedRoundTrip('+', n);
    } else if n < 0 {
      SignedRoundTrip('-', -n);
    } else {
      assert FmtOdds(n) == NatToString(0) == "0";
    }
  }

  lemma SignedRoundTrip(sign: char, v: nat)
    requires v > 0 && (sign == '+' || sign == '-')
    ensures ParseOdds([sign] + NatToString(v)) == Some(if sign == '+' then v as int else -(v as int))
    ensures sign == '+' ==> FmtOdds(v) == [sign] + NatToString(v)
    ensures sign == '-' ==> FmtOdds(-(v as int)) == [sign] + NatToString(v)
  {
    var t := NatToString(v);
    assert ([sign] + t)[0] == sign && ([sign] + t)[1..] == t;
    ParseNatToString(v);
  }



  // ---- Prop labels -----------------------------------------------------------

  /** `PROP_LABELS` of the odds card (also used by the filter's prop-type buttons). */
  const CardPropLabels: map<string, string> := map[
    "points" := "PTS",
    "rebounds" := "REB",
    "assists" := "AST",
    "threes" := "3PTS",
    "points_rebounds_assists" := "P+R+A",
    "points_assists" := "P+A",
    "points_rebounds" := "P+R",
    "rebounds_assists" := "R+A"]

  /** `PROP_LABELS` of the props table. */
  const TablePropLabels: map<string, string> := map[
    "points" := "Points",
    "rebounds" := "Rebounds",
    "assists" := "Assists",
    "threes" := "Threes",
    "points_rebounds_assists" := "Pts + Reb + Ast",
    "points_assists" := "Pts + Ast",
    "points_rebounds" := "Pts + Reb",
    "rebounds_assists" := "Reb + Ast"]

  /** `PROP_LABELS[propType] ?? propType`. */
  function PropLabel(labels: map<string, string>, propType: string): (text: string)
    ensures propType in labels ==> text == labels[propType]
    ensures propType !in labels ==> text == propType
  {
    if propType in labels then labels[propType] else propType
  }

  /** A known prop type is shown under its label, an unknown one under its raw name. */
  lemma LabelExamples()
    ensures PropLabel(CardPropLabels, "points") == "PTS"
    ensures PropLabel(TablePropLabels, "points_assists") == "Pts + Ast"
    ensures PropLabel(CardPropLabels, "blocks") == "blocks"
  {
  }
}

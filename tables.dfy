/** The collector's fixed tables: the ten zones, the level-to-colour and
    level-to-label tables, the advice table and the zone coordinates. */
module Tables {
  import opened Records

  /** The ten zones, in collection order. */
  const Zones: seq<string> := [
    "Var Est", "Var Ouest", "Bouches-du-Rhône Nord", "Bouches-du-Rhône Sud",
    "Vaucluse", "Alpes-de-Haute-Provence", "Hautes-Alpes", "Alpes-Maritimes",
    "Gard", "Hérault"
  ]

  /** A risk level the tables know. */
  predicate IsLevel(level: int) {
    1 <= level <= 5
  }

  const Colors: seq<string> := ["green", "yellow", "orange", "red", "darkred"]
  const UnknownColor := "gray"

  const Labels: seq<string> := ["Très faible", "Faible", "Modéré", "Élevé", "Très élevé"]
  const UnknownLabel := "Inconnu"

  /** `getRiskColor`: the colour of a level, `gray` for anything the table lacks. */
  function RiskColor(level: int): (c: string)
    ensures c == UnknownColor <==> !IsLevel(level)
    ensures IsLevel(level) ==> c in Colors
  {
    if IsLevel(level) then Colors[level - 1] else UnknownColor
  }

  /** `getRiskLabel`: the label of a level, `Inconnu` for anything the table lacks. */
  function RiskLabel(level: int): (l: string)
    ensures l == UnknownLabel <==> !IsLevel(level)
    ensures IsLevel(level) ==> l in Labels
  {
    if IsLevel(level) then Labels[level - 1] else UnknownLabel
  }

  /** Distinct known levels get distinct colours and distinct labels, so the
      colour (or the label) of a record determines its level. */
  lemma ClassifiersInjective(a: int, b: int)
    requires IsLevel(a) && IsLevel(b)
    ensures RiskColor(a) == RiskColor(b) ==> a == b
    ensures RiskLabel(a) == RiskLabel(b) ==> a == b
  {
    if a != b {
      assert Colors[a - 1][0] != Colors[b - 1][0];
      assert Labels[a - 1][0] != Labels[b - 1][0] || |Labels[a - 1]| != |Labels[b - 1]|;
    }
  }

  const RecommendationTable: seq<seq<string>> := [
    ["Conditions normales", "Surveillance habituelle"],
    ["Prudence recommandée", "Éviter feux ouverts"],
    ["Vigilance accrue", "Interdiction feux", "Surveillance renforcée"],
    ["Alerte élevée", "Interdiction totale feux", "Préparation évacuation"],
    ["DANGER MAXIMUM", "Évacuation préventive", "Moyens de secours mobilisés"]
  ]
  const FallbackRecommendation := "Suivre consignes officielles"

  /** `generateRecommendations`: two pieces of advice for levels 1-2, three
      for levels 3-5, the single generic advice otherwise; never empty. */
  function GenerateRecommendations(level: int): (recs: seq<string>)
    ensures recs != []
    ensures 1 <= level <= 2 ==> |recs| == 2
    ensures 3 <= level <= 5 ==> |recs| == 3
    ensures !IsLevel(level) <==> recs == [FallbackRecommendation]
  {
    if IsLevel(level) then RecommendationTable[level - 1] else [FallbackRecommendation]
  }

  const CoordinateTable: map<string, Coordinates> := map[
    "Var Est" := Coordinates(431242, 67357),
    "Var Ouest" := Coordinates(430969, 60756),
    "Bouches-du-Rhône Nord" := Coordinates(435297, 54474),
    "Bouches-du-Rhône Sud" := Coordinates(432965, 53698),
    "Vaucluse" := Coordinates(439493, 50459),
    "Alpes-de-Haute-Provence" := Coordinates(440937, 62356),
    "Hautes-Alpes" := Coordinates(445579, 60778),
    "Alpes-Maritimes" := Coordinates(437102, 72620),
    "Gard" := Coordinates(438374, 43601),
    "Hérault" := Coordinates(436119, 38772)
  ]

  /** The coordinates used for a zone the table lacks: (43.0, 6.0). */
  const FallbackCoordinates := Coordinates(430000, 60000)

  /** `getZoneCoordinates`: the table entry of a zone, the fallback for an unknown name. */
  function ZoneCoordinates(zoneName: string): (c: Coordinates)
    ensures zoneName in CoordinateTable ==> c == CoordinateTable[zoneName]
    ensures c == FallbackCoordinates <==> zoneName !in CoordinateTable
  {
    if zoneName in CoordinateTable then CoordinateTable[zoneName] else FallbackCoordinates
  }

  /** The coordinate table holds exactly the ten collected zones, and no
      collected zone falls back to the default position. */
  lemma {:induction false} ZonesHaveCoordinates()
    ensures CoordinateTable.Keys == set z | z in Zones
    ensures forall i :: 0 <= i < |Zones| ==> ZoneCoordinates(Zones[i]) != FallbackCoordinates
    ensures |Zones| == 10
  {
  }
}

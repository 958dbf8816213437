/** The collector (`FireDataCollector`): synthesises one record per zone from
    random draws, then inserts the records one by one into the store. The
    random number generator, the clock and the store are parameters: a draw is
    the value `Math.random()` returned, an insert outcome is what the store
    answered. */
module Collector {
  import opened Records
  import opened Tables

  // ---------------------------------------------------------------- alerts

  const HighRiskAlert := "🚨 Risque incendie élevé"
  const HeatAlert := "🌡️ Température très élevée"
  const DrynessAlert := "💧 Humidité très faible"
  const WindAlert := "💨 Vent fort"
  const NoAlert := "✅ Aucune alerte"

  /** Every alert that can fire, in the order they are checked. */
  const AllAlerts: seq<string> := [HighRiskAlert, HeatAlert, DrynessAlert, WindAlert]

  /** Which thresholds hold, in the order of `AllAlerts`. */
  function Thresholds(riskLevel: int, temp: int, humidity: int, wind: int): (t: seq<bool>)
    ensures |t| == |AllAlerts|
  {
    [riskLevel >= 4, temp > 35, humidity < 30, wind > 25]
  }

  /** Reference definition of the alert list: the alerts whose threshold holds,
      in table order, or the single no-alert entry when none does. */
  function AlertsFor(riskLevel: int, temp: int, humidity: int, wind: int): seq<string> {
    var fired := Select(AllAlerts, Thresholds(riskLevel, temp, humidity, wind));
    if fired == [] then [NoAlert] else fired
  }

  /** Position of an alert in the checking order (4 for anything else). */
  function AlertRank(alert: string): nat {
    if alert == HighRiskAlert then 0
    else if alert == HeatAlert then 1
    else if alert == DrynessAlert then 2
    else if alert == WindAlert then 3
    else 4
  }

  /** The five alert texts are pairwise distinct: each has its own rank. */
  lemma AlertRanks()
    ensures AlertRank(HighRiskAlert) == 0 && AlertRank(HeatAlert) == 1
    ensures AlertRank(DrynessAlert) == 2 && AlertRank(WindAlert) == 3
    ensures AlertRank(NoAlert) == 4
  {
    assert HeatAlert[0] != HighRiskAlert[0];
    assert DrynessAlert[0] != HighRiskAlert[0] && DrynessAlert[0] != HeatAlert[0];
    assert WindAlert[0] != HighRiskAlert[0] && WindAlert[0] != HeatAlert[0] && WindAlert[0] != DrynessAlert[0];
    assert NoAlert[0] != HighRiskAlert[0] && NoAlert[0] != HeatAlert[0];
    assert NoAlert[0] != DrynessAlert[0] && NoAlert[0] != WindAlert[0];
  }

  /** Selection out of a four-element table, written out. */
  lemma SelectFour<T>(xs: seq<T>, keep: seq<bool>)
    requires |xs| == 4 && |keep| == 4
    ensures Select(xs, keep) ==
      (if keep[0] then [xs[0]] else []) + (if keep[1] then [xs[1]] else []) +
      (if keep[2] then [xs[2]] else []) + (if keep[3] then [xs[3]] else [])
  {
    var c0, c1, c2, c3 :=
      (if keep[0] then [xs[0]] else []), (if keep[1] then [xs[1]] else []),
      (if keep[2] then [xs[2]] else []), (if keep[3] then [xs[3]] else []);
    var x1, x2, x3 := xs[..1], xs[..2], xs[..3];
    var k1, k2, k3 := keep[..1], keep[..2], keep[..3];
    assert x1[..0] == [] && k1[..0] == [];
    assert x2[..1] == x1 && k2[..1] == k1;
    assert x3[..2] == x2 && k3[..2] == k2;
    assert xs[..3] == x3 && keep[..3] == k3;
    assert Select(x1, k1) == c0;
    assert Select(x2, k2) == c0 + c1;
    assert Select(x3, k3) == c0 + c1 + c2;
  }

  /** What the alert list contains: never empty, at most four entries, the
      no-alert entry exactly when no threshold holds, and each alert exactly
      when its threshold holds. */
  lemma AlertsForProperties(riskLevel: int, temp: int, humidity: int, wind: int)
    ensures var alerts := AlertsFor(riskLevel, temp, humidity, wind);
      && alerts != [] && |alerts| <= 4
      && (alerts == [NoAlert] <==> riskLevel < 4 && temp <= 35 && humidity >= 30 && wind <= 25)
      && (HighRiskAlert in alerts <==> riskLevel >= 4)
      && (HeatAlert in alerts <==> temp > 35)
      && (DrynessAlert in alerts <==> humidity < 30)
      && (WindAlert in alerts <==> wind > 25)
  {
    AlertRanks();
    SelectFour(AllAlerts, Thresholds(riskLevel, temp, humidity, wind));
  }

  /** Fired alerts keep the checking order: high risk, heat, dryness, wind. */
  lemma AlertsForInOrder(riskLevel: int, temp: int, humidity: int, wind: int)
    ensures var alerts := AlertsFor(riskLevel, temp, humidity, wind);
      alerts != [NoAlert] ==> forall i, j :: 0 <= i < j < |alerts| ==> AlertRank(alerts[i]) < AlertRank(alerts[j])
  {
    AlertRanks();
    SelectFour(AllAlerts, Thresholds(riskLevel, temp, humidity, wind));
  }

  /** `generateAlerts`: pushes each alert whose threshold holds, then replaces
      an empty list by the no-alert entry. */
  method GenerateAlerts(riskLevel: int, temp: int, humidity: int, wind: int) returns (alerts: seq<string>)
    ensures alerts == AlertsFor(riskLevel, temp, humidity, wind)
    ensures alerts != [] && |alerts| <= 4
    ensures alerts == [NoAlert] <==> riskLevel < 4 && temp <= 35 && humidity >= 30 && wind <= 25
    ensures HighRiskAlert in alerts <==> riskLevel >= 4
    ensures HeatAlert in alerts <==> temp > 35
    ensures DrynessAlert in alerts <==> humidity < 30
    ensures WindAlert in alerts <==> wind > 25
  {
    ghost var high, heat, dry, windy :=
      (if riskLevel >= 4 then [HighRiskAlert] else []), (if temp > 35 then [HeatAlert] else []),
      (if humidity < 30 then [DrynessAlert] else []), (if wind > 25 then [WindAlert] else []);
    var pushed: seq<string> := [];
    if riskLevel >= 4 { pushed := pushed + [HighRiskAlert]; }
    assert pushed == high;
    if temp > 35 { pushed := pushed + [HeatAlert]; }
    assert pushed == high + heat;
    if humidity < 30 { pushed := pushed + [DrynessAlert]; }
    assert pushed == high + heat + dry;
    if wind > 25 { pushed := pushed + [WindAlert]; }
    assert pushed == high + heat + dry + windy;
    alerts := if |pushed| > 0 then pushed else [NoAlert];
    SelectFour(AllAlerts, Thresholds(riskLevel, temp, humidity, wind));
    AlertsForProperties(riskLevel, temp, humidity, wind);
  }

  /** Nothing fires on a calm day; all four fire, in order, on a dangerous one. */
  lemma AlertExamples()
    ensures AlertsFor(1, 20, 50, 10) == [NoAlert]
    ensures AlertsFor(5, 38, 25, 30) == [HighRiskAlert, HeatAlert, DrynessAlert, WindAlert]
  {
    SelectFour(AllAlerts, Thresholds(1, 20, 50, 10));
    SelectFour(AllAlerts, Thresholds(5, 38, 25, 30));
  }

  // ------------------------------------------------------------- synthesis

  /** One value of `Math.random()`. */
  predicate IsUnitDraw(u: real) {
    0.0 <= u < 1.0
  }

  /** `Math.floor(Math.random() * span) + base`. */
  function RandomInt(u: real, span: nat, base: int): (k: int)
    requires IsUnitDraw(u) && span > 0
    ensures base <= k < base + span
  {
    UnitScale(u, span as real);
    (u * span as real).Floor + base
  }

  lemma UnitScale(u: real, m: real)
    requires IsUnitDraw(u) && m > 0.0
    ensures 0.0 <= u * m < m
  {
    assert (1.0 - u) * m > 0.0;
  }

  /** The values `RandomInt` can produce are exactly `base .. base + span - 1`:
      the bounds are tight, so temperature reaches 39 but never 40. */
  lemma RandomIntRange(span: nat, base: int, k: int)
    requires span > 0
    ensures (exists u :: IsUnitDraw(u) && RandomInt(u, span, base) == k) <==> base <= k < base + span
  {
    if base <= k < base + span {
      var u := (k - base) as real / span as real;
      assert u * span as real == (k - base) as real;
      assert IsUnitDraw(u) && RandomInt(u, span, base) == k;
    }
  }

  /** The five `Math.random()` results one synthesis consumes. */
  datatype Draw = Draw(level: real, temperature: real, humidity: real, wind: real, precipitation: real)

  predicate ValidDraw(d: Draw) {
    IsUnitDraw(d.level) && IsUnitDraw(d.temperature) && IsUnitDraw(d.humidity)
    && IsUnitDraw(d.wind) && IsUnitDraw(d.precipitation)
  }

  const SyntheticSources: seq<string> := ["Préfecture", "Météo France", "Géorisques"]

  /** The record invariant: a known level, with the colour and label the
      tables give it, and non-empty alerts and advice. */
  predicate Consistent(r: ZoneRecord) {
    IsLevel(r.riskLevel) && r.riskColor == RiskColor(r.riskLevel) && r.riskLabel == RiskLabel(r.riskLevel)
    && r.alerts != [] && r.recommendations != []
  }

  /** The successful branch of `collectZoneData`. Temperature lies in [25, 39],
      humidity in [20, 59], wind in [5, 34]; precipitation is `10 * u`. */
  function SynthesizeRecord(zoneName: string, d: Draw, date: string, time: string): (r: ZoneRecord)
    requires ValidDraw(d)
    ensures Consistent(r)
    ensures r.zoneName == zoneName && r.date == Some(date) && r.updateTime == time
    ensures r.weather.Measured?
    ensures 25 <= r.weather.temperature <= 39
    ensures 20 <= r.weather.humidity <= 59
    ensures 5 <= r.weather.windSpeed <= 34
    ensures r.alerts == AlertsFor(r.riskLevel, r.weather.temperature, r.weather.humidity, r.weather.windSpeed)
    ensures r.recommendations == GenerateRecommendations(r.riskLevel)
    ensures r.coordinates == Some(ZoneCoordinates(zoneName))
  {
    var level := RandomInt(d.level, 5, 1);
    var temperature := RandomInt(d.temperature, 15, 25);
    var humidity := RandomInt(d.humidity, 40, 20);
    var wind := RandomInt(d.wind, 30, 5);
    SelectEmpty(AllAlerts, Thresholds(level, temperature, humidity, wind));
    ZoneRecord(
      zoneName, level, RiskColor(level), RiskLabel(level),
      Measured(temperature, humidity, wind, Some(d.precipitation * 10.0)),
      AlertsFor(level, temperature, humidity, wind),
      GenerateRecommendations(level),
      SyntheticSources, Some(date), time, Some(ZoneCoordinates(zoneName)))
  }

  /** The record the `catch` branch of `collectZoneData` returns: the zone keeps
      its name, date and time, the weather is marked unavailable, the alert and
      advice lists each hold one entry, and the position is the fallback one. */
  function DefaultRecord(zoneName: string, date: string, time: string): (r: ZoneRecord)
    ensures r.zoneName == zoneName && r.date == Some(date) && r.updateTime == time
    ensures r.weather.Unavailable? && |r.alerts| == 1 && |r.recommendations| == 1 && |r.dataSources| == 1
    ensures r.coordinates == Some(FallbackCoordinates)
  {
    ZoneRecord(
      zoneName, 2, "orange", "Modéré",
      Unavailable("Données indisponibles"),
      ["Erreur collecte données"], ["Vérifier sources données"], ["Système par défaut"],
      Some(date), time, Some(Coordinates(430000, 60000)))
  }

  /** The degraded record breaks the record invariant: it says level 2 but
      carries the colour and label of level 3. Its position is the fallback one. */
  lemma DefaultRecordInconsistent(zoneName: string, date: string, time: string)
    ensures var r := DefaultRecord(zoneName, date, time);
      && !Consistent(r)
      && r.riskLevel == 2
      && r.riskColor == RiskColor(3) && r.riskLabel == RiskLabel(3)
      && r.riskColor != RiskColor(r.riskLevel)
      && r.coordinates == Some(FallbackCoordinates)
  {
    ClassifiersInjective(2, 3);
  }

  /** `collectZoneData`: `None` stands for a synthesis that threw. */
  function CollectZoneData(zoneName: string, synthesis: Option<Draw>, date: string, time: string): (r: ZoneRecord)
    requires synthesis.Some? ==> ValidDraw(synthesis.value)
    ensures r.zoneName == zoneName && r.date == Some(date) && r.updateTime == time
    ensures synthesis.Some? ==> Consistent(r)
    ensures synthesis.None? ==> r == DefaultRecord(zoneName, date, time)
    ensures r.alerts != [] && r.recommendations != []
  {
    match synthesis
    case Some(d) => SynthesizeRecord(zoneName, d, date, time)
    case None => DefaultRecord(zoneName, date, time)
  }

  predicate ValidDraws(draws: seq<Option<Draw>>) {
    forall i :: 0 <= i < |draws| && draws[i].Some? ==> ValidDraw(draws[i].value)
  }

  /** `collectAllZonesData`: one record per zone, in zone order; a failing zone
      yields its default record and the loop goes on. */
  method CollectAllZonesData(zones: seq<string>, draws: seq<Option<Draw>>, date: string, time: string)
    returns (fireData: seq<ZoneRecord>)
    requires |draws| == |zones| && ValidDraws(draws)
    ensures |fireData| == |zones|
    ensures forall i :: 0 <= i < |zones| ==> fireData[i] == CollectZoneData(zones[i], draws[i], date, time)
    ensures forall i :: 0 <= i < |zones| ==> fireData[i].zoneName == zones[i]
  {
    fireData := [];
    var i := 0;
    while i < |zones|
      invariant 0 <= i <= |zones|
      invariant |fireData| == i
      invariant forall k :: 0 <= k < i ==> fireData[k] == CollectZoneData(zones[k], draws[k], date, time)
    {
      var zoneData := CollectZoneData(zones[i], draws[i], date, time);
      fireData := fireData + [zoneData];
      i := i + 1;
    }
  }

  // ------------------------------------------------------------ persisting

  /** What the log says for one insert. */
  datatype InsertResult = Saved(zone: string) | NotSaved(zone: string)

  /** `saveToSupabase`: one insert per record, in order, whatever the earlier
      inserts answered. `insertOk[i]` is the store's answer to insert `i`; the
      rows that were accepted are appended to the store. */
  method SaveToStore(rows: seq<ZoneRecord>, fireData: seq<ZoneRecord>, insertOk: seq<bool>)
    returns (newRows: seq<ZoneRecord>, log: seq<InsertResult>)
    requires |insertOk| == |fireData|
    ensures |log| == |fireData|
    ensures forall i :: 0 <= i < |fireData| ==> log[i].zone == fireData[i].zoneName
    ensures forall i :: 0 <= i < |fireData| ==> (log[i].Saved? <==> insertOk[i])
    ensures newRows == rows + Select(fireData, insertOk)
  {
    newRows, log := rows, [];
    var i := 0;
    while i < |fireData|
      invariant 0 <= i <= |fireData|
      invariant |log| == i
      invariant forall k :: 0 <= k < i ==> log[k].zone == fireData[k].zoneName
      invariant forall k :: 0 <= k < i ==> (log[k].Saved? <==> insertOk[k])
      invariant newRows == rows + Select(fireData[..i], insertOk[..i])
    {
      assert fireData[..i + 1][..i] == fireData[..i];
      assert insertOk[..i + 1][..i] == insertOk[..i];
      if insertOk[i] {
        newRows := newRows + [fireData[i]];
        log := log + [Saved(fireData[i].zoneName)];
      } else {
        log := log + [NotSaved(fireData[i].zoneName)];
      }
      i := i + 1;
    }
    assert fireData[..i] == fireData;
    assert insertOk[..i] == insertOk;
  }

  /** The records `collectAllZonesData` produces for the ten zones. */
  function Collected(draws: seq<Option<Draw>>, date: string, time: string): (r: seq<ZoneRecord>)
    requires |draws| == |Zones| && ValidDraws(draws)
    ensures |r| == |Zones| && forall i :: 0 <= i < |Zones| ==> r[i].zoneName == Zones[i]
  {
    seq(|Zones|, i requires 0 <= i < |Zones| => CollectZoneData(Zones[i], draws[i], date, time))
  }

  /** The outcome of `FireDataCollector.run`: the store's rows afterwards, the
      insert log and the process exit code. */
  datatype RunResult = RunResult(rows: seq<ZoneRecord>, log: seq<InsertResult>, exitCode: int)

  /** `run`: a failed connection probe aborts before any zone is collected or
      inserted (exit 1); otherwise every zone is collected and an insert is
      attempted for each, and the run succeeds (exit 0) whatever the inserts
      answered. */
  method Run(connected: bool, rows: seq<ZoneRecord>, draws: seq<Option<Draw>>, insertOk: seq<bool>,
             date: string, time: string)
    returns (result: RunResult)
    requires |draws| == |Zones| && ValidDraws(draws) && |insertOk| == |Zones|
    ensures !connected ==> result == RunResult(rows, [], 1)
    ensures connected ==> result.exitCode == 0 && |result.log| == |Zones|
    ensures connected ==> forall i :: 0 <= i < |Zones| ==> result.log[i].zone == Zones[i]
    ensures connected ==> forall i :: 0 <= i < |Zones| ==> (result.log[i].Saved? <==> insertOk[i])
    ensures connected ==> result.rows == rows + Select(Collected(draws, date, time), insertOk)
  {
    if !connected {
      return RunResult(rows, [], 1);
    }
    var fireData := CollectAllZonesData(Zones, draws, date, time);
    assert fireData == Collected(draws, date, time);
    var newRows, log := SaveToStore(rows, fireData, insertOk);
    result := RunResult(newRows, log, 0);
  }
}

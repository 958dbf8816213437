/** The dashboard client (`FireRiskApp`): fetches the snapshot, decides between
    the operational view, the no-data view and the demo fallback, and keeps
    the status banner and the stats panel. The fetch result is a parameter;
    the page is abstracted to the view shown, the stats panel and the banner. */
module Client {
  import opened Records
  import opened Tables
  import opened Stats

  /** The stats object as the client reads it: any field may be missing. */
  datatype StatsFields = StatsFields(
    totalZones: Option<int>,
    highRiskZones: Option<int>,
    averageRisk: Option<real>,
    status: Option<string>)

  /** The parsed JSON document. `success` is its truthiness; `data` is `None`
      when the field is missing or not a list; `generatedAt` is `None` when
      there is no `meta` object, else its `generated_at`. */
  datatype Payload = Payload(
    success: bool,
    data: Option<seq<ZoneRecord>>,
    stats: Option<StatsFields>,
    generatedAt: Option<string>)

  datatype Body = Json(payload: Payload) | Unparseable(message: string)

  /** What `fetch` produced: an HTTP response, or a rejected promise. */
  datatype Response = Response(status: nat, body: Body) | NetworkFailure(message: string)

  /** `response.ok`. */
  predicate IsOk(status: nat) {
    200 <= status <= 299
  }

  /** The three ways `loadData` ends. */
  datatype Outcome =
    | Operational(data: seq<ZoneRecord>, stats: Option<StatsFields>, generatedAt: Option<string>)
    | NoDataYet
    | Failed(message: string)

  function Digit(d: nat): char
    requires d < 10
  {
    "0123456789"[d]
  }

  function NatToString(n: nat): string {
    if n < 10 then [Digit(n)] else NatToString(n / 10) + [Digit(n % 10)]
  }

  const InvalidStructure := "Structure JSON invalide"

  /** The branch structure of `loadData`: a non-ok status throws; a successful
      document with rows is operational; an empty row list is the no-data case,
      whatever `success` says; everything else throws the invalid-structure error. */
  function Classify(r: Response): (o: Outcome)
    ensures o.Operational? <==>
      r.Response? && IsOk(r.status) && r.body.Json? && r.body.payload.success
      && r.body.payload.data.Some? && |r.body.payload.data.value| > 0
    ensures o.Operational? ==>
      o.data == r.body.payload.data.value && o.stats == r.body.payload.stats
      && o.generatedAt == r.body.payload.generatedAt
    ensures o.NoDataYet? <==>
      r.Response? && IsOk(r.status) && r.body.Json? && r.body.payload.data == Some([])
    ensures o.Failed? <==>
      r.NetworkFailure? || !IsOk(r.status) || r.body.Unparseable? || r.body.payload.data.None?
      || (!r.body.payload.success && r.body.payload.data.value != [])
    ensures r.NetworkFailure? ==> o == Failed(r.message)
    ensures r.Response? && !IsOk(r.status) ==> o == Failed("Fichier JSON non trouvé: " + NatToString(r.status))
    ensures r.Response? && IsOk(r.status) && r.body.Unparseable? ==> o == Failed(r.body.message)
    ensures r.Response? && IsOk(r.status) && r.body.Json? && o.Failed? ==> o == Failed(InvalidStructure)
  {
    match r
    case NetworkFailure(message) => Failed(message)
    case Response(status, body) =>
      if !IsOk(status) then Failed("Fichier JSON non trouvé: " + NatToString(status))
      else
        match body
        case Unparseable(message) => Failed(message)
        case Json(p) =>
          if p.success && p.data.Some? && |p.data.value| > 0 then Operational(p.data.value, p.stats, p.generatedAt)
          else if p.data.Some? && |p.data.value| == 0 then NoDataYet
          else Failed(InvalidStructure)
  }

  // ------------------------------------------------------------ status banner

  // Each banner message is a status icon followed by its text.
  const OperationalMessage := "🟢" + " Opérationnel - Données à jour"
  const NoDataMessage := "🟡" + " En attente - Prochaine mise à jour programmée"
  const ErrorMessage := "🔴" + " Erreur - Données de démonstration affichées"
  const DemoMessage := "🎭" + " Mode démonstration"

  const StatusMessages: map<string, string> := map[
    "operational" := OperationalMessage,
    "no_data" := NoDataMessage,
    "error" := ErrorMessage,
    "demo" := DemoMessage
  ]
  const UnknownStatusMessage := "⚪" + " Statut inconnu"

  /** The banner text of a status: the table's message for the four known
      statuses, the unknown-status text for anything else. */
  function StatusMessage(status: string): (m: string)
    ensures status in StatusMessages ==> m == StatusMessages[status]
    ensures m == UnknownStatusMessage <==> status !in StatusMessages
  {
    assert OperationalMessage[0] != UnknownStatusMessage[0] && NoDataMessage[0] != UnknownStatusMessage[0];
    assert ErrorMessage[0] != UnknownStatusMessage[0] && DemoMessage[0] != UnknownStatusMessage[0];
    if status in StatusMessages then StatusMessages[status] else UnknownStatusMessage
  }

  /** What the banner shows: the status class, its message, the generation
      time when a meta object was given, the error text when one was given. */
  datatype Banner = Banner(status: string, message: string, generatedAt: Option<string>, error: Option<string>)

  // ------------------------------------------------------------ stats panel

  /** The four stats cells of the page. */
  datatype StatsView = StatsView(zones: int, highRisk: int, average: real, lastUpdate: string)

  /** The last-update cell: the first record's time (`Inconnue` when blank),
      or `Aucune donnée` when there is no record. */
  function LastUpdateText(data: seq<ZoneRecord>): string {
    if |data| > 0 then (if data[0].updateTime == "" then "Inconnue" else data[0].updateTime)
    else "Aucune donnée"
  }

  /** `updateStats` on a present stats object: present values are shown as
      given, missing counts show 0 and a missing mean shows 0.0. */
  function StatsDisplay(s: StatsFields, data: seq<ZoneRecord>): (v: StatsView)
    ensures v.zones == (if s.totalZones.Some? then s.totalZones.value else 0)
    ensures v.highRisk == (if s.highRiskZones.Some? then s.highRiskZones.value else 0)
    ensures v.average == (if s.averageRisk.Some? then s.averageRisk.value else 0.0)
    ensures data == [] ==> v.lastUpdate == "Aucune donnée"
    ensures data != [] && data[0].updateTime == "" ==> v.lastUpdate == "Inconnue"
    ensures data != [] && data[0].updateTime != "" ==> v.lastUpdate == data[0].updateTime
  {
    StatsView(s.totalZones.GetOr(0), s.highRiskZones.GetOr(0), s.averageRisk.GetOr(0.0), LastUpdateText(data))
  }

  // ---------------------------------------------------------------- demo data

  function DemoRecord(zone: string, level: int, color: string, riskLabel: string, temp: int, humidity: int,
                      wind: int, alerts: seq<string>, recs: seq<string>): ZoneRecord
  {
    ZoneRecord(zone, level, color, riskLabel, Measured(temp, humidity, wind, None), alerts, recs, [], None, "12:00:00", None)
  }

  /** The three records of `loadDemoData`. */
  const DemoRecords: seq<ZoneRecord> := [
    DemoRecord("Var Est", 3, "orange", "Modéré", 28, 45, 15, ["Prudence recommandée"], ["Éviter feux ouverts"]),
    DemoRecord("Var Ouest", 4, "red", "Élevé", 32, 35, 20, ["🚨 Risque incendie élevé"],
               ["Interdiction feux", "Surveillance renforcée"]),
    DemoRecord("Bouches-du-Rhône", 2, "yellow", "Faible", 26, 55, 10, ["✅ Aucune alerte"], ["Surveillance habituelle"])
  ]

  /** The hard-coded stats of the demo. */
  const DemoStats := StatsFields(Some(3), Some(1), Some(3.0), Some("demo"))

  /** Every demo record's colour and label are the ones the collector's tables
      give its level. */
  lemma DemoRecordsConsistent()
    ensures forall i :: 0 <= i < |DemoRecords| ==>
      var r := DemoRecords[i];
      IsLevel(r.riskLevel) && r.riskColor == RiskColor(r.riskLevel) && r.riskLabel == RiskLabel(r.riskLevel)
  {
  }

  /** The hard-coded demo stats are what `calculateStats` computes on the demo
      levels 3, 4, 2 (3 zones, 1 high-risk, mean 3.0); only the status differs:
      `demo` where the computation says `normal`. */
  lemma DemoStatsMatchComputed()
    ensures var s := StatsOf(DemoRecords);
      && Some(s.totalZones) == DemoStats.totalZones
      && Some(s.highRiskZones) == DemoStats.highRiskZones
      && Some(s.averageRisk) == DemoStats.averageRisk
      && s.status == Normal && DemoStats.status == Some(StatusName(Demo))
  {
    var levels := Levels(DemoRecords);
    assert levels == [3, 4, 2];
    var p1, p2 := [3], [3, 4];
    assert p1[..0] == [] && p2[..1] == p1 && levels[..2] == p2;
    assert CountHigh(p1) == 0 && CountHigh(p2) == 1 && CountHigh(levels) == 1;
    assert Sum(p1) == 3 && Sum(p2) == 7 && Sum(levels) == 9;
    assert 9.0 / 3.0 == 3.0;
  }

  // ---------------------------------------------------------------- the app

  /** What the zones container shows. */
  datatype View = Loading | Cards(records: seq<ZoneRecord>) | NoDataView

  class FireRiskApp {
    var data: seq<ZoneRecord>
    var view: View
    var statsView: Option<StatsView>
    var banner: Option<Banner>

    constructor()
      ensures data == [] && view == Loading && statsView == None && banner == None
    {
      data := [];
      view := Loading;
      statsView := None;
      banner := None;
    }

    method ShowLoading()
      modifies this`view
      ensures view == Loading
    {
      view := Loading;
    }

    method ShowNoData()
      modifies this`view
      ensures view == NoDataView
    {
      view := NoDataView;
    }

    /** `renderData`: the cards of `data`, or the no-data view when it is empty. */
    method RenderData()
      modifies this`view
      ensures view == if data == [] then NoDataView else Cards(data)
    {
      if |data| == 0 {
        ShowNoData();
        return;
      }
      view := Cards(data);
    }

    /** `updateStats`: a missing stats object leaves the panel as it was. */
    method UpdateStats(stats: Option<StatsFields>)
      modifies this`statsView
      ensures statsView == if stats.None? then old(statsView) else Some(StatsDisplay(stats.value, data))
    {
      if stats.None? {
        return;
      }
      statsView := Some(StatsDisplay(stats.value, data));
    }

    /** `updateSystemStatus`; an empty error text shows nothing. */
    method UpdateSystemStatus(status: string, generatedAt: Option<string>, errorMsg: string)
      modifies this`banner
      ensures banner == Some(Banner(status, StatusMessage(status), generatedAt,
                                    if errorMsg == "" then None else Some(errorMsg)))
    {
      banner := Some(Banner(status, StatusMessage(status), generatedAt,
                            if errorMsg == "" then None else Some(errorMsg)));
    }

    /** `loadDemoData`: the three demo records, rendered, with the demo stats. */
    method LoadDemoData()
      modifies this`data, this`view, this`statsView
      ensures data == DemoRecords && view == Cards(DemoRecords)
      ensures statsView == Some(StatsDisplay(DemoStats, DemoRecords))
    {
      data := DemoRecords;
      RenderData();
      UpdateStats(Some(DemoStats));
    }

    /** `loadData`: the operational outcome installs the fetched rows; the
        no-data outcome keeps `data` and shows the no-data view; every failure
        loads the demo records and reports the error in the banner. */
    method LoadData(response: Response)
      modifies this
      ensures match Classify(response)
        case Operational(rows, stats, generatedAt) =>
          && data == rows && view == Cards(rows)
          && statsView == (if stats.None? then old(statsView) else Some(StatsDisplay(stats.value, rows)))
          && banner == Some(Banner("operational", StatusMessage("operational"), generatedAt, None))
        case NoDataYet =>
          && data == old(data) && view == NoDataView && statsView == old(statsView)
          && banner == Some(Banner("no_data", StatusMessage("no_data"), None, None))
        case Failed(message) =>
          && data == DemoRecords && view == Cards(DemoRecords)
          && statsView == Some(StatsDisplay(DemoStats, DemoRecords))
          && banner == Some(Banner("error", StatusMessage("error"), None,
                                   if message == "" then None else Some(message)))
    {
      ShowLoading();
      var outcome := Classify(response);
      match outcome {
        case Operational(rows, stats, generatedAt) =>
          data := rows;
          RenderData();
          UpdateStats(stats);
          UpdateSystemStatus("operational", generatedAt, "");
        case NoDataYet =>
          ShowNoData();
          UpdateSystemStatus("no_data", None, "");
        case Failed(message) =>
          LoadDemoData();
          UpdateSystemStatus("error", None, message);
      }
    }
  }

  /** An explicitly empty successful document is the no-data case; a network
      failure and a missing file both take the demo fallback, carrying the
      error text the banner shows. */
  lemma ClientExamples(message: string)
    ensures Classify(Response(200, Json(Payload(true, Some([]), None, None)))) == NoDataYet
    ensures Classify(NetworkFailure(message)) == Failed(message)
    ensures Classify(Response(404, Json(Payload(true, Some(DemoRecords), None, None))))
            == Failed("Fichier JSON non trouvé: 404")
    ensures StatusMessage("paused") == UnknownStatusMessage
  {
  }
}

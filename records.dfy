/** Shared value types of the pipeline: one zone risk record, its weather and
    coordinates, and the order-preserving selection used by the alert builder
    and by the insert loop. */
module Records {

  datatype Option<T> = None | Some(value: T) {
    function GetOr(default: T): T {
      match this
      case Some(v) => v
      case None => default
    }
  }

  /** A latitude/longitude pair in fixed point, ten-thousandths of a degree
      (43.1242 is stored as 431242). */
  datatype Coordinates = Coordinates(lat: int, lng: int)

  /** The `weather_conditions` object: measured values, or the error marker
      of the degraded record. Precipitation is absent from the demo records. */
  datatype Weather =
    | Measured(temperature: int, humidity: int, windSpeed: int, precipitation: Option<real>)
    | Unavailable(error: string)

  /** One row of the `fire_risk_data` table. Demo records carry no date and
      no coordinates, hence the options. */
  datatype ZoneRecord = ZoneRecord(
    zoneName: string,
    riskLevel: int,
    riskColor: string,
    riskLabel: string,
    weather: Weather,
    alerts: seq<string>,
    recommendations: seq<string>,
    dataSources: seq<string>,
    date: Option<string>,
    updateTime: string,
    coordinates: Option<Coordinates>)

  /** The risk levels of a list of records, in order (`data.map(zone => zone.risk_level)`). */
  function Levels(data: seq<ZoneRecord>): (levels: seq<int>)
    ensures |levels| == |data|
    ensures forall i :: 0 <= i < |data| ==> levels[i] == data[i].riskLevel
  {
    if data == [] then [] else Levels(data[..|data| - 1]) + [data[|data| - 1].riskLevel]
  }

  /** The elements of `xs` whose flag in `keep` is set, in their original order. */
  function Select<T>(xs: seq<T>, keep: seq<bool>): (r: seq<T>)
    requires |xs| == |keep|
    ensures |r| <= |xs|
  {
    if xs == [] then []
    else Select(xs[..|xs| - 1], keep[..|keep| - 1]) + (if keep[|keep| - 1] then [xs[|xs| - 1]] else [])
  }

  /** Selecting with every flag cleared keeps nothing; with one flag set keeps something. */
  lemma {:induction false} SelectEmpty<T>(xs: seq<T>, keep: seq<bool>)
    requires |xs| == |keep|
    ensures Select(xs, keep) == [] <==> forall i :: 0 <= i < |keep| ==> !keep[i]
  {
    if xs != [] {
      SelectEmpty(xs[..|xs| - 1], keep[..|keep| - 1]);
      assert forall i :: 0 <= i < |keep| - 1 ==> keep[..|keep| - 1][i] == keep[i];
    }
  }
}

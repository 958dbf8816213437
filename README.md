# Wildfire-risk pipeline — a verified Dafny model

This project models the three programs of a small wildfire-risk dashboard:

- the **collector** (`scripts/update-data.js`, class `FireDataCollector`), which synthesises one
  risk record per zone for ten fixed zones and inserts each record into the store;
- the **snapshot generator** (`scripts/generate-json.js`, class `StaticDataGenerator`), which
  reads today's records, computes statistics and writes the current snapshot file plus a
  timestamped backup, or a fallback snapshot when anything fails;
- the **dashboard client** (`public/app.js`, class `FireRiskApp`), which fetches the snapshot and
  shows the operational view, the "no data yet" view, or the demo records with an error banner.

The modules follow the programs:

| file | module | models |
|---|---|---|
| `records.dfy` | `Records` | the record type (`ZoneRecord`, `Weather`, `Coordinates`), `Option`, order-preserving selection |
| `tables.dfy` | `Tables` | the zone list and the level→colour, level→label, level→advice and zone→coordinates tables |
| `collector.dfy` | `Collector` | alerts, synthesis from random draws, the default record, the collect loop, the insert loop, `run` |
| `stats.dfy` | `Stats` | `calculateStats`: totals, high-risk count, mean, histogram, status |
| `generator.dfy` | `Generator` | snapshot and fallback documents, the backup name, a `FileSystem` class, the `run` pipeline |
| `client.dfy` | `Client` | the `loadData` decision, the status-message table, the stats panel, the demo data, the `FireRiskApp` class |
| `handoff.dfy` | `Handoff` | what the client does with each document the generator writes |

Inputs that the programs take from the outside world are parameters:

- `Math.random()` results are reals `u` with `0 <= u < 1`. Levels, temperatures, humidities and wind speeds are
  computed from them with `Floor`, as in the source. So the ranges are derived: temperature lies in [25, 39],
  humidity in [20, 59] and wind in [5, 34] (`RandomIntRange` shows the bounds are tight). The source comments
  say 25-40, 20-60 and 5-35.
- The clock readings (`new Date()`, `toLocaleTimeString`) are strings passed in.
- The store's answers are values: the connection probe is a `bool`, each insert is a `bool`, and the query is
  `QueryError` or `Rows`. The model never assumes the store sorts the rows.
- File-system failures are flags saying which `fs` call throws.
- The fetch result is a `Response`: an HTTP status with a parsed or unparseable body, or a network failure.

Coordinates are fixed-point integers in ten-thousandths of a degree. The mean risk is an exact rational.

Three behaviours of the code are worth stating because they are easy to misread:

- The no-data test of `loadData` (public/app.js:39) does not look at `success`. So any
  document with an empty list, including the generator's fallback with `success: false`, shows the no-data view,
  not the error banner (`Handoff.FallbackShowsNoData`). Only a document with rows needs `success` to be true.
- Every synthesised record takes its colour and label from its level (scripts/update-data.js:93-94). The
  collector's default record instead carries level 2 with the level-3 colour and label
  (scripts/update-data.js:122-124, `Collector.DefaultRecordInconsistent`).
- The source comments give the weather ranges as 25-40, 20-60 and 5-35 (scripts/update-data.js:85-87). The code
  draws from [25, 39], [20, 59] and [5, 34].

## Model

| member | source | states |
|---|---|---|
| `Tables.RiskColor` | scripts/update-data.js:136-145 | the colour is `gray` exactly when the level is outside 1..5; otherwise it is one of the five table colours |
| `Tables.RiskLabel` | scripts/update-data.js:147-156 | the label is `Inconnu` exactly when the level is outside 1..5; otherwise it is one of the five table labels |
| `Tables.ClassifiersInjective` | scripts/update-data.js:136-156 | distinct known levels get distinct colours and distinct labels |
| `Tables.GenerateRecommendations` | scripts/update-data.js:169-178 | never empty; 2 entries for levels 1-2, 3 for levels 3-5; exactly the single generic advice for any other level |
| `Tables.ZoneCoordinates` | scripts/update-data.js:180-194 | a known name gets its own table entry; the result is the fallback (43.0, 6.0) exactly when the name is missing from the table |
| `Tables.ZonesHaveCoordinates` | scripts/update-data.js:13-17 | the coordinate table's keys are exactly the ten zones, and no zone gets the fallback position |
| `Collector.AlertsForProperties` | scripts/update-data.js:158-167 | the alert list is never empty and has at most 4 entries; it is the single no-alert entry iff level<4, temp≤35, humidity≥30 and wind≤25; each alert is present iff its threshold holds |
| `Collector.AlertsForInOrder` | scripts/update-data.js:161-164 | fired alerts appear in the order high risk, heat, dryness, wind |
| `Collector.GenerateAlerts` | scripts/update-data.js:158-167 | the push sequence yields the reference alert list, with the emptiness, size and per-threshold membership facts |
| `Collector.AlertExamples` | scripts/update-data.js:158-167 | a calm day (1, 20, 50, 10) gives only the no-alert entry; (5, 38, 25, 30) gives all four alerts in order |
| `Collector.RandomInt` | scripts/update-data.js:84-87 | `floor(u * span) + base` lies in [base, base + span) for a draw in [0, 1) |
| `Collector.RandomIntRange` | scripts/update-data.js:84-87 | some draw produces `k` iff `k` is in [base, base + span), so temperature reaches 39 and never 40 |
| `Collector.SynthesizeRecord` | scripts/update-data.js:84-114 | the synthesised record has a level in 1..5, the colour and label the tables give it, temperature in [25, 39], humidity in [20, 59], wind in [5, 34], the reference alerts, the table advice and the table coordinates |
| `Collector.DefaultRecord` | scripts/update-data.js:116-133 | the catch-branch record keeps the zone name, date and time, marks the weather unavailable, holds one alert, one advice and one source, and sits at the fallback position |
| `Collector.DefaultRecordInconsistent` | scripts/update-data.js:119-132 | the default record has level 2 but the level-3 colour and label, so it breaks the record invariant; it sits at the fallback position |
| `Collector.CollectZoneData` | scripts/update-data.js:78-134 | a synthesis that throws yields the default record; either way the record keeps the zone name, date and time and has non-empty alerts and advice |
| `Collector.CollectAllZonesData` | scripts/update-data.js:61-76 | one record per zone, so the length equals the number of zones; record i is the zone-i result and has `zone_name == zones[i]` |
| `Collector.Collected` | scripts/update-data.js:61-76 | the records collected for the ten zones: one per zone, in zone order, each named after its zone |
| `Collector.SaveToStore` | scripts/update-data.js:196-214 | one insert attempt per record, in order, whatever earlier inserts answered; record i is logged as saved iff its insert succeeded; the store gains exactly the accepted records, in order |
| `Collector.Run` | scripts/update-data.js:23-59 | a failed connection probe leaves the store unchanged, attempts no insert, exits 1; otherwise all ten zones are attempted in order, zone i is logged as saved iff its insert succeeded, the store gains exactly the accepted collected records in zone order, and the run exits 0 |
| `Stats.StatusFor` | scripts/generate-json.js:133 | `alert` iff high>3, `warning` iff 1<high≤3, `normal` iff high≤1 |
| `Stats.CountDistribution` | scripts/generate-json.js:121-126 | the in-place counting loop yields the reference histogram: bucket k counts the levels equal to k+1 |
| `Stats.CalculateStats` | scripts/generate-json.js:106-135 | an empty list gives 0, 0, 0.0, an all-zero histogram and `no_data`; otherwise total = length, high = number of levels ≥4 and the status follows the thresholds |
| `Stats.HistogramTotal` | scripts/generate-json.js:121-126 | the buckets add up to at most the number of levels, and to exactly that number iff every level is in 1..5 |
| `Stats.HighIsTopBuckets` | scripts/generate-json.js:118-126 | on levels in 1..5 the high-risk count equals buckets 4 plus 5 |
| `Stats.StatsConsistent` | scripts/generate-json.js:117-134 | on non-empty known levels the histogram accounts for every zone, high = top two buckets, and 1 ≤ mean ≤ 5 |
| `Stats.StatsExample` | scripts/generate-json.js:106-135 | levels 1..5 give total 5, high 2, mean 3.0, histogram 1,1,1,1,1 and `warning` |
| `Generator.GenerateJsonWithStats` | scripts/generate-json.js:78-104 | success is true, data is the input list unchanged, stats are its stats, `total_records` is its length, and `last_update` is the first record's time (the local time when there is none) |
| `Generator.DocumentsKeepInvariant` | scripts/generate-json.js:155-174 | both documents keep the invariant "unsuccessful implies no rows and zeroed stats"; the fallback is unsuccessful, empty, `error` status, with `meta.error` set |
| `Generator.Sanitize` | scripts/generate-json.js:147-149 | length is preserved, every `:` and `.` becomes `-`, every other character is kept, and no `:` or `.` remains |
| `Generator.SanitizeIdempotent` | scripts/generate-json.js:148 | sanitising a sanitised timestamp changes nothing |
| `Generator.BackupPath` | scripts/generate-json.js:148-149 | the backup name is `public/data/backup-` plus the whole sanitised timestamp plus `.json`, and holds no `:` and no `.` outside its extension |
| `Generator.BackupIsNotCurrent` | scripts/generate-json.js:137-153 | no timestamp makes the backup path equal the current-file path |
| `Generator.EnsuredDirs` | scripts/generate-json.js:51-59 | after a successful `ensureDirectories` both directories exist and none is lost |
| `Generator.EnsuredDirsIdempotent` | scripts/generate-json.js:51-59 | `ensureDirectories` is idempotent |
| `Generator.EnsureProperties` | scripts/generate-json.js:51-59 | `ensureDirectories` adds at most the two directories, adds both exactly when it returns normally, and cannot fail once both exist |
| `Generator.EnsureDirectories` | scripts/generate-json.js:51-59 | only missing directories are created, one `mkdirSync` each, stopping at the first that throws; it returns normally iff no missing directory's call throws |
| `Generator.FileSystem.WriteFile` | scripts/generate-json.js:137-151 | a write replaces the path's document and changes no other path; a throwing write changes nothing |
| `Generator.FileSystem.MakeDir` | scripts/generate-json.js:52-57 | `mkdir` adds the directory unless it throws |
| `Generator.RowsOf` | scripts/generate-json.js:75 | a missing row list counts as no rows; a present one is kept as is |
| `Generator.GenerateFallbackJson` | scripts/generate-json.js:155-180 | ensures the directories, then overwrites only the current file with the fallback document; a throwing `mkdirSync` or write leaves every file as it was |
| `Generator.RunPipeline` | scripts/generate-json.js:24-39 | the `try` block leaves the files of `TryFiles` (nothing, the snapshot at the current path only, or the snapshot at both paths, by where it threw) and reports a throw iff the pipeline does not complete |
| `Generator.Run` | scripts/generate-json.js:20-49 | the files afterwards are `RunFiles` of the files before, the directories `RunDirs`; exit code 0 iff the try block completes, else 1 |
| `Generator.RunSuccessWritesBoth` | scripts/generate-json.js:26-38 | a completed pipeline writes the snapshot of the rows to the current file and the same snapshot to the backup path, and touches no other path |
| `Generator.RunFailureWritesOnlyFallback` | scripts/generate-json.js:42-47 | a failure whose fallback goes through leaves only the fallback (success false, no rows) at the current path; no other path changes and none appears |
| `Generator.RunFallbackFailureKeepsFiles` | scripts/generate-json.js:42-180 | when the fallback throws as well, the files are those before the run or those plus the fresh snapshot at the current path, no backup appears, and a run that failed before any write leaves a missing current file missing |
| `Generator.BackupIffSuccess` | scripts/generate-json.js:20-49 | a backup file appears iff the whole pipeline succeeded |
| `Generator.QueryFailureExample` | scripts/generate-json.js:64-72 | a store-query error yields an unsuccessful, empty current file and no backup |
| `Client.Classify` | public/app.js:17-53 | operational iff ok status, parsed, success and non-empty data (and it carries exactly that data); no-data iff ok status, parsed and data is an empty list (`success` ignored); failure iff network failure, non-ok status, unparseable body, missing data, or unsuccessful with rows; a failure carries the network error, `Fichier JSON non trouvé: <status>`, the parse error, or `Structure JSON invalide` |
| `Client.StatusMessage` | public/app.js:183-192 | the four known statuses get their table message; the text is `⚪ Statut inconnu` exactly for any other status |
| `Client.StatsDisplay` | public/app.js:165-178 | present counts and mean are shown as given, missing counts show 0 and a missing mean 0.0; the last-update cell is `Aucune donnée` without data, `Inconnue` when the first record's time is blank, else that time |
| `Client.DemoRecordsConsistent` | public/app.js:72-103 | each demo record's colour and label are what the collector's tables give its level |
| `Client.DemoStatsMatchComputed` | public/app.js:106-111 | the hard-coded demo stats (3 zones, 1 high-risk, mean 3.0) equal what `calculateStats` computes on levels 3, 4, 2; only the status differs (`demo` against `normal`) |
| `Client.ClientExamples` | public/app.js:25-45 | a successful empty document is no-data; a network failure is the failure outcome with its message; a 404 fails with `Fichier JSON non trouvé: 404`; an unknown status gets the unknown text |
| `Client.FireRiskApp.ShowLoading` | public/app.js:199-206 | the zones container shows the loading state |
| `Client.FireRiskApp.ShowNoData` | public/app.js:55-67 | the zones container shows the no-data panel |
| `Client.FireRiskApp.RenderData` | public/app.js:117-123 | the no-data view when `data` is empty, else the cards of `data` |
| `Client.FireRiskApp.UpdateStats` | public/app.js:165-178 | a missing stats object leaves the panel unchanged; otherwise the panel shows the stats with their defaults |
| `Client.FireRiskApp.UpdateSystemStatus` | public/app.js:180-197 | the banner shows the status, its message, the generation time if given and the error text if non-empty |
| `Client.FireRiskApp.LoadDemoData` | public/app.js:69-115 | `data` becomes exactly the three demo records, which are rendered, and the panel shows the demo stats |
| `Client.FireRiskApp.LoadData` | public/app.js:17-53 | operational: `data` becomes the fetched rows, shown with an `operational` banner; no-data: `data` is kept, the no-data view and a `no_data` banner are shown; failure: the three demo records are shown with an `error` banner carrying the message |
| `Handoff.FallbackShowsNoData` | public/app.js:39-43 | the generator's fallback document, served as is, reaches the client's no-data view, not the error path |
| `Handoff.SnapshotOutcome` | public/app.js:32-43 | a successful snapshot is operational with exactly its rows, or no-data when it has no rows |
| `Handoff.RunNeverFailsClient` | scripts/generate-json.js:20-49 | when a generator run completes its pipeline or its fallback, the current file exists and never sends the client to the demo fallback |
| `Handoff.LostFallbackFailsClient` | public/app.js:25-27 | a first run with a failing query and a fallback write that throws leaves no current file, so the client gets a 404 and takes the demo fallback with `Fichier JSON non trouvé: 404` |

## Left out

- Store client calls (`createClient`, `select`/`eq`/`order`/`insert`) are foreign library calls. Their answers
  are parameters. The model does not assume the store honours the descending `update_time` sort, so
  `last_update` is whatever the first returned row says.
- File contents are abstract documents in a map from path to document. `JSON.stringify` formatting, the
  `statSync` size report, real directory creation and `process.exit` are not modelled.
  `Handoff.Read` treats writing and re-reading a document as lossless.
- `Generator.Run`: when `generateFallbackJson` throws, the rejection of `run` goes unhandled and
  `process.exit(1)` is never reached. The model gives exit code 1 there too, which is Node's default for an
  unhandled rejection since version 15; older Node versions only warn and exit 0.
- `Generator.FileSystem.MakeDir`: directories are a set of names. `recursive: true` creating `public` as a
  side effect of creating `public/data` is not modelled. A write never depends on its directory, because every
  write in the source follows a successful `ensureDirectories`.
- `Generator.FileSystem.WriteFile`: a write that throws changes nothing. A partly written file is not modelled.
- `Collector.SynthesizeRecord`: precipitation is `10 * u` without the `toFixed(1)` rounding, because that
  rounding is floating point.
- `Stats.CalculateStats`: the mean is the exact rational sum/count, not the `toFixed(1)` string. Floating-point
  rounding can differ from exact half-up rounding.
- `Tables.RiskColor`, `Tables.RiskLabel`, `Tables.GenerateRecommendations` and `Stats.CountDistribution` take
  integer levels. JavaScript object-key lookups would also accept the strings `"1"`...`"5"` and reject
  fractional levels; those cases are not modelled.
- `Tables.ZoneCoordinates`: the source looks the name up in a plain object literal (scripts/update-data.js:193),
  so a name such as `constructor` finds an inherited `Object.prototype` member instead of the fallback. The
  model gives such names the fallback position. Only the ten fixed zone names reach this lookup.
- `Client.StatusMessage`: the same holds for the status table (public/app.js:192). A status such as `toString`
  would print a function's text, where the model gives the unknown-status text. Every call site passes one of
  the four literal statuses.
- `Client.FireRiskApp.LoadData`: exceptions that rendering throws are not modelled. An example is a record
  without an `alerts` list, which sends the source to the demo path. A parsed body of `null` is not modelled
  either. The model's payload is always an object.
- DOM rendering (`innerHTML` text, weather cells, the loading spinner, `hideLoading`), the `isProduction` flag,
  console logging, `sleep` delays, the `setInterval` and focus refresh triggers, and `Date`/`toLocaleString`
  formatting. `FireRiskApp` keeps only the view shown, the stats panel, the banner and `data`.
- Latitude and longitude are fixed-point integers, not floats.

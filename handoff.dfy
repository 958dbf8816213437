/** The generator and the client meet only at the current snapshot file. This
    module reads a generator document the way the client parses it and states
    which outcome the client reaches for each document the generator writes. */
module Handoff {
  import opened Records
  import opened Stats
  import opened Generator
  import opened Client

  /** A written document as the client's `response.json()` sees it. */
  function Read(doc: Document): Payload {
    Payload(
      doc.success,
      Some(doc.data),
      Some(StatsFields(Some(doc.stats.totalZones), Some(doc.stats.highRiskZones),
                       Some(doc.stats.averageRisk), Some(StatusName(doc.stats.status)))),
      Some(doc.meta.generatedAt))
  }

  /** Serving the document with status 200. */
  function Serve(doc: Document): Response {
    Response(200, Json(Read(doc)))
  }

  /** The fallback document (`success` false, no rows) reaches the client's
      no-data view, not the error/demo path. */
  lemma FallbackShowsNoData(date: string, generatedAt: string)
    ensures Classify(Serve(FallbackDocument(date, generatedAt))) == NoDataYet
  {
  }

  /** A successful snapshot is operational with exactly its rows when it has
      rows, and the no-data case when it has none. */
  lemma SnapshotOutcome(data: seq<ZoneRecord>, date: string, generatedAt: string, localTime: string)
    ensures var o := Classify(Serve(SnapshotOf(data, date, generatedAt, localTime)));
      && (data == [] ==> o == NoDataYet)
      && (data != [] ==> o.Operational? && o.data == data)
  {
  }

  /** Serving a path: its document with status 200, or a 404 when the path
      holds no file. */
  function ServePath(files: map<string, Document>, path: string): Response {
    if path in files then Serve(files[path]) else Response(404, Unparseable("Not Found"))
  }

  /** Whenever a generator run completes its pipeline or its fallback, the
      current file it leaves never sends the client to the demo fallback. */
  lemma {:induction false} RunNeverFailsClient(files: map<string, Document>, dirs: set<string>, date: string,
                                               query: QueryResult, faults: Faults, clock: Clock)
    requires PipelineSucceeds(dirs, query, faults) || FallbackSucceeds(TryDirs(dirs, faults), faults)
    ensures var r := RunFiles(files, dirs, date, query, faults, clock);
      CurrentFile in r && !Classify(ServePath(r, CurrentFile)).Failed?
  {
    if PipelineSucceeds(dirs, query, faults) {
      RunSuccessWritesBoth(files, dirs, date, query, faults, clock);
      SnapshotOutcome(RowsOf(query), date, clock.snapshotIso, clock.localTime);
    } else {
      RunFailureWritesOnlyFallback(files, dirs, date, query, faults, clock);
      FallbackShowsNoData(date, clock.fallbackIso);
    }
  }

  /** The first deployment with a broken store and a fallback that cannot
      write: no current file exists, so the client gets a 404 and shows the
      demo records with the not-found error. */
  lemma LostFallbackFailsClient(date: string, clock: Clock, message: string)
    ensures var faults := Faults(DirFaults(false, false), false, false, DirFaults(false, false), true);
      var r := RunFiles(map[], {}, date, QueryError(message), faults, clock);
      Classify(ServePath(r, CurrentFile)) == Failed("Fichier JSON non trouvé: 404")
  {
  }
}

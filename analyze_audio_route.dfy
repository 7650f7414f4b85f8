/**
 * POST /api/analyze-audio: check the request, analyze the named upload and store
 * the analysis under the track's id, creating the track's row or replacing all
 * five of its attribute records. Any failure after the check is answered with
 * status 500 and "Failed to analyze audio".
 */
module AnalyzeAudioRoute {
  import opened Wrappers
  import opened Inference
  import opened AudioAnalysisAgent
  import opened AnalyzeAudio

  /** The JSON body's trackId and filename; None when the property is missing or null. */
  datatype RequestBody = RequestBody(trackId: Option<string>, filename: Option<string>)

  /** A JavaScript truth test on a string property: present and not "". */
  predicate Truthy(v: Option<string>) {
    v.Some? && v.value != ""
  }

  /** A stored AudioAnalysis row and its five attribute records; a row written
      elsewhere may lack some of them. */
  datatype AudioAnalysisRow = AudioAnalysisRow(
    id: nat,
    trackId: string,
    genreAnalysis: Option<GenreAnalysisRecord>,
    moodAnalysis: Option<MoodAnalysisRecord>,
    tempoAnalysis: Option<TempoAnalysisRecord>,
    keyAnalysis: Option<KeyAnalysisRecord>,
    timeSignatureAnalysis: Option<TimeSignatureAnalysisRecord>)

  /** The AudioAnalysis table: rows by trackId (unique), and the next row id. */
  datatype Table = Table(rows: map<string, AudioAnalysisRow>, nextId: nat)

  /** Rows are filed under their own trackId and have distinct ids below nextId. */
  predicate ValidTable(t: Table) {
    && (forall k <- t.rows :: t.rows[k].trackId == k && t.rows[k].id < t.nextId)
    && (forall k1 <- t.rows, k2 <- t.rows :: k1 != k2 ==> t.rows[k1].id != t.rows[k2].id)
  }

  /** The five attribute records a row holds, as one analysis; None while any is missing. */
  function Contents(row: AudioAnalysisRow): Option<AnalysisResult> {
    if row.genreAnalysis.Some? && row.moodAnalysis.Some? && row.tempoAnalysis.Some?
       && row.keyAnalysis.Some? && row.timeSignatureAnalysis.Some?
    then Some(Flatten(NestedAnalysis(row.genreAnalysis.value, row.moodAnalysis.value, row.tempoAnalysis.value,
                                     row.keyAnalysis.value, row.timeSignatureAnalysis.value)))
    else None
  }

  /** The row written for a track: every attribute record set from the analysis. */
  function Written(id: nat, trackId: string, a: AnalysisResult): (row: AudioAnalysisRow)
    ensures row.id == id && row.trackId == trackId && Contents(row) == Some(a)
  {
    var n := Nest(a);
    AudioAnalysisRow(id, trackId, Some(n.genreAnalysis), Some(n.moodAnalysis), Some(n.tempoAnalysis),
                     Some(n.keyAnalysis), Some(n.timeSignatureAnalysis))
  }

  /** prisma.audioAnalysis.upsert keyed by trackId: an existing row keeps its id and
      has all five records set (each nested upsert creates or updates with the
      same value); otherwise a row is created with the next id. */
  function Upsert(t: Table, trackId: string, a: AnalysisResult): (u: Table)
    ensures trackId in u.rows && Contents(u.rows[trackId]) == Some(a)
    ensures u.rows.Keys == t.rows.Keys + {trackId}
    ensures forall k <- t.rows :: k != trackId ==> u.rows[k] == t.rows[k]
    ensures trackId in t.rows ==> u.rows[trackId].id == t.rows[trackId].id && u.nextId == t.nextId
    ensures trackId !in t.rows ==> u.rows[trackId].id == t.nextId && u.nextId == t.nextId + 1
  {
    if trackId in t.rows then Table(t.rows[trackId := Written(t.rows[trackId].id, trackId, a)], t.nextId)
    else Table(t.rows[trackId := Written(t.nextId, trackId, a)], t.nextId + 1)
  }

  /** The store stays well formed. */
  lemma UpsertKeepsValid(t: Table, trackId: string, a: AnalysisResult)
    requires ValidTable(t)
    ensures ValidTable(Upsert(t, trackId, a))
  {
  }

  /** Replace, not merge: writing b over a track that was just given a is the
      same as writing b alone. */
  lemma UpsertReplaces(t: Table, trackId: string, a: AnalysisResult, b: AnalysisResult)
    ensures Upsert(Upsert(t, trackId, a), trackId, b) == Upsert(t, trackId, b)
  {
    var u := Upsert(t, trackId, a);
    assert u.rows[trackId := Written(u.rows[trackId].id, trackId, b)].Keys == t.rows[trackId := Written(u.rows[trackId].id, trackId, b)].Keys;
  }

  /** Saving the same analysis twice leaves the table as saving it once. */
  lemma UpsertIdempotent(t: Table, trackId: string, a: AnalysisResult)
    ensures Upsert(Upsert(t, trackId, a), trackId, a) == Upsert(t, trackId, a)
  {
    UpsertReplaces(t, trackId, a, a);
  }

  /** What the upsert returns without an `include`: the row's own columns, not
      its attribute records. */
  datatype SavedRow = SavedRow(id: nat, trackId: string)

  /** The response: a status and a JSON body, an error message or the saved row. */
  datatype ResponseBody = ErrorBody(error: string) | RowBody(row: SavedRow)
  datatype Response = Response(status: int, body: ResponseBody)

  const TrackIdRequired := "Track ID is required"

  /** A property value of analyzeAudio's nested result. */
  datatype NestedProperty =
    | GenreProperty(genreAnalysis: GenreAnalysisRecord)
    | MoodProperty(moodAnalysis: MoodAnalysisRecord)
    | TempoProperty(tempoAnalysis: TempoAnalysisRecord)
    | KeyProperty(keyAnalysis: KeyAnalysisRecord)
    | TimeSignatureProperty(timeSignatureAnalysis: TimeSignatureAnalysisRecord)

  /** The property names of the nested result. */
  const NestedProperties := {"genreAnalysis", "moodAnalysis", "tempoAnalysis", "keyAnalysis", "timeSignatureAnalysis"}

  /** Reading a property of the nested result by name; None stands for undefined. */
  function Property(n: NestedAnalysis, name: string): (p: Option<NestedProperty>)
    ensures p.Some? <==> name in NestedProperties
  {
    if name == "genreAnalysis" then Some(GenreProperty(n.genreAnalysis))
    else if name == "moodAnalysis" then Some(MoodProperty(n.moodAnalysis))
    else if name == "tempoAnalysis" then Some(TempoProperty(n.tempoAnalysis))
    else if name == "keyAnalysis" then Some(KeyProperty(n.keyAnalysis))
    else if name == "timeSignatureAnalysis" then Some(TimeSignatureProperty(n.timeSignatureAnalysis))
    else None
  }

  /** What the route stores, as written: analysisResult.genres, .moods, .tempo,
      .key and .timeSignature, read from the nested result. */
  datatype FlatReads = FlatReads(
    genres: Option<NestedProperty>,
    moods: Option<NestedProperty>,
    tempo: Option<NestedProperty>,
    key: Option<NestedProperty>,
    timeSignature: Option<NestedProperty>)

  function FlatReadsAsWritten(n: NestedAnalysis): (r: FlatReads)
    ensures r.genres.Some? <==> "genres" in NestedProperties
    ensures r.moods.Some? <==> "moods" in NestedProperties
    ensures r.tempo.Some? <==> "tempo" in NestedProperties
    ensures r.key.Some? <==> "key" in NestedProperties
    ensures r.timeSignature.Some? <==> "timeSignature" in NestedProperties
  {
    FlatReads(Property(n, "genres"), Property(n, "moods"), Property(n, "tempo"), Property(n, "key"),
              Property(n, "timeSignature"))
  }

  /** As written, every value the route stores is undefined, whatever the analysis. */
  lemma FlatReadsAreUndefined(n: NestedAnalysis)
    ensures FlatReadsAsWritten(n) == FlatReads(None, None, None, None, None)
  {
    assert "genres" !in NestedProperties by { assert "genres"[0] == 'g' && |"genres"| == 6; }
    assert "moods" !in NestedProperties;
    assert "tempo" !in NestedProperties;
    assert "key" !in NestedProperties;
    assert "timeSignature" !in NestedProperties;
  }

  /** The AudioAnalysis table, updated in place. */
  class AnalysisStore {
    var table: Table

    ghost predicate Valid()
      reads this
    {
      ValidTable(table)
    }

    constructor ()
      ensures Valid() && table == Table(map[], 0)
    {
      table := Table(map[], 0);
    }

    /** The upsert: the track's row now holds exactly the analysis. */
    method Save(trackId: string, a: AnalysisResult) returns (row: AudioAnalysisRow)
      requires Valid()
      modifies this
      ensures Valid() && table == Upsert(old(table), trackId, a)
      ensures row == table.rows[trackId] && Contents(row) == Some(a)
    {
      UpsertKeepsValid(table, trackId, a);
      table := Upsert(table, trackId, a);
      row := table.rows[trackId];
    }

    /** The route. `body` is None when the request body is not JSON; `storeUp`
        is false when the database call fails. The stored analysis is the nested
        result read back through its records. */
    method Post(body: Option<RequestBody>, uploads: Uploads, parse: MetadataParser, ask: Oracle, storeUp: bool)
      returns (response: Response)
      requires Valid()
      modifies this
      ensures Valid()
      ensures body.None? ==> response == Response(500, ErrorBody(AnalysisFailed)) && table == old(table)
      ensures body.Some? && !(Truthy(body.value.trackId) && Truthy(body.value.filename)) ==>
        response == Response(400, ErrorBody(TrackIdRequired)) && table == old(table)
      ensures response.status == 400 ==> body.Some? && !(Truthy(body.value.trackId) && Truthy(body.value.filename))
      ensures response.status == 200 <==> response.body.RowBody?
      ensures response.status == 500 ==> response.body == ErrorBody(AnalysisFailed) && table == old(table)
      ensures response.status == 200 ==>
        && body.Some? && Truthy(body.value.trackId) && Truthy(body.value.filename)
        && var trackId := body.value.trackId.value;
           var filename := body.value.filename.value;
           && filename in uploads && parse(uploads[filename]).Some?
           && (forall stage :: ask(parse(uploads[filename]).value, stage).Answered?)
           && storeUp
           && var analysis := PerformAudioAnalysis(ask, parse(uploads[filename]).value);
              && table == Upsert(old(table), trackId, analysis)
              && response.body.row == SavedRow(table.rows[trackId].id, trackId)
      ensures response.status in {200, 400, 500}
      ensures (&& body.Some? && Truthy(body.value.trackId) && Truthy(body.value.filename)
               && body.value.filename.value in uploads && parse(uploads[body.value.filename.value]).Some?
               && (forall stage :: ask(parse(uploads[body.value.filename.value]).value, stage).Answered?)
               && storeUp)
        ==> response.status == 200
    {
      if body.None? {
        return Response(500, ErrorBody(AnalysisFailed));
      }
      var trackId := body.value.trackId;
      var filename := body.value.filename;
      if !Truthy(trackId) || !Truthy(filename) {
        return Response(400, ErrorBody(TrackIdRequired));
      }
      var analysisResult := AnalyzeAudioFile(uploads, parse, ask, filename.value);
      if analysisResult.Failure? || !storeUp {
        return Response(500, ErrorBody(AnalysisFailed));
      }
      var row := Save(trackId.value, Flatten(analysisResult.value));
      response := Response(200, RowBody(SavedRow(row.id, row.trackId)));
    }

    /** The route as the source writes it, over the as-written analysis: a
        request that passes the check always ends in a 500, and nothing is
        stored. */
    method PostAsWritten(body: Option<RequestBody>, uploads: Uploads, parse: MetadataParser, ask: Oracle)
      returns (response: Response)
      requires Valid()
      modifies this
      ensures Valid() && table == old(table)
      ensures body.Some? && !(Truthy(body.value.trackId) && Truthy(body.value.filename)) ==>
        response == Response(400, ErrorBody(TrackIdRequired))
      ensures !(body.Some? && !(Truthy(body.value.trackId) && Truthy(body.value.filename))) ==>
        response == Response(500, ErrorBody(AnalysisFailed))
    {
      if body.None? {
        return Response(500, ErrorBody(AnalysisFailed));
      }
      var trackId := body.value.trackId;
      var filename := body.value.filename;
      if !Truthy(trackId) || !Truthy(filename) {
        return Response(400, ErrorBody(TrackIdRequired));
      }
      var analysisResult := AnalyzeAudioFileAsWritten(uploads, parse, ask, filename.value);
      match analysisResult
      case Failure(_) => response := Response(500, ErrorBody(AnalysisFailed));
    }
  }
}

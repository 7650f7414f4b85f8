/**
 * performAudioAnalysis: run the five analyzers one after the other on the same
 * metadata and gather their answers in one record. Every analyzer turns a failed
 * call into its default, so the orchestrator always produces a record.
 */
module AudioAnalysisAgent {
  import opened Wrappers
  import opened Inference
  import opened GenreAnalysis
  import opened MoodAnalysis
  import opened TempoAnalysis
  import opened KeyAnalysis
  import opened TimeSignatureAnalysis

  datatype AnalysisResult = AnalysisResult(
    genres: seq<string>,
    moods: seq<string>,
    tempo: int,
    key: string,
    timeSignature: string)

  /** Each field is its analyzer's answer for the same metadata. */
  function PerformAudioAnalysis(ask: Oracle, metadata: AudioMetadata): (r: AnalysisResult)
    ensures r.genres == AnalyzeGenre(ask, metadata) && r.moods == AnalyzeMood(ask, metadata)
    ensures r.tempo == AnalyzeTempo(ask, metadata) && r.key == AnalyzeKey(ask, metadata)
    ensures r.timeSignature == AnalyzeTimeSignature(ask, metadata)
  {
    var genres := AnalyzeGenre(ask, metadata);
    var moods := AnalyzeMood(ask, metadata);
    var tempo := AnalyzeTempo(ask, metadata);
    var key := AnalyzeKey(ask, metadata);
    var timeSignature := AnalyzeTimeSignature(ask, metadata);
    AnalysisResult(genres, moods, tempo, key, timeSignature)
  }

  /** The record when every call fails: the five defaults. */
  lemma AllCallsFailed(ask: Oracle, metadata: AudioMetadata)
    requires forall stage :: ask(metadata, stage) == Unavailable
    ensures PerformAudioAnalysis(ask, metadata) == AnalysisResult([], [], 0, "", "")
  {
    assert ask(metadata, Genre) == Unavailable && ask(metadata, Mood) == Unavailable;
    assert ask(metadata, Tempo) == Unavailable && ask(metadata, Key) == Unavailable;
    assert ask(metadata, TimeSignature) == Unavailable;
  }

  /** One request to the model: the metadata it was about and the stage asked. */
  datatype Query = Query(metadata: AudioMetadata, stage: Stage)

  /** The record while it is being filled, one stage at a time, and the requests
      made so far in the order they were made. */
  datatype Draft = Draft(
    genres: Option<seq<string>>,
    moods: Option<seq<string>>,
    tempo: Option<int>,
    key: Option<string>,
    timeSignature: Option<string>,
    asked: seq<Query>)

  const Blank := Draft(None, None, None, None, None, [])

  /** The order in which the orchestrator awaits the analyzers. */
  const AnalysisOrder := [Genre, Mood, Tempo, Key, TimeSignature]

  /** Awaiting one analyzer: its field is filled and its request logged. */
  function Step(ask: Oracle, metadata: AudioMetadata, d: Draft, stage: Stage): Draft {
    var asked := d.asked + [Query(metadata, stage)];
    match stage
    case Genre => d.(genres := Some(AnalyzeGenre(ask, metadata)), asked := asked)
    case Mood => d.(moods := Some(AnalyzeMood(ask, metadata)), asked := asked)
    case Tempo => d.(tempo := Some(AnalyzeTempo(ask, metadata)), asked := asked)
    case Key => d.(key := Some(AnalyzeKey(ask, metadata)), asked := asked)
    case TimeSignature => d.(timeSignature := Some(AnalyzeTimeSignature(ask, metadata)), asked := asked)
  }

  /** Awaiting the analyzers in the given order; every request is about the
      original metadata and they are made in that order. */
  function RunStages(ask: Oracle, metadata: AudioMetadata, d: Draft, order: seq<Stage>): (e: Draft)
    ensures e.asked == d.asked + seq(|order|, i requires 0 <= i < |order| => Query(metadata, order[i]))
    decreases |order|
  {
    if order == [] then d
    else RunStages(ask, metadata, Step(ask, metadata, d, order[0]), order[1..])
  }

  predicate Filled(d: Draft) {
    d.genres.Some? && d.moods.Some? && d.tempo.Some? && d.key.Some? && d.timeSignature.Some?
  }

  function Finish(d: Draft): AnalysisResult
    requires Filled(d)
  {
    AnalysisResult(d.genres.value, d.moods.value, d.tempo.value, d.key.value, d.timeSignature.value)
  }

  /** After a run each stage's field holds its analyzer's answer if the stage was
      run, and is as before otherwise. */
  lemma {:induction false} RunStagesFields(ask: Oracle, metadata: AudioMetadata, d: Draft, order: seq<Stage>)
    ensures var e := RunStages(ask, metadata, d, order);
      && e.genres == (if Genre in order then Some(AnalyzeGenre(ask, metadata)) else d.genres)
      && e.moods == (if Mood in order then Some(AnalyzeMood(ask, metadata)) else d.moods)
      && e.tempo == (if Tempo in order then Some(AnalyzeTempo(ask, metadata)) else d.tempo)
      && e.key == (if Key in order then Some(AnalyzeKey(ask, metadata)) else d.key)
      && e.timeSignature == (if TimeSignature in order then Some(AnalyzeTimeSignature(ask, metadata)) else d.timeSignature)
    decreases |order|
  {
    if order != [] {
      RunStagesFields(ask, metadata, Step(ask, metadata, d, order[0]), order[1..]);
      assert forall s :: s in order <==> s == order[0] || s in order[1..];
    }
  }

  /** The source's order asks genre, mood, tempo, key and time signature, each
      about the original metadata, and fills the record performAudioAnalysis
      returns. */
  lemma SourceOrderRun(ask: Oracle, metadata: AudioMetadata)
    ensures var e := RunStages(ask, metadata, Blank, AnalysisOrder);
      && e.asked == [Query(metadata, Genre), Query(metadata, Mood), Query(metadata, Tempo),
                     Query(metadata, Key), Query(metadata, TimeSignature)]
      && Filled(e) && Finish(e) == PerformAudioAnalysis(ask, metadata)
  {
    RunStagesFields(ask, metadata, Blank, AnalysisOrder);
  }

  /** The stages do not depend on each other: awaiting the analyzers in any
      order against the same model gives the same record. */
  lemma AnyOrderSameRecord(ask: Oracle, metadata: AudioMetadata, order: seq<Stage>)
    requires multiset(order) == multiset(AnalysisOrder)
    ensures var e := RunStages(ask, metadata, Blank, order);
      Filled(e) && Finish(e) == PerformAudioAnalysis(ask, metadata)
  {
    RunStagesFields(ask, metadata, Blank, order);
    forall s | s in AnalysisOrder ensures s in order {
      assert s in multiset(AnalysisOrder);
    }
    assert Genre in AnalysisOrder && Mood in AnalysisOrder && Tempo in AnalysisOrder;
    assert Key in AnalysisOrder && TimeSignature in AnalysisOrder;
  }
}

/**
 * analyzeAudio and runAnalysisGraph: the graph variant of the analysis. Five
 * nodes, one per stage, are chained genre, mood, tempo, key, time_signature and
 * run in that order; a node does not catch a failed call, so one failure ends the
 * run. The result is reshaped into one nested record per attribute, and every
 * failure, including a missing file, is reported as "Failed to analyze audio".
 */
module AnalyzeAudio {
  import opened Wrappers
  import opened JsString
  import opened Inference
  import opened ToolParsers
  import opened NodeBuffer
  import opened AudioAnalysisAgent
  import GenreAnalysis
  import MoodAnalysis
  import TempoAnalysis
  import KeyAnalysis
  import TimeSignatureAnalysis

  const GenreNode := "genre"
  const MoodNode := "mood"
  const TempoNode := "tempo"
  const KeyNode := "key"
  const TimeSignatureNode := "time_signature"
  /** The graph's end marker. */
  const End := "__end__"

  /** A graph under construction: its nodes (each a stage's model call and
      reading), its edges (one successor per node) and its entry point. */
  class StateGraph {
    var nodes: map<string, Stage>
    var edges: map<string, string>
    var entryPoint: Option<string>

    constructor ()
      ensures nodes == map[] && edges == map[] && entryPoint == None
    {
      nodes := map[];
      edges := map[];
      entryPoint := None;
    }

    /** Adds a node and returns the handle the edges name it by. */
    method AddNode(name: string, stage: Stage) returns (handle: string)
      modifies this
      ensures handle == name && nodes == old(nodes)[name := stage]
      ensures edges == old(edges) && entryPoint == old(entryPoint)
    {
      nodes := nodes[name := stage];
      handle := name;
    }

    method AddEdge(from: string, to: string)
      modifies this
      ensures edges == old(edges)[from := to]
      ensures nodes == old(nodes) && entryPoint == old(entryPoint)
    {
      edges := edges[from := to];
    }

    method SetEntryPoint(name: string)
      modifies this
      ensures entryPoint == Some(name)
      ensures nodes == old(nodes) && edges == old(edges)
    {
      entryPoint := Some(name);
    }
  }

  const AnalysisNodes: map<string, Stage> := map[
    GenreNode := Genre, MoodNode := Mood, TempoNode := Tempo,
    KeyNode := Key, TimeSignatureNode := TimeSignature]

  const AnalysisEdges: map<string, string> := map[
    GenreNode := MoodNode, MoodNode := TempoNode, TempoNode := KeyNode,
    KeyNode := TimeSignatureNode, TimeSignatureNode := End]

  /** The graph runAnalysisGraph builds. */
  method BuildAnalysisGraph() returns (g: StateGraph)
    ensures fresh(g)
    ensures g.nodes == AnalysisNodes
    ensures g.edges == AnalysisEdges && g.entryPoint == Some(GenreNode)
  {
    g := new StateGraph();
    var genreNode := g.AddNode(GenreNode, Genre);
    var moodNode := g.AddNode(MoodNode, Mood);
    var tempoNode := g.AddNode(TempoNode, Tempo);
    var keyNode := g.AddNode(KeyNode, Key);
    var timeSignatureNode := g.AddNode(TimeSignatureNode, TimeSignature);
    g.AddEdge(genreNode, moodNode);
    g.AddEdge(moodNode, tempoNode);
    g.AddEdge(tempoNode, keyNode);
    g.AddEdge(keyNode, timeSignatureNode);
    g.AddEdge(timeSignatureNode, End);
    g.SetEntryPoint(genreNode);
  }

  /** The nodes visited from `at` by following the edges until the end marker,
      taking at most fuel steps. */
  function Schedule(edges: map<string, string>, at: string, fuel: nat): (s: seq<string>)
    ensures |s| <= fuel && End !in s
    ensures s != [] ==> s[0] == at
    ensures forall i :: 0 <= i < |s| - 1 ==> s[i] in edges && edges[s[i]] == s[i + 1]
    decreases fuel
  {
    if fuel == 0 || at == End then []
    else [at] + (if at in edges then Schedule(edges, edges[at], fuel - 1) else [])
  }

  const NodeOrder := [GenreNode, MoodNode, TempoNode, KeyNode, TimeSignatureNode]

  /** The edges form one chain from the entry point through the five nodes to the
      end. */
  lemma ChainSchedule()
    ensures Schedule(AnalysisEdges, GenreNode, |AnalysisEdges|) == NodeOrder
  {
    assert |AnalysisEdges| == 5 by {
      assert AnalysisEdges.Keys == {GenreNode, MoodNode, TempoNode, KeyNode, TimeSignatureNode};
    }
    assert Schedule(AnalysisEdges, TimeSignatureNode, 1) == [TimeSignatureNode];
    assert Schedule(AnalysisEdges, KeyNode, 2) == [KeyNode, TimeSignatureNode];
    assert Schedule(AnalysisEdges, TempoNode, 3) == [TempoNode, KeyNode, TimeSignatureNode];
    assert Schedule(AnalysisEdges, MoodNode, 4) == [MoodNode, TempoNode, KeyNode, TimeSignatureNode];
  }

  /** Every node of the chain is in the graph, under the stage of its name. */
  lemma ChainNodes()
    ensures forall n <- NodeOrder :: n in AnalysisNodes
    ensures AnalysisNodes[NodeOrder[0]] == Genre && AnalysisNodes[NodeOrder[1]] == Mood
    ensures AnalysisNodes[NodeOrder[2]] == Tempo && AnalysisNodes[NodeOrder[3]] == Key
    ensures AnalysisNodes[NodeOrder[4]] == TimeSignature
  {
  }

  /** What a node returns: an object with one property named after the attribute. */
  datatype NodeOutput =
    | GenresOutput(genres: seq<string>)
    | MoodsOutput(moods: seq<string>)
    | TempoOutput(tempo: int)
    | KeyOutput(key: string)
    | TimeSignatureOutput(timeSignature: string)

  /** One node: ask the model and read the reply as the tool of the same stage
      does, except that tempo is parseInt(reply) || 0. None: the call failed, and
      nothing catches it. */
  function RunNode(ask: Oracle, metadata: AudioMetadata, stage: Stage): (out: Option<NodeOutput>)
    ensures out.Some? <==> ask(metadata, stage).Answered?
  {
    match ask(metadata, stage)
    case Unavailable => None
    case Answered(content) =>
      Some(match stage
        case Genre => GenresOutput(ParseLabels(content))
        case Mood => MoodsOutput(ParseLabels(content))
        case Tempo => TempoOutput(ParseTempoOrZero(content))
        case Key => KeyOutput(Trim(content))
        case TimeSignature => TimeSignatureOutput(Trim(content)))
  }

  /** A record's attribute for the stage, in the node's output shape. */
  function StageOutput(r: AnalysisResult, stage: Stage): NodeOutput {
    match stage
    case Genre => GenresOutput(r.genres)
    case Mood => MoodsOutput(r.moods)
    case Tempo => TempoOutput(r.tempo)
    case Key => KeyOutput(r.key)
    case TimeSignature => TimeSignatureOutput(r.timeSignature)
  }

  /** Each node reads its reply exactly as the analyzer tool of its stage, once
      the call has succeeded; tempo's parseInt(reply) || 0 agrees with the tool's
      isNaN test. */
  lemma NodeMatchesTool(ask: Oracle, metadata: AudioMetadata, stage: Stage)
    requires ask(metadata, stage).Answered?
    ensures RunNode(ask, metadata, stage) == Some(StageOutput(PerformAudioAnalysis(ask, metadata), stage))
  {
    if stage == Tempo {
      TempoReadingsAgree(ask(metadata, Tempo).content);
    }
  }

  /** Running the scheduled nodes in order; each node's output is kept under the
      node's name. None as soon as one node fails. */
  function RunNodes(ask: Oracle, metadata: AudioMetadata, nodes: map<string, Stage>, schedule: seq<string>,
                    state: map<string, NodeOutput>): (r: Option<map<string, NodeOutput>>)
    requires forall n <- schedule :: n in nodes
    ensures r.Some? <==> forall i :: 0 <= i < |schedule| ==> ask(metadata, nodes[schedule[i]]).Answered?
    ensures r.Some? ==> r.value.Keys == state.Keys + set n <- schedule
    decreases |schedule|
  {
    if schedule == [] then Some(state)
    else
      match RunNode(ask, metadata, nodes[schedule[0]])
      case None => None
      case Some(out) =>
        var r := RunNodes(ask, metadata, nodes, schedule[1..], state[schedule[0] := out]);
        assert forall i :: 1 <= i < |schedule| ==> schedule[i] == schedule[1..][i - 1];
        assert (set n <- schedule) == {schedule[0]} + set n <- schedule[1..];
        r
  }

  /** The five node outputs of a successful run of the chain, by node name. */
  function Outputs(r: AnalysisResult): map<string, NodeOutput> {
    map[GenreNode := GenresOutput(r.genres), MoodNode := MoodsOutput(r.moods),
        TempoNode := TempoOutput(r.tempo), KeyNode := KeyOutput(r.key),
        TimeSignatureNode := TimeSignatureOutput(r.timeSignature)]
  }

  /** When every node answers with r's attributes, the run keeps them by node name. */
  lemma {:induction false} ChainOutputs(ask: Oracle, metadata: AudioMetadata, r: AnalysisResult)
    requires RunNode(ask, metadata, Genre) == Some(GenresOutput(r.genres))
    requires RunNode(ask, metadata, Mood) == Some(MoodsOutput(r.moods))
    requires RunNode(ask, metadata, Tempo) == Some(TempoOutput(r.tempo))
    requires RunNode(ask, metadata, Key) == Some(KeyOutput(r.key))
    requires RunNode(ask, metadata, TimeSignature) == Some(TimeSignatureOutput(r.timeSignature))
    ensures RunNodes(ask, metadata, AnalysisNodes, NodeOrder, map[]) == Some(Outputs(r))
  {
    var s0: map<string, NodeOutput> := map[];
    var s1 := s0[GenreNode := GenresOutput(r.genres)];
    var s2 := s1[MoodNode := MoodsOutput(r.moods)];
    assert s2[TempoNode := TempoOutput(r.tempo)][KeyNode := KeyOutput(r.key)]
             [TimeSignatureNode := TimeSignatureOutput(r.timeSignature)] == Outputs(r);
    RunNodesStep(ask, metadata, NodeOrder, s0, GenresOutput(r.genres));
    RunNodesStep(ask, metadata, NodeOrder[1..], s1, MoodsOutput(r.moods));
    assert NodeOrder[1..][1..] == NodeOrder[2..];
    ChainTail(ask, metadata, r, s2);
  }

  /** The last three nodes of the chain, from any state. */
  lemma {:induction false} ChainTail(ask: Oracle, metadata: AudioMetadata, r: AnalysisResult, s2: map<string, NodeOutput>)
    requires RunNode(ask, metadata, Tempo) == Some(TempoOutput(r.tempo))
    requires RunNode(ask, metadata, Key) == Some(KeyOutput(r.key))
    requires RunNode(ask, metadata, TimeSignature) == Some(TimeSignatureOutput(r.timeSignature))
    ensures RunNodes(ask, metadata, AnalysisNodes, NodeOrder[2..], s2)
         == Some(s2[TempoNode := TempoOutput(r.tempo)][KeyNode := KeyOutput(r.key)]
                   [TimeSignatureNode := TimeSignatureOutput(r.timeSignature)])
  {
    var s3 := s2[TempoNode := TempoOutput(r.tempo)];
    var s4 := s3[KeyNode := KeyOutput(r.key)];
    RunNodesStep(ask, metadata, NodeOrder[2..], s2, TempoOutput(r.tempo));
    RunNodesStep(ask, metadata, NodeOrder[3..], s3, KeyOutput(r.key));
    RunNodesStep(ask, metadata, NodeOrder[4..], s4, TimeSignatureOutput(r.timeSignature));
    assert NodeOrder[2..][1..] == NodeOrder[3..];
    assert NodeOrder[3..][1..] == NodeOrder[4..] && NodeOrder[4..][1..] == [];
  }

  /** One node of the run, when it answers `out`. */
  lemma RunNodesStep(ask: Oracle, metadata: AudioMetadata, schedule: seq<string>, state: map<string, NodeOutput>, out: NodeOutput)
    requires schedule != [] && forall n <- schedule :: n in AnalysisNodes
    requires RunNode(ask, metadata, AnalysisNodes[schedule[0]]) == Some(out)
    ensures RunNodes(ask, metadata, AnalysisNodes, schedule, state)
         == RunNodes(ask, metadata, AnalysisNodes, schedule[1..], state[schedule[0] := out])
  {
  }

  /** Reading the run's outputs back into one record: result.genre.genres,
      result.mood.moods, result.tempo.tempo, result.key.key and
      result.time_signature.timeSignature. None: a property read on undefined,
      which throws. An output of the wrong shape under a node's name would read
      as undefined in the source rather than throw; it cannot occur, since
      RunNode stores each node's own kind of output. */
  function ReadBack(state: map<string, NodeOutput>): (r: Option<AnalysisResult>)
    ensures r.Some? <==>
      && GenreNode in state && state[GenreNode].GenresOutput?
      && MoodNode in state && state[MoodNode].MoodsOutput?
      && TempoNode in state && state[TempoNode].TempoOutput?
      && KeyNode in state && state[KeyNode].KeyOutput?
      && TimeSignatureNode in state && state[TimeSignatureNode].TimeSignatureOutput?
  {
    ReadBackFrom(state, TimeSignatureNode)
  }

  /** The read-back with the time signature looked up under `timeSignatureKey`. */
  function ReadBackFrom(state: map<string, NodeOutput>, timeSignatureKey: string): Option<AnalysisResult> {
    if && GenreNode in state && state[GenreNode].GenresOutput?
       && MoodNode in state && state[MoodNode].MoodsOutput?
       && TempoNode in state && state[TempoNode].TempoOutput?
       && KeyNode in state && state[KeyNode].KeyOutput?
       && timeSignatureKey in state && state[timeSignatureKey].TimeSignatureOutput?
    then Some(AnalysisResult(state[GenreNode].genres, state[MoodNode].moods, state[TempoNode].tempo,
                             state[KeyNode].key, state[timeSignatureKey].timeSignature))
    else None
  }

  /** The read-back as the source writes it: result.timeSignature.timeSignature,
      although the node is named "time_signature". */
  function ReadBackAsWritten(state: map<string, NodeOutput>): (r: Option<AnalysisResult>)
    ensures "timeSignature" !in state ==> r == None
    ensures r.Some? ==>
      && "timeSignature" in state && state["timeSignature"].TimeSignatureOutput?
      && r.value.timeSignature == state["timeSignature"].timeSignature
  {
    ReadBackFrom(state, "timeSignature")
  }

  /** As written, the read-back throws after every run: no node is named
      timeSignature, so result.timeSignature is undefined. */
  lemma ReadBackAsWrittenAlwaysFails(ask: Oracle, metadata: AudioMetadata)
    ensures var run := RunNodes(ask, metadata, AnalysisNodes, NodeOrder, map[]);
      run.Some? ==> ReadBackAsWritten(run.value) == None
  {
    var run := RunNodes(ask, metadata, AnalysisNodes, NodeOrder, map[]);
    if run.Some? {
      CamelCaseIsNoNode();
      ReadBackFromMissing(run.value, "timeSignature");
    }
  }

  /** No node of the chain is named timeSignature. */
  lemma CamelCaseIsNoNode()
    ensures "timeSignature" !in NodeOrder
  {
    assert forall i :: 0 <= i < |NodeOrder| ==> |NodeOrder[i]| != |"timeSignature"|;
  }

  /** With nothing under the time signature key, the read-back fails. */
  lemma ReadBackFromMissing(state: map<string, NodeOutput>, timeSignatureKey: string)
    requires timeSignatureKey !in state
    ensures ReadBackFrom(state, timeSignatureKey) == None
  {
  }

  /** A run of the chain succeeds exactly when every call does, and then reads
      back as the orchestrator's record. */
  lemma ChainRun(ask: Oracle, metadata: AudioMetadata)
    ensures var run := RunNodes(ask, metadata, AnalysisNodes, NodeOrder, map[]);
      && (run.Some? <==> forall stage :: ask(metadata, stage).Answered?)
      && (run.Some? ==> ReadBack(run.value) == Some(PerformAudioAnalysis(ask, metadata)))
  {
    if forall stage :: ask(metadata, stage).Answered? {
      ChainSucceeds(ask, metadata);
    } else {
      var stage :| !ask(metadata, stage).Answered?;
      ChainStops(ask, metadata, stage);
    }
  }

  lemma ChainSucceeds(ask: Oracle, metadata: AudioMetadata)
    requires forall stage :: ask(metadata, stage).Answered?
    ensures var run := RunNodes(ask, metadata, AnalysisNodes, NodeOrder, map[]);
      run.Some? && ReadBack(run.value) == Some(PerformAudioAnalysis(ask, metadata))
  {
    var r := PerformAudioAnalysis(ask, metadata);
    NodeMatchesTool(ask, metadata, Genre);
    NodeMatchesTool(ask, metadata, Mood);
    NodeMatchesTool(ask, metadata, Tempo);
    NodeMatchesTool(ask, metadata, Key);
    NodeMatchesTool(ask, metadata, TimeSignature);
    StageOutputs(r);
    ChainOutputs(ask, metadata, r);
    ReadBackOfOutputs(r);
  }

  lemma StageOutputs(r: AnalysisResult)
    ensures StageOutput(r, Genre) == GenresOutput(r.genres)
    ensures StageOutput(r, Mood) == MoodsOutput(r.moods)
    ensures StageOutput(r, Tempo) == TempoOutput(r.tempo)
    ensures StageOutput(r, Key) == KeyOutput(r.key)
    ensures StageOutput(r, TimeSignature) == TimeSignatureOutput(r.timeSignature)
  {
  }

  /** The read-back of the five outputs by node name is the record they hold. */
  lemma ReadBackOfOutputs(r: AnalysisResult)
    ensures ReadBack(Outputs(r)) == Some(r)
  {
  }

  lemma ChainStops(ask: Oracle, metadata: AudioMetadata, stage: Stage)
    requires ask(metadata, stage).Unavailable?
    ensures RunNodes(ask, metadata, AnalysisNodes, NodeOrder, map[]).None?
  {
    ChainNodes();
    var i := match stage case Genre => 0 case Mood => 1 case Tempo => 2 case Key => 3 case TimeSignature => 4;
    assert AnalysisNodes[NodeOrder[i]] == stage;
  }

  /** Builds the graph and runs its nodes from the entry point along the edges. */
  method RunChain(ask: Oracle, metadata: AudioMetadata) returns (run: Option<map<string, NodeOutput>>)
    ensures run == RunNodes(ask, metadata, AnalysisNodes, NodeOrder, map[])
  {
    var graph := BuildAnalysisGraph();
    var schedule := Schedule(graph.edges, graph.entryPoint.value, |graph.edges|);
    ChainSchedule();
    ChainNodes();
    run := RunNodes(ask, metadata, graph.nodes, schedule, map[]);
  }

  /** runAnalysisGraph with the time signature read from its node: it answers
      exactly when every call succeeds, and then with the orchestrator's record. */
  method RunAnalysisGraph(ask: Oracle, metadata: AudioMetadata) returns (r: Option<AnalysisResult>)
    ensures r.Some? <==> forall stage :: ask(metadata, stage).Answered?
    ensures r.Some? ==> r.value == PerformAudioAnalysis(ask, metadata)
  {
    var run := RunChain(ask, metadata);
    ChainRun(ask, metadata);
    if run.None? {
      return None;
    }
    r := ReadBack(run.value);
  }

  /** runAnalysisGraph as the source writes it, reading result.timeSignature: it
      never answers, whatever the model replies. */
  method RunAnalysisGraphAsWritten(ask: Oracle, metadata: AudioMetadata) returns (r: Option<AnalysisResult>)
    ensures r == None
  {
    var run := RunChain(ask, metadata);
    if run.None? {
      return None;
    }
    ReadBackAsWrittenAlwaysFails(ask, metadata);
    r := ReadBackAsWritten(run.value);
  }

  /** The nested records analyzeAudio returns, one per attribute. */
  datatype GenreAnalysisRecord = GenreAnalysisRecord(genres: seq<string>)
  datatype MoodAnalysisRecord = MoodAnalysisRecord(moods: seq<string>)
  datatype TempoAnalysisRecord = TempoAnalysisRecord(tempo: int)
  datatype KeyAnalysisRecord = KeyAnalysisRecord(key: string)
  datatype TimeSignatureAnalysisRecord = TimeSignatureAnalysisRecord(timeSignature: string)

  datatype NestedAnalysis = NestedAnalysis(
    genreAnalysis: GenreAnalysisRecord,
    moodAnalysis: MoodAnalysisRecord,
    tempoAnalysis: TempoAnalysisRecord,
    keyAnalysis: KeyAnalysisRecord,
    timeSignatureAnalysis: TimeSignatureAnalysisRecord)

  function Nest(r: AnalysisResult): (n: NestedAnalysis)
    ensures Flatten(n) == r
  {
    NestedAnalysis(
      GenreAnalysisRecord(r.genres), MoodAnalysisRecord(r.moods), TempoAnalysisRecord(r.tempo),
      KeyAnalysisRecord(r.key), TimeSignatureAnalysisRecord(r.timeSignature))
  }

  /** The flat record a nested analysis holds. */
  function Flatten(n: NestedAnalysis): (r: AnalysisResult)
  {
    AnalysisResult(
      n.genreAnalysis.genres, n.moodAnalysis.moods, n.tempoAnalysis.tempo,
      n.keyAnalysis.key, n.timeSignatureAnalysis.timeSignature)
  }

  /** Nesting and flattening are inverse: no attribute is lost or moved. */
  lemma NestFlatten(n: NestedAnalysis)
    ensures Nest(Flatten(n)) == n
  {
  }

  /** The upload directory: file name to contents. */
  type Uploads = map<string, seq<byte>>

  /** The metadata reader applied to the file's bytes; None when it rejects them. */
  type MetadataParser = seq<byte> -> Option<AudioMetadata>

  const AudioFileNotFound := "Audio file not found"
  const AnalysisFailed := "Failed to analyze audio"

  /** fetchAudioFileByFilename: the upload of that name, or "Audio file not found". */
  function FetchAudioFile(uploads: Uploads, filename: string): (r: Result<seq<byte>, string>)
    ensures r.Success? <==> filename in uploads
    ensures r.Success? ==> r.value == uploads[filename]
    ensures r.Failure? ==> r.error == AudioFileNotFound
  {
    if filename in uploads then Success(uploads[filename]) else Failure(AudioFileNotFound)
  }

  /** analyzeAudio: read the file, its metadata, run the graph and nest the
      result; any failure on the way, a missing file included, becomes
      "Failed to analyze audio". */
  method AnalyzeAudioFile(uploads: Uploads, parse: MetadataParser, ask: Oracle, filename: string)
    returns (r: Result<NestedAnalysis, string>)
    ensures r.Failure? ==> r.error == AnalysisFailed
    ensures filename !in uploads || parse(uploads[filename]).None? ==> r.Failure?
    ensures filename in uploads && parse(uploads[filename]).Some? ==>
      var metadata := parse(uploads[filename]).value;
      && (r.Success? <==> forall stage :: ask(metadata, stage).Answered?)
      && (r.Success? ==> r.value == Nest(PerformAudioAnalysis(ask, metadata)))
  {
    var audioFile := FetchAudioFile(uploads, filename);
    if audioFile.Failure? {
      return Failure(AnalysisFailed);
    }
    var metadata := parse(audioFile.value);
    if metadata.None? {
      return Failure(AnalysisFailed);
    }
    var analysisResult := RunAnalysisGraph(ask, metadata.value);
    if analysisResult.None? {
      return Failure(AnalysisFailed);
    }
    r := Success(Nest(analysisResult.value));
  }

  /** analyzeAudio as the source writes it, on top of the as-written graph run:
      every call ends in "Failed to analyze audio". */
  method AnalyzeAudioFileAsWritten(uploads: Uploads, parse: MetadataParser, ask: Oracle, filename: string)
    returns (r: Result<NestedAnalysis, string>)
    ensures r == Failure(AnalysisFailed)
  {
    var audioFile := FetchAudioFile(uploads, filename);
    if audioFile.Failure? {
      return Failure(AnalysisFailed);
    }
    var metadata := parse(audioFile.value);
    if metadata.None? {
      return Failure(AnalysisFailed);
    }
    var analysisResult := RunAnalysisGraphAsWritten(ask, metadata.value);
    match analysisResult
    case None => r := Failure(AnalysisFailed);
  }
}

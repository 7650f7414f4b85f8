# soundscape audio analysis, modelled in Dafny

This project models the audio-analysis core of soundscape, a Next.js application that asks a
language model about an uploaded audio file. It stores the answers per track, encodes
embedding vectors as text and serves a generated WAV file.

**The five analyzers.** Genre, mood, tempo, key and time signature each send one prompt
about the file's metadata and read the reply:
- genres and moods: split at `", "`, then each piece trimmed;
- tempo: read with `parseInt`;
- key and time signature: trimmed.

Every analyzer turns a failed call into a default: `[]`, `0` or `""`.

**The language model** is an oracle `Inference.Oracle`. It maps the metadata and the stage
asked about to a reply: either the text the model answered with, or `Unavailable`.

**The orchestrator.** `performAudioAnalysis` awaits the five analyzers in a fixed order and
gathers their answers in one record.

**The graph variant.** `analyzeAudio` and `runAnalysisGraph` build a graph of five nodes,
one per stage:
- the nodes are chained genre → mood → tempo → key → time_signature → end;
- the nodes do not catch failures, so one failed call aborts the run;
- the result is reshaped into nested records, one per attribute;
- every failure, a missing upload included, becomes "Failed to analyze audio".

**The analyze-audio route** checks the request body, runs the graph variant and upserts
the analysis, keyed by track id. The `AnalysisStore` class holds the table and updates it
in place.

**The vector utilities** encode an integer vector as `{1,2,3}` and read it back.

**The generate-audio route** lays out 16-bit mono PCM samples as a RIFF WAVE file, as
chapter 3 of the Microsoft/IBM Multimedia Programming Interface and Data Specifications 1.0
describes:
- a 44-byte header of little-endian fields, written at fixed offsets into a buffer;
- the samples copied after the header.

The buffer is an `array<byte>`, and each write is a method that modifies it.

The JavaScript and Node built-ins that the core relies on are modelled in their own modules:
- `JsString`: `trim`, `trimStart`, `trimEnd`, `split` with a string separator, `join`.
- `JsNumber`:
  - `parseInt` with the radix omitted, as in section 19.2.5 of ECMAScript 2023;
  - `Number` on integer literals;
  - `String` on integers.
- `NodeBuffer`: `Buffer.alloc`, `write`, `writeUInt16LE`, `writeInt16LE`, `writeUInt32LE`
  and `copy`.

## Model

| member | source | states |
|---|---|---|
| GenreAnalysis.AnalyzeGenre | src/lib/tools/genreAnalysis.ts:7-23 | no genres exactly when the call failed; every genre has no white space at either end |
| GenreAnalysis.GenresSplitReply | src/lib/tools/genreAnalysis.ts:18 | the genres are the pieces of the reply between occurrences of ", ", each trimmed, in order; joining the pieces with ", " gives the reply; no piece holds the separator; there is one more genre than there are separators |
| GenreAnalysis.EmptyReplyGenres | src/lib/tools/genreAnalysis.ts:18 | an empty reply gives [""], not [] |
| GenreAnalysis.CommaWithoutSpace | src/lib/tools/genreAnalysis.ts:18 | "Rock,Pop" is one genre, "Rock,Pop" |
| GenreAnalysis.TwoGenres | src/lib/tools/genreAnalysis.ts:18 | "Rock, Pop" gives ["Rock", "Pop"] |
| GenreAnalysis.ListedGenresRoundTrip | src/lib/tools/genreAnalysis.ts:18 | trimmed genres without ", ", listed with ", ", read back as themselves |
| GenreAnalysis.FailedCallGivesNoGenres | src/lib/tools/genreAnalysis.ts:19-22 | a failed call gives [] |
| MoodAnalysis.AnalyzeMood | src/lib/tools/moodAnalysis.ts:6-22 | no moods exactly when the call failed; every mood is trimmed |
| MoodAnalysis.MoodsSplitReply | src/lib/tools/moodAnalysis.ts:17 | the moods are the pieces of the reply trimmed, in order; joining the untrimmed pieces with ", " gives the reply exactly |
| MoodAnalysis.MoodsTrimIdempotent | src/lib/tools/moodAnalysis.ts:17 | trimming a mood again changes nothing |
| MoodAnalysis.BlankReplyMoods | src/lib/tools/moodAnalysis.ts:17 | an empty or all-white reply gives exactly one empty mood |
| MoodAnalysis.FailedCallGivesNoMoods | src/lib/tools/moodAnalysis.ts:18-20 | a failed call gives [] |
| TempoAnalysis.AnalyzeTempo | src/lib/tools/tempoAnalysis.ts:8-25 | a failed call gives 0; a non-zero tempo is what parseInt read from the reply |
| TempoAnalysis.DecimalReplyTempo | src/lib/tools/tempoAnalysis.ts:19-20 | a reply that is an integer in decimal gives that integer |
| TempoAnalysis.LeadingNumberTempo | src/lib/tools/tempoAnalysis.ts:19 | leading white space is skipped, a + or - sign is honoured, and text after the digits is ignored |
| TempoAnalysis.BpmSuffixTempo | src/lib/tools/tempoAnalysis.ts:19 | "120 BPM" gives 120 |
| TempoAnalysis.NoDigitsTempo | src/lib/tools/tempoAnalysis.ts:19-20 | no digit after the white space and the sign gives 0 |
| TempoAnalysis.WordsFirstTempo | src/lib/tools/tempoAnalysis.ts:19-20 | "approximately 120" gives 0 |
| TempoAnalysis.HexReplyTempo | src/lib/tools/tempoAnalysis.ts:19 | "0x1F" gives 31 |
| TempoAnalysis.BareHexPrefixTempo | src/lib/tools/tempoAnalysis.ts:19-20 | "0x" gives 0 |
| KeyAnalysis.AnalyzeKey | src/lib/tools/keyAnalysis.ts:6-22 | the key is trimmed and is a contiguous piece of the reply with only white space around it; a failed call gives "" |
| KeyAnalysis.KeyIsReplyWithoutWhite | src/lib/tools/keyAnalysis.ts:17 | whatever text lies between the reply's leading and trailing white space is the key, unchecked |
| KeyAnalysis.KeyIdempotent | src/lib/tools/keyAnalysis.ts:17 | a key the analyzer returned, given back as the reply, reads as itself |
| KeyAnalysis.BlankReplyKey | src/lib/tools/keyAnalysis.ts:17 | an all-white reply gives "" |
| TimeSignatureAnalysis.AnalyzeTimeSignature | src/lib/tools/timeSignatureAnalysis.ts:6-22 | the signature is trimmed and is a contiguous piece of the reply with only white space around it; a failed call gives "" |
| TimeSignatureAnalysis.SignatureIsReplyWithoutWhite | src/lib/tools/timeSignatureAnalysis.ts:17 | any text without white space at its ends is accepted verbatim, with no check for the n/m form |
| TimeSignatureAnalysis.PaddedSignature | src/lib/tools/timeSignatureAnalysis.ts:17 | " 3/4\n" gives "3/4" |
| TimeSignatureAnalysis.SignatureIdempotent | src/lib/tools/timeSignatureAnalysis.ts:17 | a returned signature, given back as the reply, reads as itself |
| ToolParsers.ParseLabels | src/lib/tools/genreAnalysis.ts:18 | one label per separator plus one; every label is trimmed |
| ToolParsers.LabelsArePiecesOfReply | src/lib/tools/moodAnalysis.ts:17 | the labels are the trimmed pieces of a split that joins back to the reply and whose pieces hold no separator |
| ToolParsers.ParseJoinedLabels | src/lib/tools/genreAnalysis.ts:18 | parsing trimmed, separator-free labels joined with ", " gives the labels back |
| ToolParsers.SingleLabel | src/lib/tools/genreAnalysis.ts:18 | a trimmed reply without ", " is one label, itself |
| ToolParsers.EmptyReplyLabels | src/lib/tools/moodAnalysis.ts:17 | "" parses to [""] |
| ToolParsers.AllWhiteReplyLabels | src/lib/tools/moodAnalysis.ts:17 | an all-white reply parses to [""] |
| ToolParsers.LabelsTrimIdempotent | src/lib/tools/moodAnalysis.ts:17 | trimming any label again changes nothing |
| ToolParsers.ParseTempo | src/lib/tools/tempoAnalysis.ts:19-20 | the parseInt value, or 0 when parseInt gives NaN |
| ToolParsers.ParseTempoOrZero | src/lib/analyze-audio.ts:70 | the node's parseInt reading with a falsy result replaced by 0: the parseInt value, or 0 when parseInt gives NaN |
| ToolParsers.TempoReadingsAgree | src/lib/analyze-audio.ts:70 | the node's parseInt(x) \|\| 0 equals the tool's isNaN test on every reply |
| JsString.Trim | src/lib/tools/keyAnalysis.ts:17 | the result has no white space at either end, and is a contiguous piece of the input with only white space on both sides |
| JsString.TrimStart | src/lib/tools/tempoAnalysis.ts:19 | trimStart is never longer than its input; TrimStartCutsWhite states that it cuts exactly the leading white space |
| JsString.TrimEnd | src/lib/tools/keyAnalysis.ts:17 | trimEnd is never longer than its input; TrimEndCutsWhite states that it cuts exactly the trailing white space |
| JsString.TrimStartCutsWhite | src/lib/tools/keyAnalysis.ts:17 | trimStart keeps a suffix, drops only white space, and leaves no white space in front |
| JsString.TrimEndCutsWhite | src/lib/tools/keyAnalysis.ts:17 | trimEnd keeps a prefix, drops only white space, and leaves no white space at the end |
| JsString.TrimUnique | src/lib/tools/keyAnalysis.ts:17 | trim of white + trimmed text + white is that text |
| JsString.TrimOfTrimmed | src/lib/tools/keyAnalysis.ts:17 | trimmed text is its own trim |
| JsString.TrimIdempotent | src/lib/tools/keyAnalysis.ts:17 | trim is idempotent |
| JsString.TrimAllWhite | src/lib/tools/keyAnalysis.ts:17 | white space alone trims to "" |
| JsString.TrimStartSkipsWhite | src/lib/tools/tempoAnalysis.ts:19 | white space in front does not change trimStart |
| JsString.TrimEndSkipsWhite | src/lib/tools/keyAnalysis.ts:17 | white space at the end does not change trimEnd |
| JsString.Split | src/lib/tools/genreAnalysis.ts:18 | split always gives at least one piece; SplitLength, SplitPiecesFree, SplitFirstPiece and JoinSplit state the pieces |
| JsString.Join | src/lib/vectorUtils.ts:4 | join starts with the first piece, followed by the separator when there is a second |
| JsString.JoinSplit | src/lib/tools/moodAnalysis.ts:17 | joining the pieces of a split with the separator gives the string back |
| JsString.SplitLength | src/lib/tools/genreAnalysis.ts:18 | a split has one more piece than there are separators, counted from the left without overlap |
| JsString.SplitPiecesFree | src/lib/tools/genreAnalysis.ts:18 | no piece of a split holds the separator |
| JsString.SplitFirstPiece | src/lib/tools/genreAnalysis.ts:18 | the first piece is a prefix of the string |
| JsString.SplitOfFree | src/lib/tools/genreAnalysis.ts:18 | a string without the separator splits into itself |
| JsString.SplitPrefix | src/lib/tools/genreAnalysis.ts:18 | text in which no separator starts is glued to the first piece of the rest |
| JsString.SplitJoin | src/lib/vectorUtils.ts:4-10 | splitting separator-free pieces joined with an unbordered separator gives the pieces back |
| JsNumber.DigitRun | src/lib/tools/tempoAnalysis.ts:19 | the longest prefix of digits in the radix |
| JsNumber.DecimalString | src/lib/vectorUtils.ts:4 | String(n) of an integer: a leading minus exactly when n is negative, and decimal digits after it |
| JsNumber.ParseInt | src/lib/tools/tempoAnalysis.ts:19 | parseInt answers a number only when a decimal digit follows the white space and the sign, and a negative number only after a minus sign |
| JsNumber.ToNumber | src/lib/vectorUtils.ts:11 | Number of blank text is 0, and any other text it reads as an integer ends in a decimal digit |
| JsNumber.DecimalDigits | src/lib/vectorUtils.ts:4 | String(n) of a natural number is non-empty decimal digits without a leading zero |
| JsNumber.ValueOfDecimalDigits | src/lib/vectorUtils.ts:4 | the decimal digits of n denote n |
| JsNumber.MagnitudeOfDecimal | src/lib/tools/tempoAnalysis.ts:19 | the magnitude read from decimal digits followed by a non-digit is their value |
| JsNumber.ParseIntDecimalPrefix | src/lib/tools/tempoAnalysis.ts:19 | parseInt reads white space, an optional sign and the decimal digits at the start, and ignores what follows |
| JsNumber.ParseIntDecimalString | src/lib/tools/tempoAnalysis.ts:19 | parseInt(String(n)) is n |
| JsNumber.ParseIntSignedMagnitude | src/lib/tools/tempoAnalysis.ts:19 | a sign then digits gives the magnitude, negated for "-" |
| JsNumber.ParseIntWithoutDigits | src/lib/tools/tempoAnalysis.ts:19-20 | no digit after the white space and the sign gives NaN |
| JsNumber.ParseIntSkipsWhite | src/lib/tools/tempoAnalysis.ts:19 | leading white space never changes what parseInt reads |
| JsNumber.ParseIntHexExample | src/lib/tools/tempoAnalysis.ts:19 | parseInt("0x1F") is 31 |
| JsNumber.ParseIntBareHexPrefix | src/lib/tools/tempoAnalysis.ts:19 | parseInt("0x") is NaN |
| JsNumber.ToNumberOfSignedDigits | src/lib/vectorUtils.ts:11 | Number of an optionally signed run of decimal digits is its value |
| JsNumber.ToNumberDecimalString | src/lib/vectorUtils.ts:11 | Number(String(n)) is n |
| AudioAnalysisAgent.PerformAudioAnalysis | src/lib/agents/audioAnalysisAgent.ts:15-28 | all five fields are set, each to its analyzer's answer for the same metadata |
| AudioAnalysisAgent.AllCallsFailed | src/lib/agents/audioAnalysisAgent.ts:16-20 | when every call fails the record is [], [], 0, "", "" |
| AudioAnalysisAgent.RunStages | src/lib/agents/audioAnalysisAgent.ts:16-20 | the requests are made in the given order, each about the original metadata |
| AudioAnalysisAgent.RunStagesFields | src/lib/agents/audioAnalysisAgent.ts:16-27 | after awaiting stages, each field holds its analyzer's answer if its stage ran, and is unchanged otherwise |
| AudioAnalysisAgent.SourceOrderRun | src/lib/agents/audioAnalysisAgent.ts:16-28 | the source's order asks genre, mood, tempo, key, time signature about the original metadata and fills the returned record |
| AudioAnalysisAgent.AnyOrderSameRecord | src/lib/agents/audioAnalysisAgent.ts:16-28 | awaiting the analyzers in any order against the same model gives the same record |
| AnalyzeAudio.StateGraph.constructor | src/lib/analyze-audio.ts:45-47 | a graph with no nodes, no edges and no entry point |
| AnalyzeAudio.StateGraph.AddNode | src/lib/analyze-audio.ts:49 | adds the node under its name and returns the name as the handle; nothing else changes |
| AnalyzeAudio.StateGraph.AddEdge | src/lib/analyze-audio.ts:89 | records the edge; nothing else changes |
| AnalyzeAudio.StateGraph.SetEntryPoint | src/lib/analyze-audio.ts:95 | sets the entry point; nothing else changes |
| AnalyzeAudio.BuildAnalysisGraph | src/lib/analyze-audio.ts:45-95 | the five nodes by name, the chain of edges to the end marker, and entry point genre |
| AnalyzeAudio.ChainSchedule | src/lib/analyze-audio.ts:89-95 | following the edges from the entry point visits genre, mood, tempo, key, time_signature, then ends |
| AnalyzeAudio.ChainNodes | src/lib/analyze-audio.ts:49-87 | every node of the chain exists, under the stage its name says |
| AnalyzeAudio.RunNode | src/lib/analyze-audio.ts:49-87 | a node gives an output exactly when its call succeeds |
| AnalyzeAudio.NodeMatchesTool | src/lib/analyze-audio.ts:54-86 | once its call succeeds, each node reads the reply exactly as the tool of its stage |
| AnalyzeAudio.Schedule | src/lib/analyze-audio.ts:89-97 | the visit order starts at the entry point, each next node is the successor of the one before, and the end marker is never visited |
| AnalyzeAudio.RunChain | src/lib/analyze-audio.ts:45-97 | building the graph and running it from its entry point runs the five nodes in chain order |
| AnalyzeAudio.RunNodes | src/lib/analyze-audio.ts:97 | a run succeeds exactly when every scheduled node's call does, and then keeps one output per node name |
| AnalyzeAudio.ChainOutputs | src/lib/analyze-audio.ts:97 | when every node answers, the run holds the five outputs under the node names |
| AnalyzeAudio.ReadBack | src/lib/analyze-audio.ts:99-105 | the read-back succeeds exactly when all five node outputs are present with the right shape |
| AnalyzeAudio.ReadBackAsWritten | src/lib/analyze-audio.ts:99-105 | as written: fails when nothing is stored under timeSignature, and otherwise takes the time signature from there |
| AnalyzeAudio.ReadBackAsWrittenAlwaysFails | src/lib/analyze-audio.ts:81-104 | as written, reading result.timeSignature fails after every successful run |
| AnalyzeAudio.ChainRun | src/lib/analyze-audio.ts:49-105 | a chain run succeeds exactly when every call does, and then reads back as the orchestrator's record |
| AnalyzeAudio.ChainStops | src/lib/analyze-audio.ts:49-97 | one failed call aborts the run |
| AnalyzeAudio.RunAnalysisGraph | src/lib/analyze-audio.ts:39-106 | with the time signature read from its node: an answer exactly when every call succeeds, and then the orchestrator's record |
| AnalyzeAudio.RunAnalysisGraphAsWritten | src/lib/analyze-audio.ts:39-106 | as written, reading `result.timeSignature`: never an answer, whatever the model replies |
| AnalyzeAudio.Nest | src/lib/analyze-audio.ts:16-22 | flattening the nested records gives back the record nested |
| AnalyzeAudio.NestFlatten | src/lib/analyze-audio.ts:16-22 | nesting a flattened analysis gives it back: no attribute is lost or moved |
| AnalyzeAudio.FetchAudioFile | src/lib/analyze-audio.ts:29-37 | the upload of that name, or "Audio file not found" when there is none |
| AnalyzeAudio.AnalyzeAudioFile | src/lib/analyze-audio.ts:9-27 | over the graph run with the time signature read from its node: every failure, a missing file included, is "Failed to analyze audio"; with the file and its metadata, success exactly when every call succeeds, and then the orchestrator's record nested |
| AnalyzeAudio.AnalyzeAudioFileAsWritten | src/lib/analyze-audio.ts:9-27 | as written, over the as-written graph run: every call ends in "Failed to analyze audio" |
| AnalyzeAudioRoute.Written | src/app/api/analyze-audio/route.ts:20-57 | the row written holds exactly the analysis, under the given id and track |
| AnalyzeAudioRoute.Upsert | src/app/api/analyze-audio/route.ts:17-59 | the track's row holds exactly the analysis; other tracks are untouched; an existing row keeps its id; a new row takes the next id |
| AnalyzeAudioRoute.UpsertKeepsValid | src/app/api/analyze-audio/route.ts:17-59 | the table stays keyed by track id with distinct row ids |
| AnalyzeAudioRoute.UpsertReplaces | src/app/api/analyze-audio/route.ts:19-50 | replace, not merge: writing b over a is writing b alone |
| AnalyzeAudioRoute.UpsertIdempotent | src/app/api/analyze-audio/route.ts:17-59 | saving the same analysis twice is saving it once |
| AnalyzeAudioRoute.Property | src/lib/analyze-audio.ts:16-22 | a property of the nested result is defined exactly for the five nested record names |
| AnalyzeAudioRoute.FlatReadsAsWritten | src/app/api/analyze-audio/route.ts:22-57 | as written: each flat read is defined exactly when its name is a property of the nested result |
| AnalyzeAudioRoute.FlatReadsAreUndefined | src/app/api/analyze-audio/route.ts:22-57 | as written, every value the route stores is undefined |
| AnalyzeAudioRoute.AnalysisStore.constructor | src/app/api/analyze-audio/route.ts:17 | an empty, well-formed table |
| AnalyzeAudioRoute.AnalysisStore.Save | src/app/api/analyze-audio/route.ts:17-59 | the table becomes the upsert of the old one; the returned row holds exactly the analysis |
| AnalyzeAudioRoute.AnalysisStore.Post | src/app/api/analyze-audio/route.ts:5-66 | with the corrected analysis and the nested records stored: a body that is not JSON gives 500 "Failed to analyze audio"; a falsy trackId or filename gives 400 "Track ID is required", and only that does; 500 carries "Failed to analyze audio" and leaves the table unchanged; 200 exactly when both properties are truthy, the upload exists, its metadata reads, every model call answers and the database is up, and then the table is the upsert of the old one and the answer is the saved row's id and trackId |
| AnalyzeAudioRoute.AnalysisStore.PostAsWritten | src/app/api/analyze-audio/route.ts:5-66 | over the as-written analysis, which always throws: 400 on a falsy trackId or filename, 500 "Failed to analyze audio" on every other request, and the table never changes |
| VectorUtils.Serialize | src/lib/vectorUtils.ts:3-5 | the text starts with { and ends with } |
| VectorUtils.SerializedChars | src/lib/vectorUtils.ts:4 | the text holds braces, commas, minus signs and digits only: no spaces |
| VectorUtils.InnerText | src/lib/vectorUtils.ts:4-9 | removing the braces leaves the decimal numbers joined by commas |
| VectorUtils.RemoveBraces | src/lib/vectorUtils.ts:9 | no brace is left |
| VectorUtils.BraceAnywhereIgnored | src/lib/vectorUtils.ts:9 | a brace anywhere in the text is ignored, not only at the ends |
| VectorUtils.Deserialize | src/lib/vectorUtils.ts:7-12 | one number per comma-separated piece: commas after brace removal plus one |
| VectorUtils.BlankPiecesAreZero | src/lib/vectorUtils.ts:11 | an empty or all-white piece reads as 0 |
| VectorUtils.VectorRoundTrip | src/lib/vectorUtils.ts:3-12 | every non-empty integer vector comes back from its text |
| VectorUtils.EmptyVectorDoesNotRoundTrip | src/lib/vectorUtils.ts:4-11 | the empty vector serializes to "{}" and comes back as [0] |
| VectorUtils.DeserializeVector | src/lib/vectorUtils.ts:7-12 | corrected reader: the empty vector exactly for text that holds nothing but braces, and otherwise deserializeVector's reading |
| VectorUtils.VectorRoundTripCorrected | src/lib/vectorUtils.ts:3-12 | with brace-only text read as the empty vector, every integer vector comes back |
| NodeBuffer.U16RoundTrip | src/app/api/generate-audio/route.ts:39 | an unsigned 16-bit value reads back from its two little-endian bytes |
| NodeBuffer.U32RoundTrip | src/app/api/generate-audio/route.ts:31 | an unsigned 32-bit value reads back from its four little-endian bytes |
| NodeBuffer.I16RoundTrip | src/app/api/generate-audio/route.ts:21 | a signed 16-bit value reads back from its two's complement little-endian bytes |
| NodeBuffer.Ascii | src/app/api/generate-audio/route.ts:29 | one byte per character, holding its code |
| NodeBuffer.Alloc | src/app/api/generate-audio/route.ts:25 | a fresh buffer of that size, all zero |
| NodeBuffer.WriteBytes | src/app/api/generate-audio/route.ts:29-53 | the bytes replace the buffer's bytes from the offset; every other byte is unchanged |
| NodeBuffer.WriteUInt16LE | src/app/api/generate-audio/route.ts:39 | the value's two little-endian bytes at the offset; nothing else changes |
| NodeBuffer.WriteInt16LE | src/app/api/generate-audio/route.ts:21 | the value's two's complement bytes at the offset; nothing else changes |
| NodeBuffer.WriteUInt32LE | src/app/api/generate-audio/route.ts:31 | the value's four little-endian bytes at the offset; nothing else changes |
| NodeBuffer.Write | src/app/api/generate-audio/route.ts:29 | the text's bytes at the offset; nothing else changes |
| NodeBuffer.Copy | src/app/api/generate-audio/route.ts:55 | as many source bytes as fit are copied from the start offset; the rest of the target is unchanged |
| GenerateAudio.PcmBytes | src/app/api/generate-audio/route.ts:18 | two bytes per sample |
| GenerateAudio.PcmSample | src/app/api/generate-audio/route.ts:19-22 | sample i is the int16 at bytes 2i and 2i+1 and reads back unchanged |
| GenerateAudio.PcmRoundTrip | src/app/api/generate-audio/route.ts:19-22 | the PCM bytes decode to the samples |
| GenerateAudio.EncodePcm | src/app/api/generate-audio/route.ts:18-22 | the loop leaves the buffer holding the PCM bytes of the samples |
| GenerateAudio.WavFile | src/app/api/generate-audio/route.ts:25 | the file is 44 + 2N bytes |
| GenerateAudio.WavParts | src/app/api/generate-audio/route.ts:29-55 | RIFF descriptor at 0..12, fmt chunk at 12..36, data chunk header at 36..44, the samples from 44 |
| GenerateAudio.WavLayout | src/app/api/generate-audio/route.ts:29-53 | "RIFF" at 0, "WAVE" at 8, "fmt " at 12, "data" at 36; the u32 at 4 is 36 + the data length, and the u32 at 40 is the data length |
| GenerateAudio.WavFormat | src/app/api/generate-audio/route.ts:37-49 | fmt size 16, format 1, 1 channel, rate 44100, byte rate 88200, block align 2, 16 bits per sample |
| GenerateAudio.WavHeaderConsistent | src/app/api/generate-audio/route.ts:41-49 | byte rate = rate · channels · bits / 8, and block align = channels · bits / 8 |
| GenerateAudio.WavSample | src/app/api/generate-audio/route.ts:21-55 | sample i is the int16 at byte 44 + 2i of the file |
| GenerateAudio.WavRoundTrip | src/app/api/generate-audio/route.ts:25-55 | a reader of the layout that checks the header gets the samples back |
| GenerateAudio.WriteRiffDescriptor | src/app/api/generate-audio/route.ts:29-33 | bytes 0..12 hold the RIFF descriptor, and the rest is still zero |
| GenerateAudio.WriteFmtChunk | src/app/api/generate-audio/route.ts:35-49 | bytes 12..36 hold the fmt chunk; what was written before is kept, and the rest is still zero |
| GenerateAudio.WriteDataChunkHeader | src/app/api/generate-audio/route.ts:51-53 | bytes 36..44 hold "data" and the data size; what was written before is kept |
| GenerateAudio.EncodeWav | src/app/api/generate-audio/route.ts:25-55 | the buffer holds exactly the WAV file of the samples: the header writes, then the PCM copied at 44 |
| GenerateAudio.Post | src/app/api/generate-audio/route.ts:5-71 | answers audio/wav whose body is exactly the WAV file of the samples (every header field as WavFormat states), 44 + 2 · 44100 · 5 bytes that decode to the samples |

## Left out

- The language model's prompts, the network and the LangChain client are left out. The model is an oracle from the metadata and the stage to a reply or a failure, and the same question always gets the same reply.
- Reading the upload from disk, joining its path under `public/uploads` and `music-metadata` parsing are left out. The upload directory is a map from file name to bytes, and the metadata reader is a function parameter that may reject the bytes.
- Console logging in every catch block is left out.
- Asynchronous interleaving is left out, including the last-writer-wins race between concurrent upserts of the same track.
- The sine synthesis, clamping and `Math.floor(sample * 32767)` at src/app/api/generate-audio/route.ts:12-21 are floating point and are left out. `GenerateAudio.Post` takes the int16 samples as input.
- The readable stream that wraps the WAV buffer (src/app/api/generate-audio/route.ts:58-63) is left out; the response body is the buffer's bytes.
- The generate-audio route's 500 answer (src/app/api/generate-audio/route.ts:72-75) is left out. No step of the modelled route fails for valid samples.
- JsNumber.ToNumber: models `Number` only on the empty string and optionally signed decimal integers, with white space around them. Every other form (fractions, exponents, `Infinity`, radix prefixes, NaN) is `NotInteger`.
- JsNumber.ParseInt: reads into an unbounded integer. It does not model the precision lost on very long digit strings, and -0 is 0.
- AnalyzeAudio.StateGraph.AddNode: returns the node's name as its handle, because the source passes that result to `addEdge`. What the LangGraph library returns, and how its `run` orders and merges node results, are not part of this model. `AnalyzeAudio.RunNodes` keeps each node's output under the node's name.
- The two language-model clients are one oracle here. The graph builds its own client for `llama2` at `http://localhost:11434` (src/lib/analyze-audio.ts:40-43); each tool reads `OLLAMA_BASE_URL` and `OLLAMA_MODEL` (src/lib/tools/genreAnalysis.ts:4-11). `AnalyzeAudio.ChainRun`, `AnalyzeAudio.RunAnalysisGraph` and `AnalyzeAudio.AnalyzeAudioFile` relate the graph to the orchestrator's record only when both clients give the same replies, for example when those variables are unset or name the same server and model.
- AnalyzeAudio.StateGraph.constructor: the `channels` declaration (src/lib/analyze-audio.ts:45-47) is not modelled; node outputs are kept under node names. `AnalyzeAudio.StateGraph.AddEdge` keeps one successor per node, which LangGraph does not require; every node of this graph has one.
- AnalyzeAudio.Schedule: follows at most as many edges as the graph has. A cyclic graph is therefore cut short instead of looping; the graph built here has no cycle.
- AnalyzeAudioRoute.AnalysisStore.Post: the 200 answer holds the row's `id` and `trackId` only, as an upsert without `include` returns; other columns of the database schema (the schema is not part of this model) are left out.
- AnalyzeAudioRoute.AnalysisStore.Post: the request body is either missing (not JSON) or carries string-or-absent `trackId` and `filename`. Numbers and other JSON values in those properties are not modelled. A failing database call is the parameter `storeUp`.
- AnalyzeAudioRoute.Upsert: Prisma's treatment of `undefined` values in nested writes is not modelled. The stored records hold the analysis the nested result carries; see Findings.
- NodeBuffer.Copy: requires two distinct buffers. Node's `buffer.copy` also copies within one buffer; the route copies between two (src/app/api/generate-audio/route.ts:55).
- NodeBuffer.Write: writes only ASCII text that fits in the buffer. Node's UTF-8 encoding and its truncation at the end of the buffer are not modelled; every write of the route fits.
- JsString.IsWhite: covers the ASCII white space, the Unicode space separators, the byte order mark and the line terminators that `trim` removes. The character set is fixed by the model, not read from a Unicode table.

## Findings

| source | as written | input that shows it | evidently intended | confidence | as-written member | corrected member |
|---|---|---|---|---|---|---|
| src/lib/analyze-audio.ts:81-104 | the node is added as "time_signature", but its output is read as `result.timeSignature.timeSignature` | any metadata for which all five calls answer: the run succeeds, `result.timeSignature` is undefined, and the read throws, so `analyzeAudio` fails with "Failed to analyze audio" | read `result.time_signature.timeSignature` | not executed; high | AnalyzeAudio.AnalyzeAudioFileAsWritten | AnalyzeAudio.AnalyzeAudioFile |
| src/app/api/analyze-audio/route.ts:22-57 | the route reads `analysisResult.genres`, `.moods`, `.tempo`, `.key` and `.timeSignature` | any successful analysis: `analyzeAudio` returns `{genreAnalysis: {genres}, …}` (src/lib/analyze-audio.ts:16-22), so every value the route writes is undefined | read `analysisResult.genreAnalysis.genres` and the other four nested records | not executed; high | AnalyzeAudioRoute.FlatReadsAreUndefined | AnalyzeAudioRoute.AnalysisStore.Post |
| src/lib/vectorUtils.ts:4-11 | `deserializeVector` splits the text without braces at commas and reads each piece with `Number` | `serializeVector([])` is "{}", which deserializes to [0] because `Number("")` is 0 | the empty vector reads back as [] | not executed; medium | VectorUtils.EmptyVectorDoesNotRoundTrip | VectorUtils.VectorRoundTripCorrected |

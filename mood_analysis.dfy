/**
 * analyzeMood: the genre analyzer's reading applied to the mood prompt's reply;
 * any failure of the call gives the empty list.
 */
module MoodAnalysis {
  import opened JsString
  import opened Inference
  import opened ToolParsers

  function AnalyzeMood(ask: Oracle, metadata: AudioMetadata): (moods: seq<string>)
    ensures moods == [] <==> ask(metadata, Mood).Unavailable?
    ensures forall i :: 0 <= i < |moods| ==> IsTrimmed(moods[i])
  {
    match ask(metadata, Mood)
    case Unavailable => []
    case Answered(content) => ParseLabels(content)
  }

  /** The moods are the pieces of the reply trimmed, in order, and joining the
      untrimmed pieces with ", " gives the reply back exactly. */
  lemma MoodsSplitReply(ask: Oracle, metadata: AudioMetadata, content: string)
    requires ask(metadata, Mood) == Answered(content)
    ensures var moods := AnalyzeMood(ask, metadata);
      var pieces := Split(content, LabelSeparator);
      && Join(pieces, LabelSeparator) == content
      && |moods| == |pieces|
      && forall i :: 0 <= i < |pieces| ==> moods[i] == Trim(pieces[i])
  {
    LabelsArePiecesOfReply(content);
  }

  /** Trimming a mood again changes nothing. */
  lemma MoodsTrimIdempotent(ask: Oracle, metadata: AudioMetadata)
    ensures var moods := AnalyzeMood(ask, metadata);
      forall i :: 0 <= i < |moods| ==> Trim(moods[i]) == moods[i]
  {
    var moods := AnalyzeMood(ask, metadata);
    forall i | 0 <= i < |moods| ensures Trim(moods[i]) == moods[i] {
      TrimOfTrimmed(moods[i]);
    }
  }

  /** An empty or all-white reply gives exactly one empty mood. */
  lemma BlankReplyMoods(ask: Oracle, metadata: AudioMetadata, content: string)
    requires ask(metadata, Mood) == Answered(content) && AllWhite(content)
    ensures AnalyzeMood(ask, metadata) == [""]
  {
    AllWhiteReplyLabels(content);
  }

  /** A failed call gives no moods. */
  lemma FailedCallGivesNoMoods(ask: Oracle, metadata: AudioMetadata)
    requires ask(metadata, Mood) == Unavailable
    ensures AnalyzeMood(ask, metadata) == []
  {
  }
}

/**
 * analyzeGenre: ask the model for genres and read its reply as a ", "-separated
 * list of trimmed labels; any failure of the call gives the empty list.
 */
module GenreAnalysis {
  import opened JsString
  import opened Inference
  import opened ToolParsers

  function AnalyzeGenre(ask: Oracle, metadata: AudioMetadata): (genres: seq<string>)
    ensures genres == [] <==> ask(metadata, Genre).Unavailable?
    ensures forall i :: 0 <= i < |genres| ==> IsTrimmed(genres[i])
  {
    match ask(metadata, Genre)
    case Unavailable => []
    case Answered(content) => ParseLabels(content)
  }

  /** One genre per piece of the reply between occurrences of ", ", in order:
      the pieces rebuild the reply, hold no separator, and each genre is its piece
      trimmed; there is one more genre than there are separators. */
  lemma GenresSplitReply(ask: Oracle, metadata: AudioMetadata, content: string)
    requires ask(metadata, Genre) == Answered(content)
    ensures var genres := AnalyzeGenre(ask, metadata);
      var pieces := Split(content, LabelSeparator);
      && Join(pieces, LabelSeparator) == content
      && (forall p <- pieces :: Free(p, LabelSeparator))
      && |genres| == |pieces| == CountSeparators(content, LabelSeparator) + 1
      && forall i :: 0 <= i < |pieces| ==> genres[i] == Trim(pieces[i])
  {
    LabelsArePiecesOfReply(content);
  }

  /** An empty reply gives one blank genre. */
  lemma EmptyReplyGenres(ask: Oracle, metadata: AudioMetadata)
    requires ask(metadata, Genre) == Answered("")
    ensures AnalyzeGenre(ask, metadata) == [""]
  {
    EmptyReplyLabels();
  }

  /** A comma without a following space does not separate: "Rock,Pop" is one genre. */
  lemma CommaWithoutSpace(ask: Oracle, metadata: AudioMetadata)
    requires ask(metadata, Genre) == Answered("Rock,Pop")
    ensures AnalyzeGenre(ask, metadata) == ["Rock,Pop"]
  {
    var s := "Rock,Pop";
    assert forall i :: 0 <= i < |s| - 1 ==> s[i] != ',' || s[i + 1] != ' ' by {
      assert s[5] == 'P';
    }
    FreeOfSeparator(s);
    assert IsTrimmed(s) by {
      assert s[0] == 'R' && s[|s| - 1] == 'p';
    }
    SingleLabel(s);
  }

  /** "Rock, Pop" is two genres. */
  lemma TwoGenres(ask: Oracle, metadata: AudioMetadata)
    requires ask(metadata, Genre) == Answered("Rock, Pop")
    ensures AnalyzeGenre(ask, metadata) == ["Rock", "Pop"]
  {
    var labels := ["Rock", "Pop"];
    assert Join(labels, LabelSeparator) == "Rock, Pop";
    FreeOfSeparator("Rock");
    FreeOfSeparator("Pop");
    ParseJoinedLabels(labels);
  }

  /** Genres written back as the model would list them parse to themselves. */
  lemma ListedGenresRoundTrip(ask: Oracle, metadata: AudioMetadata, genres: seq<string>)
    requires genres != []
    requires forall g <- genres :: IsTrimmed(g) && Free(g, LabelSeparator)
    requires ask(metadata, Genre) == Answered(Join(genres, LabelSeparator))
    ensures AnalyzeGenre(ask, metadata) == genres
  {
    ParseJoinedLabels(genres);
  }

  /** A failed call gives no genres. */
  lemma FailedCallGivesNoGenres(ask: Oracle, metadata: AudioMetadata)
    requires ask(metadata, Genre) == Unavailable
    ensures AnalyzeGenre(ask, metadata) == []
  {
  }
}
